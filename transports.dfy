/** The per-message decisions of `StdioTransport` (shell_mcp_server.py:718-812) and
    `SSETransport` (shell_mcp_server.py:815-1340): which lines and POST bodies reach the
    dispatcher, how replies are framed as Server-Sent Events, and how the table of open
    event streams is kept. Reading threads, the HTTP server and the heartbeat are not modelled. */
module Transports {
  import opened Wrappers
  import opened Text
  import opened Dicts
  import opened JsonValues
  import opened Executors
  import opened Sessions
  import opened Dispatcher

  /** `json.loads` (its error text on failure) and `json.dumps(.., ensure_ascii=False)`. */
  datatype Codec = Codec(loads: string -> Result<Json, string>, dumps: Json -> string)

  /** `{"jsonrpc": "2.0", "id": id, "error": {...}}`, as the transports write their own errors. */
  function TransportError(id: Json, code: int, message: string): Json {
    JObj([("jsonrpc", Version), ("id", id), ("error", JObj([("code", JInt(code)), ("message", JStr(message))]))])
  }

  // ---------------------------------------------------------------- stdio

  class StdioTransport {
    const server: Server

    constructor (server: Server)
      ensures this.server == server
    {
      this.server := server;
    }

    /** One line read from stdin: blank lines are skipped; a line that does not parse is
        answered with a parse error (-32700, id null); a parsed value that is not an object
        makes the debug line's `request.get` raise, and the outer handler drops it; otherwise
        the request is dispatched and its response, if any, is written out. */
    method HandleLine(w: World, codec: Codec, line: string) returns (out: Option<Json>)
      requires server.Valid()
      modifies server.manager, Records(server.manager.sessions)
      ensures server.Valid()
      ensures IsBlank(line) ==> out == None && server.manager.sessions == old(server.manager.sessions)
      ensures !IsBlank(line) && codec.loads(Strip(line)).Err? ==>
                out == Some(TransportError(JNull, -32700, "Parse error: " + codec.loads(Strip(line)).error))
                && server.manager.sessions == old(server.manager.sessions)
      ensures !IsBlank(line) && codec.loads(Strip(line)).Ok? ==>
                var request := codec.loads(Strip(line)).value;
                && (!request.JObj? ==> out == None && server.manager.sessions == old(server.manager.sessions))
                && (request.JObj? && Method(request.fields) == JStr("ping") && Id(request.fields).JNull? ==> out == None)
                && (request.JObj? && !(Method(request.fields) == JStr("ping") && Id(request.fields).JNull?) ==>
                      out.Some? && out.value.JObj?
                      && Get(out.value.fields, "id") == (if Id(request.fields).JNull? then None else Some(Id(request.fields))))
    {
      StripBlank(line);
      var text := Strip(line);
      if text == [] {
        return None;
      }
      var parsed := codec.loads(text);
      if parsed.Err? {
        return Some(TransportError(JNull, -32700, "Parse error: " + parsed.error));
      }
      if !parsed.value.JObj? {
        return None;
      }
      var reply := server.HandleRequest(w, parsed.value);
      out := if reply.Respond? then Some(reply.response) else None;
    }
  }

  // ---------------------------------------------------------------- event-stream framing

  /** `event: <type>\ndata: <data>\n\n`, one event of the event-stream format
      (section 9.2 of the WHATWG HTML Living Standard). */
  function SseFrame(eventType: string, data: string): string {
    "event: " + eventType + "\ndata: " + data + "\n\n"
  }

  /** The data line of an event: a dict as JSON, anything else as its `str()`. */
  function SsePayload(data: Json, codec: Codec, render: Json -> string): string {
    if data.JObj? then codec.dumps(data) else Str(data, render)
  }

  /** What `_send_sse_message` writes: a `message` event. */
  function MessageFrame(message: Json, codec: Codec, render: Json -> string): string {
    SseFrame("message", SsePayload(message, codec, render))
  }

  /** How a client reads one event made of an `event` line and a `data` line. */
  function ParseFrame(s: string): (r: Option<(string, string)>)
  {
    var eventLine := BeforeFirst(s, '\n');
    if !StartsWith(eventLine, "event: ") || |eventLine| == |s| then None
    else
      var rest := s[|eventLine| + 1..];
      var dataLine := BeforeFirst(rest, '\n');
      if !StartsWith(dataLine, "data: ") || rest[|dataLine|..] != "\n\n" then None
      else Some((eventLine[7..], dataLine[6..]))
  }

  /** An event type and data free of line breaks are read back as they were written. */
  lemma FrameRoundTrip(eventType: string, data: string)
    requires '\n' !in eventType && '\n' !in data
    ensures ParseFrame(SseFrame(eventType, data)) == Some((eventType, data))
  {
    var s := SseFrame(eventType, data);
    var eventLine := "event: " + eventType;
    var dataLine := "data: " + data;
    var rest := dataLine + "\n\n";
    FrameLines(eventType, data);
    assert StartsWith(eventLine, "event: ") && eventLine[7..] == eventType by {
      Labelled("event: ", eventType);
    }
    assert StartsWith(dataLine, "data: ") && dataLine[6..] == data by {
      Labelled("data: ", data);
    }
  }

  /** The frame splits into its event line, its data line and the blank line after them. */
  lemma FrameLines(eventType: string, data: string)
    requires '\n' !in eventType && '\n' !in data
    ensures var s := SseFrame(eventType, data);
            var eventLine := "event: " + eventType;
            var dataLine := "data: " + data;
            && BeforeFirst(s, '\n') == eventLine && |eventLine| < |s|
            && s[|eventLine| + 1..] == dataLine + "\n\n"
            && BeforeFirst(dataLine + "\n\n", '\n') == dataLine
            && (dataLine + "\n\n")[|dataLine|..] == "\n\n"
  {
    var s := SseFrame(eventType, data);
    var eventLine := "event: " + eventType;
    var dataLine := "data: " + data;
    var rest := dataLine + "\n\n";
    assert s == eventLine + ("\n" + rest);
    assert BeforeFirst(s, '\n') == eventLine by {
      assert '\n' !in eventLine by { assert '\n' !in "event: "; }
      BeforeFirstAt(eventLine, "\n" + rest);
    }
    assert BeforeFirst(rest, '\n') == dataLine by {
      assert '\n' !in dataLine by { assert '\n' !in "data: "; }
      BeforeFirstAt(dataLine, "\n\n");
    }
  }

  /** A line made of a label and a value starts with the label and holds the value after it. */
  lemma Labelled(tag: string, value: string)
    ensures StartsWith(tag + value, tag) && (tag + value)[|tag|..] == value
  {
    assert (tag + value)[..|tag|] == tag;
  }

  /** The text before the first line break of `line + tail`, when `line` has none and `tail`
      starts with one, is `line`. */
  lemma {:induction false} BeforeFirstAt(line: string, tail: string)
    requires '\n' !in line && |tail| > 0 && tail[0] == '\n'
    ensures BeforeFirst(line + tail, '\n') == line
    decreases |line|
  {
    if |line| > 0 {
      assert (line + tail)[1..] == line[1..] + tail;
      BeforeFirstAt(line[1..], tail);
    }
  }

  // ---------------------------------------------------------------- the stream table

  /** An open `text/event-stream` response, known by its identity only. */
  datatype Stream = Stream(handle: nat)

  /** What writing to a stream gives: success, one of `ConnectionError`, `OSError` or
      `RuntimeError`, or another exception, each with its text. */
  datatype WriteOutcome = Written | ConnectionFailure(text: string) | OtherFailure(text: string)

  /** The state of the connections, as the transport observes it: `_is_connection_alive`,
      the outcome of writing a frame, and whether a transport is there and not closing. */
  datatype Net = Net(alive: Stream -> bool, write: (Stream, string) -> WriteOutcome, open: Stream -> bool)

  /** An error text that `_broadcast_message` reads as a closed connection. */
  predicate ClosedText(text: string) {
    var m := Lower(text);
    Contains(m, "closing") || Contains(m, "closed") || Contains(m, "write")
  }

  /** A stream `_broadcast_message` gives up on: judged not alive, or its write failed with a
      connection error, or with another error whose text says the connection is closed. */
  predicate Dead(e: (string, Stream), net: Net, frame: string) {
    !net.alive(e.1) ||
    match net.write(e.1, frame)
    case Written => false
    case ConnectionFailure(_) => true
    case OtherFailure(text) => ClosedText(text)
  }

  /** A stream the message reached. */
  predicate Delivered(e: (string, Stream), net: Net, frame: string) {
    net.alive(e.1) && net.write(e.1, frame).Written?
  }

  /** The ids of the dead streams, in table order. */
  function DeadIds(d: Dict<Stream>, net: Net, frame: string): seq<string>
    decreases |d|
  {
    if d == [] then []
    else DeadIds(d[..|d| - 1], net, frame) + (if Dead(d[|d| - 1], net, frame) then [d[|d| - 1].0] else [])
  }

  /** The ids of the streams the message reached, in table order. */
  function DeliveredIds(d: Dict<Stream>, net: Net, frame: string): seq<string>
    decreases |d|
  {
    if d == [] then []
    else DeliveredIds(d[..|d| - 1], net, frame) + (if Delivered(d[|d| - 1], net, frame) then [d[|d| - 1].0] else [])
  }

  /** The table without its dead streams, the others in their order. */
  function Live(d: Dict<Stream>, net: Net, frame: string): Dict<Stream>
    decreases |d|
  {
    if d == [] then []
    else Live(d[..|d| - 1], net, frame) + (if Dead(d[|d| - 1], net, frame) then [] else [d[|d| - 1]])
  }

  /** The table without the entries whose ids are in `ks`. */
  function Without(d: Dict<Stream>, ks: seq<string>): Dict<Stream>
    decreases |d|
  {
    if d == [] then []
    else Without(d[..|d| - 1], ks) + (if d[|d| - 1].0 in ks then [] else [d[|d| - 1]])
  }

  /** The ids whose transport is there and not closing: the streams a reset ends with `write_eof`. */
  function OpenIds(d: Dict<Stream>, net: Net): seq<string>
    decreases |d|
  {
    if d == [] then []
    else OpenIds(d[..|d| - 1], net) + (if net.open(d[|d| - 1].1) then [d[|d| - 1].0] else [])
  }

  /** A broadcast keeps exactly the streams that are not dead. */
  lemma {:induction false} LiveMembers(d: Dict<Stream>, net: Net, frame: string)
    ensures forall e :: e in Live(d, net, frame) ==> e in d && !Dead(e, net, frame)
    ensures forall e :: e in d && !Dead(e, net, frame) ==> e in Live(d, net, frame)
    decreases |d|
  {
    if d != [] {
      var init, last := d[..|d| - 1], d[|d| - 1];
      assert d == init + [last];
      LiveMembers(init, net, frame);
    }
  }

  /** The entries left by `Without` are entries of the table. */
  lemma {:induction false} WithoutSub(d: Dict<Stream>, ks: seq<string>)
    ensures forall e :: e in Without(d, ks) ==> e in d && e.0 !in ks
    decreases |d|
  {
    if d != [] {
      var init := d[..|d| - 1];
      assert d == init + [d[|d| - 1]];
      WithoutSub(init, ks);
    }
  }

  /** Leaving out no id leaves the table as it is. */
  lemma {:induction false} WithoutNone(d: Dict<Stream>)
    ensures Without(d, []) == d
    decreases |d|
  {
    if d != [] {
      WithoutNone(d[..|d| - 1]);
      assert d == d[..|d| - 1] + [d[|d| - 1]];
    }
  }

  /** Adding an id no remaining entry has removes nothing more. */
  lemma {:induction false} WithoutNothingMore(d: Dict<Stream>, ks: seq<string>, k: string)
    requires forall e :: e in Without(d, ks) ==> e.0 != k
    ensures Without(d, ks + [k]) == Without(d, ks)
    decreases |d|
  {
    if d != [] {
      var init, last := d[..|d| - 1], d[|d| - 1];
      assert forall e :: e in Without(init, ks) ==> e in Without(d, ks);
      WithoutNothingMore(init, ks, k);
    }
  }

  /** `del d[k]` at the end of a table: the entry removed is the first one with key `k`. */
  lemma {:induction false} RemoveAppend(a: Dict<Stream>, x: (string, Stream), k: string)
    ensures Remove(a + [x], k) ==
              if k in Keys(a) then Remove(a, k) + [x] else if x.0 == k then a else a + [x]
    decreases |a|
  {
    if |a| > 0 {
      assert (a + [x])[1..] == a[1..] + [x];
      assert Keys(a) == [a[0].0] + Keys(a[1..]);
      RemoveAppend(a[1..], x, k);
    }
  }

  /** Deleting one more id from what is left is leaving out one more id. */
  lemma {:induction false} RemoveWithout(d: Dict<Stream>, ks: seq<string>, k: string)
    requires DistinctKeys(d)
    ensures Remove(Without(d, ks), k) == Without(d, ks + [k])
    decreases |d|
  {
    if d != [] {
      var init, last := d[..|d| - 1], d[|d| - 1];
      assert d == init + [last];
      assert DistinctKeys(init);
      var w := Without(init, ks);
      WithoutSub(init, ks);
      assert forall e :: e in init ==> e.0 != last.0 by {
        forall e | e in init ensures e.0 != last.0 {
          var m :| 0 <= m < |init| && init[m] == e;
          assert d[m] == e;
        }
      }
      assert Without(d, ks) == w + (if last.0 in ks then [] else [last]);
      assert Without(d, ks + [k]) == Without(init, ks + [k]) + (if last.0 in ks + [k] then [] else [last]);
      if last.0 in ks {
        assert Without(d, ks) == w && Without(d, ks + [k]) == Without(init, ks + [k]);
        RemoveWithout(init, ks, k);
      } else {
        RemoveAppend(w, last, k);
        if k in Keys(w) {
          KeysIn(w, k);
          RemoveWithout(init, ks, k);
        } else {
          KeysIn(w, k);
          WithoutNothingMore(init, ks, k);
          RemoveAbsent(w, k);
        }
      }
    }
  }

  /** One step of the clean-up loop: deleting the next id, when it is still there, is
      taking it out of the snapshot as well. */
  lemma DropStep(d: Dict<Stream>, ids: seq<string>, j: nat, table: Dict<Stream>)
    requires j < |ids| && DistinctKeys(d) && table == Without(d, ids[..j]) && DistinctKeys(table)
    ensures var next := if Get(table, ids[j]).Some? then Remove(table, ids[j]) else table;
            next == Without(d, ids[..j + 1]) && DistinctKeys(next)
  {
    assert ids[..j + 1] == ids[..j] + [ids[j]];
    RemoveWithout(d, ids[..j], ids[j]);
    RemoveGet(table, ids[j], ids[j]);
    if Get(table, ids[j]).None? {
      RemoveAbsent(table, ids[j]);
    }
  }

  /** Leaving out the dead ids leaves exactly the live streams. */
  lemma {:induction false} WithoutDead(d: Dict<Stream>, net: Net, frame: string)
    requires DistinctKeys(d)
    ensures Without(d, DeadIds(d, net, frame)) == Live(d, net, frame)
    decreases |d|
  {
    if d != [] {
      var init, last := d[..|d| - 1], d[|d| - 1];
      assert d == init + [last];
      assert DistinctKeys(init);
      WithoutDead(init, net, frame);
      var ks := DeadIds(init, net, frame);
      WithoutSub(init, ks);
      assert forall e :: e in Without(init, ks) ==> e.0 != last.0 by {
        forall e | e in Without(init, ks) ensures e.0 != last.0 {
          var m :| 0 <= m < |init| && init[m] == e;
          assert d[m] == e;
        }
      }
      DeadIdsIn(init, net, frame);
      assert Live(d, net, frame) == Live(init, net, frame) + (if Dead(last, net, frame) then [] else [last]);
      assert DeadIds(d, net, frame) == ks + (if Dead(last, net, frame) then [last.0] else []);
      if Dead(last, net, frame) {
        WithoutNothingMore(init, ks, last.0);
        assert Without(d, ks + [last.0]) == Without(init, ks + [last.0]);
      } else {
        assert last.0 !in ks by {
          forall e | e in init ensures e.0 != last.0 {
            var m :| 0 <= m < |init| && init[m] == e;
            assert d[m] == e;
          }
        }
        assert DeadIds(d, net, frame) == ks;
        assert Without(d, ks) == Without(init, ks) + [last];
      }
    }
  }

  /** A dead id is the id of an entry of the table. */
  lemma {:induction false} DeadIdsIn(d: Dict<Stream>, net: Net, frame: string)
    ensures forall k :: k in DeadIds(d, net, frame) ==> exists e :: e in d && e.0 == k && Dead(e, net, frame)
    decreases |d|
  {
    if d != [] {
      var init, last := d[..|d| - 1], d[|d| - 1];
      assert d == init + [last];
      DeadIdsIn(init, net, frame);
    }
  }

  /** No stream is both reached and dropped. */
  lemma {:induction false} DeliveredNotDead(d: Dict<Stream>, net: Net, frame: string)
    requires DistinctKeys(d)
    ensures forall k :: k in DeliveredIds(d, net, frame) ==> k !in DeadIds(d, net, frame)
    decreases |d|
  {
    if d != [] {
      var init, last := d[..|d| - 1], d[|d| - 1];
      assert d == init + [last];
      assert DistinctKeys(init);
      DeliveredNotDead(init, net, frame);
      DeliveredIdsIn(init, net, frame);
      DeadIdsIn(init, net, frame);
      assert forall e :: e in init ==> e.0 != last.0 by {
        forall e | e in init ensures e.0 != last.0 {
          var m :| 0 <= m < |init| && init[m] == e;
          assert d[m] == e;
        }
      }
    }
  }

  /** A delivered id is the id of an entry of the table. */
  lemma {:induction false} DeliveredIdsIn(d: Dict<Stream>, net: Net, frame: string)
    ensures forall k :: k in DeliveredIds(d, net, frame) ==> exists e :: e in d && e.0 == k && Delivered(e, net, frame)
    decreases |d|
  {
    if d != [] {
      var init, last := d[..|d| - 1], d[|d| - 1];
      assert d == init + [last];
      DeliveredIdsIn(init, net, frame);
    }
  }

  /** The sending loop of `_broadcast_message` over a snapshot of the table: the ids the
      frame reached and the ids of the dead streams, each in table order. */
  method ScanStreams(snapshot: Dict<Stream>, net: Net, frame: string)
    returns (delivered: seq<string>, dead: seq<string>)
    ensures delivered == DeliveredIds(snapshot, net, frame)
    ensures dead == DeadIds(snapshot, net, frame)
  {
    delivered, dead := [], [];
    var i := 0;
    while i < |snapshot|
      invariant 0 <= i <= |snapshot|
      invariant delivered == DeliveredIds(snapshot[..i], net, frame)
      invariant dead == DeadIds(snapshot[..i], net, frame)
    {
      assert snapshot[..i + 1][..i] == snapshot[..i];
      var (id, stream) := snapshot[i];
      if !net.alive(stream) {
        dead := dead + [id];
      } else {
        match net.write(stream, frame)
        case Written =>
          delivered := delivered + [id];
        case ConnectionFailure(_) =>
          dead := dead + [id];
        case OtherFailure(text) =>
          if ClosedText(text) {
            dead := dead + [id];
          }
      }
      i := i + 1;
    }
    assert snapshot[..i] == snapshot;
  }

  /** The clean-up loop of `_broadcast_message`: `del` each listed id still in the table. */
  method DropIds(table: Dict<Stream>, ids: seq<string>) returns (kept: Dict<Stream>)
    requires DistinctKeys(table)
    ensures kept == Without(table, ids) && DistinctKeys(kept)
  {
    kept := table;
    WithoutNone(table);
    assert ids[..0] == [];
    for j := 0 to |ids|
      invariant kept == Without(table, ids[..j]) && DistinctKeys(kept)
    {
      DropStep(table, ids, j, kept);
      if Get(kept, ids[j]).Some? {
        kept := Remove(kept, ids[j]);
      }
    }
    assert ids[..|ids|] == ids;
  }

  // ---------------------------------------------------------------- POST validation

  /** An HTTP reply: its status and its JSON body (none for 204, nor for a server error page). */
  datatype HttpReply = HttpReply(status: int, body: Option<Json>)

  function BadRequest(id: Json, code: int, message: string): HttpReply {
    HttpReply(400, Some(TransportError(id, code, message)))
  }

  /** The checks of `_handle_mcp_message` up to the first one that fails, with a body that is
      not a JSON object rejected as an invalid request: the decoded request, or the reply.
      A JSON content type is parsed as it is; any other body must not be blank first. */
  function Validate(contentType: string, body: string, codec: Codec): (r: Result<Dict<Json>, HttpReply>)
    ensures r.Err? ==> r.error.status == 400 && r.error.body.Some?
    ensures !GetsParsed(contentType, body) ==> r == Err(BadRequest(JNull, -32600, EmptyBody))
    ensures GetsParsed(contentType, body) && codec.loads(body).Err? ==>
              r == Err(BadRequest(JNull, -32700, "Parse error: " + codec.loads(body).error))
    ensures ParsesToNonObject(contentType, body, codec) ==> r == Err(BadRequest(JNull, -32600, NotAnObject))
    ensures GetsParsed(contentType, body) && codec.loads(body).Ok? && codec.loads(body).value.JObj? ==>
              r == CheckFields(codec.loads(body).value.fields)
    ensures r.Ok? <==> && GetsParsed(contentType, body)
                       && codec.loads(body).Ok? && codec.loads(body).value.JObj?
                       && GetOr(codec.loads(body).value.fields, "jsonrpc", JNull) == Version
                       && "method" in Keys(codec.loads(body).value.fields)
    ensures r.Ok? ==> JObj(r.value) == codec.loads(body).value
  {
    StripBlank(body);
    if !Contains(contentType, "application/json") && Strip(body) == [] then
      Err(BadRequest(JNull, -32600, EmptyBody))
    else match codec.loads(body)
      case Err(e) => Err(BadRequest(JNull, -32700, "Parse error: " + e))
      case Ok(data) =>
        if !data.JObj? then Err(BadRequest(JNull, -32600, NotAnObject))
        else CheckFields(data.fields)
  }

  const EmptyBody := "Invalid Request: 空请求体"
  const NotAnObject := "Invalid Request: 请求必须是 JSON 对象"

  /** The body is handed to the JSON parser: it is declared JSON, or it is not blank. */
  predicate GetsParsed(contentType: string, body: string) {
    Contains(contentType, "application/json") || !IsBlank(body)
  }

  const MissingVersion := "Invalid Request: 必须指定 jsonrpc: '2.0'"
  const MissingMethod := "Invalid Request: 缺少 method 字段"

  /** The `jsonrpc` and `method` checks on a decoded object, the version first; the error
      carries the request's id. */
  function CheckFields(fields: Dict<Json>): (r: Result<Dict<Json>, HttpReply>)
    ensures r.Ok? <==> GetOr(fields, "jsonrpc", JNull) == Version && "method" in Keys(fields)
    ensures r.Ok? ==> r.value == fields
    ensures r.Err? ==> r.error == BadRequest(GetOr(fields, "id", JNull), -32600,
                                             if GetOr(fields, "jsonrpc", JNull) != Version then MissingVersion else MissingMethod)
  {
    var id := GetOr(fields, "id", JNull);
    if GetOr(fields, "jsonrpc", JNull) != Version then Err(BadRequest(id, -32600, MissingVersion))
    else if "method" !in Keys(fields) then Err(BadRequest(id, -32600, MissingMethod))
    else Ok(fields)
  }

  /** The body gets past the blank check and parses to something other than an object. */
  predicate ParsesToNonObject(contentType: string, body: string, codec: Codec) {
    && GetsParsed(contentType, body)
    && codec.loads(body).Ok? && !codec.loads(body).value.JObj?
  }

  /** The same checks as the code is written: for a body that parses to something other than
      an object, the `ValueError` handler evaluates `data.get("id")` on it, and the resulting
      `AttributeError` escapes the handler, so the server answers with a bare 500. */
  function ValidateAsWritten(contentType: string, body: string, codec: Codec): (r: Result<Dict<Json>, HttpReply>)
    ensures ParsesToNonObject(contentType, body, codec) ==> r == Err(HttpReply(500, None))
    ensures !ParsesToNonObject(contentType, body, codec) ==> r == Validate(contentType, body, codec)
  {
    StripBlank(body);
    if !Contains(contentType, "application/json") && Strip(body) == [] then
      Err(BadRequest(JNull, -32600, EmptyBody))
    else match codec.loads(body)
      case Err(e) => Err(BadRequest(JNull, -32700, "Parse error: " + e))
      case Ok(data) =>
        if !data.JObj? then Err(HttpReply(500, None))
        else CheckFields(data.fields)
  }

  /** A JSON array posted as the request body gets a bare 500 as the code is written, where
      the handler's own rule (`请求必须是 JSON 对象`) calls for a 400 invalid-request reply. */
  lemma NonObjectBodyGets500(codec: Codec)
    requires codec.loads("[]") == Ok(JArr([]))
    ensures ValidateAsWritten("application/json", "[]", codec) == Err(HttpReply(500, None))
    ensures Validate("application/json", "[]", codec) == Err(BadRequest(JNull, -32600, NotAnObject))
  {
    assert Contains("application/json", "application/json");
  }

  /** The `jsonrpc` and `id` fill-in applied to a dispatcher response. */
  function Complete(response: Dict<Json>, requestId: Json): Dict<Json> {
    var r := if "jsonrpc" !in Keys(response) then Put(response, "jsonrpc", Version) else response;
    if "id" !in Keys(r) && !requestId.JNull? then Put(r, "id", requestId) else r
  }

  /** The fill-in never changes what `handle_request` returns, which already carries both. */
  lemma CompleteKeepsDispatcherResponse(response: Dict<Json>, requestId: Json)
    requires Get(response, "jsonrpc") == Some(Version)
    requires Get(response, "id") == (if requestId.JNull? then None else Some(requestId))
    ensures Complete(response, requestId) == response
  {
  }

  /** `{"jsonrpc": "2.0", "id": "reset", "result": {...}}`, the reply to a reset. */
  function ResetReply(nowSeconds: int): Json {
    JObj([("jsonrpc", Version), ("id", JStr("reset")),
          ("result", JObj([("status", JStr("reset")), ("message", JStr("连接状态已重置")), ("timestamp", JInt(nowSeconds))]))])
  }

  // ---------------------------------------------------------------- the SSE transport

  class SseTransport {
    const server: Server
    var streams: Dict<Stream>

    predicate Valid()
      reads this, server.manager
    {
      DistinctKeys(streams) && server.Valid()
    }

    constructor (server: Server)
      requires server.Valid()
      ensures Valid() && this.server == server && streams == []
    {
      this.server := server;
      streams := [];
    }

    /** `_broadcast_message`: try every stream of a snapshot of the table, then delete the
        dead ones. Returns the ids reached and the ids dropped. */
    method Broadcast(net: Net, message: Json, codec: Codec, render: Json -> string)
      returns (delivered: seq<string>, dead: seq<string>)
      requires Valid()
      modifies this
      ensures Valid()
      ensures var frame := MessageFrame(message, codec, render);
              && delivered == DeliveredIds(old(streams), net, frame)
              && dead == DeadIds(old(streams), net, frame)
              && streams == Live(old(streams), net, frame)
      ensures old(streams) == [] ==> delivered == [] && dead == [] && streams == []
    {
      if streams == [] {
        return [], [];
      }
      var frame := MessageFrame(message, codec, render);
      ghost var snapshot := streams;
      delivered, dead := ScanStreams(streams, net, frame);
      streams := DropIds(streams, dead);
      WithoutDead(snapshot, net, frame);
    }

    /** `_handle_reset_connection`: end every stream whose transport is still open, then empty
        the table. Returns the ids ended and the reply. */
    method Reset(net: Net, nowSeconds: int) returns (ended: seq<string>, reply: Json)
      requires Valid()
      modifies this
      ensures Valid() && streams == []
      ensures ended == OpenIds(old(streams), net)
      ensures reply == ResetReply(nowSeconds)
    {
      ended := [];
      var i := 0;
      while i < |streams|
        invariant 0 <= i <= |streams|
        invariant ended == OpenIds(streams[..i], net)
      {
        assert streams[..i + 1][..i] == streams[..i];
        if net.open(streams[i].1) {
          ended := ended + [streams[i].0];
        }
        i := i + 1;
      }
      assert streams[..i] == streams;
      streams := [];
      reply := ResetReply(nowSeconds);
    }

    /** `_handle_mcp_message`: validate the body, then answer the request it holds. */
    method HandlePost(w: World, net: Net, codec: Codec, contentType: string, body: string)
      returns (reply: HttpReply)
      requires Valid()
      modifies this, server.manager, Records(server.manager.sessions)
      ensures Valid()
      ensures Validate(contentType, body, codec).Err? ==>
                reply == Validate(contentType, body, codec).error
                && streams == old(streams) && server.manager.sessions == old(server.manager.sessions)
      ensures Validate(contentType, body, codec).Ok? ==>
                var fields := Validate(contentType, body, codec).value;
                && (Method(fields) == JStr("ping") && Id(fields).JNull? ==> reply == HttpReply(204, None) && streams == old(streams))
                && (!(Method(fields) == JStr("ping") && Id(fields).JNull?) ==>
                      reply.status == 200 && reply.body.Some? && reply.body.value.JObj?
                      && Get(reply.body.value.fields, "id") == (if Id(fields).JNull? then None else Some(Id(fields)))
                      && streams == Live(old(streams), net, MessageFrame(reply.body.value, codec, w.render)))
    {
      var checked := Validate(contentType, body, codec);
      if checked.Err? {
        return checked.error;
      }
      reply := Answer(w, net, codec, checked.value);
    }

    /** The rest of `_handle_mcp_message` for a validated request: dispatch it and answer 204
        when there is no response. */
    method Answer(w: World, net: Net, codec: Codec, fields: Dict<Json>) returns (reply: HttpReply)
      requires Valid()
      modifies this, server.manager, Records(server.manager.sessions)
      ensures Valid()
      ensures Method(fields) == JStr("ping") && Id(fields).JNull? ==> reply == HttpReply(204, None) && streams == old(streams)
      ensures !(Method(fields) == JStr("ping") && Id(fields).JNull?) ==>
                reply.status == 200 && reply.body.Some? && reply.body.value.JObj?
                && Get(reply.body.value.fields, "id") == (if Id(fields).JNull? then None else Some(Id(fields)))
                && streams == Live(old(streams), net, MessageFrame(reply.body.value, codec, w.render))
    {
      var r := server.HandleRequest(w, JObj(fields));
      if r.NoReply? {
        return HttpReply(204, None);
      }
      assert r.Respond?;
      reply := Publish(w, net, codec, r.response.fields, Id(fields));
    }

    /** A response of the dispatcher: fill in `jsonrpc` and `id`, broadcast it to the open
        streams and return it with status 200. */
    method Publish(w: World, net: Net, codec: Codec, response: Dict<Json>, id: Json) returns (reply: HttpReply)
      requires Valid()
      requires Get(response, "jsonrpc") == Some(Version)
      requires Get(response, "id") == (if id.JNull? then None else Some(id))
      modifies this
      ensures Valid()
      ensures reply == HttpReply(200, Some(JObj(response)))
      ensures streams == Live(old(streams), net, MessageFrame(JObj(response), codec, w.render))
    {
      CompleteKeepsDispatcherResponse(response, id);
      var completed := JObj(Complete(response, id));
      var _, _ := Broadcast(net, completed, codec, w.render);
      reply := HttpReply(200, Some(completed));
    }
  }
}
