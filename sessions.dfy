/** `SessionManager` (shell_mcp_server.py:226-268): session records keyed by session id,
    evicted once idle for longer than the timeout. The lock around `get_session` only
    serialises callers, so each call is modelled as one sequential update. */
module Sessions {
  import opened Wrappers
  import opened Dicts
  import opened JsonValues

  /** A connected paramiko client, known by its identity only. */
  datatype SshClient = SshClient(handle: nat)

  /** One session record: the host and username it was created with, its SSH client,
      its timestamps and the environment variables set in it for local commands. */
  class Session {
    var host: Json
    var username: Json
    var sshClient: Option<SshClient>
    var created: real
    var lastUsed: real
    var localEnv: Dict<Json>

    /** The record `get_session` creates for an unknown id. */
    constructor (host: Json, username: Json, now: real)
      ensures this.host == host && this.username == username
      ensures sshClient == None && created == now && lastUsed == now && localEnv == []
    {
      this.host := host;
      this.username := username;
      sshClient := None;
      created := now;
      lastUsed := now;
      localEnv := [];
    }
  }

  /** The records held in `d`. */
  function Records(d: Dict<Session>): set<Session> {
    set e | e in d :: e.1
  }

  /** The record stored under `id`, as a frame. */
  function RecordsUnder(d: Dict<Session>, id: string): set<Session> {
    set e | e in d && e.0 == id :: e.1
  }

  /** An entry idle for strictly longer than the timeout. */
  predicate Expired(e: (string, Session), now: real, timeout: int)
    reads e.1
  {
    now - e.1.lastUsed > timeout as real
  }

  /** The ids of the expired entries, in table order. */
  function ExpiredKeys(d: Dict<Session>, now: real, timeout: int): seq<string>
    reads Records(d)
    decreases |d|
  {
    if d == [] then []
    else
      var last := d[|d| - 1];
      assert last in d;
      ExpiredKeys(d[..|d| - 1], now, timeout) + (if Expired(last, now, timeout) then [last.0] else [])
  }

  /** The table with every expired entry taken out, the others in their order. */
  function Evict(d: Dict<Session>, now: real, timeout: int): Dict<Session>
    reads Records(d)
    decreases |d|
  {
    if d == [] then []
    else
      var last := d[|d| - 1];
      assert last in d;
      Evict(d[..|d| - 1], now, timeout) + (if Expired(last, now, timeout) then [] else [last])
  }

  /** `del d[k]` for each key of `ks` in turn. */
  function RemoveAll(d: Dict<Session>, ks: seq<string>): Dict<Session>
    decreases |ks|
  {
    if ks == [] then d else Remove(RemoveAll(d, ks[..|ks| - 1]), ks[|ks| - 1])
  }

  /** The SSH client of the record under `k`, if there is one: what `_cleanup_session` closes. */
  function ClientOf(d: Dict<Session>, k: string): seq<SshClient>
    reads Records(d)
  {
    match Get(d, k)
    case None => []
    case Some(s) => if s.sshClient.Some? then [s.sshClient.value] else []
  }

  /** The clients closed when the records under `ks` are cleaned up in turn. */
  function ClientsOf(d: Dict<Session>, ks: seq<string>): seq<SshClient>
    reads Records(d)
    decreases |ks|
  {
    if ks == [] then [] else ClientsOf(d, ks[..|ks| - 1]) + ClientOf(d, ks[|ks| - 1])
  }

  predicate Distinct(ks: seq<string>) {
    forall i, j :: 0 <= i < j < |ks| ==> ks[i] != ks[j]
  }

  /** A record is stored under one id only. */
  predicate OneIdPerRecord(d: Dict<Session>) {
    forall e1, e2 :: e1 in d && e2 in d && e1.1 == e2.1 ==> e1.0 == e2.0
  }

  /** The expired ids are ids of the table, each once. */
  lemma {:induction false} ExpiredKeysSpec(d: Dict<Session>, now: real, timeout: int)
    requires DistinctKeys(d)
    ensures forall k :: k in ExpiredKeys(d, now, timeout) ==> k in Keys(d)
    ensures Distinct(ExpiredKeys(d, now, timeout))
    decreases |d|
  {
    if d != [] {
      var init, last := d[..|d| - 1], d[|d| - 1];
      ExpiredKeysSpec(init, now, timeout);
      assert forall k :: k in Keys(init) ==> k in Keys(d) by {
        forall k | k in Keys(init) ensures k in Keys(d) {
          var i :| 0 <= i < |init| && Keys(init)[i] == k;
          assert Keys(d)[i] == k;
        }
      }
      assert last.0 !in Keys(init) by {
        forall i | 0 <= i < |init| ensures Keys(init)[i] != last.0 {
          assert init[i] == d[i];
        }
      }
      assert Keys(d)[|d| - 1] == last.0;
    }
  }

  /** Eviction keeps exactly the entries that have not expired. */
  lemma {:induction false} EvictMembers(d: Dict<Session>, now: real, timeout: int)
    ensures forall e :: e in Evict(d, now, timeout) ==> e in d && !Expired(e, now, timeout)
    ensures forall e :: e in d && !Expired(e, now, timeout) ==> e in Evict(d, now, timeout)
    decreases |d|
  {
    if d != [] {
      var init, last := d[..|d| - 1], d[|d| - 1];
      assert d == init + [last];
      EvictMembers(init, now, timeout);
    }
  }

  /** Eviction keeps the ids distinct and every record under one id. */
  lemma {:induction false} EvictValid(d: Dict<Session>, now: real, timeout: int)
    requires DistinctKeys(d) && OneIdPerRecord(d)
    ensures DistinctKeys(Evict(d, now, timeout)) && OneIdPerRecord(Evict(d, now, timeout))
    decreases |d|
  {
    var kept := Evict(d, now, timeout);
    assert OneIdPerRecord(kept) by {
      EvictMembers(d, now, timeout);
      OneIdPerRecordSub(d, kept);
    }
    if d != [] {
      var init, last := d[..|d| - 1], d[|d| - 1];
      assert DistinctKeys(init) && OneIdPerRecord(init) by {
        assert forall i :: 0 <= i < |init| ==> init[i] == d[i];
        OneIdPerRecordSub(d, init);
      }
      EvictValid(init, now, timeout);
      var kept' := Evict(init, now, timeout);
      if !Expired(last, now, timeout) {
        assert kept == kept' + [last];
        assert forall e :: e in kept' ==> e.0 != last.0 by {
          EvictMembers(init, now, timeout);
          forall e | e in kept' ensures e.0 != last.0 {
            var m :| 0 <= m < |init| && init[m] == e;
            assert d[m] == e;
          }
        }
        AppendDistinct(kept', last);
      }
    }
  }

  /** Appending an entry whose id the table lacks keeps the ids distinct. */
  lemma AppendDistinct<V>(d: Dict<V>, e: (string, V))
    requires DistinctKeys(d) && forall x :: x in d ==> x.0 != e.0
    ensures DistinctKeys(d + [e])
  {
    var d' := d + [e];
    forall a, b | 0 <= a < b < |d'| ensures d'[a].0 != d'[b].0 {
      assert d'[a] == d[a] && d[a] in d;
    }
  }

  /** Deleting ids one by one keeps the ids distinct and keeps only entries the table had. */
  lemma {:induction false} RemoveAllValid(d: Dict<Session>, ks: seq<string>)
    requires DistinctKeys(d)
    ensures DistinctKeys(RemoveAll(d, ks))
    ensures forall e :: e in RemoveAll(d, ks) ==> e in d
    decreases |ks|
  {
    if ks != [] {
      RemoveAllValid(d, ks[..|ks| - 1]);
      RemoveGet(RemoveAll(d, ks[..|ks| - 1]), ks[|ks| - 1], ks[|ks| - 1]);
    }
  }

  /** After deleting the ids of `ks`, those ids are absent and every other id reads as before. */
  lemma {:induction false} RemoveAllGet(d: Dict<Session>, ks: seq<string>, k: string)
    requires DistinctKeys(d)
    ensures Get(RemoveAll(d, ks), k) == if k in ks then None else Get(d, k)
    decreases |ks|
  {
    if ks != [] {
      var init, last := ks[..|ks| - 1], ks[|ks| - 1];
      assert ks == init + [last];
      assert k in ks <==> k in init || k == last;
      RemoveAllGet(d, init, k);
      RemoveAllValid(d, init);
      RemoveGet(RemoveAll(d, init), last, k);
    }
  }

  /** Cleaning up one more id of `ks` deletes its record and closes its client. */
  lemma PrefixStep(d: Dict<Session>, ks: seq<string>, j: nat)
    requires j < |ks|
    ensures RemoveAll(d, ks[..j + 1]) == Remove(RemoveAll(d, ks[..j]), ks[j])
    ensures ClientsOf(d, ks[..j + 1]) == ClientsOf(d, ks[..j]) + ClientOf(d, ks[j])
  {
    assert ks[..j + 1][..j] == ks[..j];
  }

  /** Looking up in a dict with one more entry at the end. */
  lemma {:induction false} GetAppend<V>(d: Dict<V>, e: (string, V), k: string)
    ensures Get(d + [e], k) == if k in Keys(d) then Get(d, k) else if k == e.0 then Some(e.1) else None
    decreases |d|
  {
    if |d| > 0 {
      assert (d + [e])[1..] == d[1..] + [e];
      GetAppend(d[1..], e, k);
    }
  }

  /** Deleting the expired ids one by one leaves exactly the evicted table. */
  lemma {:induction false} RemoveAllOrder(d: Dict<Session>, ks: seq<string>, now: real, timeout: int)
    requires DistinctKeys(d) && OneIdPerRecord(d) && ks == ExpiredKeys(d, now, timeout)
    ensures RemoveAll(d, ks) == Evict(d, now, timeout)
    decreases |d|
  {
    if d != [] {
      var init, last := d[..|d| - 1], d[|d| - 1];
      assert d == init + [last];
      var ks' := ExpiredKeys(init, now, timeout);
      RemoveAllOrder(init, ks', now, timeout);
      ExpiredKeysSpec(init, now, timeout);
      assert last.0 !in Keys(init) by {
        forall i | 0 <= i < |init| ensures Keys(init)[i] != last.0 {
          assert init[i] == d[i];
        }
      }
      RemoveAllAppend(init, last, ks');
      if Expired(last, now, timeout) {
        assert ks == ks' + [last.0];
        assert ks[..|ks| - 1] == ks';
        RemoveAllGet(init, ks', last.0);
        RemoveAbsentLast(RemoveAll(init, ks'), last);
      } else {
        assert ks == ks';
      }
    }
  }

  /** Deleting keys that are not the last entry's leaves that entry at the end. */
  lemma {:induction false} RemoveAllAppend(d: Dict<Session>, e: (string, Session), ks: seq<string>)
    requires e.0 !in ks
    ensures RemoveAll(d + [e], ks) == RemoveAll(d, ks) + [e]
    decreases |ks|
  {
    if ks != [] {
      RemoveAllAppend(d, e, ks[..|ks| - 1]);
      RemoveBeforeLast(RemoveAll(d, ks[..|ks| - 1]), e, ks[|ks| - 1]);
    }
  }

  lemma {:induction false} RemoveBeforeLast<V>(d: Dict<V>, e: (string, V), k: string)
    requires e.0 != k
    ensures Remove(d + [e], k) == Remove(d, k) + [e]
    decreases |d|
  {
    if |d| == 0 {
    } else if d[0].0 == k {
      assert (d + [e])[1..] == d[1..] + [e];
    } else {
      assert (d + [e])[1..] == d[1..] + [e];
      RemoveBeforeLast(d[1..], e, k);
    }
  }

  lemma {:induction false} RemoveAbsentLast<V>(d: Dict<V>, e: (string, V))
    requires e.0 !in Keys(d)
    ensures Remove(d + [e], e.0) == d
    decreases |d|
  {
    if |d| > 0 {
      assert (d + [e])[1..] == d[1..] + [e];
      assert Keys(d[1..]) == Keys(d)[1..];
      RemoveAbsentLast(d[1..], e);
    }
  }

  /** The session table. */
  class SessionManager {
    var sessions: Dict<Session>
    var timeout: int

    /** Ids are distinct and no record is shared between two ids. */
    predicate Valid()
      reads this
    {
      DistinctKeys(sessions) && OneIdPerRecord(sessions)
    }

    /** An empty table with the given idle timeout in seconds (1200 unless configured). */
    constructor (timeout: int)
      ensures Valid() && sessions == [] && this.timeout == timeout
    {
      sessions := [];
      this.timeout := timeout;
    }

    /** `_cleanup_session`: drop the record under `id` if there is one, returning the SSH
        client that gets closed, if it has one (close errors are ignored). */
    method CleanupSession(id: string) returns (closed: seq<SshClient>)
      requires Valid()
      modifies this
      ensures Valid() && timeout == old(timeout)
      ensures sessions == Remove(old(sessions), id)
      ensures closed == old(ClientOf(sessions, id))
    {
      closed := [];
      var found := Get(sessions, id);
      if found.Some? {
        if found.value.sshClient.Some? {
          closed := [found.value.sshClient.value];
        }
        assert DistinctKeys(Remove(sessions, id)) && OneIdPerRecord(Remove(sessions, id)) by {
          RemoveGet(sessions, id, id);
          OneIdPerRecordSub(sessions, Remove(sessions, id));
        }
        sessions := Remove(sessions, id);
      } else {
        RemoveAbsent(sessions, id);
      }
    }

    /** The first loop of `get_session`: the ids of the records idle for strictly longer
        than the timeout, in table order. */
    method CollectExpired(now: real) returns (expired: seq<string>)
      ensures expired == ExpiredKeys(sessions, now, timeout)
    {
      expired := [];
      var i := 0;
      while i < |sessions|
        invariant 0 <= i <= |sessions|
        invariant expired == ExpiredKeys(sessions[..i], now, timeout)
      {
        assert sessions[..i + 1][..i] == sessions[..i];
        assert sessions[..i + 1][i] == sessions[i];
        if now - sessions[i].1.lastUsed > timeout as real {
          expired := expired + [sessions[i].0];
        }
        i := i + 1;
      }
      assert sessions[..i] == sessions;
    }

    /** The second loop of `get_session`: clean up the records under `ks` in turn. */
    method CleanupAll(ks: seq<string>) returns (closed: seq<SshClient>)
      requires Valid() && Distinct(ks)
      modifies this
      ensures Valid() && timeout == old(timeout)
      ensures sessions == RemoveAll(old(sessions), ks)
      ensures closed == old(ClientsOf(sessions, ks))
    {
      ghost var snap := sessions;
      closed := [];
      var j := 0;
      while j < |ks|
        invariant 0 <= j <= |ks|
        invariant sessions == RemoveAll(snap, ks[..j]) && timeout == old(timeout)
        invariant Valid()
        invariant unchanged(Records(snap))
        invariant closed == ClientsOf(snap, ks[..j])
      {
        ghost var next := ClientsOf(snap, ks[..j + 1]);
        assert next == closed + ClientOf(sessions, ks[j]) by {
          assert ks[j] !in ks[..j];
          RemoveAllGet(snap, ks[..j], ks[j]);
          PrefixStep(snap, ks, j);
        }
        var c := CleanupSession(ks[j]);
        assert ClientsOf(snap, ks[..j + 1]) == next;
        closed := closed + c;
        assert sessions == RemoveAll(snap, ks[..j + 1]) by { PrefixStep(snap, ks, j); }
        j := j + 1;
      }
      assert ks[..j] == ks;
      assert ClientsOf(snap, ks) == old(ClientsOf(sessions, ks));
    }

    /** The eviction half of `get_session`: the expired ids are collected first, then
        cleaned up one by one. */
    method EvictExpired(now: real) returns (evicted: seq<string>, closed: seq<SshClient>)
      requires Valid()
      modifies this
      ensures Valid() && timeout == old(timeout)
      ensures evicted == old(ExpiredKeys(sessions, now, timeout)) && Distinct(evicted)
      ensures closed == old(ClientsOf(sessions, ExpiredKeys(sessions, now, timeout)))
      ensures sessions == old(Evict(sessions, now, timeout))
    {
      ghost var snap := sessions;
      ghost var expired := ExpiredKeys(snap, now, timeout);
      ghost var clients := ClientsOf(snap, expired);
      ghost var kept := Evict(snap, now, timeout);
      ExpiredKeysSpec(snap, now, timeout);
      RemoveAllOrder(snap, expired, now, timeout);
      evicted := CollectExpired(now);
      assert unchanged(Records(snap)) && sessions == snap;
      assert evicted == expired;
      assert clients == ClientsOf(sessions, evicted);
      closed := CleanupAll(evicted);
      assert closed == clients;
      assert sessions == kept;
    }

    /** `get_session`: evict every record idle for strictly longer than the timeout (in table
        order, closing their SSH clients), then refresh the record under `id` or create it.
        The returned record is the one now stored under `id`. */
    method GetSession(id: string, host: Json, username: Json, now: real)
      returns (s: Session, evicted: seq<string>, closed: seq<SshClient>)
      requires Valid()
      modifies this, RecordsUnder(sessions, id)
      ensures Valid() && timeout == old(timeout)
      ensures evicted == old(ExpiredKeys(sessions, now, timeout)) && Distinct(evicted)
      ensures closed == old(ClientsOf(sessions, ExpiredKeys(sessions, now, timeout)))
      ensures Get(sessions, id) == Some(s)
      ensures var kept := old(Evict(sessions, now, timeout));
              if id in Keys(kept) then
                && sessions == kept
                && old(allocated(s))
                && s.lastUsed == now
                && s.host == old(s.host) && s.username == old(s.username)
                && s.sshClient == old(s.sshClient) && s.created == old(s.created)
                && s.localEnv == old(s.localEnv)
              else
                && sessions == kept + [(id, s)]
                && fresh(s)
                && s.host == host && s.username == username && s.sshClient == None
                && s.created == now && s.lastUsed == now && s.localEnv == []
    {
      ghost var snap := sessions;
      EvictMembers(snap, now, timeout);
      evicted, closed := EvictExpired(now);
      var found := Get(sessions, id);
      if found.Some? {
        s := found.value;
        assert (id, s) in snap;
        s.lastUsed := now;
      } else {
        s := CreateSession(id, host, username, now);
      }
    }

    /** The creating branch of `get_session`: a fresh record stored under a new id. */
    method CreateSession(id: string, host: Json, username: Json, now: real) returns (s: Session)
      requires Valid() && id !in Keys(sessions)
      modifies this
      ensures Valid() && timeout == old(timeout)
      ensures sessions == old(sessions) + [(id, s)] && Get(sessions, id) == Some(s)
      ensures fresh(s)
      ensures s.host == host && s.username == username && s.sshClient == None
      ensures s.created == now && s.lastUsed == now && s.localEnv == []
    {
      s := new Session(host, username, now);
      GetAppend(sessions, (id, s), id);
      AppendValid(sessions, (id, s));
      sessions := sessions + [(id, s)];
    }
  }

  /** Adding an entry with a new id and a new record keeps the table well formed. */
  lemma AppendValid(d: Dict<Session>, e: (string, Session))
    requires DistinctKeys(d) && OneIdPerRecord(d)
    requires e.0 !in Keys(d) && e.1 !in Records(d)
    ensures DistinctKeys(d + [e]) && OneIdPerRecord(d + [e])
  {
    var d' := d + [e];
    KeysIn(d, e.0);
    forall a, b | 0 <= a < b < |d'| ensures d'[a].0 != d'[b].0 {
      if b == |d'| - 1 {
        assert d'[a] in d;
      } else {
        assert d'[a] == d[a] && d'[b] == d[b];
      }
    }
  }

  /** A table whose entries all come from a table with one id per record has one id per record. */
  lemma OneIdPerRecordSub(d: Dict<Session>, sub: Dict<Session>)
    requires OneIdPerRecord(d) && forall e :: e in sub ==> e in d
    ensures OneIdPerRecord(sub)
  {
  }
}
