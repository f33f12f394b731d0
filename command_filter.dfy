/** `CommandFilter` (shell_mcp_server.py:93-223): normalising a command, spotting `rm`
    deletions that need confirmation, and the ordered blacklist / whitelist decision.
    The regular-expression library is left uninterpreted: see `Engine`. */
module CommandFilter {
  import opened Wrappers
  import opened Text

  /** Python's `re`, uninterpreted: whether a pattern compiles, `re.compile(p).match(s)`
      (a match at the start of `s`) and `re.compile(p).search(s)` (a match anywhere in `s`). */
  datatype Engine = Engine(
    compiles: string -> bool,
    matchStart: (string, string) -> bool,
    search: (string, string) -> bool)

  /** The `command_filter` section of the configuration. */
  datatype FilterConfig = FilterConfig(whitelist: seq<string>, blacklist: seq<string>)

  /** A constructed filter: the raw pattern lists, the whitelist switch and the
      patterns that compiled (the `(pattern, regex)` rules), in declared order. */
  datatype Filter = Filter(
    whitelistPatterns: seq<string>,
    blacklistPatterns: seq<string>,
    whitelistEnabled: bool,
    whitelistRules: seq<string>,
    blacklistRules: seq<string>)

  /** `(allowed, reason, matched_rule)` as `is_allowed` returns it. */
  datatype Decision = Decision(allowed: bool, reason: string, matchedRule: Option<string>)

  const DeletionCategory := "删除命令"
  const HelpFlags := ["--help", "--version", "-h", "-v", "--usage"]
  const BlacklistDenied := "命令被黑名单规则拒绝: "
  const WhitelistPassed := "命令通过白名单检查"
  const NotInWhitelist := "命令不在白名单中"
  const FilterPassed := "命令通过过滤检查"

  // ---------------------------------------------------------------- construction

  /** The patterns of `ps` that compile, in their order. */
  function Compilable(e: Engine, ps: seq<string>): seq<string>
    decreases |ps|
  {
    if ps == [] then []
    else Compilable(e, ps[..|ps| - 1]) + (if e.compiles(ps[|ps| - 1]) then [ps[|ps| - 1]] else [])
  }

  /** A rule list holds exactly the patterns that compile. */
  lemma {:induction false} CompilableMembers(e: Engine, ps: seq<string>)
    ensures forall p :: p in Compilable(e, ps) <==> p in ps && e.compiles(p)
    decreases |ps|
  {
    if ps != [] {
      var init, last := ps[..|ps| - 1], ps[|ps| - 1];
      assert ps == init + [last];
      CompilableMembers(e, init);
      forall p ensures p in Compilable(e, ps) <==> p in ps && e.compiles(p) {
        assert p in ps <==> p in init || p == last;
      }
    }
  }

  /** Compiling a concatenation is concatenating the compiled parts, so the rules keep
      the declared order of their patterns. */
  lemma {:induction false} CompilableAppend(e: Engine, a: seq<string>, b: seq<string>)
    ensures Compilable(e, a + b) == Compilable(e, a) + Compilable(e, b)
    decreases |b|
  {
    if b == [] {
      assert a + b == a;
    } else {
      var init := b[..|b| - 1];
      assert (a + b)[..|a + b| - 1] == a + init;
      CompilableAppend(e, a, init);
    }
  }

  /** When every pattern compiles nothing is dropped; when none does the rule list is empty. */
  lemma {:induction false} CompilableExtremes(e: Engine, ps: seq<string>)
    ensures (forall p :: p in ps ==> e.compiles(p)) ==> Compilable(e, ps) == ps
    ensures (forall p :: p in ps ==> !e.compiles(p)) ==> Compilable(e, ps) == []
    decreases |ps|
  {
    if ps != [] {
      assert ps == ps[..|ps| - 1] + [ps[|ps| - 1]];
      CompilableExtremes(e, ps[..|ps| - 1]);
    }
  }

  /** One loop of `__init__`: try to compile each pattern and keep those that compile. */
  method CompileRules(e: Engine, patterns: seq<string>) returns (rules: seq<string>)
    ensures rules == Compilable(e, patterns)
  {
    rules := [];
    var i := 0;
    while i < |patterns|
      invariant 0 <= i <= |patterns|
      invariant rules == Compilable(e, patterns[..i])
    {
      assert patterns[..i + 1][..i] == patterns[..i];
      if e.compiles(patterns[i]) {
        rules := rules + [patterns[i]];
      }
      i := i + 1;
    }
    assert patterns[..i] == patterns;
  }

  /** What `CommandFilter.__init__` builds from `config`. */
  predicate Built(f: Filter, config: FilterConfig, e: Engine) {
    && f.whitelistPatterns == config.whitelist
    && f.blacklistPatterns == config.blacklist
    && f.whitelistEnabled == (|config.whitelist| > 0)
    && f.whitelistRules == Compilable(e, config.whitelist)
    && f.blacklistRules == Compilable(e, config.blacklist)
  }

  /** `CommandFilter.__init__`: the whitelist switch follows the raw pattern list,
      the rule lists follow the patterns that compile. */
  method NewFilter(config: FilterConfig, e: Engine) returns (f: Filter)
    ensures Built(f, config, e)
  {
    var whitelistRules := CompileRules(e, config.whitelist);
    var blacklistRules := CompileRules(e, config.blacklist);
    f := Filter(config.whitelist, config.blacklist, |config.whitelist| > 0, whitelistRules, blacklistRules);
  }

  // ---------------------------------------------------------------- normalisation

  /** A first word that looks like a `NAME=value` assignment. */
  predicate IsAssignmentWord(w: string) {
    '=' in w && !StartsWith(w, "=")
  }

  /** A non-empty suffix of a stripped text that starts with a non-space character is stripped. */
  lemma StrippedSuffix(c: string, s: string)
    requires IsStripped(c) && s != [] && !IsSpace(s[0]) && OccursAt(c, s, |c| - |s|)
    ensures IsStripped(s)
  {
    assert s[|s| - 1] == c[|c| - 1];
  }

  /** The assignment step of `_extract_main_command` on the stripped command `c`. What is
      left is a stripped tail of `c`. */
  function DropAssignment(c: string): (r: string)
    requires IsStripped(c)
    ensures IsStripped(r) && OccursAt(c, r, |c| - |r|)
  {
    if '=' in c && !StartsWith(c, "=") then
      var parts := SplitOnce(c);
      if |parts| > 1 && '=' in parts[0] && !StartsWith(parts[0], "=") then
        assert IsStripped(parts[1]) by { StrippedSuffix(c, parts[1]); }
        parts[1]
      else
        assert c[0..|c|] == c;
        c
    else
      assert c[0..|c|] == c;
      c
  }

  /** The assignment step stated on words: the first word is dropped exactly when another
      word follows it and it holds `=` without starting with `=`; the guard on the whole
      command that the code tests first never decides anything. */
  lemma DropAssignmentWords(c: string)
    requires IsStripped(c)
    ensures var words := SplitOnce(c);
            DropAssignment(c) == (if |words| == 2 && IsAssignmentWord(words[0]) then words[1] else c)
  {
    var words := SplitOnce(c);
    if |words| == 2 && IsAssignmentWord(words[0]) {
      assert LeadingSpaces(c) == 0 by { if |c| > 0 { assert !IsSpace(c[0]); } }
      assert words[0] <= c;
      assert '=' in c && !StartsWith(c, "=") by {
        assert c[0] == words[0][0];
        var k :| 0 <= k < |words[0]| && words[0][k] == '=';
        assert c[k] == '=';
      }
    }
  }

  /** The comment step: everything from the first `#` goes and the rest is stripped. */
  function CutComment(c: string): (r: string)
    requires IsStripped(c)
    ensures r == Strip(BeforeFirst(c, '#'))
    ensures IsStripped(r) && '#' !in r
    ensures OccursAt(c, r, if '#' in c then LeadingSpaces(BeforeFirst(c, '#')) else 0)
  {
    if '#' in c then
      var b := BeforeFirst(c, '#');
      assert '#' !in Strip(b) && OccursAt(c, Strip(b), LeadingSpaces(b)) by {
        StripPiece(b);
        NotInPiece(b, Strip(b), LeadingSpaces(b), '#');
        assert OccursAt(c, b, 0) by { assert c[0..|b|] == b; }
        InfixTransitive(Strip(b), b, c, LeadingSpaces(b), 0);
      }
      Strip(b)
    else
      assert Strip(c) == c && OccursAt(c, c, 0) by {
        StripStripped(c);
        assert c[0..|c|] == c;
      }
      c
  }

  /** Each step of `_extract_main_command` keeps a contiguous piece of what it was given,
      so the outcome is a piece of the original command. */
  lemma StepsKeepPiece(command: string)
    ensures var c := Strip(command);
            var c1 := DropAssignment(c);
            exists i :: OccursAt(command, CutComment(c1), i)
  {
    var c := Strip(command);
    var c1 := DropAssignment(c);
    var c2 := CutComment(c1);
    var k := if '#' in c1 then LeadingSpaces(BeforeFirst(c1, '#')) else 0;
    assert OccursAt(command, c, LeadingSpaces(command)) by { StripPiece(command); }
    assert OccursAt(c, c1, |c| - |c1|) && OccursAt(c1, c2, k);
    PieceChain(command, c, c1, c2, LeadingSpaces(command), |c| - |c1|, k);
  }

  lemma PieceChain(s0: string, s1: string, s2: string, s3: string, i: int, j: int, k: int)
    requires OccursAt(s0, s1, i) && OccursAt(s1, s2, j) && OccursAt(s2, s3, k)
    ensures exists n :: OccursAt(s0, s3, n)
  {
    InfixTransitive(s2, s1, s0, j, i);
    InfixTransitive(s3, s2, s0, k, i + j);
  }

  /** `_extract_main_command`: the command with its surrounding whitespace, one leading
      `NAME=value` word and a trailing `#` comment removed. The result is a stripped piece
      of the command that holds no `#`. */
  function ExtractMainCommand(command: string): (main: string)
    ensures var c := Strip(command);
            var words := SplitOnce(c);
            var body := if |words| == 2 && IsAssignmentWord(words[0]) then words[1] else c;
            main == Strip(BeforeFirst(body, '#'))
    ensures IsStripped(main) && '#' !in main
    ensures exists i :: OccursAt(command, main, i)
  {
    var c := Strip(command);
    var c2 := CutComment(DropAssignment(c));
    DropAssignmentWords(c);
    StepsKeepPiece(command);
    StripStripped(c2);
    Strip(c2)
  }

  // ---------------------------------------------------------------- dangerous commands

  /** `re.compile(r'^\s*rm\s+').match(s)`: optional whitespace, `rm`, then whitespace. */
  predicate RmAtStart(s: string) {
    var t := LStrip(s);
    |t| >= 3 && t[0] == 'r' && t[1] == 'm' && IsSpace(t[2])
  }

  /** The loop over the help flags: does any of `flags` occur in `s`? */
  function AnyOccurs(s: string, flags: seq<string>): (r: bool)
    ensures r <==> exists k, i :: 0 <= k < |flags| && OccursAt(s, flags[k], i)
  {
    if flags == [] then false
    else
      ContainsOccurs(s, flags[0]);
      if Contains(s, flags[0]) then true
      else
        var r := AnyOccurs(s, flags[1..]);
        assert r ==> exists k, i :: 0 <= k < |flags| && OccursAt(s, flags[k], i) by {
          if r {
            var k, i :| 0 <= k < |flags[1..]| && OccursAt(s, flags[1..][k], i);
            assert OccursAt(s, flags[k + 1], i);
          }
        }
        assert (exists k, i :: 0 <= k < |flags| && OccursAt(s, flags[k], i)) ==> r by {
          if exists k, i :: 0 <= k < |flags| && OccursAt(s, flags[k], i) {
            var k, i :| 0 <= k < |flags| && OccursAt(s, flags[k], i);
            assert k != 0;
            assert OccursAt(s, flags[1..][k - 1], i);
          }
        }
        r
  }

  /** `check_dangerous_command`: the normalised command is an `rm` with arguments and none of
      `--help`, `--version`, `-h`, `-v`, `--usage` occurs anywhere in its lower-cased text. */
  function CheckDangerousCommand(command: string): (r: (bool, string))
    ensures var main := ExtractMainCommand(command);
            r.0 <==> RmAtStart(main) && !exists k, i :: 0 <= k < |HelpFlags| && OccursAt(Lower(main), HelpFlags[k], i)
    ensures r == if r.0 then (true, DeletionCategory) else (false, "")
  {
    var main := ExtractMainCommand(command);
    if RmAtStart(main) then
      if AnyOccurs(Lower(main), HelpFlags) then (false, "") else (true, DeletionCategory)
    else (false, "")
  }

  // ---------------------------------------------------------------- allow / deny

  /** How one blacklist rule is tried: an anchored (`^`) pattern only at the start,
      any other pattern at the start and then anywhere. */
  predicate BlacklistHit(e: Engine, pattern: string, main: string) {
    if StartsWith(pattern, "^") then e.matchStart(pattern, main)
    else e.matchStart(pattern, main) || e.search(pattern, main)
  }

  /** How one whitelist rule is tried: at the start or anywhere. */
  predicate WhitelistHit(e: Engine, pattern: string, main: string) {
    e.matchStart(pattern, main) || e.search(pattern, main)
  }

  /** Rule `i` is the first blacklist rule that hits `main`. */
  predicate FirstHitAt(e: Engine, rules: seq<string>, main: string, i: int) {
    && 0 <= i < |rules|
    && BlacklistHit(e, rules[i], main)
    && forall j :: 0 <= j < i ==> !BlacklistHit(e, rules[j], main)
  }

  /** There is only one first hit. */
  lemma FirstHitUnique(e: Engine, rules: seq<string>, main: string, i: int, k: int)
    requires FirstHitAt(e, rules, main, i) && FirstHitAt(e, rules, main, k)
    ensures i == k
  {
  }

  /** Position of the first blacklist rule that hits. */
  function FirstBlacklistHit(e: Engine, rules: seq<string>, main: string): (r: Option<nat>)
    ensures r.Some? ==> FirstHitAt(e, rules, main, r.value)
    ensures r.None? ==> forall j :: 0 <= j < |rules| ==> !BlacklistHit(e, rules[j], main)
  {
    if rules == [] then None
    else if BlacklistHit(e, rules[0], main) then Some(0)
    else
      match FirstBlacklistHit(e, rules[1..], main)
      case None => None
      case Some(i) => Some(i + 1)
  }

  /** Whether some whitelist rule hits, trying them in order. */
  function AnyWhitelistHit(e: Engine, rules: seq<string>, main: string): (r: bool)
    ensures r <==> exists j :: 0 <= j < |rules| && WhitelistHit(e, rules[j], main)
  {
    if rules == [] then false
    else if WhitelistHit(e, rules[0], main) then true
    else
      var r := AnyWhitelistHit(e, rules[1..], main);
      assert r <==> exists j :: 1 <= j < |rules| && WhitelistHit(e, rules[j], main) by {
        if r {
          var j :| 0 <= j < |rules[1..]| && WhitelistHit(e, rules[1..][j], main);
          assert WhitelistHit(e, rules[j + 1], main);
        }
        if exists j :: 1 <= j < |rules| && WhitelistHit(e, rules[j], main) {
          var j :| 1 <= j < |rules| && WhitelistHit(e, rules[j], main);
          assert WhitelistHit(e, rules[1..][j - 1], main);
        }
      }
      r
  }

  /** The decision `is_allowed` takes on the normalised command `main`: the first blacklist
      rule that hits denies it and is named; with no blacklist hit, a disabled whitelist
      allows, an enabled one allows exactly when one of its compiled rules hits. */
  function Decide(f: Filter, e: Engine, main: string): (d: Decision)
    ensures forall i :: FirstHitAt(e, f.blacklistRules, main, i) ==>
              d == Decision(false, BlacklistDenied + f.blacklistRules[i], Some(f.blacklistRules[i]))
    ensures (exists i :: 0 <= i < |f.blacklistRules| && BlacklistHit(e, f.blacklistRules[i], main)) ==>
              !d.allowed && d.matchedRule.Some?
    ensures var bl, wl := f.blacklistRules, f.whitelistRules;
            (forall i :: 0 <= i < |bl| ==> !BlacklistHit(e, bl[i], main)) ==>
              && d.matchedRule == None
              && (d.allowed <==> !f.whitelistEnabled || exists j :: 0 <= j < |wl| && WhitelistHit(e, wl[j], main))
              && d.reason == (if !f.whitelistEnabled then FilterPassed else if d.allowed then WhitelistPassed else NotInWhitelist)
  {
    match FirstBlacklistHit(e, f.blacklistRules, main)
    case Some(k) =>
      assert forall i :: FirstHitAt(e, f.blacklistRules, main, i) ==> i == k by {
        forall i | FirstHitAt(e, f.blacklistRules, main, i) ensures i == k {
          FirstHitUnique(e, f.blacklistRules, main, i, k);
        }
      }
      Decision(false, BlacklistDenied + f.blacklistRules[k], Some(f.blacklistRules[k]))
    case None =>
      if f.whitelistEnabled then
        if AnyWhitelistHit(e, f.whitelistRules, main) then Decision(true, WhitelistPassed, None)
        else Decision(false, NotInWhitelist, None)
      else Decision(true, FilterPassed, None)
  }

  /** `is_allowed`: the decision on the normalised command. */
  function IsAllowed(f: Filter, e: Engine, command: string): Decision {
    Decide(f, e, ExtractMainCommand(command))
  }

  // ---------------------------------------------------------------- properties

  /** Once a blacklist rule hits, the whitelist is never consulted: two filters with the
      same blacklist rules decide alike, whatever their whitelists. */
  lemma BlacklistHitIgnoresWhitelist(f: Filter, g: Filter, e: Engine, main: string, i: nat)
    requires f.blacklistRules == g.blacklistRules
    requires i < |f.blacklistRules| && BlacklistHit(e, f.blacklistRules[i], main)
    ensures Decide(f, e, main) == Decide(g, e, main)
  {
    var k := FirstBlacklistHit(e, f.blacklistRules, main);
    assert k.Some?;
  }

  /** A rule that hits in one list hits in any rearrangement of it. */
  lemma HitSurvivesReordering(e: Engine, a: seq<string>, b: seq<string>, main: string)
    requires multiset(a) == multiset(b)
    ensures (exists i :: 0 <= i < |a| && BlacklistHit(e, a[i], main)) ==>
            (exists j :: 0 <= j < |b| && BlacklistHit(e, b[j], main))
  {
    if exists i :: 0 <= i < |a| && BlacklistHit(e, a[i], main) {
      var i :| 0 <= i < |a| && BlacklistHit(e, a[i], main);
      assert a[i] in multiset(b);
      var j :| 0 <= j < |b| && b[j] == a[i];
    }
  }

  /** Whether a command is allowed does not depend on the order of the blacklist rules,
      only the named rule does. */
  lemma AllowedIgnoresBlacklistOrder(f: Filter, g: Filter, e: Engine, main: string)
    requires multiset(f.blacklistRules) == multiset(g.blacklistRules)
    requires f.whitelistEnabled == g.whitelistEnabled && f.whitelistRules == g.whitelistRules
    ensures Decide(f, e, main).allowed == Decide(g, e, main).allowed
  {
    HitSurvivesReordering(e, f.blacklistRules, g.blacklistRules, main);
    HitSurvivesReordering(e, g.blacklistRules, f.blacklistRules, main);
  }

  /** An enabled whitelist none of whose patterns compiles denies every command that the
      blacklist lets through. */
  lemma UncompilableWhitelistDeniesAll(f: Filter, config: FilterConfig, e: Engine, main: string)
    requires Built(f, config, e)
    requires |config.whitelist| > 0 && forall p :: p in config.whitelist ==> !e.compiles(p)
    ensures !Decide(f, e, main).allowed
  {
    CompilableExtremes(e, config.whitelist);
  }

  /** A filter built from empty lists lets everything through as "passed the filter". */
  lemma EmptyConfigAllowsAll(f: Filter, e: Engine, main: string)
    requires Built(f, FilterConfig([], []), e)
    ensures Decide(f, e, main) == Decision(true, FilterPassed, None)
  {
  }

  /** A stripped command with no `=` and no `#` is its own normal form. */
  lemma PlainCommandIsMain(c: string)
    requires IsStripped(c) && '=' !in c && '#' !in c
    ensures ExtractMainCommand(c) == c
  {
    StripStripped(c);
  }

  /** Only a command that starts with `rm` is flagged: a deletion chained after another
      command is left to the blacklist. */
  lemma ChainedDeletionNotFlagged()
    ensures CheckDangerousCommand("ls; rm -rf /") == (false, "")
  {
    var c := "ls; rm -rf /";
    assert !IsSpace(c[0]) && !IsSpace(c[|c| - 1]);
    assert '=' !in c && '#' !in c;
    PlainCommandIsMain(c);
    assert !RmAtStart(c) by {
      assert LeadingSpaces(c) == 0;
      assert LStrip(c)[0] == 'l';
    }
  }
}
