/**
 * The `.env` loader of the launcher: each line is stripped, blank lines,
 * `#` comments and lines without `=` are skipped, the rest is split at the
 * first `=` and the trimmed key is set to the trimmed value in the process
 * environment. The loop runs in file order and stops at the first exception;
 * what it already assigned stays.
 */
module DotEnv {
  import opened Wrappers
  import opened PyStr

  /** The process environment, `os.environ`. */
  type Env = map<string, string>

  /** Whether `os.environ[key] = value` succeeds; the platform may refuse some names or values. */
  type Acceptance = (string, string) -> bool

  /**
   * The `.env` file as the loader sees it: absent, or the lines iteration delivered
   * (each still carrying its line break) and whether reading raised after them
   * (an open or decoding error).
   */
  datatype EnvFile = Absent | Present(lines: seq<string>, readError: bool)

  /** The environment after loading, and whether an exception cut the loading short (the warning). */
  datatype Load = Load(env: Env, stopped: bool)

  /** A stripped line the loader acts on: not empty, not a comment, holding an `=`. */
  predicate IsAssignment(t: string) {
    t != [] && t[0] != '#' && '=' in t
  }

  /** One line of the file: the `(key, value)` it assigns, or `None` when the line is skipped. */
  function ParseLine(line: string): (r: Option<(string, string)>)
    ensures r.Some? <==> IsAssignment(Strip(line))
    ensures r.Some? ==> '=' !in r.value.0 && IsStripped(r.value.0) && IsStripped(r.value.1)
  {
    var t := Strip(line);
    if IsAssignment(t) then
      var i := IndexOf(t, '=');
      var key := Strip(t[..i]);
      assert '=' !in key by { StripKeepsAbsence('=', t[..i]); }
      Some((key, Strip(t[i + 1..])))
    else
      None
  }

  /** `ParseLine` read off from the stripped line, the position of its first `=` and the trimmed halves. */
  lemma ParseLineFrom(line: string, t: string, k: nat, key: string, value: string)
    requires Strip(line) == t && IsAssignment(t) && k < |t| && IndexOf(t, '=') == k
    requires Strip(t[..k]) == key && Strip(t[k + 1..]) == value
    ensures ParseLine(line) == Some((key, value))
  {
  }

  /** Stripping `before + "=" + after` trims only the outer ends; the left part keeps no `=`. */
  lemma StripSplitLine(before: string, after: string)
    requires '=' !in before
    ensures Strip(before + "=" + after) == LStrip(before) + "=" + RStrip(after)
    ensures '=' !in LStrip(before)
  {
    StripAroundSeparator(before, '=', after);
    var l := LStrip(before);
    LStripShape(before);
    NotInSlice('=', before, |before| - |l|, |before|);
  }

  /** The pieces `ParseLine` computes for `before + "=" + after`, when `before` holds no `=`. */
  lemma SplitPieces(before: string, after: string) returns (t: string, k: nat)
    requires '=' !in before
    requires LStrip(before) == [] || LStrip(before)[0] != '#'
    ensures Strip(before + "=" + after) == t && IsAssignment(t) && k < |t| && IndexOf(t, '=') == k
    ensures Strip(t[..k]) == Strip(before) && Strip(t[k + 1..]) == Strip(after)
  {
    var l := LStrip(before);
    var r := RStrip(after);
    StripSplitLine(before, after);
    t := l + "=" + r;
    k := |l|;
    SplitJoined(l, '=', r);
    assert IsAssignment(t) by { assert t[0] == (if l == [] then '=' else l[0]); }
    StripAbsorbs(before);
    StripAbsorbs(after);
  }

  /** The split happens at the first `=` only: the key is the trimmed text before it, the value the trimmed rest, later `=` included. */
  lemma ParseLineSplitsAtFirstEquals(before: string, after: string)
    requires '=' !in before
    requires LStrip(before) == [] || LStrip(before)[0] != '#'
    ensures ParseLine(before + "=" + after) == Some((Strip(before), Strip(after)))
  {
    var t, k := SplitPieces(before, after);
    ParseLineFrom(before + "=" + after, t, k, Strip(before), Strip(after));
  }

  /** Writing `key=value` with whitespace around either part reads back as `(key, value)`. */
  lemma ParseLineRoundTrip(key: string, value: string, pad: seq<string>)
    requires |pad| == 4 && forall j :: 0 <= j < 4 ==> AllSpace(pad[j])
    requires IsStripped(key) && IsStripped(value) && '=' !in key
    requires key == [] || key[0] != '#'
    ensures ParseLine(pad[0] + key + pad[1] + "=" + pad[2] + value + pad[3]) == Some((key, value))
  {
    var before := pad[0] + key + pad[1];
    var after := pad[2] + value + pad[3];
    assert pad[0] + key + pad[1] + "=" + pad[2] + value + pad[3] == before + "=" + after;
    assert '=' !in before by {
      forall m | 0 <= m < |before| ensures before[m] != '=' {
        if m < |pad[0]| {
          assert before[m] == pad[0][m] && IsSpace(pad[0][m]);
        } else if m < |pad[0]| + |key| {
          assert before[m] == key[m - |pad[0]|];
        } else {
          assert before[m] == pad[1][m - |pad[0]| - |key|] && IsSpace(pad[1][m - |pad[0]| - |key|]);
        }
      }
    }
    assert LStrip(before) == [] || LStrip(before)[0] != '#' by {
      if key == [] {
        assert before == pad[0] + pad[1];
        assert AllSpace(before) by {
          forall m | 0 <= m < |before| ensures IsSpace(before[m]) {
            if m < |pad[0]| { assert before[m] == pad[0][m]; }
            else { assert before[m] == pad[1][m - |pad[0]|]; }
          }
        }
        AllSpaceStripsToNothing(before);
      } else {
        LStripAppend(pad[0], key + pad[1]);
        assert before == pad[0] + (key + pad[1]);
        AllSpaceStripsToNothing(pad[0]);
        assert LStrip(before) == key + pad[1];
      }
    }
    ParseLineSplitsAtFirstEquals(before, after);
    StripPadded(pad[0], key, pad[1]);
    StripPadded(pad[2], value, pad[3]);
  }

  /** What each line of the file asks for, in file order. */
  function Assignments(lines: seq<string>): (ps: seq<Option<(string, string)>>)
    ensures |ps| == |lines|
  {
    seq(|lines|, i requires 0 <= i < |lines| => ParseLine(lines[i]))
  }

  /** Assigning `p` raises: the line parsed, and the platform refuses its key or value. */
  predicate Refused(p: Option<(string, string)>, accepts: Acceptance) {
    p.Some? && !accepts(p.value.0, p.value.1)
  }

  /**
   * The loop of `load_environment_variables`, over the parsed lines: skipped lines do
   * nothing, an assignment overwrites its key, the first refused one ends the loop.
   * It only ever adds or overwrites keys.
   */
  function Apply(env: Env, ps: seq<Option<(string, string)>>, accepts: Acceptance): (r: Load)
    ensures env.Keys <= r.env.Keys
    decreases |ps|
  {
    if ps == [] then Load(env, false)
    else if ps[0].None? then Apply(env, ps[1..], accepts)
    else if accepts(ps[0].value.0, ps[0].value.1) then Apply(env[ps[0].value.0 := ps[0].value.1], ps[1..], accepts)
    else Load(env, true)
  }

  /** Loading the lines of an existing `.env` file. */
  function LoadLines(env: Env, lines: seq<string>, accepts: Acceptance): (r: Load)
    ensures env.Keys <= r.env.Keys
    ensures lines == [] ==> r == Load(env, false)
  {
    Apply(env, Assignments(lines), accepts)
  }

  /** `load_environment_variables` as a whole: nothing happens without a file; a read error is caught like a refused assignment. */
  function LoadEnvFile(env: Env, file: EnvFile, accepts: Acceptance): (r: Load)
    ensures env.Keys <= r.env.Keys
    ensures file.Absent? ==> r == Load(env, false)
    ensures file.Present? ==> r.env == LoadLines(env, file.lines, accepts).env
    ensures file.Present? && file.readError ==> r.stopped
  {
    match file
    case Absent => Load(env, false)
    case Present(lines, readError) =>
      var l := LoadLines(env, lines, accepts);
      Load(l.env, l.stopped || readError)
  }

  /** Reference reading of the parsed lines: the value of the LAST assignment to `key`, if any. */
  function LastValue(ps: seq<Option<(string, string)>>, key: string): Option<string> {
    if ps == [] then None
    else if ps[|ps| - 1].Some? && ps[|ps| - 1].value.0 == key then Some(ps[|ps| - 1].value.1)
    else LastValue(ps[..|ps| - 1], key)
  }

  /** Applying two chunks of lines is applying the first, then the second unless the first stopped. */
  lemma {:induction false} ApplyAppend(env: Env, a: seq<Option<(string, string)>>, b: seq<Option<(string, string)>>, accepts: Acceptance)
    ensures Apply(env, a + b, accepts)
         == (var l := Apply(env, a, accepts); if l.stopped then l else Apply(l.env, b, accepts))
    decreases |a|
  {
    if a == [] {
      assert a + b == b;
    } else {
      assert (a + b)[0] == a[0] && (a + b)[1..] == a[1..] + b;
      if a[0].None? {
        ApplyAppend(env, a[1..], b, accepts);
      } else if accepts(a[0].value.0, a[0].value.1) {
        ApplyAppend(env[a[0].value.0 := a[0].value.1], a[1..], b, accepts);
      }
    }
  }

  /** Parsing distributes over joining chunks of lines. */
  lemma AssignmentsAppend(a: seq<string>, b: seq<string>)
    ensures Assignments(a + b) == Assignments(a) + Assignments(b)
  {
  }

  /** A blank, comment or `=`-less line has no effect wherever it stands in the file. */
  lemma SkippedLineHasNoEffect(env: Env, pre: seq<string>, line: string, post: seq<string>, accepts: Acceptance)
    requires ParseLine(line).None?
    ensures LoadLines(env, pre + [line] + post, accepts) == LoadLines(env, pre + post, accepts)
  {
    var a, b := Assignments(pre), Assignments(post);
    assert Assignments([line]) == [None];
    AssignmentsAppend(pre, [line]);
    AssignmentsAppend(pre + [line], post);
    AssignmentsAppend(pre, post);
    assert a + [None] + b == a + ([None] + b);
    ApplyAppend(env, a, [None] + b, accepts);
    ApplyAppend(env, a, b, accepts);
    assert ([None] + b)[1..] == b;
  }

  /**
   * Without an exception, every key ends with the value of its last assignment,
   * and every key that nothing assigns keeps its old value (or stays unset).
   */
  lemma {:induction false} ApplyLastAssignmentWins(env: Env, ps: seq<Option<(string, string)>>, accepts: Acceptance, key: string)
    requires !Apply(env, ps, accepts).stopped
    ensures Get(Apply(env, ps, accepts).env, key)
         == (if LastValue(ps, key).Some? then LastValue(ps, key) else Get(env, key))
    decreases |ps|
  {
    if ps != [] {
      var init := ps[..|ps| - 1];
      var last := ps[|ps| - 1];
      var l := Apply(env, init, accepts);
      assert !l.stopped && Apply(env, ps, accepts) == Apply(l.env, [last], accepts) by {
        assert ps == init + [last];
        ApplyAppend(env, init, [last], accepts);
      }
      ApplyLastAssignmentWins(env, init, accepts, key);
      assert [last][0] == last && [last][1..] == [];
      assert Apply(l.env, [last], accepts)
          == if last.None? then Load(l.env, false) else Load(l.env[last.value.0 := last.value.1], false);
    }
  }

  /** Loading stops exactly at the first refused assignment, keeping what the earlier lines set. */
  lemma {:induction false} ApplyStopsAtFirstRefusal(env: Env, ps: seq<Option<(string, string)>>, accepts: Acceptance, i: nat)
    requires i < |ps| && Refused(ps[i], accepts)
    requires forall j :: 0 <= j < i ==> !Refused(ps[j], accepts)
    ensures !Apply(env, ps[..i], accepts).stopped
    ensures Apply(env, ps, accepts) == Load(Apply(env, ps[..i], accepts).env, true)
    decreases i
  {
    if i == 0 {
      assert ps[..0] == [];
    } else {
      assert !Refused(ps[0], accepts);
      var rest := ps[1..];
      forall j | 0 <= j < i - 1 ensures !Refused(rest[j], accepts) { assert rest[j] == ps[j + 1]; }
      assert rest[i - 1] == ps[i];
      assert ps[..i][0] == ps[0] && ps[..i][1..] == rest[..i - 1];
      if ps[0].None? {
        ApplyStopsAtFirstRefusal(env, rest, accepts, i - 1);
      } else {
        ApplyStopsAtFirstRefusal(env[ps[0].value.0 := ps[0].value.1], rest, accepts, i - 1);
      }
    }
  }

  /** When the platform accepts every assignment, loading never stops early. */
  lemma {:induction false} ApplyWithoutRefusalCompletes(env: Env, ps: seq<Option<(string, string)>>, accepts: Acceptance)
    requires forall j :: 0 <= j < |ps| ==> !Refused(ps[j], accepts)
    ensures !Apply(env, ps, accepts).stopped
    decreases |ps|
  {
    if ps != [] {
      assert !Refused(ps[0], accepts);
      var rest := ps[1..];
      forall j | 0 <= j < |rest| ensures !Refused(rest[j], accepts) { assert rest[j] == ps[j + 1]; }
      if ps[0].None? {
        ApplyWithoutRefusalCompletes(env, rest, accepts);
      } else {
        ApplyWithoutRefusalCompletes(env[ps[0].value.0 := ps[0].value.1], rest, accepts);
      }
    }
  }

  /** A key that no line assigns keeps its old value (or stays unset), even when loading stops early. */
  lemma {:induction false} ApplyKeepsUnassignedKeys(env: Env, ps: seq<Option<(string, string)>>, accepts: Acceptance, key: string)
    requires forall j :: 0 <= j < |ps| && ps[j].Some? ==> ps[j].value.0 != key
    ensures Get(Apply(env, ps, accepts).env, key) == Get(env, key)
    decreases |ps|
  {
    if ps != [] {
      var rest := ps[1..];
      forall j | 0 <= j < |rest| && rest[j].Some? ensures rest[j].value.0 != key { assert rest[j] == ps[j + 1]; }
      if ps[0].None? {
        ApplyKeepsUnassignedKeys(env, rest, accepts, key);
      } else if accepts(ps[0].value.0, ps[0].value.1) {
        ApplyKeepsUnassignedKeys(env[ps[0].value.0 := ps[0].value.1], rest, accepts, key);
      }
    }
  }
}
