/**
 * The handful of Python `str` operations the launcher relies on:
 * `strip()` without arguments, the first index of a character (what
 * `split('=', 1)` cuts at) and the slice `s[:n]`.
 */
module PyStr {

  /** Python's `str.isspace()` on one character (Unicode White_Space as Python defines it). */
  predicate IsSpace(c: char) {
    var n := c as int;
    (9 <= n <= 13) || (0x1c <= n <= 0x20) || n == 0x85 || n == 0xa0 || n == 0x1680
    || (0x2000 <= n <= 0x200a) || n == 0x2028 || n == 0x2029 || n == 0x202f
    || n == 0x205f || n == 0x3000
  }

  predicate AllSpace(s: string) {
    forall i :: 0 <= i < |s| ==> IsSpace(s[i])
  }

  /** Neither end of `s` is whitespace: the shape `strip()` returns. */
  predicate IsStripped(s: string) {
    s == [] || (!IsSpace(s[0]) && !IsSpace(s[|s| - 1]))
  }

  /** `s.lstrip()`: drops the leading whitespace. */
  function LStrip(s: string): (r: string)
    ensures |r| <= |s|
    ensures r == [] || !IsSpace(r[0])
  {
    if s != [] && IsSpace(s[0]) then LStrip(s[1..]) else s
  }

  /** `s.rstrip()`: drops the trailing whitespace. */
  function RStrip(s: string): (r: string)
    ensures |r| <= |s|
    ensures r == [] || !IsSpace(r[|r| - 1])
  {
    if s != [] && IsSpace(s[|s| - 1]) then RStrip(s[..|s| - 1]) else s
  }

  /** What `lstrip` drops is whitespace and nothing else: the result is a suffix behind blanks. */
  lemma {:induction false} LStripShape(s: string)
    ensures var r := LStrip(s); r == s[|s| - |r|..] && AllSpace(s[..|s| - |r|])
  {
    if s != [] && IsSpace(s[0]) {
      LStripShape(s[1..]);
      var r := LStrip(s[1..]);
      assert s[1..][|s| - 1 - |r|..] == s[|s| - |r|..];
      var blanks := s[..|s| - |r|];
      forall i | 0 <= i < |blanks| ensures IsSpace(blanks[i]) {
        if i > 0 { assert blanks[i] == s[1..][..|s| - 1 - |r|][i - 1]; }
      }
    }
  }

  /** What `rstrip` drops is whitespace and nothing else: the result is a prefix before blanks. */
  lemma {:induction false} RStripShape(s: string)
    ensures var r := RStrip(s); r == s[..|r|] && AllSpace(s[|r|..])
  {
    if s != [] && IsSpace(s[|s| - 1]) {
      var init := s[..|s| - 1];
      RStripShape(init);
      var r := RStrip(init);
      assert init[..|r|] == s[..|r|];
      var blanks := s[|r|..];
      forall i | 0 <= i < |blanks| ensures IsSpace(blanks[i]) {
        if i < |s| - 1 - |r| { assert blanks[i] == init[|r|..][i]; }
      }
    }
  }

  /** `s.strip()`: what is left once both ends lose their whitespace. */
  function Strip(s: string): (r: string)
    ensures IsStripped(r)
    ensures |r| <= |s|
  {
    var l := LStrip(s);
    RStripShape(l);
    RStrip(l)
  }

  /** `strip` cuts only whitespace, from either side: its result is a slice of `s` with blanks around it. */
  lemma StripShape(s: string)
    ensures var r := Strip(s);
            exists i :: 0 <= i <= |s| - |r| && r == s[i..i + |r|]
                        && AllSpace(s[..i]) && AllSpace(s[i + |r|..])
  {
    var l := LStrip(s);
    var r := RStrip(l);
    LStripShape(s);
    RStripShape(l);
    var i := |s| - |l|;
    assert r == s[i..i + |r|];
    assert s[i + |r|..] == l[|r|..];
  }

  /** Index of the first `c` in `s`: where `s.split(c, 1)` cuts. */
  function IndexOf(s: string, c: char): (i: nat)
    requires c in s
    ensures i < |s| && s[i] == c && c !in s[..i]
  {
    if s[0] == c then 0 else
      assert c in s[1..] by { var j :| 0 <= j < |s| && s[j] == c; assert s[1..][j - 1] == c; }
      var k := IndexOf(s[1..], c);
      assert s[..k + 1] == [s[0]] + s[1..][..k];
      k + 1
  }

  /** The slice `s[:n]`: the first `n` characters, or all of `s` when it is shorter. */
  function Truncate(s: string, n: nat): (r: string)
    ensures |r| == (if |s| <= n then |s| else n)
    ensures r == s[..|r|]
  {
    if |s| <= n then s else s[..n]
  }

  /** Stripping never brings in a character the string lacks. */
  lemma StripKeepsAbsence(c: char, s: string)
    requires c !in s
    ensures c !in Strip(s)
  {
    StripShape(s);
    var r := Strip(s);
    var i :| 0 <= i <= |s| - |r| && r == s[i..i + |r|] && AllSpace(s[..i]) && AllSpace(s[i + |r|..]);
    NotInSlice(c, s, i, i + |r|);
  }

  /** A slice holds no character its whole string lacks. */
  lemma NotInSlice(c: char, s: string, i: nat, j: nat)
    requires i <= j <= |s| && c !in s
    ensures c !in s[i..j]
  {
  }

  /** Around one separator `c` that `l` lacks: `c` is found right after `l`, and slicing recovers both sides. */
  lemma SplitJoined(l: string, c: char, r: string)
    requires c !in l
    ensures c in l + [c] + r && IndexOf(l + [c] + r, c) == |l|
    ensures (l + [c] + r)[..|l|] == l && (l + [c] + r)[|l| + 1..] == r
  {
    var t := l + [c] + r;
    assert t[|l|] == c;
    assert t[..|l|] == l;
  }

  lemma {:induction false} AllSpaceStripsToNothing(s: string)
    requires AllSpace(s)
    ensures LStrip(s) == [] && RStrip(s) == []
  {
    if s != [] {
      assert IsSpace(s[0]) && IsSpace(s[|s| - 1]);
      assert AllSpace(s[1..]) by {
        forall i | 0 <= i < |s| - 1 ensures IsSpace(s[1..][i]) { assert s[1..][i] == s[i + 1]; }
      }
      var init := s[..|s| - 1];
      assert AllSpace(init) by {
        forall i | 0 <= i < |init| ensures IsSpace(init[i]) { assert init[i] == s[i]; }
      }
      AllSpaceStripsToNothing(s[1..]);
      AllSpaceStripsToNothing(s[..|s| - 1]);
    }
  }

  /** Whitespace in front of a non-blank start is what `lstrip` removes, and no more. */
  lemma {:induction false} LStripAppend(a: string, b: string)
    requires b != [] && !IsSpace(b[0])
    ensures LStrip(a + b) == LStrip(a) + b
  {
    if a == [] {
      assert a + b == b;
    } else if IsSpace(a[0]) {
      assert (a + b)[1..] == a[1..] + b;
      LStripAppend(a[1..], b);
    } else {
      assert (a + b)[0] == a[0];
    }
  }

  /** `rstrip` keeps a prefix `a` intact once something non-blank follows it or ends it. */
  lemma {:induction false} RStripPrepend(a: string, b: string)
    requires (a != [] && !IsSpace(a[|a| - 1])) || !AllSpace(b)
    ensures RStrip(a + b) == a + RStrip(b)
  {
    if b == [] {
      assert a + b == a;
    } else if IsSpace(b[|b| - 1]) {
      var b' := b[..|b| - 1];
      assert (a + b)[..|a + b| - 1] == a + b';
      if AllSpace(b) {
      } else {
        assert !AllSpace(b') by {
          var i :| 0 <= i < |b| && !IsSpace(b[i]);
          assert i < |b| - 1 && b'[i] == b[i];
        }
      }
      RStripPrepend(a, b');
    } else {
      assert (a + b)[|a + b| - 1] == b[|b| - 1];
    }
  }

  /** Stripping the two ends in either order gives the same string. */
  lemma {:induction false} StripEndsCommute(s: string)
    ensures LStrip(RStrip(s)) == RStrip(LStrip(s))
  {
    if s == [] {
    } else if !IsSpace(s[0]) {
      var r := RStrip(s);
      RStripShape(s);
      if r != [] { assert r[0] == s[0]; }
    } else if AllSpace(s[1..]) {
      assert AllSpace(s) by {
        forall i | 0 <= i < |s| ensures IsSpace(s[i]) {
          if i > 0 { assert s[i] == s[1..][i - 1]; }
        }
      }
      AllSpaceStripsToNothing(s);
    } else {
      assert s == [s[0]] + s[1..];
      RStripPrepend([s[0]], s[1..]);
      var r' := RStrip(s[1..]);
      assert ([s[0]] + r')[1..] == r';
      StripEndsCommute(s[1..]);
    }
  }

  /** Text around a single non-blank separator: `strip` of the whole is `lstrip` of the left, the separator, `rstrip` of the right. */
  lemma StripAroundSeparator(a: string, sep: char, b: string)
    requires !IsSpace(sep)
    ensures Strip(a + [sep] + b) == LStrip(a) + [sep] + RStrip(b)
  {
    var t := [sep] + b;
    var x := a + [sep] + b;
    assert x == a + t;
    LStripAppend(a, t);
    var l := LStrip(a);
    assert LStrip(x) == (l + [sep]) + b;
    RStripPrepend(l + [sep], b);
    var u := (l + [sep]) + RStrip(b);
    assert RStrip(LStrip(x)) == u;
  }

  /** Stripping a side that is already bare changes nothing: `strip` absorbs `lstrip` and `rstrip`. */
  lemma StripAbsorbs(s: string)
    ensures Strip(LStrip(s)) == Strip(s)
    ensures Strip(RStrip(s)) == Strip(s)
  {
    var l := LStrip(s);
    assert LStrip(l) == l;
    var r := RStrip(s);
    StripEndsCommute(r);
    assert RStrip(r) == r;
    StripEndsCommute(s);
  }

  /** A stripped string with only whitespace added around it strips back to itself. */
  lemma {:induction false} StripPadded(pre: string, s: string, post: string)
    requires AllSpace(pre) && AllSpace(post) && IsStripped(s)
    ensures Strip(pre + s + post) == s
  {
    if s == [] {
      assert pre + s + post == pre + post;
      AllSpaceStripsToNothing(pre + post);
      assert Strip(pre + post) == RStrip(LStrip(pre + post));
    } else {
      LStripAppend(pre, s + post);
      assert pre + s + post == pre + (s + post);
      AllSpaceStripsToNothing(pre);
      assert LStrip(pre) + (s + post) == s + post;
      RStripPrepend(s, post);
      AllSpaceStripsToNothing(post);
      assert s + [] == s;
    }
  }
}
