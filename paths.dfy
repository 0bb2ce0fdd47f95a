/**
 * Path syntax shared by the engines: `path.replace(/\[(\d+)\]/g, '.$1')`,
 * which rewrites every bracketed index `[n]` to `.n` before a path is split
 * on dots; and the dotted path of a member under a prefix, as the path
 * enumerators write it.
 */
module Paths {
  import opened Strings

  /** The end of the run of decimal digits that starts at `i`. */
  function DigitRun(s: string, i: nat): (j: nat)
    requires i <= |s|
    ensures i <= j <= |s|
    ensures forall k :: i <= k < j ==> IsDigit(s[k])
    ensures j == |s| || !IsDigit(s[j])
    decreases |s| - i
  {
    if i < |s| && IsDigit(s[i]) then DigitRun(s, i + 1) else i
  }

  /** `s` starts with `[`, one or more digits and `]`. */
  predicate BracketAt(s: string) {
    s != [] && s[0] == '[' && 1 < DigitRun(s, 1) < |s| && s[DigitRun(s, 1)] == ']'
  }

  /** `path.replace(/\[(\d+)\]/g, '.$1')`: every `[n]` becomes `.n`. */
  function NormalizePath(s: string): string
    decreases |s|
  {
    if s == [] then []
    else if BracketAt(s) then
      var j := DigitRun(s, 1);
      "." + s[1..j] + NormalizePath(s[j + 1..])
    else [s[0]] + NormalizePath(s[1..])
  }

  lemma {:induction false} DigitRunStops(p: string, x: string, i: nat)
    requires 1 <= i <= |p| && x != [] && !IsDigit(x[0])
    ensures DigitRun(p + x, i) == DigitRun(p, i)
    decreases |p| - i
  {
    if i < |p| && IsDigit(p[i]) {
      DigitRunStops(p, x, i + 1);
    }
  }

  /** A run of digits is copied as it is. */
  lemma {:induction false} DigitsPassThrough(d: string, q: string)
    requires forall i :: 0 <= i < |d| ==> IsDigit(d[i])
    ensures NormalizePath(d + q) == d + NormalizePath(q)
  {
    if d != [] {
      var s := d + q;
      assert s[0] == d[0] && !BracketAt(s);
      assert s[1..] == d[1..] + q;
      DigitsPassThrough(d[1..], q);
      calc {
        NormalizePath(s);
        [s[0]] + NormalizePath(s[1..]);
        [d[0]] + (d[1..] + NormalizePath(q));
        { assert [d[0]] + d[1..] == d; }
        d + NormalizePath(q);
      }
    } else {
      assert d + q == q;
    }
  }

  /** Text that starts neither with a digit nor with `]` cannot complete a
      bracket begun before it: normalising `p + x` takes its first step
      inside `p`. */
  lemma NormalizeConcat(p: string, x: string)
    requires p != [] && x != [] && !IsDigit(x[0]) && x[0] != ']'
    ensures BracketAt(p) ==> DigitRun(p, 1) < |p|
    ensures BracketAt(p) ==>
      NormalizePath(p + x) == "." + p[1..DigitRun(p, 1)] + NormalizePath(p[DigitRun(p, 1) + 1..] + x)
    ensures !BracketAt(p) ==> NormalizePath(p + x) == [p[0]] + NormalizePath(p[1..] + x)
  {
    var s := p + x;
    assert s[0] == p[0];
    if p[0] == '[' {
      DigitRunStops(p, x, 1);
      var j := DigitRun(p, 1);
      if j < |p| {
        assert s[j] == p[j];
        assert s[1..j] == p[1..j];
        assert s[j + 1..] == p[j + 1..] + x;
      } else {
        assert s[j] == x[0];
      }
    }
    assert s[1..] == p[1..] + x;
  }

  lemma {:induction false} DigitRunToEnd(b: string, i: nat)
    requires 1 <= i <= |b|
    requires forall k :: i <= k < |b| ==> IsDigit(b[k])
    ensures DigitRun(b, i) == |b|
    decreases |b| - i
  {
    if i < |b| {
      DigitRunToEnd(b, i + 1);
    }
  }

  /** `[d]` at the front of a path becomes `.d`. */
  lemma BracketFront(d: string, q: string)
    requires IsDigits(d)
    ensures NormalizePath("[" + d + "]" + q) == "." + d + NormalizePath(q)
  {
    var s := "[" + d + "]" + q;
    var b := "[" + d;
    assert s == b + ("]" + q);
    DigitRunStops(b, "]" + q, 1);
    assert forall k :: 1 <= k < |b| ==> b[k] == d[k - 1];
    DigitRunToEnd(b, 1);
    assert BracketAt(s);
    assert s[1..1 + |d|] == d && s[2 + |d|..] == q;
  }

  /** `.d` at the front of a path is kept. */
  lemma DotFront(d: string, q: string)
    requires IsDigits(d)
    ensures NormalizePath("." + d + q) == "." + d + NormalizePath(q)
  {
    var t := "." + d + q;
    assert t[1..] == d + q;
    DigitsPassThrough(d, q);
  }

  /** Two tails that normalise alike, neither of which can complete a
      bracket begun before it, normalise alike after any common prefix. */
  lemma {:induction false} SamePrefixSameNormal(p: string, x1: string, x2: string)
    requires x1 != [] && !IsDigit(x1[0]) && x1[0] != ']'
    requires x2 != [] && !IsDigit(x2[0]) && x2[0] != ']'
    requires NormalizePath(x1) == NormalizePath(x2)
    ensures NormalizePath(p + x1) == NormalizePath(p + x2)
    decreases |p|
  {
    if p == [] {
      assert p + x1 == x1 && p + x2 == x2;
    } else {
      NormalizeConcat(p, x1);
      NormalizeConcat(p, x2);
      if BracketAt(p) {
        SamePrefixSameNormal(p[DigitRun(p, 1) + 1..], x1, x2);
      } else {
        SamePrefixSameNormal(p[1..], x1, x2);
      }
    }
  }

  lemma BracketSameAsDot(p: string, d: string, q: string)
    requires IsDigits(d)
    ensures NormalizePath(p + "[" + d + "]" + q) == NormalizePath(p + "." + d + q)
  {
    var x1, x2 := "[" + d + "]" + q, "." + d + q;
    assert p + "[" + d + "]" + q == p + x1;
    assert p + "." + d + q == p + x2;
    BracketFront(d, q);
    DotFront(d, q);
    SamePrefixSameNormal(p, x1, x2);
  }

  /** A path without brackets is left as it is. */
  lemma {:induction false} NoBracketUnchanged(s: string)
    requires forall i :: 0 <= i < |s| ==> s[i] != '['
    ensures NormalizePath(s) == s
    decreases |s|
  {
    if s != [] {
      NoBracketUnchanged(s[1..]);
    }
  }

  /** The path of a member under a prefix. */
  function Under(prefix: string, key: string): string {
    if prefix != "" then prefix + "." + key else key
  }

  lemma StartsWithTrans(s: string, t: string, u: string)
    requires StartsWith(s, t) && StartsWith(t, u)
    ensures StartsWith(s, u)
  {
    assert s[..|u|] == t[..|t|][..|u|];
  }
}
