/**
 * The `${name}` placeholder replacement all three engines apply to a
 * formula before handing it to the evaluator: JavaScript's
 * `formula.replace(/\${([\w.]+)}/g, callback)`.  The engines differ only in
 * the callback, which here returns `None` where the source's callback
 * throws.
 */
module Template {
  import opened Wrappers
  import opened Strings

  /** The characters of `[\w.]`. */
  predicate IsKeyChar(c: char) {
    IsLetter(c) || IsDigit(c) || c == '_' || c == '.'
  }

  /** A name the placeholder pattern captures. */
  predicate IsKey(k: string) {
    |k| > 0 && forall i :: 0 <= i < |k| ==> IsKeyChar(k[i])
  }

  /** The end of the run of `[\w.]` characters that starts at `i`. */
  function KeyEnd(s: string, i: nat): (j: nat)
    requires i <= |s|
    ensures i <= j <= |s|
    ensures forall k :: i <= k < j ==> IsKeyChar(s[k])
    ensures j == |s| || !IsKeyChar(s[j])
    decreases |s| - i
  {
    if i < |s| && IsKeyChar(s[i]) then KeyEnd(s, i + 1) else i
  }

  /** `s` starts with a placeholder: `${`, a non-empty key and `}`. */
  predicate PlaceholderAt(s: string) {
    |s| >= 2 && s[0] == '$' && s[1] == '{' && 2 < KeyEnd(s, 2) < |s| && s[KeyEnd(s, 2)] == '}'
  }

  /** Every placeholder, scanned from the left, replaced by what `f` gives
      for its key; `None` when `f` fails on one of them. */
  function Replace(s: string, f: string -> Option<string>): Option<string>
    decreases |s|
  {
    if s == [] then Some([])
    else if PlaceholderAt(s) then
      var j := KeyEnd(s, 2);
      var x := f(s[2..j]);
      var rest := Replace(s[j + 1..], f);
      if x.None? || rest.None? then None else Some(x.value + rest.value)
    else
      var rest := Replace(s[1..], f);
      if rest.None? then None else Some([s[0]] + rest.value)
  }

  lemma {:induction false} KeyEndOfKey(k: string, rest: string)
    requires IsKey(k)
    ensures KeyEnd("${" + k + "}" + rest, 2) == 2 + |k|
  {
    var s := "${" + k + "}" + rest;
    KeyEndFrom(s, 2, 2 + |k|);
  }

  lemma {:induction false} KeyEndFrom(s: string, i: nat, j: nat)
    requires i <= j < |s| && !IsKeyChar(s[j])
    requires forall k :: i <= k < j ==> IsKeyChar(s[k])
    ensures KeyEnd(s, i) == j
    decreases j - i
  {
    if i < j {
      KeyEndFrom(s, i + 1, j);
    }
  }

  /** A leading placeholder is replaced by the callback's text for its key,
      and the scan goes on right after its closing brace. */
  lemma ReplaceLeading(k: string, rest: string, f: string -> Option<string>)
    requires IsKey(k)
    ensures var r := Replace("${" + k + "}" + rest, f);
      r.Some? <==> f(k).Some? && Replace(rest, f).Some?
    ensures var r := Replace("${" + k + "}" + rest, f);
      r.Some? ==> r.value == f(k).value + Replace(rest, f).value
  {
    var s := "${" + k + "}" + rest;
    KeyEndOfKey(k, rest);
    assert s[2..2 + |k|] == k;
    assert s[3 + |k|..] == rest;
  }

  /** Text that holds no `$` is left as it is. */
  lemma {:induction false} ReplaceNoDollar(s: string, f: string -> Option<string>)
    requires forall i :: 0 <= i < |s| ==> s[i] != '$'
    ensures Replace(s, f) == Some(s)
  {
    if s != [] {
      ReplaceNoDollar(s[1..], f);
      assert [s[0]] + s[1..] == s;
    }
  }

  /** A callback that never fails gives a replacement that never fails. */
  lemma {:induction false} ReplaceTotal(s: string, f: string -> Option<string>)
    requires forall k :: f(k).Some?
    ensures Replace(s, f).Some?
    decreases |s|
  {
    if s != [] {
      if PlaceholderAt(s) {
        ReplaceTotal(s[KeyEnd(s, 2) + 1..], f);
      } else {
        ReplaceTotal(s[1..], f);
      }
    }
  }
}
