/**
 * Parenthesis balance, the property two scanning loops check: one in the
 * output-section engine before a formula is evaluated, one in the formula
 * validator.  Both count `(` up and `)` down, character by character.
 */
module Parens {

  /** The running count after all of `s`: opening minus closing parentheses. */
  function Depth(s: string): int
    decreases |s|
  {
    if s == [] then 0
    else
      var c := s[|s| - 1];
      Depth(s[..|s| - 1]) + (if c == '(' then 1 else if c == ')' then -1 else 0)
  }

  /** No prefix closes more parentheses than it opens. */
  predicate NeverNegative(s: string) {
    forall k :: 0 <= k <= |s| ==> Depth(s[..k]) >= 0
  }

  /** Balanced: never negative, and back at zero at the end. */
  predicate Balanced(s: string) {
    NeverNegative(s) && Depth(s) == 0
  }

  /** Extending a text by one character moves the count by that character. */
  lemma DepthSnoc(s: string, c: char)
    ensures Depth(s + [c]) == Depth(s) + (if c == '(' then 1 else if c == ')' then -1 else 0)
  {
    assert (s + [c])[..|s|] == s;
  }

  /** A text without parentheses is balanced. */
  lemma {:induction false} NoParensBalanced(s: string)
    requires forall i :: 0 <= i < |s| ==> s[i] != '(' && s[i] != ')'
    ensures Depth(s) == 0
    ensures Balanced(s)
    decreases |s|
  {
    if s != [] {
      var init := s[..|s| - 1];
      NoParensBalanced(init);
    }
    forall k | 0 <= k <= |s| ensures Depth(s[..k]) >= 0 {
      if k < |s| {
        assert forall i :: 0 <= i < k ==> s[..k][i] == s[i];
        NoParensBalanced(s[..k]);
      } else {
        assert s[..k] == s;
      }
    }
  }

  /** Wrapping a balanced text in a pair of parentheses keeps it balanced. */
  lemma {:induction false} WrapBalanced(s: string)
    requires Balanced(s)
    ensures Balanced("(" + s + ")")
  {
    var w := "(" + s + ")";
    forall k | 0 <= k <= |w| ensures Depth(w[..k]) >= 0 {
      if 1 <= k <= |s| + 1 {
        OpenPrefix(s, k - 1);
        assert w[..k] == "(" + s[..k - 1];
        assert Depth(s[..k - 1]) >= 0;
      } else if k == |w| {
        OpenPrefix(s, |s|);
        assert w[..k - 1] == "(" + s[..|s|];
        assert s[..|s|] == s;
        DepthSnoc(w[..k - 1], ')');
        assert w[..k] == w[..k - 1] + [')'];
      } else {
        assert w[..0] == [];
      }
    }
    OpenPrefix(s, |s|);
    assert s[..|s|] == s;
    assert w == ("(" + s) + [')'];
    DepthSnoc("(" + s, ')');
  }

  /** A leading `(` adds one to the count of every prefix after it. */
  lemma {:induction false} OpenPrefix(s: string, k: nat)
    requires k <= |s|
    ensures Depth("(" + s[..k]) == Depth(s[..k]) + 1
    decreases k
  {
    if k == 0 {
      assert "(" + s[..0] == "(";
      assert "("[..0] == [];
    } else {
      OpenPrefix(s, k - 1);
      assert "(" + s[..k] == ("(" + s[..k - 1]) + [s[k - 1]];
      DepthSnoc("(" + s[..k - 1], s[k - 1]);
      assert s[..k] == s[..k - 1] + [s[k - 1]];
      DepthSnoc(s[..k - 1], s[k - 1]);
    }
  }
}
