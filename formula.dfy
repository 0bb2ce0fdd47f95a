/**
 * `validateFormula`: the checks the editor applies to a calculation's
 * formula before it is saved.  The checks run in a fixed order and the
 * first one that fails gives the error.
 */
module Formula {
  import opened Wrappers
  import opened Strings
  import opened Parens

  datatype Validation = Validation(isValid: bool, error: Option<string>)

  function Invalid(message: string): Validation {
    Validation(false, Some(message))
  }

  const Valid := Validation(true, None)

  const AllowedOperators: seq<string> := ["+", "-", "*", "/", "(", ")", ".", "%"]
  const AllowedFunctions: seq<string> := ["sum", "avg", "min", "max", "round", "floor", "ceil"]

  /** The character class `[a-zA-Z0-9\s+\-*\/.()%,]`. */
  predicate IsFormulaChar(c: char) {
    IsLetter(c) || IsDigit(c) || IsSpace(c) || c in "+-*/.()%,"
  }

  predicate AllFormulaChars(s: string) {
    forall i :: 0 <= i < |s| ==> IsFormulaChar(s[i])
  }

  predicate IsWordChar(c: char) {
    IsLetter(c) || IsDigit(c)
  }

  /** The end of the run of letters and digits from `i`. */
  function WordEnd(s: string, i: nat): (j: nat)
    requires i <= |s|
    ensures i <= j <= |s|
    ensures forall k :: i <= k < j ==> IsWordChar(s[k])
    ensures j < |s| ==> !IsWordChar(s[j])
    decreases |s| - i
  {
    if i == |s| || !IsWordChar(s[i]) then i else WordEnd(s, i + 1)
  }

  /** The matches of `/[a-zA-Z][a-zA-Z0-9]*\/g`, left to right. */
  function Identifiers(s: string): seq<string>
    decreases |s|
  {
    if s == [] then []
    else if IsLetter(s[0]) then
      var j := WordEnd(s, 1);
      [s[..j]] + Identifiers(s[j..])
    else Identifiers(s[1..])
  }

  /** The identifiers that are neither an allowed function nor an available
      variable, in order and with repetitions. */
  function Unknown(ids: seq<string>, vars: seq<string>): seq<string> {
    if ids == [] then []
    else (if ids[0] !in AllowedFunctions && ids[0] !in vars then [ids[0]] else []) + Unknown(ids[1..], vars)
  }

  /** The matches of `/[+\-*\/%()]/g`. */
  function OperatorsIn(s: string): seq<string> {
    if s == [] then []
    else (if s[0] in "+-*/%()" then [[s[0]]] else []) + OperatorsIn(s[1..])
  }

  function BadOperators(ops: seq<string>): seq<string> {
    if ops == [] then []
    else (if ops[0] !in AllowedOperators then [ops[0]] else []) + BadOperators(ops[1..])
  }

  /** The error of the parenthesis scan, if any: a prefix that closes more
      than it opens, or parentheses left open at the end. */
  function ParenError(formula: string): Option<string> {
    if !NeverNegative(formula) then Some("Unmatched closing parenthesis")
    else if Depth(formula) > 0 then Some("Unmatched opening parenthesis")
    else None
  }

  /** The identifier check and the operator check. */
  function NameCheck(formula: string, vars: seq<string>): Validation {
    var unknown := Unknown(Identifiers(formula), vars);
    if |unknown| > 0 then Invalid("Unknown variables: " + Join(unknown, ", "))
    else
      var bad := BadOperators(OperatorsIn(formula));
      if |bad| > 0 then Invalid("Invalid operators: " + Join(bad, ", "))
      else Valid
  }

  /** `validateFormula(formula, availableVariables)` */
  function Validate(formula: string, vars: seq<string>): Validation {
    if IsBlank(formula) then Invalid("Formula cannot be empty")
    else if !AllFormulaChars(formula) then Invalid("Formula contains invalid characters")
    else if ParenError(formula).Some? then Invalid(ParenError(formula).value)
    else NameCheck(formula, vars)
  }

  /** The parenthesis loop. */
  method ScanParens(formula: string) returns (error: Option<string>)
    ensures error == ParenError(formula)
  {
    var parentheses := 0;
    var i := 0;
    while i < |formula|
      invariant 0 <= i <= |formula|
      invariant parentheses == Depth(formula[..i])
      invariant forall k :: 0 <= k <= i ==> Depth(formula[..k]) >= 0
    {
      DepthSnoc(formula[..i], formula[i]);
      assert formula[..i + 1] == formula[..i] + [formula[i]];
      if formula[i] == '(' {
        parentheses := parentheses + 1;
      }
      if formula[i] == ')' {
        parentheses := parentheses - 1;
      }
      if parentheses < 0 {
        return Some("Unmatched closing parenthesis");
      }
      i := i + 1;
    }
    assert formula[..i] == formula;
    if parentheses > 0 {
      return Some("Unmatched opening parenthesis");
    }
    return None;
  }

  /** The checks in source order. */
  method ValidateFormula(formula: string, availableVariables: seq<string>) returns (result: Validation)
    ensures result == Validate(formula, availableVariables)
  {
    TrimEmptyIffBlank(formula);
    if Trim(formula) == "" {
      return Invalid("Formula cannot be empty");
    }
    if !(forall i | 0 <= i < |formula| :: IsFormulaChar(formula[i])) {
      return Invalid("Formula contains invalid characters");
    }
    var parenError := ScanParens(formula);
    if parenError.Some? {
      return Invalid(parenError.value);
    }
    var invalidVariables := Unknown(Identifiers(formula), availableVariables);
    if |invalidVariables| > 0 {
      return Invalid("Unknown variables: " + Join(invalidVariables, ", "));
    }
    var invalidOperators := BadOperators(OperatorsIn(formula));
    if |invalidOperators| > 0 {
      return Invalid("Invalid operators: " + Join(invalidOperators, ", "));
    }
    return Valid;
  }

  /** Every identifier is a letter followed by letters and digits. */
  lemma {:induction false} IdentifiersAreWords(s: string)
    ensures forall id :: id in Identifiers(s) ==>
      |id| > 0 && IsLetter(id[0]) && forall k :: 0 <= k < |id| ==> IsWordChar(id[k])
    decreases |s|
  {
    if s != [] {
      if IsLetter(s[0]) {
        var j := WordEnd(s, 1);
        IdentifiersAreWords(s[j..]);
        assert forall k :: 0 <= k < j ==> s[..j][k] == s[k];
      } else {
        IdentifiersAreWords(s[1..]);
      }
    }
  }

  /** An identifier is reported exactly when it is neither an allowed
      function nor an available variable. */
  lemma {:induction false} UnknownMembers(ids: seq<string>, vars: seq<string>, x: string)
    ensures x in Unknown(ids, vars) <==> x in ids && x !in AllowedFunctions && x !in vars
  {
    if ids != [] {
      UnknownMembers(ids[1..], vars, x);
      assert ids == [ids[0]] + ids[1..];
    }
  }

  /** Every operator the operator check finds is an allowed one. */
  lemma {:induction false} OperatorsAllowed(s: string)
    ensures BadOperators(OperatorsIn(s)) == []
  {
    if s != [] {
      OperatorsAllowed(s[1..]);
      var rest := OperatorsIn(s[1..]);
      if s[0] in "+-*/%()" {
        assert OperatorsIn(s) == [[s[0]]] + rest;
        assert [s[0]] in AllowedOperators;
        assert ([[s[0]]] + rest)[1..] == rest;
      } else {
        assert OperatorsIn(s) == [] + rest;
        assert [] + rest == rest;
      }
    }
  }

  /** A formula is valid exactly when it is not blank, uses only the
      allowed characters, has balanced parentheses and names only allowed
      functions and available variables; the operator check never decides. */
  lemma ValidIff(formula: string, vars: seq<string>)
    ensures Validate(formula, vars).isValid <==>
      !IsBlank(formula) && AllFormulaChars(formula) && Balanced(formula) &&
      forall id :: id in Identifiers(formula) ==> id in AllowedFunctions || id in vars
    ensures Validate(formula, vars).isValid <==> Validate(formula, vars).error.None?
  {
    OperatorsAllowed(formula);
    assert formula[..|formula|] == formula;
    forall id | id in Identifiers(formula) {
      UnknownMembers(Identifiers(formula), vars, id);
    }
    var unknown := Unknown(Identifiers(formula), vars);
    if |unknown| > 0 {
      UnknownMembers(Identifiers(formula), vars, unknown[0]);
    }
  }

  /** A word followed by a non-word character, or by nothing, is reported
      whole, and the scan goes on after it. */
  lemma WordThenRest(w: string, rest: string)
    requires |w| > 0 && IsLetter(w[0]) && forall k :: 0 <= k < |w| ==> IsWordChar(w[k])
    requires rest == [] || !IsWordChar(rest[0])
    ensures Identifiers(w + rest) == [w] + Identifiers(rest)
  {
    var s := w + rest;
    WordEndFrom(s, 1, |w|);
    assert s[..|w|] == w;
    assert s[|w|..] == rest;
  }

  lemma {:induction false} WordEndFrom(s: string, i: nat, j: nat)
    requires i <= j <= |s|
    requires forall k :: i <= k < j ==> IsWordChar(s[k])
    requires j == |s| || !IsWordChar(s[j])
    ensures WordEnd(s, i) == j
    decreases j - i
  {
    if i < j {
      WordEndFrom(s, i + 1, j);
    }
  }

  /** Characters other than letters in front are skipped. */
  lemma {:induction false} NonLettersThenRest(p: string, rest: string)
    requires forall k :: 0 <= k < |p| ==> !IsLetter(p[k])
    ensures Identifiers(p + rest) == Identifiers(rest)
    decreases |p|
  {
    if p != [] {
      NonLettersThenRest(p[1..], rest);
      assert (p + rest)[1..] == p[1..] + rest;
    } else {
      assert p + rest == rest;
    }
  }

  lemma ExampleIdentifiers()
    ensures Identifiers("a + b * 2") == ["a", "b"]
  {
    assert "a + b * 2" == "a" + (" + " + ("b" + " * 2"));
    WordThenRest("b", " * 2");
    NonLettersThenRest(" * 2", []);
    assert " * 2" + [] == " * 2";
    NonLettersThenRest(" + ", "b" + " * 2");
    WordThenRest("a", " + " + ("b" + " * 2"));
  }

  lemma ExampleChars()
    ensures !IsBlank("a + b * 2") && AllFormulaChars("a + b * 2")
  {
    var f := "a + b * 2";
    assert !IsSpace(f[0]);
    forall i | 0 <= i < |f| ensures IsFormulaChar(f[i]) {
    }
  }

  /** `'a + b * 2'` with the variables `a` and `b` is valid. */
  lemma ValidExample()
    ensures Validate("a + b * 2", ["a", "b"]) == Valid
  {
    var f := "a + b * 2";
    assert !IsBlank(f) && AllFormulaChars(f) && Balanced(f) by {
      ExampleChars();
      NoParensBalanced(f);
    }
    assert forall id :: id in Identifiers(f) ==> id in AllowedFunctions || id in ["a", "b"] by {
      ExampleIdentifiers();
    }
    ValidIff(f, ["a", "b"]);
  }

  /** `'a + b $ 2'` is rejected for its `$`. */
  lemma InvalidCharExample()
    ensures Validate("a + b $ 2", ["a", "b"]) == Invalid("Formula contains invalid characters")
  {
    var f := "a + b $ 2";
    assert !IsSpace(f[0]);
    assert !IsFormulaChar(f[6]);
  }
}
