/**
 * The workflow engine of src/lib/workflow.ts: a fan-out path resolver, the
 * evaluation of logic blocks with their condition fold, and calculations
 * run in order over a context that each of them extends.
 */
module LibWorkflow {
  import opened Wrappers
  import opened Strings
  import opened Js
  import opened WorkflowTypes
  import opened Paths
  import opened Operands
  import Template

  // ---------------------------------------------------------------------
  // Paths

  /** The items of `results.flat()`: array results are spliced in, one level. */
  function Flatten(rs: seq<Json>): seq<Json> {
    if rs == [] then [] else Spill(rs[0]) + Flatten(rs[1..])
  }

  function Spill(x: Json): seq<Json> {
    if x.Arr? then x.items else [x]
  }

  /** `rs.filter(x => x !== undefined)` */
  function Defined(rs: seq<Json>): (r: seq<Json>)
    ensures forall i :: 0 <= i < |r| ==> r[i] != Undefined
  {
    if rs == [] then [] else (if rs[0].Undefined? then [] else [rs[0]]) + Defined(rs[1..])
  }

  /** `traverse(current, keys)`: a numeric key indexes an array, any other
      key is looked up in every element of it. */
  function Traverse(cur: Json, keys: seq<string>): Json
    decreases |keys|, cur
  {
    if keys == [] then cur
    else if cur.Null? || cur.Undefined? then Undefined
    else match cur
      case Arr(items) =>
        if IsDigits(keys[0]) then Traverse(Value(items, DigitsValue(keys[0])), keys[1..])
        else Arr(Defined(Flatten(seq(|items|, i requires 0 <= i < |items| => Traverse(items[i], keys)))))
      case Obj(fs) => Traverse(Get(fs, keys[0]), keys[1..])
      case _ => Undefined
  }

  /** `getNestedValue(obj, path)` */
  function GetNestedValue(obj: Json, path: string): Json {
    Traverse(obj, Split(NormalizePath(path), "."))
  }

  /** Writing an index as `[n]` or as `.n` makes no difference:
      `a[0].b` and `a.0.b` name the same value. */
  lemma BracketIndexIsDotIndex(obj: Json, p: string, d: string, q: string)
    requires IsDigits(d)
    ensures GetNestedValue(obj, p + "[" + d + "]" + q) == GetNestedValue(obj, p + "." + d + q)
  {
    BracketSameAsDot(p, d, q);
  }

  /** How a traversal ends: keys exhausted yield the cursor itself (a whole
      array included); a `null` or `undefined` cursor and a scalar cursor
      with keys left yield `undefined`. */
  lemma TraverseEnds(cur: Json, keys: seq<string>)
    ensures keys == [] ==> Traverse(cur, keys) == cur
    ensures keys != [] && !(cur.Arr? || cur.Obj?) ==> Traverse(cur, keys) == Undefined
  {
  }

  /** A numeric key indexes the array; past its end the value is `undefined`. */
  lemma TraverseIndex(items: seq<Json>, k: string, rest: seq<string>)
    requires IsDigits(k)
    ensures DigitsValue(k) < |items| ==> Traverse(Arr(items), [k] + rest) == Traverse(items[DigitsValue(k)], rest)
    ensures DigitsValue(k) >= |items| ==> Traverse(Arr(items), [k] + rest) == Undefined
  {
    assert ([k] + rest)[1..] == rest;
    if DigitsValue(k) >= |items| {
      TraverseEnds(Undefined, rest);
    }
  }

  lemma {:induction false} FlattenMembers(rs: seq<Json>, x: Json)
    ensures x in Flatten(rs) <==> exists i :: 0 <= i < |rs| && x in Spill(rs[i])
  {
    if rs != [] {
      FlattenMembers(rs[1..], x);
      if x in Flatten(rs[1..]) {
        var i :| 0 <= i < |rs[1..]| && x in Spill(rs[1..][i]);
        assert x in Spill(rs[i + 1]);
      }
      if exists i :: 0 <= i < |rs| && x in Spill(rs[i]) {
        var i :| 0 <= i < |rs| && x in Spill(rs[i]);
        if i > 0 {
          assert x in Spill(rs[1..][i - 1]);
        }
      }
    }
  }

  lemma {:induction false} DefinedMembers(rs: seq<Json>, x: Json)
    ensures x in Defined(rs) <==> x in rs && x != Undefined
  {
    if rs != [] {
      DefinedMembers(rs[1..], x);
      assert rs == [rs[0]] + rs[1..];
    }
  }

  /** A non-numeric key on an array looks into every element: the result is
      an array holding exactly the defined values the elements yield, the
      array-valued ones spliced in one level. */
  lemma FanOut(items: seq<Json>, keys: seq<string>, x: Json)
    requires keys != [] && !IsDigits(keys[0])
    ensures Traverse(Arr(items), keys).Arr?
    ensures x in Traverse(Arr(items), keys).items <==>
      x != Undefined && exists i :: 0 <= i < |items| && x in Spill(Traverse(items[i], keys))
  {
    var rs := seq(|items|, i requires 0 <= i < |items| => Traverse(items[i], keys));
    var t := Traverse(Arr(items), keys);
    assert t == Arr(Defined(Flatten(rs)));
    DefinedMembers(Flatten(rs), x);
    FlattenMembers(rs, x);
    if x in t.items {
      var i :| 0 <= i < |rs| && x in Spill(rs[i]);
      assert rs[i] == Traverse(items[i], keys);
    }
    if x != Undefined && exists i :: 0 <= i < |items| && x in Spill(Traverse(items[i], keys)) {
      var i :| 0 <= i < |items| && x in Spill(Traverse(items[i], keys));
      assert x in Spill(rs[i]);
    }
  }

  lemma NoDot(s: string)
    requires forall i :: 0 <= i < |s| ==> s[i] != '.'
    ensures !Contains(s, ".")
  {
    forall k: nat | k < |s| ensures !OccursAt(s, ".", k) {
      assert s[k..k + 1][0] == s[k];
    }
  }

  /** A plain path segment: no dot and no bracket. */
  predicate Plain(s: string) {
    forall i :: 0 <= i < |s| ==> s[i] != '.' && s[i] != '['
  }

  /** A document holding a list of two records under `k`, each with a
      numeric field `f`: `{k: [{f: a}, {f: b}]}`. */
  function ListDoc(k: string, f: string, a: int, b: int): Json {
    Obj([(k, Arr([Obj([(f, Num(a))]), Obj([(f, Num(b))])]))])
  }

  /** The key list of `k.f`. */
  lemma PlainPath(k: string, f: string)
    requires Plain(k) && Plain(f)
    ensures Split(NormalizePath(k + "." + f), ".") == [k, f]
  {
    NoDot(k);
    NoDot(f);
    NoBracketUnchanged(k + "." + f);
    SplitAfterPiece(k, ".", f);
    SplitWithout(f, ".");
  }

  /** The key list of `k[d].f`. */
  lemma IndexedPath(k: string, d: string, f: string)
    requires Plain(k) && Plain(f) && IsDigits(d)
    ensures Split(NormalizePath(k + "[" + d + "]." + f), ".") == [k, d, f]
  {
    assert k + "[" + d + "]." + f == k + "[" + d + "]" + ("." + f);
    BracketSameAsDot(k, d, "." + f);
    var p := k + "." + d + ("." + f);
    assert p == k + "." + (d + "." + f);
    assert p == (k + "." + d) + "." + f;
    assert Plain(d) by {
      forall i | 0 <= i < |d| ensures d[i] != '.' && d[i] != '[' {
        assert IsDigit(d[i]);
      }
    }
    NoBracketUnchanged(p);
    NoDot(k);
    NoDot(d);
    NoDot(f);
    SplitAfterPiece(k, ".", d + "." + f);
    SplitAfterPiece(d, ".", f);
    SplitWithout(f, ".");
  }

  lemma TwoScalars(x: Json, y: Json)
    requires !x.Arr? && !y.Arr? && !x.Undefined? && !y.Undefined?
    ensures Defined(Flatten([x, y])) == [x, y]
  {
    var r2 := [y];
    assert [x, y][1..] == r2 && r2[1..] == [];
    assert Flatten(r2) == r2;
    assert Flatten([x, y]) == [x, y];
    assert Defined(r2) == r2;
  }

  /** `items.v` on a list of records collects the `v` of every element. */
  lemma ListFanOutExample(k: string, f: string, a: int, b: int)
    requires Plain(k) && Plain(f) && !IsDigits(f)
    ensures GetNestedValue(ListDoc(k, f, a, b), k + "." + f) == Arr([Num(a), Num(b)])
  {
    var e1, e2 := Obj([(f, Num(a))]), Obj([(f, Num(b))]);
    PlainPath(k, f);
    var kf := [f];
    assert [k, f][1..] == kf && kf[1..] == [];
    assert Traverse(e1, kf) == Traverse(Num(a), []) == Num(a);
    assert Traverse(e2, kf) == Traverse(Num(b), []) == Num(b);
    var rs := seq(2, i requires 0 <= i < 2 => Traverse([e1, e2][i], kf));
    assert rs == [Num(a), Num(b)];
    TwoScalars(Num(a), Num(b));
    assert Traverse(Arr([e1, e2]), kf) == Arr(rs);
    assert Traverse(ListDoc(k, f, a, b), [k, f]) == Traverse(Arr([e1, e2]), kf);
  }

  /** `items[0].v` takes the first element's `v`; `items[5].v`, past the
      end of the list, is `undefined`. */
  lemma ListIndexExample(k: string, f: string, a: int, b: int)
    requires Plain(k) && Plain(f)
    ensures GetNestedValue(ListDoc(k, f, a, b), k + "[0]." + f) == Num(a)
    ensures GetNestedValue(ListDoc(k, f, a, b), k + "[5]." + f) == Undefined
  {
    var e1, e2 := Obj([(f, Num(a))]), Obj([(f, Num(b))]);
    assert IsDigits("0") && DigitsValue("0") == 0;
    assert IsDigits("5") && DigitsValue("5") == 5;
    assert k + "[0]." + f == k + "[" + "0" + "]." + f;
    assert k + "[5]." + f == k + "[" + "5" + "]." + f;
    IndexedPath(k, "0", f);
    IndexedPath(k, "5", f);
    var kf := [f];
    assert [k, "0", f][1..] == ["0"] + kf && [k, "5", f][1..] == ["5"] + kf;
    TraverseIndex([e1, e2], "0", kf);
    TraverseIndex([e1, e2], "5", kf);
    assert kf[1..] == [];
  }

  // ---------------------------------------------------------------------
  // Operators

  /** The list `in` looks in: an array operand as it is, a string operand
      split on commas with each piece trimmed, anything else empty. */
  function ListOf(values: seq<Json>): (r: seq<Json>)
    ensures Value(values, 0).Arr? ==> r == Value(values, 0).items
    ensures Value(values, 0).Str? ==>
      var parts := Split(Value(values, 0).s, ",");
      |r| == |parts| && forall i :: 0 <= i < |parts| ==> r[i] == Str(Trim(parts[i]))
    ensures !Value(values, 0).Arr? && !Value(values, 0).Str? ==> r == []
  {
    var x := Value(values, 0);
    if x.Arr? then x.items
    else if x.Str? then
      var parts := Split(x.s, ",");
      seq(|parts|, i requires 0 <= i < |parts| => Str(Trim(parts[i])))
    else []
  }

  /** An array operand is searched as it is, and a string of trimmed,
      comma-free items joined by commas is read back as exactly those
      items. */
  lemma ListOfJoin(items: seq<string>, js: seq<Json>, rest: seq<Json>)
    requires |items| > 0
    requires forall i :: 0 <= i < |items| ==> IsTrimmed(items[i]) && !Contains(items[i], ",")
    ensures ListOf([Arr(js)] + rest) == js
    ensures ListOf([Str(Join(items, ","))] + rest) == seq(|items|, i requires 0 <= i < |items| => Str(items[i]))
  {
    assert ListOf([Arr(js)] + rest) == js by {
      assert Value([Arr(js)] + rest, 0) == Arr(js);
    }
    var vs := [Str(Join(items, ","))] + rest;
    assert ListOf(vs) == seq(|items|, i requires 0 <= i < |items| => Str(items[i])) by {
      assert Value(vs, 0) == Str(Join(items, ","));
      SplitJoin(items, ",");
      forall i | 0 <= i < |items| ensures Trim(items[i]) == items[i] {
        TrimOfTrimmed(items[i]);
      }
    }
  }

  /** The values `in` checks: an array's elements, an object's member
      values, or the value itself. */
  function ValuesToCheck(v: Json): seq<Json> {
    if v.Arr? then v.items else if v.Obj? then Values(v.fields) else [v]
  }

  /** `list.some(item => normalized(item) === normalized(value))` */
  function SomeItemMatches(list: seq<Json>, value: Json): bool {
    if list == [] then false
    else Normalized(list[0]) == Normalized(value) || SomeItemMatches(list[1..], value)
  }

  /** `values.some(value => list.some(...))` */
  function SomeValueMatches(vals: seq<Json>, list: seq<Json>): bool {
    if vals == [] then false
    else SomeItemMatches(list, vals[0]) || SomeValueMatches(vals[1..], list)
  }

  lemma {:induction false} SomeItemMatchesIff(list: seq<Json>, value: Json)
    ensures SomeItemMatches(list, value) <==>
      exists j :: 0 <= j < |list| && Normalized(list[j]) == Normalized(value)
  {
    if list != [] {
      SomeItemMatchesIff(list[1..], value);
      if exists j :: 0 <= j < |list| && Normalized(list[j]) == Normalized(value) {
        var j :| 0 <= j < |list| && Normalized(list[j]) == Normalized(value);
        if j > 0 {
          assert Normalized(list[1..][j - 1]) == Normalized(value);
        }
      }
    }
  }

  /** `in` holds exactly when some checked value and some list item have the
      same normalised text. */
  lemma {:induction false} InIff(vals: seq<Json>, list: seq<Json>)
    ensures SomeValueMatches(vals, list) <==>
      exists i, j :: 0 <= i < |vals| && 0 <= j < |list| && Normalized(vals[i]) == Normalized(list[j])
  {
    if vals != [] {
      InIff(vals[1..], list);
      SomeItemMatchesIff(list, vals[0]);
      if exists i, j :: 0 <= i < |vals| && 0 <= j < |list| && Normalized(vals[i]) == Normalized(list[j]) {
        var i, j :| 0 <= i < |vals| && 0 <= j < |list| && Normalized(vals[i]) == Normalized(list[j]);
        if i > 0 {
          assert Normalized(vals[1..][i - 1]) == Normalized(list[j]);
        }
      }
    }
  }

  /** The result of one operation on a resolved value; `None` for the
      operations the switch has no case for, which record nothing. */
  function Evaluate(op: Operation, v: Json, values: seq<Json>): (r: Option<bool>)
    ensures r.None? <==> op.Direct? || op.Transform? || op.Calculate?
  {
    match op
    case Equal => Some(Normalized(v) == OperandText(values))
    case Neq => Some(Normalized(v) != OperandText(values))
    case Gt => Some(Greater(ToNumber(v), NumOperand(values, 0)))
    case Gte => Some(AtLeast(ToNumber(v), NumOperand(values, 0)))
    case Lt => Some(Less(ToNumber(v), NumOperand(values, 0)))
    case Lte => Some(AtMost(ToNumber(v), NumOperand(values, 0)))
    case In => Some(SomeValueMatches(ValuesToCheck(v), ListOf(values)))
    case Is => Some(if Value(values, 0) == Str("null") then v == Null else v != Null)
    case Between =>
      Some(AtLeast(ToNumber(v), NumOperand(values, 0)) && AtMost(ToNumber(v), NumOperand(values, 1)))
    case Has => Some(Contains(Lower(ToStr(v)), Lower(ToStr(OrElse(Value(values, 0), Str(""))))))
    case _ => None
  }

  /** `equal` and `neq` are each other's negation. */
  lemma EqualNeqOpposite(v: Json, values: seq<Json>)
    ensures Evaluate(Neq, v, values).value == !Evaluate(Equal, v, values).value
  {
  }

  /** With a string input, `in` holds exactly when the input is one of the
      list items. */
  lemma InScalarString(s: string, values: seq<Json>)
    requires Value(values, 0).Str?
    ensures Evaluate(In, Str(s), values).value <==> Str(s) in ListOf(values)
  {
    EvaluateIn(Str(s), values);
    assert ValuesToCheck(Str(s)) == [Str(s)];
    StringMatch(s, ListOf(values));
  }

  lemma EvaluateIn(v: Json, values: seq<Json>)
    ensures Evaluate(In, v, values) == Some(SomeValueMatches(ValuesToCheck(v), ListOf(values)))
  {
  }

  lemma StringMatch(s: string, l: seq<Json>)
    requires forall j :: 0 <= j < |l| ==> l[j].Str?
    ensures SomeValueMatches([Str(s)], l) <==> Str(s) in l
  {
    InIff([Str(s)], l);
    if SomeValueMatches([Str(s)], l) {
      var i, j :| 0 <= i < 1 && 0 <= j < |l| && Normalized([Str(s)][i]) == Normalized(l[j]);
      assert l[j] == Str(s);
    }
    if Str(s) in l {
      var j :| 0 <= j < |l| && l[j] == Str(s);
      assert Normalized([Str(s)][0]) == Normalized(l[j]);
    }
  }

  // ---------------------------------------------------------------------
  // Logic blocks

  /** An entry of `debug.logicBlocks` (its `expected` member is not kept). */
  datatype DebugEntry = DebugEntry(name: string, operation: Operation, input: Json, result: bool)

  /** What each condition contributes to the fold; a condition whose input
      does not resolve is skipped. */
  function Steps(conds: seq<Condition>, input: Json): (r: seq<Step>)
    ensures |r| == |conds|
    ensures forall i :: 0 <= i < |conds| ==> r[i].op == conds[i].operator
    ensures forall i :: 0 <= i < |conds| ==>
      (r[i].result.None? <==> !Resolved(conds[i], input)) &&
      (r[i].result.Some? ==> r[i].result.value == CondResult(conds[i], input))
  {
    seq(|conds|, i requires 0 <= i < |conds| =>
      Step(conds[i].operator, if Resolved(conds[i], input) then Some(CondResult(conds[i], input)) else None))
  }

  function FoldConditions(primary: bool, conds: seq<Condition>, input: Json): bool {
    Fold(primary, Steps(conds, input))
  }

  /** The debug entries the conditions record. */
  function ConditionLog(conds: seq<Condition>, input: Json, name: string): seq<DebugEntry>
    decreases |conds|
  {
    if conds == [] then []
    else
      var log := ConditionLog(conds[..|conds| - 1], input, name);
      var c := conds[|conds| - 1];
      var cv := GetNestedValue(input, c.input_name);
      var r := Evaluate(c.operation, cv, c.values);
      if cv.Undefined? || r.None? then log else log + [DebugEntry(name + " (condition)", c.operation, cv, r.value)]
  }

  /** A condition takes part in the fold when its input resolves. */
  predicate Resolved(c: Condition, input: Json) {
    GetNestedValue(input, c.input_name) != Undefined
  }

  function CondResult(c: Condition, input: Json): bool {
    Evaluate(c.operation, GetNestedValue(input, c.input_name), c.values).GetOr(false)
  }

  /** The value `processWorkflow` stores for a block with an output name. */
  function BlockValue(b: LogicBlock, input: Json): Json {
    var v := GetNestedValue(input, b.input_name);
    if v.Undefined? then OrElse(b.default_value, Str(""))
    else if FoldConditions(Evaluate(b.operation, v, b.values).GetOr(false), ConditionsOf(b), input) then Num(1)
    else if !b.default_value.Undefined? then b.default_value
    else Num(0)
  }

  /** The debug entries a block with an output name records. */
  function BlockLog(b: LogicBlock, input: Json): seq<DebugEntry> {
    var v := GetNestedValue(input, b.input_name);
    if v.Undefined? then [DebugEntry(b.output_name, b.operation, Undefined, false)]
    else
      var p := Evaluate(b.operation, v, b.values);
      (if p.Some? then [DebugEntry(b.output_name, b.operation, v, p.value)] else [])
      + ConditionLog(ConditionsOf(b), input, b.output_name)
  }

  /** A block whose input does not resolve stores `default_value || ""` and
      records one failed entry, evaluating none of its conditions. */
  lemma UnresolvedBlock(b: LogicBlock, input: Json)
    requires GetNestedValue(input, b.input_name) == Undefined
    ensures BlockValue(b, input) == (if Truthy(b.default_value) then b.default_value else Str(""))
    ensures |BlockLog(b, input)| == 1 && !BlockLog(b, input)[0].result
  {
  }

  /** A resolved block stores 1 when the fold holds, otherwise its default
      value, or 0 when it has none. */
  lemma ResolvedBlock(b: LogicBlock, input: Json)
    requires GetNestedValue(input, b.input_name) != Undefined
    ensures var r := FoldConditions(Evaluate(b.operation, GetNestedValue(input, b.input_name), b.values).GetOr(false),
                                   ConditionsOf(b), input);
      BlockValue(b, input) == (if r then Num(1) else if b.default_value == Undefined then Num(0) else b.default_value)
  {
  }

  /** `data` after the logic blocks: blocks without an output name are
      skipped, the others store their value under it. */
  function RunBlocks(blocks: seq<LogicBlock>, input: Json): Fields
    decreases |blocks|
  {
    if blocks == [] then []
    else
      var data := RunBlocks(blocks[..|blocks| - 1], input);
      var b := blocks[|blocks| - 1];
      if b.output_name == "" then data else Put(data, b.output_name, BlockValue(b, input))
  }

  function RunBlocksLog(blocks: seq<LogicBlock>, input: Json): seq<DebugEntry>
    decreases |blocks|
  {
    if blocks == [] then []
    else
      var log := RunBlocksLog(blocks[..|blocks| - 1], input);
      var b := blocks[|blocks| - 1];
      if b.output_name == "" then log else log + BlockLog(b, input)
  }

  /** One more block stores its value and appends its entries, unless it
      has no output name. */
  lemma RunBlocksLast(blocks: seq<LogicBlock>, i: nat, input: Json)
    requires i < |blocks|
    ensures RunBlocks(blocks[..i + 1], input) ==
      if blocks[i].output_name == "" then RunBlocks(blocks[..i], input)
      else Put(RunBlocks(blocks[..i], input), blocks[i].output_name, BlockValue(blocks[i], input))
    ensures RunBlocksLog(blocks[..i + 1], input) ==
      if blocks[i].output_name == "" then RunBlocksLog(blocks[..i], input)
      else RunBlocksLog(blocks[..i], input) + BlockLog(blocks[i], input)
  {
    assert blocks[..i + 1][..i] == blocks[..i];
  }

  /** One pass of the block loop, stated on the values before and after it. */
  lemma RunBlocksStep(blocks: seq<LogicBlock>, i: nat, input: Json, data: Fields, log: seq<DebugEntry>, data': Fields, log': seq<DebugEntry>)
    requires i < |blocks|
    requires data == RunBlocks(blocks[..i], input) && log == RunBlocksLog(blocks[..i], input)
    requires data' == if blocks[i].output_name == "" then data else Put(data, blocks[i].output_name, BlockValue(blocks[i], input))
    requires log' == if blocks[i].output_name == "" then log else log + BlockLog(blocks[i], input)
    ensures data' == RunBlocks(blocks[..i + 1], input) && log' == RunBlocksLog(blocks[..i + 1], input)
  {
    RunBlocksLast(blocks, i, input);
  }

  /** Every block with an output name leaves its value there, unless a later
      block writes the same name; the output names are the only keys. */
  lemma {:induction false} BlocksStore(blocks: seq<LogicBlock>, input: Json, i: nat)
    requires i < |blocks| && blocks[i].output_name != ""
    requires forall j :: i < j < |blocks| ==> blocks[j].output_name != blocks[i].output_name
    ensures Get(RunBlocks(blocks, input), blocks[i].output_name) == BlockValue(blocks[i], input)
    decreases |blocks|
  {
    var init := blocks[..|blocks| - 1];
    var b := blocks[|blocks| - 1];
    var name := blocks[i].output_name;
    if i == |init| {
      assert RunBlocks(blocks, input) == Put(RunBlocks(init, input), name, BlockValue(b, input));
    } else {
      assert init[i] == blocks[i];
      BlocksStore(init, input, i);
      if b.output_name == "" {
        assert RunBlocks(blocks, input) == RunBlocks(init, input);
      } else {
        assert b.output_name != name;
        assert RunBlocks(blocks, input) == Put(RunBlocks(init, input), b.output_name, BlockValue(b, input));
        PutOther(RunBlocks(init, input), b.output_name, BlockValue(b, input), name);
      }
    }
  }

  lemma {:induction false} BlocksUnique(blocks: seq<LogicBlock>, input: Json)
    ensures UniqueKeys(RunBlocks(blocks, input))
    decreases |blocks|
  {
    if blocks != [] {
      BlocksUnique(blocks[..|blocks| - 1], input);
      var b := blocks[|blocks| - 1];
      if b.output_name != "" {
        PutUnique(RunBlocks(blocks[..|blocks| - 1], input), b.output_name, BlockValue(b, input));
      }
    }
  }

  // ---------------------------------------------------------------------
  // Calculations

  /** The text a placeholder becomes: `"0"` for a missing or empty value, a
      string in double quotes, anything else as `String(value)`. */
  function VarText(v: Json): string {
    if v.Undefined? || v == Str("") then "0"
    else if v.Str? then "\"" + v.s + "\""
    else ToStr(v)
  }

  /** The placeholder callback: the text of the variable's value in the context. */
  function ContextVar(context: Fields): string -> Option<string> {
    k => Some(VarText(GetNestedValue(Obj(context), k)))
  }

  /** The formula with its placeholders replaced from the context; the
      callback never throws, so neither does the replacement. */
  function Substitute(formula: string, context: Fields): string {
    Template.ReplaceTotal(formula, ContextVar(context));
    Template.Replace(formula, ContextVar(context)).value
  }

  /** A missing or empty variable is written as `0`. */
  lemma MissingVariableIsZero(k: string, rest: string, context: Fields)
    requires Template.IsKey(k)
    requires GetNestedValue(Obj(context), k) == Undefined || GetNestedValue(Obj(context), k) == Str("")
    ensures Substitute("${" + k + "}" + rest, context) == "0" + Substitute(rest, context)
  {
    var f := ContextVar(context);
    assert f(k) == Some("0");
    Template.ReplaceTotal(rest, f);
    Template.ReplaceLeading(k, rest, f);
  }

  /** `finalResult`: a string of digits becomes its number. */
  function CalcResult(r: Option<Json>): (v: Json)
    ensures r.None? ==> v == Num(0)
    ensures !(v.Str? && IsDigits(v.s))
    ensures r.Some? && r.value.Str? && IsDigits(r.value.s) ==> v == Num(DigitsValue(r.value.s))
    ensures r.Some? && !(r.value.Str? && IsDigits(r.value.s)) ==> v == r.value
  {
    if r.None? then Num(0)
    else if r.value.Str? && IsDigits(r.value.s) then Num(DigitsValue(r.value.s))
    else r.value
  }

  datatype CalcState = CalcState(data: Fields, context: Fields)

  /** One calculation: its result, or 0 when evaluation throws, goes into
      both the data and the context. */
  function CalcStep(st: CalcState, c: Calculation, eval: string -> Option<Json>): CalcState {
    if c.output_name == "" then st
    else
      var v := CalcResult(eval(Substitute(c.formula, st.context)));
      CalcState(Put(st.data, c.output_name, v), Put(st.context, c.output_name, v))
  }

  /** The step function of the calculation loop. */
  function CalcStepper(eval: string -> Option<Json>): (CalcState, Calculation) -> CalcState {
    (st, c) => CalcStep(st, c, eval)
  }

  function RunCalcs(calcs: seq<Calculation>, st: CalcState, eval: string -> Option<Json>): CalcState {
    Iterate(CalcStepper(eval), calcs, st)
  }

  /** The last calculation runs on the state the ones before it leave. */
  lemma RunCalcsLast(calcs: seq<Calculation>, st: CalcState, eval: string -> Option<Json>)
    requires calcs != []
    ensures RunCalcs(calcs, st, eval) ==
      CalcStep(RunCalcs(calcs[..|calcs| - 1], st, eval), calcs[|calcs| - 1], eval)
  {
  }

  /** Calculations run in declaration order: running a list is running its
      first part, then the rest on the state that part leaves. */
  lemma CalcsInOrder(c1: seq<Calculation>, c2: seq<Calculation>, st: CalcState, eval: string -> Option<Json>)
    ensures RunCalcs(c1 + c2, st, eval) == RunCalcs(c2, RunCalcs(c1, st, eval), eval)
  {
    IterateAppend(CalcStepper(eval), c1, c2, st);
  }

  /** The context agrees with the data on every key the data holds. */
  ghost predicate InSync(st: CalcState) {
    forall k :: HasKey(st.data, k) ==> Get(st.context, k) == Get(st.data, k)
  }

  /** Writing one result into both the data and the context keeps them in
      step. */
  lemma PutKeepsSync(st: CalcState, key: string, v: Json)
    requires InSync(st)
    ensures InSync(CalcState(Put(st.data, key, v), Put(st.context, key, v)))
  {
    forall k | HasKey(Put(st.data, key, v), k)
      ensures Get(Put(st.context, key, v), k) == Get(Put(st.data, key, v), k)
    {
      PutHasKey(st.data, key, v, k);
      if k != key {
        PutOther(st.data, key, v, k);
        PutOther(st.context, key, v, k);
      }
    }
  }

  /** Every calculation sees every earlier result: the context stays in
      step with the data through all calculations. */
  lemma {:induction false} CalcsKeepSync(calcs: seq<Calculation>, st: CalcState, eval: string -> Option<Json>)
    requires InSync(st)
    ensures InSync(RunCalcs(calcs, st, eval))
    decreases |calcs|
  {
    if calcs != [] {
      var init, c := calcs[..|calcs| - 1], calcs[|calcs| - 1];
      CalcsKeepSync(init, st, eval);
      var s := RunCalcs(init, st, eval);
      RunCalcsLast(calcs, st, eval);
      if c.output_name != "" {
        PutKeepsSync(s, c.output_name, CalcResult(eval(Substitute(c.formula, s.context))));
      }
    }
  }

  /** The state the calculations start from: the blocks' data, and the
      parsed input overlaid with it as the context. */
  function StartState(input: Json, blocks: seq<LogicBlock>): CalcState {
    var data := RunBlocks(blocks, input);
    CalcState(data, Overlay(Spread(input), data))
  }

  lemma StartInSync(input: Json, blocks: seq<LogicBlock>)
    ensures InSync(StartState(input, blocks))
  {
    var data := RunBlocks(blocks, input);
    BlocksUnique(blocks, input);
    forall k | HasKey(data, k) ensures Get(Overlay(Spread(input), data), k) == Get(data, k) {
      OverlayGet(Spread(input), data, k);
    }
  }

  /** `data` as `processWorkflow` returns it. */
  function Outputs(input: Json, blocks: seq<LogicBlock>, calcs: seq<Calculation>, eval: string -> Option<Json>): Fields {
    RunCalcs(calcs, StartState(input, blocks), eval).data
  }

  /** After all calculations, each result is visible in the context under
      its name, so a later calculation's placeholders can read it. */
  lemma ResultsVisible(input: Json, blocks: seq<LogicBlock>, calcs: seq<Calculation>, eval: string -> Option<Json>, k: string)
    requires HasKey(Outputs(input, blocks, calcs, eval), k)
    ensures Get(RunCalcs(calcs, StartState(input, blocks), eval).context, k) == Get(Outputs(input, blocks, calcs, eval), k)
  {
    StartInSync(input, blocks);
    CalcsKeepSync(calcs, StartState(input, blocks), eval);
  }

  // ---------------------------------------------------------------------
  // The engine

  /** A condition added at the end updates the fold by its own result, or
      leaves it when its input does not resolve. */
  lemma FoldConditionsLast(primary: bool, conds: seq<Condition>, j: nat, input: Json)
    requires j < |conds|
    ensures FoldConditions(primary, conds[..j + 1], input) ==
      if Resolved(conds[j], input)
      then Combine(conds[j].operator, FoldConditions(primary, conds[..j], input), CondResult(conds[j], input))
      else FoldConditions(primary, conds[..j], input)
  {
    var st := Steps(conds[..j + 1], input);
    assert st[..j] == Steps(conds[..j], input);
    assert st[j].op == conds[j].operator;
  }

  /** A condition added at the end records one entry when its input
      resolves and its operation has a case. */
  lemma ConditionLogLast(conds: seq<Condition>, j: nat, input: Json, name: string)
    requires j < |conds|
    ensures var cv := GetNestedValue(input, conds[j].input_name);
      var r := Evaluate(conds[j].operation, cv, conds[j].values);
      ConditionLog(conds[..j + 1], input, name) ==
        if cv.Undefined? || r.None? then ConditionLog(conds[..j], input, name)
        else ConditionLog(conds[..j], input, name) + [DebugEntry(name + " (condition)", conds[j].operation, cv, r.value)]
  {
    assert conds[..j + 1][..j] == conds[..j];
  }

  /** The `block.conditions?.forEach` loop. */
  method EvaluateConditions(primary: bool, conds: seq<Condition>, input: Json, name: string)
    returns (finalResult: bool, log: seq<DebugEntry>)
    ensures finalResult == FoldConditions(primary, conds, input)
    ensures log == ConditionLog(conds, input, name)
  {
    finalResult := primary;
    log := [];
    var j := 0;
    while j < |conds|
      invariant 0 <= j <= |conds|
      invariant finalResult == FoldConditions(primary, conds[..j], input)
      invariant log == ConditionLog(conds[..j], input, name)
    {
      var c := conds[j];
      FoldConditionsLast(primary, conds, j, input);
      ConditionLogLast(conds, j, input, name);
      var cv := GetNestedValue(input, c.input_name);
      if cv != Undefined {
        var r := Evaluate(c.operation, cv, c.values);
        if r.Some? {
          log := log + [DebugEntry(name + " (condition)", c.operation, cv, r.value)];
        }
        if c.operator == And {
          finalResult := finalResult && r.GetOr(false);
        } else {
          finalResult := finalResult || r.GetOr(false);
        }
      }
      j := j + 1;
    }
    assert conds[..j] == conds;
  }

  /** One logic block with an output name: the value stored under it and
      the debug entries recorded. */
  method EvaluateBlock(b: LogicBlock, input: Json) returns (value: Json, log: seq<DebugEntry>)
    ensures value == BlockValue(b, input)
    ensures log == BlockLog(b, input)
  {
    var v := GetNestedValue(input, b.input_name);
    if v == Undefined {
      value := OrElse(b.default_value, Str(""));
      log := [DebugEntry(b.output_name, b.operation, Undefined, false)];
      return;
    }
    var primary := Evaluate(b.operation, v, b.values);
    log := [];
    if primary.Some? {
      log := [DebugEntry(b.output_name, b.operation, v, primary.value)];
    }
    var finalResult, condLog := EvaluateConditions(primary.GetOr(false), ConditionsOf(b), input, b.output_name);
    log := log + condLog;
    if finalResult {
      value := Num(1);
    } else {
      value := if b.default_value != Undefined then b.default_value else Num(0);
    }
  }

  /** One calculation: its formula with the placeholders replaced from the
      context is evaluated, and the result goes into the data and the context. */
  method RunCalculation(c: Calculation, data0: Fields, context0: Fields, eval: string -> Option<Json>)
    returns (data: Fields, context: Fields)
    ensures CalcState(data, context) == CalcStep(CalcState(data0, context0), c, eval)
  {
    data, context := data0, context0;
    if c.output_name != "" {
      var formula := Substitute(c.formula, context);
      var v := CalcResult(eval(formula));
      data := Put(data, c.output_name, v);
      context := Put(context, c.output_name, v);
    }
  }

  /** The calculation loop of `processWorkflow`: every calculation with an
      output name stores its result in both the data and the context. */
  method RunCalculations(calcs: seq<Calculation>, data0: Fields, context0: Fields, eval: string -> Option<Json>)
    returns (data: Fields, context: Fields)
    ensures CalcState(data, context) == RunCalcs(calcs, CalcState(data0, context0), eval)
  {
    data, context := data0, context0;
    var i := 0;
    while i < |calcs|
      invariant 0 <= i <= |calcs|
      invariant CalcState(data, context) == RunCalcs(calcs[..i], CalcState(data0, context0), eval)
    {
      RunCalcsLast(calcs[..i + 1], CalcState(data0, context0), eval);
      assert calcs[..i + 1][..i] == calcs[..i];
      data, context := RunCalculation(calcs[i], data, context, eval);
      i := i + 1;
    }
    assert calcs[..i] == calcs;
  }

  /** The logic-block loop of `processWorkflow`. */
  method RunLogicBlocks(blocks: seq<LogicBlock>, input: Json) returns (data: Fields, log: seq<DebugEntry>)
    ensures data == RunBlocks(blocks, input)
    ensures log == RunBlocksLog(blocks, input)
  {
    data := [];
    log := [];
    var i := 0;
    while i < |blocks|
      invariant 0 <= i <= |blocks|
      invariant data == RunBlocks(blocks[..i], input)
      invariant log == RunBlocksLog(blocks[..i], input)
    {
      ghost var data0, log0 := data, log;
      data, log := StoreBlock(blocks[i], input, data, log);
      RunBlocksStep(blocks, i, input, data0, log0, data, log);
      i := i + 1;
    }
    assert blocks[..i] == blocks;
  }

  /** One pass of the block loop: a block with an output name stores its
      value and appends its entries. */
  method StoreBlock(b: LogicBlock, input: Json, data: Fields, log: seq<DebugEntry>)
    returns (data': Fields, log': seq<DebugEntry>)
    ensures data' == if b.output_name == "" then data else Put(data, b.output_name, BlockValue(b, input))
    ensures log' == if b.output_name == "" then log else log + BlockLog(b, input)
  {
    data', log' := data, log;
    if b.output_name != "" {
      var value, entries := EvaluateBlock(b, input);
      data' := Put(data, b.output_name, value);
      log' := log + entries;
    }
  }

  /** `processWorkflow` on the parsed input: the blocks, then the
      calculations, in order. */
  method ProcessWorkflow(input: Json, blocks: seq<LogicBlock>, calcs: seq<Calculation>, eval: string -> Option<Json>)
    returns (data: Fields, log: seq<DebugEntry>)
    ensures data == Outputs(input, blocks, calcs, eval)
    ensures log == RunBlocksLog(blocks, input)
  {
    data, log := RunLogicBlocks(blocks, input);
    var context := Overlay(Spread(input), data);
    assert CalcState(data, context) == StartState(input, blocks);
    data, context := RunCalculations(calcs, data, context, eval);
  }
}
