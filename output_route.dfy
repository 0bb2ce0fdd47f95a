/**
 * The server-side engine of src/app/api/workflow/output/route.ts: a plain
 * dotted-path reader, logic blocks that write nothing when their input
 * does not resolve, calculations evaluated over the input and the block
 * results, and the output-schema filter, applied once inside
 * `processWorkflow` and once more by the `GET` handler.
 */
module OutputRoute {
  import opened Wrappers
  import opened Strings
  import opened Js
  import opened WorkflowTypes
  import opened Operands
  import Template

  // ---------------------------------------------------------------------
  // Paths

  /** One step of the path reduction: a member of a truthy value, and
      `undefined` once the walk has reached a falsy one. */
  function StepInto(cur: Json, key: string): (r: Json)
    ensures !Truthy(cur) ==> r == Undefined
    ensures Truthy(cur) ==> r == Member(cur, key)
  {
    if Truthy(cur) then Member(cur, key) else Undefined
  }

  function Reduce(cur: Json, keys: seq<string>): Json
    decreases |keys|
  {
    if keys == [] then cur else Reduce(StepInto(cur, keys[0]), keys[1..])
  }

  /** `getNestedValue(obj, path)`: the path split on dots, each piece a
      member name; there is no bracket syntax. */
  function GetNestedValue(obj: Json, path: string): Json {
    Reduce(obj, Split(path, "."))
  }

  /** Once the walk meets a falsy value (`undefined`, `null`, `false`, `0`
      or `""`) every further step gives `undefined`. */
  lemma {:induction false} FalsyStops(cur: Json, keys: seq<string>)
    requires !Truthy(cur) && keys != []
    ensures Reduce(cur, keys) == Undefined
    decreases |keys|
  {
    if keys[1..] != [] {
      FalsyStops(Undefined, keys[1..]);
    }
  }

  /** A path without a dot is one member name, brackets included:
      `a[0]` names the member called `a[0]`, not an array element. */
  lemma PlainKey(fs: Fields, k: string)
    requires !Contains(k, ".")
    ensures GetNestedValue(Obj(fs), k) == Get(fs, k)
  {
    SplitWithout(k, ".");
    assert Split(k, ".") == [k];
    assert [k][1..] == [];
    assert Reduce(Obj(fs), [k]) == Reduce(Member(Obj(fs), k), []);
  }

  /** `p.q` is `q` read from the member `p`, when `p` has no dot and the
      value holding it is truthy. */
  lemma DotDescends(obj: Json, p: string, q: string)
    requires !Contains(p, ".")
    ensures GetNestedValue(obj, p + "." + q) == GetNestedValue(StepInto(obj, p), q)
  {
    SplitAfterPiece(p, ".", q);
  }

  // ---------------------------------------------------------------------
  // Logic blocks

  /** What each condition contributes to the fold; one whose input does
      not resolve in the parsed input is skipped. */
  function Steps(conds: seq<Condition>, input: Json): (r: seq<Step>)
    ensures |r| == |conds|
    ensures forall i :: 0 <= i < |conds| ==> r[i].op == conds[i].operator
    ensures forall i :: 0 <= i < |conds| ==>
      var cv := GetNestedValue(input, conds[i].input_name);
      r[i].result == if cv.Undefined? then None else Some(Compare(conds[i].operation, cv, conds[i].values))
  {
    seq(|conds|, i requires 0 <= i < |conds| =>
      var cv := GetNestedValue(input, conds[i].input_name);
      Step(conds[i].operator, if cv.Undefined? then None else Some(Compare(conds[i].operation, cv, conds[i].values))))
  }

  /** What a block with an output name writes: nothing when its input does
      not resolve, else `output_value` when the fold holds and
      `default_value || ""` when it does not. */
  function BlockOutcome(b: LogicBlock, input: Json): Option<Json> {
    var v := GetNestedValue(input, b.input_name);
    if v.Undefined? then None
    else if Fold(Compare(b.operation, v, b.values), Steps(ConditionsOf(b), input)) then Some(b.output_value)
    else Some(OrElse(b.default_value, Str("")))
  }

  function Outcome(input: Json): LogicBlock -> Option<Json> {
    b => BlockOutcome(b, input)
  }

  /** `data` after the logic blocks. */
  function RunBlocks(blocks: seq<LogicBlock>, input: Json): Fields {
    StoreOutcomes(blocks, Outcome(input))
  }

  /** The keys of the block data are exactly the names some block with a
      resolving input writes. */
  lemma BlockKeys(blocks: seq<LogicBlock>, input: Json, k: string)
    ensures HasKey(RunBlocks(blocks, input), k) <==>
      exists i :: 0 <= i < |blocks| && blocks[i].output_name == k && k != "" && BlockOutcome(blocks[i], input).Some?
  {
    StoreKeys(blocks, Outcome(input), k);
    assert forall i :: 0 <= i < |blocks| ==> Outcome(input)(blocks[i]) == BlockOutcome(blocks[i], input);
  }

  /** A block whose input resolves writes its outcome, and it stays there
      unless a later block writes the same name. */
  lemma BlocksStore(blocks: seq<LogicBlock>, input: Json, i: nat)
    requires i < |blocks| && blocks[i].output_name != "" && BlockOutcome(blocks[i], input).Some?
    requires forall j :: i < j < |blocks| ==>
      blocks[j].output_name != blocks[i].output_name || BlockOutcome(blocks[j], input).None?
    ensures Get(RunBlocks(blocks, input), blocks[i].output_name) == BlockOutcome(blocks[i], input).value
  {
    StoreGet(blocks, Outcome(input), i);
  }

  lemma FoldLast(primary: bool, conds: seq<Condition>, j: nat, input: Json)
    requires j < |conds|
    ensures var cv := GetNestedValue(input, conds[j].input_name);
      Fold(primary, Steps(conds[..j + 1], input)) ==
        if cv.Undefined? then Fold(primary, Steps(conds[..j], input))
        else Combine(conds[j].operator, Fold(primary, Steps(conds[..j], input)),
                     Compare(conds[j].operation, cv, conds[j].values))
  {
    var st := Steps(conds[..j + 1], input);
    assert st[..j] == Steps(conds[..j], input);
  }

  /** The `block.conditions?.forEach` loop. */
  method EvaluateConditions(primary: bool, conds: seq<Condition>, input: Json) returns (finalResult: bool)
    ensures finalResult == Fold(primary, Steps(conds, input))
  {
    finalResult := primary;
    var j := 0;
    while j < |conds|
      invariant 0 <= j <= |conds|
      invariant finalResult == Fold(primary, Steps(conds[..j], input))
    {
      var c := conds[j];
      FoldLast(primary, conds, j, input);
      var cv := GetNestedValue(input, c.input_name);
      if cv != Undefined {
        var r := Compare(c.operation, cv, c.values);
        if c.operator == And {
          finalResult := finalResult && r;
        } else {
          finalResult := finalResult || r;
        }
      }
      j := j + 1;
    }
    assert conds[..j] == conds;
  }

  /** One block with an output name. */
  method EvaluateBlock(b: LogicBlock, input: Json) returns (outcome: Option<Json>)
    ensures outcome == BlockOutcome(b, input)
  {
    var v := GetNestedValue(input, b.input_name);
    if v == Undefined {
      return None;
    }
    var primary := Compare(b.operation, v, b.values);
    var finalResult := EvaluateConditions(primary, ConditionsOf(b), input);
    outcome := Some(if finalResult then b.output_value else OrElse(b.default_value, Str("")));
  }

  /** One pass of the logic-block loop. */
  method StoreBlock(b: LogicBlock, input: Json, data0: Fields) returns (data: Fields)
    ensures data == if b.output_name == "" || Outcome(input)(b).None? then data0
                    else Put(data0, b.output_name, Outcome(input)(b).value)
  {
    data := data0;
    if b.output_name != "" {
      var o := EvaluateBlock(b, input);
      if o.Some? {
        data := Put(data, b.output_name, o.value);
      }
    }
  }

  /** The logic-block loop of `processWorkflow`. */
  method RunLogicBlocks(blocks: seq<LogicBlock>, input: Json) returns (data: Fields)
    ensures data == RunBlocks(blocks, input)
  {
    data := [];
    var i := 0;
    while i < |blocks|
      invariant 0 <= i <= |blocks|
      invariant data == StoreOutcomes(blocks[..i], Outcome(input))
    {
      StoreLast(blocks, i, Outcome(input));
      data := StoreBlock(blocks[i], input, data);
      i := i + 1;
    }
    assert blocks[..i] == blocks;
  }

  // ---------------------------------------------------------------------
  // Calculations

  /** The text a placeholder becomes: a string in double quotes, as it is,
      anything else as `String(value)`; `None` for a missing value, where
      the callback throws. */
  function VarText(v: Json): (r: Option<string>)
    ensures r.None? <==> v.Undefined?
  {
    if v.Undefined? then None
    else if v.Str? then Some("\"" + v.s + "\"")
    else Some(ToStr(v))
  }

  function ContextVar(context: Fields): string -> Option<string> {
    k => VarText(GetNestedValue(Obj(context), k))
  }

  /** One calculation with an output name: the context is rebuilt from the
      input and the current block outputs, the formula's placeholders are
      replaced from it, and the result of evaluating it is stored.  A
      missing variable or a failing evaluation stores nothing. */
  function CalcStep(input: Json, blocks: seq<LogicBlock>, eval: string -> Option<Json>, data: Fields, c: Calculation): Fields {
    if c.output_name == "" then data
    else
      var f := Template.Replace(c.formula, ContextVar(BlockContext(input, blocks, data)));
      if f.None? then data
      else
        var r := eval(f.value);
        if r.None? then data else Put(data, c.output_name, r.value)
  }

  function CalcStepper(input: Json, blocks: seq<LogicBlock>, eval: string -> Option<Json>): (Fields, Calculation) -> Fields {
    (data, c) => CalcStep(input, blocks, eval, data, c)
  }

  function RunCalcs(input: Json, blocks: seq<LogicBlock>, calcs: seq<Calculation>, eval: string -> Option<Json>, data: Fields): Fields {
    Iterate(CalcStepper(input, blocks, eval), calcs, data)
  }

  lemma RunCalcsLast(input: Json, blocks: seq<LogicBlock>, calcs: seq<Calculation>, eval: string -> Option<Json>, data: Fields)
    requires calcs != []
    ensures RunCalcs(input, blocks, calcs, eval, data) ==
      CalcStep(input, blocks, eval, RunCalcs(input, blocks, calcs[..|calcs| - 1], eval, data), calcs[|calcs| - 1])
  {
  }

  /** A calculation either stores under its own name or changes nothing. */
  lemma CalcStepOnlyOwnKey(input: Json, blocks: seq<LogicBlock>, eval: string -> Option<Json>, data: Fields, c: Calculation, k: string)
    requires k != c.output_name
    ensures Get(CalcStep(input, blocks, eval, data, c), k) == Get(data, k)
    ensures HasKey(CalcStep(input, blocks, eval, data, c), k) <==> HasKey(data, k)
  {
    if c.output_name != "" {
      var f := Template.Replace(c.formula, ContextVar(BlockContext(input, blocks, data)));
      if f.Some? && eval(f.value).Some? {
        PutOther(data, c.output_name, eval(f.value).value, k);
        PutHasKey(data, c.output_name, eval(f.value).value, k);
      }
    }
  }

  /** The calculations touch no key but their own output names. */
  lemma {:induction false} CalcsOnlyOwnKeys(input: Json, blocks: seq<LogicBlock>, calcs: seq<Calculation>, eval: string -> Option<Json>, data: Fields, k: string)
    requires forall i :: 0 <= i < |calcs| ==> calcs[i].output_name != k
    ensures Get(RunCalcs(input, blocks, calcs, eval, data), k) == Get(data, k)
    ensures HasKey(RunCalcs(input, blocks, calcs, eval, data), k) <==> HasKey(data, k)
    decreases |calcs|
  {
    if calcs != [] {
      var init := calcs[..|calcs| - 1];
      CalcsOnlyOwnKeys(input, blocks, init, eval, data, k);
      RunCalcsLast(input, blocks, calcs, eval, data);
      CalcStepOnlyOwnKey(input, blocks, eval, RunCalcs(input, blocks, init, eval, data), calcs[|calcs| - 1], k);
    }
  }

  /** A placeholder naming a value the context does not have makes the
      callback throw: the calculation stores nothing. */
  lemma MissingVariableSkips(input: Json, blocks: seq<LogicBlock>, eval: string -> Option<Json>, data: Fields,
                             id: string, k: string, rest: string, name: string)
    requires Template.IsKey(k)
    requires GetNestedValue(Obj(BlockContext(input, blocks, data)), k) == Undefined
    ensures CalcStep(input, blocks, eval, data, Calculation(id, "${" + k + "}" + rest, name)) == data
  {
    Template.ReplaceLeading(k, rest, ContextVar(BlockContext(input, blocks, data)));
  }

  /** A calculation result stored under a name no block outputs is not
      seen by the calculations after it: they read the same context. */
  lemma ResultHiddenFromLaterCalcs(input: Json, blocks: seq<LogicBlock>, data: Fields, k: string, v: Json)
    requires forall i :: 0 <= i < |blocks| ==> blocks[i].output_name != k
    ensures ContextVar(BlockContext(input, blocks, Put(data, k, v))) == ContextVar(BlockContext(input, blocks, data))
  {
    BlockContextIgnores(input, blocks, data, k, v);
  }

  method RunCalculation(input: Json, blocks: seq<LogicBlock>, eval: string -> Option<Json>, data0: Fields, c: Calculation)
    returns (data: Fields)
    ensures data == CalcStep(input, blocks, eval, data0, c)
  {
    data := data0;
    if c.output_name != "" {
      var context := BuildContext(input, blocks, data);
      var formula := Template.Replace(c.formula, ContextVar(context));
      if formula.Some? {
        var result := eval(formula.value);
        if result.Some? {
          data := Put(data, c.output_name, result.value);
        }
      }
    }
  }

  /** The calculation loop of `processWorkflow`. */
  method RunCalculations(input: Json, blocks: seq<LogicBlock>, calcs: seq<Calculation>, eval: string -> Option<Json>, data0: Fields)
    returns (data: Fields)
    ensures data == RunCalcs(input, blocks, calcs, eval, data0)
  {
    data := data0;
    var i := 0;
    while i < |calcs|
      invariant 0 <= i <= |calcs|
      invariant data == RunCalcs(input, blocks, calcs[..i], eval, data0)
    {
      RunCalcsLast(input, blocks, calcs[..i + 1], eval, data0);
      assert calcs[..i + 1][..i] == calcs[..i];
      data := RunCalculation(input, blocks, eval, data, calcs[i]);
      i := i + 1;
    }
    assert calcs[..i] == calcs;
  }

  // ---------------------------------------------------------------------
  // The output schema

  /** The entries whose key the schema marks exactly `true`, in order. */
  function KeepTrue(fs: Fields, schema: Fields): Fields {
    if fs == [] then []
    else (if Get(schema, fs[0].0) == Bool(true) then [fs[0]] else []) + KeepTrue(fs[1..], schema)
  }

  /** The filter keeps a member exactly when the schema marks it `true`. */
  lemma {:induction false} KeepTrueGet(fs: Fields, schema: Fields, k: string)
    ensures Get(KeepTrue(fs, schema), k) == if Get(schema, k) == Bool(true) then Get(fs, k) else Undefined
    ensures HasKey(KeepTrue(fs, schema), k) <==> HasKey(fs, k) && Get(schema, k) == Bool(true)
  {
    if fs != [] {
      KeepTrueGet(fs[1..], schema, k);
      if Get(schema, fs[0].0) == Bool(true) {
        assert ([fs[0]] + KeepTrue(fs[1..], schema))[1..] == KeepTrue(fs[1..], schema);
      } else {
        assert [] + KeepTrue(fs[1..], schema) == KeepTrue(fs[1..], schema);
      }
    }
  }

  /** Filtering twice by the same schema is filtering once. */
  lemma {:induction false} KeepTrueIdempotent(fs: Fields, schema: Fields)
    ensures KeepTrue(KeepTrue(fs, schema), schema) == KeepTrue(fs, schema)
  {
    if fs != [] {
      KeepTrueIdempotent(fs[1..], schema);
      var t := KeepTrue(fs[1..], schema);
      if Get(schema, fs[0].0) == Bool(true) {
        assert ([fs[0]] + t)[1..] == t;
      } else {
        assert [] + t == t;
      }
    }
  }

  /** `processWorkflow(workflow, inputData)` on the parsed input. */
  function Process(input: Json, blocks: seq<LogicBlock>, calcs: seq<Calculation>, schema: Fields, eval: string -> Option<Json>): Fields {
    KeepTrue(RunCalcs(input, blocks, calcs, eval, RunBlocks(blocks, input)), schema)
  }

  method ProcessWorkflow(input: Json, blocks: seq<LogicBlock>, calcs: seq<Calculation>, schema: Fields, eval: string -> Option<Json>)
    returns (output: Fields)
    ensures output == Process(input, blocks, calcs, schema, eval)
  {
    var data := RunLogicBlocks(blocks, input);
    data := RunCalculations(input, blocks, calcs, eval, data);
    output := KeepTrue(data, schema);
  }

  /** The `output` the `GET` handler answers with: the workflow's schema,
      `{}` when it has none, filters the result of `processWorkflow` once
      more. */
  function GetOutput(input: Json, blocks: seq<LogicBlock>, calcs: seq<Calculation>, schema: Option<Fields>, eval: string -> Option<Json>): Fields {
    var s := if schema.Some? then schema.value else [];
    KeepTrue(Process(input, blocks, calcs, s, eval), s)
  }

  /** The handler's second filter changes nothing. */
  lemma SecondFilterChangesNothing(input: Json, blocks: seq<LogicBlock>, calcs: seq<Calculation>, schema: Fields, eval: string -> Option<Json>)
    ensures GetOutput(input, blocks, calcs, Some(schema), eval) == Process(input, blocks, calcs, schema, eval)
  {
    KeepTrueIdempotent(RunCalcs(input, blocks, calcs, eval, RunBlocks(blocks, input)), schema);
  }

  /** Without an output schema the handler answers with no members. */
  lemma NoSchemaNoOutput(input: Json, blocks: seq<LogicBlock>, calcs: seq<Calculation>, eval: string -> Option<Json>, k: string)
    ensures !HasKey(GetOutput(input, blocks, calcs, None, eval), k)
  {
    KeepTrueGet(Process(input, blocks, calcs, [], eval), [], k);
  }

  /** A member of the answer is a block's or a calculation's output name,
      and marked `true` in the schema. */
  lemma OutputKeys(input: Json, blocks: seq<LogicBlock>, calcs: seq<Calculation>, schema: Fields, eval: string -> Option<Json>, k: string)
    requires HasKey(Process(input, blocks, calcs, schema, eval), k)
    ensures Get(schema, k) == Bool(true)
    ensures (exists i :: 0 <= i < |blocks| && blocks[i].output_name == k && BlockOutcome(blocks[i], input).Some?) ||
            (exists i :: 0 <= i < |calcs| && calcs[i].output_name == k)
  {
    var data := RunBlocks(blocks, input);
    KeepTrueGet(RunCalcs(input, blocks, calcs, eval, data), schema, k);
    if forall i :: 0 <= i < |calcs| ==> calcs[i].output_name != k {
      CalcsOnlyOwnKeys(input, blocks, calcs, eval, data, k);
      BlockKeys(blocks, input, k);
    }
  }
}
