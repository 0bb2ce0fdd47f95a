/**
 * The records a workflow is made of (src/types/workflow.ts): logic blocks
 * with their secondary conditions, and named calculations.  The three
 * engines read them alike; what each engine does with them lives in its
 * own module.
 */
module WorkflowTypes {
  import opened Wrappers
  import opened Js

  /** The `operation` of a logic block or a condition. */
  datatype Operation =
    | Direct | Transform | Calculate
    | Equal | Neq | Gt | Gte | Lt | Lte | In | Is | Between | Has

  /** The `operator` joining a condition to the running result. */
  datatype Connective = And | Or

  datatype Condition = Condition(
    input_name: string,
    operator: Connective,
    operation: Operation,
    values: seq<Json>)

  /** A logic block; an absent `output_value` or `default_value` is
      `Undefined`, and an absent condition list is `None`. */
  datatype LogicBlock = LogicBlock(
    id: string,
    input_name: string,
    operation: Operation,
    values: seq<Json>,
    output_name: string,
    output_value: Json,
    default_value: Json,
    conditions: Option<seq<Condition>>)

  datatype Calculation = Calculation(id: string, formula: string, output_name: string)

  /** `values?.[i]` */
  function Value(values: seq<Json>, i: nat): (r: Json)
    ensures i < |values| ==> r == values[i]
    ensures i >= |values| ==> r == Undefined
  {
    if i < |values| then values[i] else Undefined
  }

  /** The conditions `block.conditions?.forEach` visits. */
  function ConditionsOf(b: LogicBlock): seq<Condition> {
    if b.conditions.Some? then b.conditions.value else []
  }

  /** One step of the condition fold: `and` is `&&`, `or` is `||`. */
  function Combine(op: Connective, acc: bool, r: bool): (c: bool)
    ensures op == And ==> (c <==> acc && r)
    ensures op == Or ==> (c <==> acc || r)
  {
    match op
    case And => acc && r
    case Or => acc || r
  }

  /** What one condition contributes to the fold: its connective and its
      result, or `None` when its input does not resolve and it is skipped. */
  datatype Step = Step(op: Connective, result: Option<bool>)

  /** The running result after the steps, folded left to right from the
      primary result. */
  function Fold(primary: bool, steps: seq<Step>): bool
    decreases |steps|
  {
    if steps == [] then primary
    else
      var acc := Fold(primary, steps[..|steps| - 1]);
      var s := steps[|steps| - 1];
      if s.result.None? then acc else Combine(s.op, acc, s.result.value)
  }

  /** The fold goes left to right: folding a concatenation folds the second
      part from the result of the first. */
  lemma {:induction false} FoldAppend(primary: bool, s1: seq<Step>, s2: seq<Step>)
    ensures Fold(primary, s1 + s2) == Fold(Fold(primary, s1), s2)
    decreases |s2|
  {
    if s2 == [] {
      assert s1 + s2 == s1;
    } else {
      FoldAppend(primary, s1, s2[..|s2| - 1]);
      assert (s1 + s2)[..|s1 + s2| - 1] == s1 + s2[..|s2| - 1];
    }
  }

  /** One more step of the fold. */
  lemma FoldPrefix(primary: bool, steps: seq<Step>, j: nat)
    requires j < |steps|
    ensures Fold(primary, steps[..j + 1]) ==
      if steps[j].result.None? then Fold(primary, steps[..j])
      else Combine(steps[j].op, Fold(primary, steps[..j]), steps[j].result.value)
  {
    assert steps[..j + 1][..j] == steps[..j];
  }

  /** With `and` everywhere, the fold holds exactly when the primary result
      and every condition taken into account hold. */
  lemma {:induction false} AllAnd(primary: bool, steps: seq<Step>)
    requires forall i :: 0 <= i < |steps| ==> steps[i].op == And
    ensures Fold(primary, steps) <==>
      primary && forall i :: 0 <= i < |steps| && steps[i].result.Some? ==> steps[i].result.value
    decreases |steps|
  {
    if steps != [] {
      var init := steps[..|steps| - 1];
      AllAnd(primary, init);
      assert forall i :: 0 <= i < |init| ==> init[i] == steps[i];
    }
  }

  /** With `or` everywhere, the fold holds exactly when the primary result
      or some condition taken into account holds. */
  lemma {:induction false} AllOr(primary: bool, steps: seq<Step>)
    requires forall i :: 0 <= i < |steps| ==> steps[i].op == Or
    ensures Fold(primary, steps) <==>
      primary || exists i :: 0 <= i < |steps| && steps[i].result == Some(true)
    decreases |steps|
  {
    if steps != [] {
      var init := steps[..|steps| - 1];
      AllOr(primary, init);
      assert forall i :: 0 <= i < |init| ==> init[i] == steps[i];
      if exists i :: 0 <= i < |steps| && steps[i].result == Some(true) {
        var i :| 0 <= i < |steps| && steps[i].result == Some(true);
        if i < |init| {
          assert init[i].result == Some(true);
        }
      }
    }
  }

  /** The steps that take part in the fold. */
  function Taken(steps: seq<Step>): (r: seq<Step>)
    ensures forall i :: 0 <= i < |r| ==> r[i].result.Some?
    decreases |steps|
  {
    if steps == [] then []
    else
      var init := Taken(steps[..|steps| - 1]);
      if steps[|steps| - 1].result.Some? then init + [steps[|steps| - 1]] else init
  }

  /** Skipped conditions leave the running result as it is: folding all steps
      is folding the ones taken into account. */
  lemma {:induction false} SkippedLeaveResult(primary: bool, steps: seq<Step>)
    ensures Fold(primary, steps) == Fold(primary, Taken(steps))
    decreases |steps|
  {
    if steps != [] {
      SkippedLeaveResult(primary, steps[..|steps| - 1]);
      var r := Taken(steps[..|steps| - 1]);
      if steps[|steps| - 1].result.Some? {
        assert (r + [steps[|steps| - 1]])[..|r|] == r;
      }
    }
  }

  /** Running steps one after the other, left to right. */
  function Iterate<S, C>(step: (S, C) -> S, cs: seq<C>, st: S): S
    decreases |cs|
  {
    if cs == [] then st else step(Iterate(step, cs[..|cs| - 1], st), cs[|cs| - 1])
  }

  /** Running a concatenation runs the second part from where the first
      part leaves off. */
  lemma {:induction false} IterateAppend<S, C>(step: (S, C) -> S, c1: seq<C>, c2: seq<C>, st: S)
    ensures Iterate(step, c1 + c2, st) == Iterate(step, c2, Iterate(step, c1, st))
    decreases |c2|
  {
    if c2 == [] {
      assert c1 + c2 == c1;
    } else {
      IterateAppend(step, c1, c2[..|c2| - 1], st);
      assert (c1 + c2)[..|c1 + c2| - 1] == c1 + c2[..|c2| - 1];
      assert (c1 + c2)[|c1 + c2| - 1] == c2[|c2| - 1];
    }
  }

  /** The context a calculation starts from in the output-section and route
      engines: `{ ...parsedInput }`, then `context[name] = data[name]` for
      every block with an output name, in block order. */
  function BlockContext(input: Json, blocks: seq<LogicBlock>, data: Fields): Fields
    decreases |blocks|
  {
    if blocks == [] then Spread(input)
    else
      var ctx := BlockContext(input, blocks[..|blocks| - 1], data);
      var b := blocks[|blocks| - 1];
      if b.output_name == "" then ctx else Put(ctx, b.output_name, Get(data, b.output_name))
  }

  /** A value stored under a name no block outputs never reaches the
      context: the context reads the data only at block output names. */
  lemma {:induction false} BlockContextIgnores(input: Json, blocks: seq<LogicBlock>, data: Fields, k: string, v: Json)
    requires forall i :: 0 <= i < |blocks| ==> blocks[i].output_name != k
    ensures BlockContext(input, blocks, Put(data, k, v)) == BlockContext(input, blocks, data)
    decreases |blocks|
  {
    if blocks != [] {
      var b := blocks[|blocks| - 1];
      BlockContextIgnores(input, blocks[..|blocks| - 1], data, k, v);
      PutOther(data, k, v, b.output_name);
    }
  }

  /** Some block has `k` as its (non-empty) output name. */
  predicate OutputsName(blocks: seq<LogicBlock>, k: string)
    decreases |blocks|
  {
    blocks != [] && k != "" &&
    (blocks[|blocks| - 1].output_name == k || OutputsName(blocks[..|blocks| - 1], k))
  }

  lemma {:induction false} OutputsNameIff(blocks: seq<LogicBlock>, k: string)
    ensures OutputsName(blocks, k) <==> k != "" && exists i :: 0 <= i < |blocks| && blocks[i].output_name == k
    decreases |blocks|
  {
    if blocks != [] {
      var init := blocks[..|blocks| - 1];
      OutputsNameIff(init, k);
      if exists i :: 0 <= i < |blocks| && blocks[i].output_name == k {
        var i :| 0 <= i < |blocks| && blocks[i].output_name == k;
        if i < |init| {
          assert init[i] == blocks[i];
        }
      }
    }
  }

  /** The context holds a block output name's data value, and the input's
      own member under every other name. */
  lemma {:induction false} BlockContextGet(input: Json, blocks: seq<LogicBlock>, data: Fields, k: string)
    ensures Get(BlockContext(input, blocks, data), k) ==
      if OutputsName(blocks, k) then Get(data, k) else Get(Spread(input), k)
    decreases |blocks|
  {
    if blocks != [] {
      var init, b := blocks[..|blocks| - 1], blocks[|blocks| - 1];
      BlockContextGet(input, init, data, k);
      if b.output_name != "" && b.output_name != k {
        PutOther(BlockContext(input, init, data), b.output_name, Get(data, b.output_name), k);
      }
    }
  }

  /** The data a block loop leaves: in block order, every block with an
      output name stores what `outcome` gives for it under that name, or
      nothing when that is `None`. */
  function StoreOutcomes(blocks: seq<LogicBlock>, outcome: LogicBlock -> Option<Json>): Fields
    decreases |blocks|
  {
    if blocks == [] then []
    else
      var data := StoreOutcomes(blocks[..|blocks| - 1], outcome);
      var b := blocks[|blocks| - 1];
      if b.output_name == "" || outcome(b).None? then data else Put(data, b.output_name, outcome(b).value)
  }

  /** The block stores something under the name `k`. */
  predicate Writes(b: LogicBlock, outcome: LogicBlock -> Option<Json>, k: string) {
    b.output_name == k && k != "" && outcome(b).Some?
  }

  lemma StoreLast(blocks: seq<LogicBlock>, i: nat, outcome: LogicBlock -> Option<Json>)
    requires i < |blocks|
    ensures StoreOutcomes(blocks[..i + 1], outcome) ==
      if blocks[i].output_name == "" || outcome(blocks[i]).None? then StoreOutcomes(blocks[..i], outcome)
      else Put(StoreOutcomes(blocks[..i], outcome), blocks[i].output_name, outcome(blocks[i]).value)
  {
    assert blocks[..i + 1][..i] == blocks[..i];
  }

  /** The keys of the data are exactly the names some block writes. */
  lemma {:induction false} StoreKeys(blocks: seq<LogicBlock>, outcome: LogicBlock -> Option<Json>, k: string)
    ensures HasKey(StoreOutcomes(blocks, outcome), k) <==> exists i :: 0 <= i < |blocks| && Writes(blocks[i], outcome, k)
    decreases |blocks|
  {
    if blocks != [] {
      var init, b := blocks[..|blocks| - 1], blocks[|blocks| - 1];
      StoreKeys(init, outcome, k);
      if b.output_name != "" && outcome(b).Some? {
        PutHasKey(StoreOutcomes(init, outcome), b.output_name, outcome(b).value, k);
      }
      if exists i :: 0 <= i < |blocks| && Writes(blocks[i], outcome, k) {
        var i :| 0 <= i < |blocks| && Writes(blocks[i], outcome, k);
        if i < |init| {
          assert init[i] == blocks[i];
        }
      }
      if exists i :: 0 <= i < |init| && Writes(init[i], outcome, k) {
        var i :| 0 <= i < |init| && Writes(init[i], outcome, k);
        assert blocks[i] == init[i];
      }
    }
  }

  /** A block's outcome stays under its name unless a later block writes
      the same name. */
  lemma {:induction false} StoreGet(blocks: seq<LogicBlock>, outcome: LogicBlock -> Option<Json>, i: nat)
    requires i < |blocks| && Writes(blocks[i], outcome, blocks[i].output_name)
    requires forall j :: i < j < |blocks| ==> !Writes(blocks[j], outcome, blocks[i].output_name)
    ensures Get(StoreOutcomes(blocks, outcome), blocks[i].output_name) == outcome(blocks[i]).value
    decreases |blocks|
  {
    var init, b := blocks[..|blocks| - 1], blocks[|blocks| - 1];
    var name := blocks[i].output_name;
    if i < |init| {
      assert init[i] == blocks[i];
      forall j | i < j < |init| ensures !Writes(init[j], outcome, name) {
        assert init[j] == blocks[j];
      }
      StoreGet(init, outcome, i);
      if b.output_name != "" && outcome(b).Some? {
        PutOther(StoreOutcomes(init, outcome), b.output_name, outcome(b).value, name);
      }
    }
  }

  lemma {:induction false} StoreUnique(blocks: seq<LogicBlock>, outcome: LogicBlock -> Option<Json>)
    ensures UniqueKeys(StoreOutcomes(blocks, outcome))
    decreases |blocks|
  {
    if blocks != [] {
      var init, b := blocks[..|blocks| - 1], blocks[|blocks| - 1];
      StoreUnique(init, outcome);
      if b.output_name != "" && outcome(b).Some? {
        PutUnique(StoreOutcomes(init, outcome), b.output_name, outcome(b).value);
      }
    }
  }

  /** The loop that builds a calculation's context. */
  method BuildContext(input: Json, blocks: seq<LogicBlock>, data: Fields) returns (context: Fields)
    ensures context == BlockContext(input, blocks, data)
  {
    context := Spread(input);
    var i := 0;
    while i < |blocks|
      invariant 0 <= i <= |blocks|
      invariant context == BlockContext(input, blocks[..i], data)
    {
      assert blocks[..i + 1][..i] == blocks[..i];
      if blocks[i].output_name != "" {
        context := Put(context, blocks[i].output_name, Get(data, blocks[i].output_name));
      }
      i := i + 1;
    }
    assert blocks[..i] == blocks;
  }
}
