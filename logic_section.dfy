/**
 * The rule editor of src/components/logic-section.tsx: the edits that
 * reorder, change, add and remove logic blocks, their conditions and the
 * calculations, and the names offered as inputs to a block.  Each handler
 * copies the list, changes the copy with `splice` or an assignment at an
 * index, and hands the copy back through `onChange`; here the editor's
 * state is an object whose list fields the handlers reassign.
 */
module LogicSection {
  import opened Wrappers
  import opened Strings
  import opened Js
  import opened WorkflowTypes
  import Utils

  // ---------------------------------------------------------------------
  // List edits

  /** `s.splice(i, 1)`: the element at `i` taken out; nothing happens at an
      index past the end. */
  function RemoveAt<T>(s: seq<T>, i: nat): seq<T> {
    if i < |s| then s[..i] + s[i + 1..] else s
  }

  /** `s.splice(i, 0, x)`: `x` inserted before position `i`. */
  function Insert<T>(s: seq<T>, i: nat, x: T): seq<T>
    requires i <= |s|
  {
    s[..i] + [x] + s[i..]
  }

  /** The element at `from` moved to position `to`, described position by
      position: the elements between the two positions shift by one
      toward the place the moved element left. */
  function Move<T>(s: seq<T>, from: nat, to: nat): (r: seq<T>)
    requires from < |s| && to < |s|
    ensures |r| == |s|
  {
    seq(|s|, k requires 0 <= k < |s| =>
      if k == to then s[from]
      else if from < to && from <= k < to then s[k + 1]
      else if to < from && to < k <= from then s[k - 1]
      else s[k])
  }

  /** Removal keeps the elements before the index in place and shifts the
      ones after it down by one. */
  lemma RemoveAtSpec<T>(s: seq<T>, i: nat)
    ensures i >= |s| ==> RemoveAt(s, i) == s
    ensures i < |s| ==> |RemoveAt(s, i)| == |s| - 1
    ensures i < |s| ==> forall k :: 0 <= k < i ==> RemoveAt(s, i)[k] == s[k]
    ensures i < |s| ==> forall k :: i <= k < |s| - 1 ==> RemoveAt(s, i)[k] == s[k + 1]
    ensures i < |s| ==> multiset(s) == multiset(RemoveAt(s, i)) + multiset{s[i]}
  {
    if i < |s| {
      assert s == s[..i] + [s[i]] + s[i + 1..];
    }
  }

  /** The drag handler's two splices perform the move. */
  lemma MoveAsSplice<T>(s: seq<T>, from: nat, to: nat)
    requires from < |s| && to < |s|
    ensures to <= |RemoveAt(s, from)|
    ensures Move(s, from, to) == Insert(RemoveAt(s, from), to, s[from])
  {
    var r := RemoveAt(s, from);
    var ins := Insert(r, to, s[from]);
    assert |ins| == |s|;
    forall k | 0 <= k < |s| ensures Move(s, from, to)[k] == ins[k] {
      if k < to {
        assert ins[k] == r[k];
      } else if k > to {
        assert ins[k] == r[k - 1];
      }
    }
  }

  /** A move is a permutation. */
  lemma MovePermutes<T>(s: seq<T>, from: nat, to: nat)
    requires from < |s| && to < |s|
    ensures multiset(Move(s, from, to)) == multiset(s)
  {
    MoveAsSplice(s, from, to);
    var r := RemoveAt(s, from);
    RemoveAtSpec(s, from);
    assert r == r[..to] + r[to..];
  }

  /** The moved element lands at `to`, and the others keep their relative
      order. */
  lemma MoveKeepsOrder<T>(s: seq<T>, from: nat, to: nat)
    requires from < |s| && to < |s|
    ensures Move(s, from, to)[to] == s[from]
    ensures RemoveAt(Move(s, from, to), to) == RemoveAt(s, from)
  {
    MoveAsSplice(s, from, to);
    var r := RemoveAt(s, from);
    var ins := Insert(r, to, s[from]);
    assert ins[..to] == r[..to];
    assert ins[to + 1..] == r[to..];
    assert r == r[..to] + r[to..];
  }

  /** Dragging the block back undoes the move. */
  lemma MoveBack<T>(s: seq<T>, from: nat, to: nat)
    requires from < |s| && to < |s|
    ensures Move(Move(s, from, to), to, from) == s
  {
    var m := Move(s, from, to);
    MoveKeepsOrder(s, from, to);
    MoveAsSplice(m, to, from);
    assert s == s[..from] + [s[from]] + s[from + 1..];
  }

  // ---------------------------------------------------------------------
  // Partial updates

  /** A `Partial<LogicBlock>` as the editor passes it: the fields it sets. */
  datatype BlockUpdate = BlockUpdate(
    input_name: Option<string>,
    operation: Option<Operation>,
    values: Option<seq<Json>>,
    output_name: Option<string>,
    output_value: Option<Json>,
    default_value: Option<Json>)

  const NoBlockUpdate := BlockUpdate(None, None, None, None, None, None)

  /** `{ ...block, ...updates }` */
  function ApplyBlock(b: LogicBlock, u: BlockUpdate): LogicBlock {
    b.(input_name := u.input_name.GetOr(b.input_name),
       operation := u.operation.GetOr(b.operation),
       values := u.values.GetOr(b.values),
       output_name := u.output_name.GetOr(b.output_name),
       output_value := u.output_value.GetOr(b.output_value),
       default_value := u.default_value.GetOr(b.default_value))
  }

  /** The later of two settings of one field. */
  function Later<T>(first: Option<T>, second: Option<T>): Option<T> {
    if second.Some? then second else first
  }

  /** `{ ...first, ...second }` on two updates. */
  function MergeBlock(first: BlockUpdate, second: BlockUpdate): BlockUpdate {
    BlockUpdate(
      Later(first.input_name, second.input_name),
      Later(first.operation, second.operation),
      Later(first.values, second.values),
      Later(first.output_name, second.output_name),
      Later(first.output_value, second.output_value),
      Later(first.default_value, second.default_value))
  }

  /** An empty update changes nothing, and two updates in a row act as
      their merge, the later winning field by field; so repeating an update
      changes nothing more.  No update touches `id` or the conditions. */
  lemma BlockUpdates(b: LogicBlock, u: BlockUpdate, w: BlockUpdate)
    ensures ApplyBlock(b, NoBlockUpdate) == b
    ensures ApplyBlock(ApplyBlock(b, u), w) == ApplyBlock(b, MergeBlock(u, w))
    ensures ApplyBlock(ApplyBlock(b, u), u) == ApplyBlock(b, u)
    ensures ApplyBlock(b, u).id == b.id && ApplyBlock(b, u).conditions == b.conditions
  {
  }

  /** A `Partial<Condition>` as the editor passes it. */
  datatype ConditionUpdate = ConditionUpdate(
    input_name: Option<string>,
    operator: Option<Connective>,
    operation: Option<Operation>,
    values: Option<seq<Json>>)

  function ApplyCondition(c: Condition, u: ConditionUpdate): Condition {
    c.(input_name := u.input_name.GetOr(c.input_name),
       operator := u.operator.GetOr(c.operator),
       operation := u.operation.GetOr(c.operation),
       values := u.values.GetOr(c.values))
  }

  /** A `Partial<Calculation>` as the editor passes it. */
  datatype CalcUpdate = CalcUpdate(formula: Option<string>, output_name: Option<string>)

  function ApplyCalc(c: Calculation, u: CalcUpdate): Calculation {
    c.(formula := u.formula.GetOr(c.formula), output_name := u.output_name.GetOr(c.output_name))
  }

  /** The values an operation starts with when it is selected: two empty
      bounds for `between`, one empty value for every other operation. */
  function ValuesFor(op: Operation): seq<Json> {
    if op == Between then [Str(""), Str("")] else [Str("")]
  }

  /** The update the block's operation select sends. */
  function OperationChange(op: Operation): BlockUpdate {
    NoBlockUpdate.(operation := Some(op), values := Some(ValuesFor(op)))
  }

  /** The update a condition's operation select sends. */
  function ConditionOperationChange(op: Operation): ConditionUpdate {
    ConditionUpdate(None, None, Some(op), Some(ValuesFor(op)))
  }

  /** Selecting an operation sets it, empties the values to the number the
      operation needs and leaves every other field as it was. */
  lemma OperationReset(b: LogicBlock, c: Condition, op: Operation)
    ensures var r := ApplyBlock(b, OperationChange(op));
      r.operation == op && |r.values| == (if op == Between then 2 else 1) &&
      (forall k :: 0 <= k < |r.values| ==> r.values[k] == Str("")) &&
      r.(operation := b.operation, values := b.values) == b
    ensures var r := ApplyCondition(c, ConditionOperationChange(op));
      r.operation == op && |r.values| == (if op == Between then 2 else 1) &&
      (forall k :: 0 <= k < |r.values| ==> r.values[k] == Str("")) &&
      r.(operation := c.operation, values := c.values) == c
  {
  }

  // ---------------------------------------------------------------------
  // New entries

  /** The condition `addCondition` appends. */
  const NewCondition := Condition("", And, Equal, [Str("")])

  /** The block `addLogicBlock` appends, with a fresh `id`. */
  function NewBlock(id: string): LogicBlock {
    LogicBlock(id, "", Equal, [Str("")], "", Undefined, Undefined, Some([]))
  }

  function NewCalculation(id: string): Calculation {
    Calculation(id, "", "")
  }

  /** The block with the new condition last, its list created if absent. */
  function WithCondition(b: LogicBlock): LogicBlock {
    b.(conditions := Some(b.conditions.GetOr([]) + [NewCondition]))
  }

  /** The block with condition `i` spliced out, when it has a list. */
  function WithoutCondition(b: LogicBlock, i: nat): LogicBlock {
    if b.conditions.Some? then b.(conditions := Some(RemoveAt(b.conditions.value, i))) else b
  }

  /** Adding a condition keeps the ones before and puts the new one last;
      removing one without a list present changes nothing; otherwise only
      the conditions change. */
  lemma ConditionEdits(b: LogicBlock, i: nat)
    ensures var r := WithCondition(b);
      r.conditions.Some? && |r.conditions.value| == |b.conditions.GetOr([])| + 1 &&
      r.conditions.value[..|b.conditions.GetOr([])|] == b.conditions.GetOr([]) &&
      r.conditions.value[|r.conditions.value| - 1] == NewCondition &&
      r.(conditions := b.conditions) == b
    ensures b.conditions.None? ==> WithoutCondition(b, i) == b
    ensures b.conditions.Some? && i < |b.conditions.value| ==>
      |WithoutCondition(b, i).conditions.value| == |b.conditions.value| - 1
    ensures WithoutCondition(b, i).(conditions := b.conditions) == b
  {
    var cs := b.conditions.GetOr([]);
    assert (cs + [NewCondition])[..|cs|] == cs;
  }

  // ---------------------------------------------------------------------
  // Names offered as inputs

  function OutputNames(blocks: seq<LogicBlock>): (r: seq<string>)
    ensures |r| == |blocks|
  {
    seq(|blocks|, k requires 0 <= k < |blocks| => blocks[k].output_name)
  }

  /** `logic_blocks.slice(0, i)` */
  function Before(blocks: seq<LogicBlock>, i: nat): seq<LogicBlock> {
    if i < |blocks| then blocks[..i] else blocks
  }

  /** `getAvailablePaths(i)`: the paths of the parsed input data, then the
      non-empty output names of the blocks before block `i`. */
  function AvailablePaths(parsedInput: Json, blocks: seq<LogicBlock>, i: nat): seq<string> {
    Utils.GetAllPaths(parsedInput, "") + NonEmpty(OutputNames(Before(blocks, i)))
  }

  /** The input paths come first, and after them exactly the non-empty
      names that an earlier block outputs. */
  lemma AvailablePathsSpec(parsedInput: Json, blocks: seq<LogicBlock>, i: nat)
    ensures var r := AvailablePaths(parsedInput, blocks, i); var p := Utils.GetAllPaths(parsedInput, "");
      |r| >= |p| && r[..|p|] == p &&
      forall x :: x in r[|p|..] <==> x != "" && exists j :: 0 <= j < i && j < |blocks| && blocks[j].output_name == x
  {
    var p := Utils.GetAllPaths(parsedInput, "");
    var names := OutputNames(Before(blocks, i));
    var r := AvailablePaths(parsedInput, blocks, i);
    assert r[..|p|] == p && r[|p|..] == NonEmpty(names);
    forall x ensures x in r[|p|..] <==> x != "" && exists j :: 0 <= j < i && j < |blocks| && blocks[j].output_name == x {
      NonEmptyMembers(names, x);
      if x in names {
        var j :| 0 <= j < |names| && names[j] == x;
        assert blocks[j].output_name == x;
      }
      if exists j :: 0 <= j < i && j < |blocks| && blocks[j].output_name == x {
        var j :| 0 <= j < i && j < |blocks| && blocks[j].output_name == x;
        assert names[j] == x;
      }
    }
  }

  lemma {:induction false} NonEmptySplits(a: seq<string>, b: seq<string>)
    ensures NonEmpty(a + b) == NonEmpty(a) + NonEmpty(b)
  {
    if a != [] {
      NonEmptySplits(a[1..], b);
      assert (a + b)[1..] == a[1..] + b;
    } else {
      assert a + b == b;
    }
  }

  /** A later block is offered everything an earlier one is, in the same
      order, and then the earlier block's own name when it has one. */
  lemma AvailablePathsGrow(parsedInput: Json, blocks: seq<LogicBlock>, i: nat)
    requires i < |blocks|
    ensures AvailablePaths(parsedInput, blocks, i + 1) ==
      AvailablePaths(parsedInput, blocks, i) + (if blocks[i].output_name != "" then [blocks[i].output_name] else [])
  {
    var now := OutputNames(Before(blocks, i));
    var next := OutputNames(Before(blocks, i + 1));
    assert next == now + [blocks[i].output_name];
    NonEmptySplits(now, [blocks[i].output_name]);
    assert NonEmpty([blocks[i].output_name]) == (if blocks[i].output_name != "" then [blocks[i].output_name] else []);
  }

  // ---------------------------------------------------------------------
  // The editor

  /** The `droppableId` of the block list. */
  const LogicBlocksId := "logic-blocks"

  /** The workflow lists the editor changes; an absent list is empty. */
  class Editor {
    var blocks: seq<LogicBlock>
    var calculations: seq<Calculation>

    constructor (blocks: seq<LogicBlock>, calculations: seq<Calculation>)
      ensures this.blocks == blocks && this.calculations == calculations
    {
      this.blocks := blocks;
      this.calculations := calculations;
    }

    /** `addLogicBlock` */
    method AddLogicBlock(id: string)
      modifies this
      ensures blocks == old(blocks) + [NewBlock(id)]
      ensures calculations == old(calculations)
    {
      blocks := blocks + [NewBlock(id)];
    }

    /** `addCalculation` */
    method AddCalculation(id: string)
      modifies this
      ensures calculations == old(calculations) + [NewCalculation(id)]
      ensures blocks == old(blocks)
    {
      calculations := calculations + [NewCalculation(id)];
    }

    /** `handleDragEnd`: no drop target, or a drop in another list, leaves
        the blocks alone; otherwise the dragged block is spliced out and
        spliced back in at the target index. */
    method HandleDragEnd(destination: Option<nat>, source: nat, droppableId: string)
      requires destination.Some? && droppableId == LogicBlocksId ==>
        source < |blocks| && destination.value < |blocks|
      modifies this
      ensures destination.None? || droppableId != LogicBlocksId ==> blocks == old(blocks)
      ensures destination.Some? && droppableId == LogicBlocksId ==>
        blocks == Move(old(blocks), source, destination.value)
      ensures calculations == old(calculations)
    {
      if destination.None? {
        return;
      }
      if droppableId == LogicBlocksId {
        var newBlocks := blocks;
        var removed := newBlocks[source];
        newBlocks := newBlocks[..source] + newBlocks[source + 1..];
        newBlocks := newBlocks[..destination.value] + [removed] + newBlocks[destination.value..];
        MoveAsSplice(blocks, source, destination.value);
        blocks := newBlocks;
      }
    }

    /** `handleBlockChange` */
    method HandleBlockChange(index: nat, updates: BlockUpdate)
      requires index < |blocks|
      modifies this
      ensures blocks == old(blocks)[index := ApplyBlock(old(blocks)[index], updates)]
      ensures calculations == old(calculations)
    {
      var newBlocks := blocks;
      newBlocks := newBlocks[index := ApplyBlock(newBlocks[index], updates)];
      blocks := newBlocks;
    }

    /** `handleRemoveBlock` */
    method HandleRemoveBlock(index: nat)
      modifies this
      ensures blocks == RemoveAt(old(blocks), index)
      ensures calculations == old(calculations)
    {
      var newBlocks := blocks;
      if index < |newBlocks| {
        newBlocks := newBlocks[..index] + newBlocks[index + 1..];
      }
      blocks := newBlocks;
    }

    /** `updateCalculation` */
    method UpdateCalculation(index: nat, updates: CalcUpdate)
      requires index < |calculations|
      modifies this
      ensures calculations == old(calculations)[index := ApplyCalc(old(calculations)[index], updates)]
      ensures blocks == old(blocks)
    {
      var newCalculations := calculations;
      newCalculations := newCalculations[index := ApplyCalc(newCalculations[index], updates)];
      calculations := newCalculations;
    }

    /** `removeCalculation` */
    method RemoveCalculation(index: nat)
      modifies this
      ensures calculations == RemoveAt(old(calculations), index)
      ensures blocks == old(blocks)
    {
      var newCalculations := calculations;
      if index < |newCalculations| {
        newCalculations := newCalculations[..index] + newCalculations[index + 1..];
      }
      calculations := newCalculations;
    }

    /** `addCondition`. The source pushes onto the block object it shares
        with the previous list; only the new list is modelled. */
    method AddCondition(blockIndex: nat)
      requires blockIndex < |blocks|
      modifies this
      ensures blocks == old(blocks)[blockIndex := WithCondition(old(blocks)[blockIndex])]
      ensures calculations == old(calculations)
    {
      var newBlocks := blocks;
      var block := newBlocks[blockIndex];
      var conditions: seq<Condition> := [];
      if block.conditions.Some? {
        conditions := block.conditions.value;
      }
      conditions := conditions + [NewCondition];
      newBlocks := newBlocks[blockIndex := block.(conditions := Some(conditions))];
      blocks := newBlocks;
    }

    /** `updateCondition`, on a condition the block lists. The source assigns
        into the block object it shares with the previous list; only the new
        list is modelled. */
    method UpdateCondition(blockIndex: nat, conditionIndex: nat, updates: ConditionUpdate)
      requires blockIndex < |blocks|
      requires conditionIndex < |blocks[blockIndex].conditions.GetOr([])|
      modifies this
      ensures var b := old(blocks)[blockIndex]; var cs := b.conditions.GetOr([]);
        blocks == old(blocks)[blockIndex := b.(conditions := Some(cs[conditionIndex := ApplyCondition(cs[conditionIndex], updates)]))]
      ensures calculations == old(calculations)
    {
      var newBlocks := blocks;
      var block := newBlocks[blockIndex];
      var conditions := block.conditions.GetOr([]);
      conditions := conditions[conditionIndex := ApplyCondition(conditions[conditionIndex], updates)];
      newBlocks := newBlocks[blockIndex := block.(conditions := Some(conditions))];
      blocks := newBlocks;
    }

    /** `removeCondition`: nothing happens to a block without a list. The
        source splices the array of the block object it shares with the
        previous list; only the new list is modelled. */
    method RemoveCondition(blockIndex: nat, conditionIndex: nat)
      requires blockIndex < |blocks|
      modifies this
      ensures blocks == old(blocks)[blockIndex := WithoutCondition(old(blocks)[blockIndex], conditionIndex)]
      ensures calculations == old(calculations)
    {
      var newBlocks := blocks;
      var block := newBlocks[blockIndex];
      if block.conditions.Some? {
        var conditions := block.conditions.value;
        if conditionIndex < |conditions| {
          conditions := conditions[..conditionIndex] + conditions[conditionIndex + 1..];
        }
        newBlocks := newBlocks[blockIndex := block.(conditions := Some(conditions))];
        blocks := newBlocks;
      }
    }
  }
}
