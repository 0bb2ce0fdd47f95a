/**
 * The coercions the engines apply to the values they compare: the text of
 * a value for `equal`, `neq` and `in`, and the numeric operands of the
 * comparisons.
 */
module Operands {
  import opened Wrappers
  import opened Strings
  import opened Js
  import opened WorkflowTypes

  /** `typeof v === 'object' ? JSON.stringify(v) : String(v)` */
  function Normalized(v: Json): string {
    if IsObjectType(v) then Stringify(v) else ToStr(v)
  }

  /** The operand side of `equal` and `neq`: the first value, stringified
      when it is an object, else `String(values[0] || '')`. */
  function OperandText(values: seq<Json>): string {
    var x := Value(values, 0);
    if IsObjectType(x) then Stringify(x) else ToStr(OrElse(x, Str("")))
  }

  /** `Number(values?.[i] || 0)` */
  function NumOperand(values: seq<Json>, i: nat): Option<int> {
    ToNumber(OrElse(Value(values, i), Num(0)))
  }

  /** The list `in` looks in for the output-section and route engines: a
      string operand split on commas, each piece trimmed; nothing for any
      other operand. */
  function CommaList(values: seq<Json>): (r: seq<string>)
    ensures Value(values, 0).Str? ==>
      var parts := Split(Value(values, 0).s, ",");
      |r| == |parts| && forall i :: 0 <= i < |parts| ==> r[i] == Trim(parts[i])
    ensures !Value(values, 0).Str? ==> r == []
  {
    var x := Value(values, 0);
    if x.Str? then
      TrimAll(Split(x.s, ","))
    else []
  }

  /** A list written as trimmed items joined by commas is read back as
      exactly those items. */
  lemma CommaListOfJoin(items: seq<string>, rest: seq<Json>)
    requires |items| > 0
    requires forall i :: 0 <= i < |items| ==> IsTrimmed(items[i]) && !Contains(items[i], ",")
    ensures CommaList([Str(Join(items, ","))] + rest) == items
  {
    var vs := [Str(Join(items, ","))] + rest;
    assert Value(vs, 0) == Str(Join(items, ","));
    SplitJoin(items, ",");
    TrimAllTrimmed(items);
  }

  /** The `switch` of the route engine's blocks and conditions and of the
      output-section engine's conditions; the result stays `false` for the
      operations it has no case for, `has` among them. */
  function Compare(op: Operation, v: Json, values: seq<Json>): (r: bool)
    ensures r ==> !(op.Direct? || op.Transform? || op.Calculate? || op.Has?)
  {
    match op
    case Equal => Normalized(v) == OperandText(values)
    case Neq => Normalized(v) != OperandText(values)
    case Gt => Greater(ToNumber(v), NumOperand(values, 0))
    case Gte => AtLeast(ToNumber(v), NumOperand(values, 0))
    case Lt => Less(ToNumber(v), NumOperand(values, 0))
    case Lte => AtMost(ToNumber(v), NumOperand(values, 0))
    case In => ToStr(v) in CommaList(values)
    case Is => if Value(values, 0) == Str("null") then v == Null else v != Null
    case Between => AtLeast(ToNumber(v), NumOperand(values, 0)) && AtMost(ToNumber(v), NumOperand(values, 1))
    case _ => false
  }

  /** `equal` and `neq` are each other's negation. */
  lemma EqualNeqOpposite(v: Json, values: seq<Json>)
    ensures Compare(Neq, v, values) == !Compare(Equal, v, values)
  {
  }

  /** With a list written as trimmed items joined by commas, `in` holds
      exactly when the text of the value is one of the items. */
  lemma InJoinedList(v: Json, items: seq<string>)
    requires |items| > 0
    requires forall i :: 0 <= i < |items| ==> IsTrimmed(items[i]) && !Contains(items[i], ",")
    ensures Compare(In, v, [Str(Join(items, ","))]) <==> ToStr(v) in items
  {
    CommaListOfJoin(items, []);
    assert [Str(Join(items, ","))] + [] == [Str(Join(items, ","))];
  }

  /** `in` never holds when the list operand is not a string. */
  lemma InNeedsString(v: Json, values: seq<Json>)
    requires !Value(values, 0).Str?
    ensures !Compare(In, v, values)
  {
  }

  /** `is` with the operand `"null"` tests for `null`, with any other
      operand for anything else. */
  lemma IsTestsNull(v: Json, values: seq<Json>)
    ensures Compare(Is, v, values) <==> ((v == Null) <==> Value(values, 0) == Str("null"))
  {
  }
}
