/**
 * The client-side engine of src/components/output-section.tsx
 * (`getOutputData`): a lookup that tries the outputs computed so far, then
 * the parsed input; logic blocks evaluated element by element over an
 * array input; calculations whose variables are coerced to numbers and
 * whose formulas are checked before evaluation; and the output-schema
 * filter of the component's effect.
 */
module OutputSection {
  import opened Wrappers
  import opened Strings
  import opened Js
  import opened WorkflowTypes
  import opened Paths
  import opened Operands
  import opened Parens
  import Template

  // ---------------------------------------------------------------------
  // Lookup

  /** How a walk along the keys ends: the whole array, returned at once
      from the lookup, or the cursor after the keys, with `valid` false when
      a `null` or `undefined` cursor cut the walk short. */
  datatype Walk = Whole(arr: Json) | Ended(valid: bool, result: Json)

  /** One step of the walk: at an array cursor a numeric key indexes it
      and any other key takes its first element; elsewhere the key is a
      member name. */
  function StepOn(cur: Json, key: string): Json {
    if cur.Arr? then (if IsDigits(key) then Value(cur.items, DigitsValue(key)) else Value(cur.items, 0))
    else Member(cur, key)
  }

  /** The `for (const key of keys)` walk from key `i` on.  An array cursor
      is returned whole when the first occurrence of the next key is the
      last position of the key list. */
  function WalkFrom(cur: Json, keys: seq<string>, i: nat): Walk
    requires i <= |keys|
    decreases |keys| - i
  {
    if i == |keys| then Ended(true, cur)
    else if cur.Null? || cur.Undefined? then Ended(false, cur)
    else if cur.Arr? && IndexOf(keys, keys[i]) == |keys| - 1 then Whole(cur)
    else WalkFrom(StepOn(cur, keys[i]), keys, i + 1)
  }

  /** The keys of one path tried: `[n]` rewritten to `.n`, split on dots. */
  function KeysOf(path: string): seq<string> {
    Split(NormalizePath(path), ".")
  }

  /** The value one tried path gives the lookup, if any. */
  function TryPath(obj: Json, path: string): Option<Json> {
    var w := WalkFrom(obj, KeysOf(path), 0);
    if w.Whole? then Some(w.arr)
    else if w.valid && !w.result.Undefined? then Some(w.result)
    else None
  }

  /** The second path tried: the path with an `input_data.` prefix. */
  function Prefixed(path: string): string {
    if StartsWith(path, "input_data.") then path else "input_data." + path
  }

  /** `getNestedValue(obj, path, outputData)` */
  function Lookup(obj: Json, path: string, out: Fields): Json {
    if path == "" then Undefined
    else if HasKey(out, path) then Get(out, path)
    else
      var first := TryPath(obj, path);
      if first.Some? then first.value
      else TryPath(obj, Prefixed(path)).GetOr(Undefined)
  }

  /** The key walk of `getNestedValue`. */
  method WalkPath(obj: Json, keys: seq<string>) returns (w: Walk)
    ensures w == WalkFrom(obj, keys, 0)
  {
    var result := obj;
    var i := 0;
    while i < |keys|
      invariant 0 <= i <= |keys|
      invariant WalkFrom(result, keys, i) == WalkFrom(obj, keys, 0)
    {
      var key := keys[i];
      if result == Null || result == Undefined {
        return Ended(false, result);
      }
      if result.Arr? && IndexOf(keys, key) == |keys| - 1 {
        return Whole(result);
      }
      if result.Arr? {
        result := if IsDigits(key) then Value(result.items, DigitsValue(key)) else Value(result.items, 0);
      } else {
        result := Member(result, key);
      }
      i := i + 1;
    }
    return Ended(true, result);
  }

  /** One pass of the loop over the paths tried. */
  method TryOne(obj: Json, path: string) returns (found: Option<Json>)
    ensures found == TryPath(obj, path)
  {
    var w := WalkPath(obj, KeysOf(path));
    if w.Whole? {
      return Some(w.arr);
    }
    if w.valid && w.result != Undefined {
      return Some(w.result);
    }
    return None;
  }

  /** `getNestedValue`: the loop over the two paths tried. */
  method GetNestedValue(obj: Json, path: string, outputData: Fields) returns (r: Json)
    ensures r == Lookup(obj, path, outputData)
  {
    if path == "" {
      return Undefined;
    }
    if HasKey(outputData, path) {
      return Get(outputData, path);
    }
    var paths := [path, Prefixed(path)];
    var n := 0;
    while n < |paths|
      invariant 0 <= n <= |paths|
      invariant n > 0 ==> TryPath(obj, path).None?
      invariant n > 1 ==> TryPath(obj, Prefixed(path)).None?
    {
      var found := TryOne(obj, paths[n]);
      if found.Some? {
        return found.value;
      }
      n := n + 1;
    }
    return Undefined;
  }

  /** A tried path that gives a value gives a defined one. */
  lemma TryPathDefined(obj: Json, path: string)
    requires TryPath(obj, path).Some?
    ensures TryPath(obj, path).value != Undefined
  {
    WholeIsArray(obj, KeysOf(path), 0);
  }

  /** A walk returns only an array whole. */
  lemma {:induction false} WholeIsArray(cur: Json, keys: seq<string>, i: nat)
    requires i <= |keys|
    ensures WalkFrom(cur, keys, i).Whole? ==> WalkFrom(cur, keys, i).arr.Arr?
    decreases |keys| - i
  {
    if i < |keys| && !(cur.Null? || cur.Undefined?) && !(cur.Arr? && IndexOf(keys, keys[i]) == |keys| - 1) {
      WholeIsArray(StepOn(cur, keys[i]), keys, i + 1);
    }
  }

  /** The lookup order: a name among the outputs so far, then the path as
      given, then the path with the `input_data.` prefix; the first defined
      result wins, and `undefined` when neither path gives one. */
  lemma LookupOrder(obj: Json, path: string, out: Fields)
    requires path != ""
    ensures HasKey(out, path) ==> Lookup(obj, path, out) == Get(out, path)
    ensures !HasKey(out, path) && TryPath(obj, path).Some? ==> Lookup(obj, path, out) == TryPath(obj, path).value
    ensures !HasKey(out, path) && TryPath(obj, path).None? && TryPath(obj, Prefixed(path)).Some? ==>
      Lookup(obj, path, out) == TryPath(obj, Prefixed(path)).value
    ensures !HasKey(out, path) && TryPath(obj, path).None? && TryPath(obj, Prefixed(path)).None? ==>
      Lookup(obj, path, out) == Undefined
    ensures !HasKey(out, path) ==> (Lookup(obj, path, out) == Undefined <==>
      TryPath(obj, path).None? && TryPath(obj, Prefixed(path)).None?)
  {
    if !HasKey(out, path) && TryPath(obj, path).None? && TryPath(obj, Prefixed(path)).Some? {
      TryPathDefined(obj, Prefixed(path));
    }
    if !HasKey(out, path) && TryPath(obj, path).Some? {
      TryPathDefined(obj, path);
    }
  }

  /** The whole-array rule fires exactly at the last key, and only when
      that key does not occur earlier in the path. */
  lemma LastKeyRule(keys: seq<string>, i: nat)
    requires i < |keys|
    ensures IndexOf(keys, keys[i]) == |keys| - 1 <==> i == |keys| - 1 && keys[i] !in keys[..i]
  {
    var r := IndexOf(keys, keys[i]);
    assert r <= i;
    if i == |keys| - 1 && keys[i] !in keys[..i] {
      forall j | 0 <= j < i ensures keys[j] != keys[i] {
        assert keys[j] == keys[..i][j];
      }
    }
    if r == |keys| - 1 {
      forall j | 0 <= j < i ensures keys[..i][j] != keys[i] {
        assert keys[..i][j] == keys[j];
      }
    }
  }

  /** At an array before the last key, a numeric key indexes the array and
      any other key takes its first element. */
  lemma IntermediateArray(items: seq<Json>, keys: seq<string>, i: nat)
    requires i < |keys| - 1
    ensures WalkFrom(Arr(items), keys, i) ==
      WalkFrom(if IsDigits(keys[i]) then Value(items, DigitsValue(keys[i])) else Value(items, 0), keys, i + 1)
  {
    LastKeyRule(keys, i);
  }

  /** An array reached with only the last key left is returned whole, the
      key itself unused, when that key does not occur earlier. */
  lemma WholeAtLastKey(items: seq<Json>, keys: seq<string>)
    requires |keys| > 0 && keys[|keys| - 1] !in keys[..|keys| - 1]
    ensures WalkFrom(Arr(items), keys, |keys| - 1) == Whole(Arr(items))
  {
    LastKeyRule(keys, |keys| - 1);
  }

  /** A single path segment: no dot and no bracket. */
  predicate Segment(s: string) {
    s != [] && !Contains(s, ".") && forall i :: 0 <= i < |s| ==> s[i] != '['
  }

  lemma TwoSegments(a: string, b: string)
    requires Segment(a) && Segment(b)
    ensures KeysOf(a + "." + b) == [a, b]
  {
    var s := a + "." + b;
    forall i | 0 <= i < |s| ensures s[i] != '[' {
      if i < |a| {
        assert s[i] == a[i];
      } else if i > |a| {
        assert s[i] == b[i - |a| - 1];
      }
    }
    NoBracketUnchanged(s);
    SplitAfterPiece(a, ".", b);
    SplitWithout(b, ".");
  }

  /** `a.b` where the member `a` is an array: the whole array, whatever
      `b` is, unless `b` is `a` again; then, because the rule looks up the
      first occurrence of the key, the walk goes on into the first element. */
  lemma ArrayMemberPath(fs: Fields, a: string, b: string, items: seq<Json>)
    requires Segment(a) && Segment(b) && !IsDigits(b)
    requires Get(fs, a) == Arr(items)
    ensures a != b ==> TryPath(Obj(fs), a + "." + b) == Some(Arr(items))
    ensures a == b ==> TryPath(Obj(fs), a + "." + b) ==
                       (if Value(items, 0) == Undefined then None else Some(Value(items, 0)))
  {
    var keys := [a, b];
    TwoSegments(a, b);
    assert WalkFrom(Obj(fs), keys, 0) == WalkFrom(Arr(items), keys, 1);
    if a != b {
      assert keys[..1] == [a];
      WholeAtLastKey(items, keys);
    } else {
      assert IndexOf(keys, keys[1]) == 0;
      assert WalkFrom(Arr(items), keys, 1) == WalkFrom(Value(items, 0), keys, 2);
    }
  }

  /** Writing an index as `[n]` or as `.n` makes no difference to a path. */
  lemma BracketIsDot(obj: Json, p: string, d: string, q: string)
    requires IsDigits(d)
    ensures TryPath(obj, p + "[" + d + "]" + q) == TryPath(obj, p + "." + d + q)
  {
    BracketSameAsDot(p, d, q);
  }

  // ---------------------------------------------------------------------
  // Available paths

  /** `getAllPaths(obj, prefix)` of this file: every member's path, an
      array's elements as `path[i]`, recursively. */
  function AllPaths(v: Json, prefix: string): seq<string>
    decreases v, 2
  {
    if v.Arr? || v.Obj? then EntriesPaths(v, Entries(v), prefix) else []
  }

  function EntriesPaths(v: Json, es: Fields, prefix: string): seq<string>
    requires forall i :: 0 <= i < |es| ==> es[i].1 < v
    decreases v, 1, |es|
  {
    if es == [] then [] else EntryPaths(es[0].0, es[0].1, prefix) + EntriesPaths(v, es[1..], prefix)
  }

  /** The paths one entry contributes: its own path first. */
  function EntryPaths(key: string, value: Json, prefix: string): seq<string>
    decreases value, 3
  {
    var cp := Under(prefix, key);
    if value.Arr? then [cp] + IndexPaths(value, cp, 0)
    else if value.Obj? then [cp] + AllPaths(value, cp)
    else [cp]
  }

  /** The element paths `cp[i]` of an array from index `i` on, each followed
      by the paths inside an object element. */
  function IndexPaths(arr: Json, cp: string, i: nat): seq<string>
    requires arr.Arr? && i <= |arr.items|
    decreases arr, 1, |arr.items| - i
  {
    if i == |arr.items| then []
    else
      var ap := cp + "[" + NatToString(i) + "]";
      var x := arr.items[i];
      [ap] + (if IsObjectType(x) then AllPaths(x, ap) else []) + IndexPaths(arr, cp, i + 1)
  }

  /** Under a non-empty prefix every path starts with the prefix and a dot. */
  lemma {:induction false} AllPathsPrefixed(v: Json, prefix: string)
    requires prefix != ""
    ensures forall p :: p in AllPaths(v, prefix) ==> StartsWith(p, prefix + ".")
    decreases v, 2
  {
    if v.Arr? || v.Obj? {
      EntriesPrefixed(v, Entries(v), prefix);
    }
  }

  lemma {:induction false} EntriesPrefixed(v: Json, es: Fields, prefix: string)
    requires prefix != ""
    requires forall i :: 0 <= i < |es| ==> es[i].1 < v
    ensures forall p :: p in EntriesPaths(v, es, prefix) ==> StartsWith(p, prefix + ".")
    decreases v, 1, |es|
  {
    if es != [] {
      EntryPrefixed(es[0].0, es[0].1, prefix);
      EntriesPrefixed(v, es[1..], prefix);
      var cp := Under(prefix, es[0].0);
      assert StartsWith(cp, prefix + ".");
      forall p | p in EntryPaths(es[0].0, es[0].1, prefix) ensures StartsWith(p, prefix + ".") {
        StartsWithTrans(p, cp, prefix + ".");
      }
    }
  }

  /** An entry's paths all start with the entry's own path. */
  lemma {:induction false} EntryPrefixed(key: string, value: Json, prefix: string)
    ensures forall p :: p in EntryPaths(key, value, prefix) ==> StartsWith(p, Under(prefix, key))
    decreases value, 3
  {
    var cp := Under(prefix, key);
    if value.Arr? {
      IndexPrefixed(value, cp, 0);
      forall p | p in IndexPaths(value, cp, 0) ensures StartsWith(p, cp) {
        StartsWithTrans(p, cp + "[", cp);
      }
    } else if value.Obj? && cp != "" {
      AllPathsPrefixed(value, cp);
      forall p | p in AllPaths(value, cp) ensures StartsWith(p, cp) {
        StartsWithTrans(p, cp + ".", cp);
      }
    }
  }

  lemma {:induction false} IndexPrefixed(arr: Json, cp: string, i: nat)
    requires arr.Arr? && i <= |arr.items|
    ensures forall p :: p in IndexPaths(arr, cp, i) ==> StartsWith(p, cp + "[")
    decreases arr, 1, |arr.items| - i
  {
    if i < |arr.items| {
      var ap := cp + "[" + NatToString(i) + "]";
      var x := arr.items[i];
      IndexPrefixed(arr, cp, i + 1);
      assert StartsWith(ap, cp + "[");
      if IsObjectType(x) {
        AllPathsPrefixed(x, ap);
        forall p | p in AllPaths(x, ap) ensures StartsWith(p, cp + "[") {
          StartsWithTrans(p, ap + ".", ap);
          StartsWithTrans(p, ap, cp + "[");
        }
      }
    }
  }

  /** Every member of an object is listed under its own path. */
  lemma {:induction false} MembersListed(v: Json, es: Fields, prefix: string, i: nat)
    requires forall j :: 0 <= j < |es| ==> es[j].1 < v
    requires i < |es|
    ensures Under(prefix, es[i].0) in EntriesPaths(v, es, prefix)
    decreases |es|
  {
    if i > 0 {
      MembersListed(v, es[1..], prefix, i - 1);
    }
  }

  /** Every element of an array member is listed by index as `path[i]`. */
  lemma {:induction false} ElementsListed(arr: Json, cp: string, i: nat, j: nat)
    requires arr.Arr? && i <= j < |arr.items|
    ensures cp + "[" + NatToString(j) + "]" in IndexPaths(arr, cp, i)
    decreases j - i
  {
    if i < j {
      ElementsListed(arr, cp, i + 1, j);
    }
  }

  /** Listed paths of an object: each member name, and `name[j]` for each
      element of an array member. */
  lemma ObjectPathsListed(fs: Fields, prefix: string, i: nat)
    requires i < |fs|
    ensures Under(prefix, fs[i].0) in AllPaths(Obj(fs), prefix)
    ensures fs[i].1.Arr? ==> forall j :: 0 <= j < |fs[i].1.items| ==>
      Under(prefix, fs[i].0) + "[" + NatToString(j) + "]" in AllPaths(Obj(fs), prefix)
  {
    MembersListed(Obj(fs), fs, prefix, i);
    if fs[i].1.Arr? {
      forall j | 0 <= j < |fs[i].1.items|
        ensures Under(prefix, fs[i].0) + "[" + NatToString(j) + "]" in AllPaths(Obj(fs), prefix)
      {
        ElementsListed(fs[i].1, Under(prefix, fs[i].0), 0, j);
        EntryInEntries(Obj(fs), fs, prefix, i, Under(prefix, fs[i].0) + "[" + NatToString(j) + "]");
      }
    }
  }

  lemma {:induction false} EntryInEntries(v: Json, es: Fields, prefix: string, i: nat, p: string)
    requires forall j :: 0 <= j < |es| ==> es[j].1 < v
    requires i < |es| && p in EntryPaths(es[i].0, es[i].1, prefix)
    ensures p in EntriesPaths(v, es, prefix)
    decreases |es|
  {
    if i > 0 {
      EntryInEntries(v, es[1..], prefix, i - 1, p);
    }
  }

  // ---------------------------------------------------------------------
  // Logic blocks

  /** `block.input_name.split('.').pop()` */
  function FieldName(name: string): string {
    var parts := Split(name, ".");
    parts[|parts| - 1]
  }

  /** The last segment of a dotted name whose segments have no dot. */
  lemma FieldNameOfJoin(parts: seq<string>)
    requires |parts| > 0
    requires forall i :: 0 <= i < |parts| ==> !Contains(parts[i], ".")
    ensures FieldName(Join(parts, ".")) == parts[|parts| - 1]
  {
    SplitJoin(parts, ".");
  }

  /** What `equal`, `neq` and `in` compare for one element: an element of
      object type stands for its member named after the last segment of
      the input name; for `null` that member access throws, which the
      engine catches as a failed test (`None`). */
  function Compared(x: Json, name: string): (r: Option<Json>)
    ensures r.None? <==> x == Null
    ensures r.Some? && !IsObjectType(x) ==> r.value == x
  {
    if x == Null then None
    else if IsObjectType(x) then Some(Member(x, FieldName(name)))
    else Some(x)
  }

  /** The primary test of a block on one element of its input. */
  function Primary(op: Operation, x: Json, values: seq<Json>, name: string): bool {
    if op == Equal || op == Neq || op == In then
      var c := Compared(x, name);
      c.Some? && Compare(op, c.value, values)
    else if op == Has then
      Contains(Lower(ToStr(x)), Lower(ToStr(OrElse(Value(values, 0), Str("")))))
    else Compare(op, x, values)
  }

  /** The elements a block maps over: those of an array, else the value alone. */
  function ItemsOf(v: Json): seq<Json> {
    if v.Arr? then v.items else [v]
  }

  /** `conditionValues[index] || conditionValues[0]`: a condition on an
      array follows the block's element by index, falling back to the
      first element; a condition on any other value uses that value for
      every element. */
  function CondValue(cv: Json, idx: nat): (r: Json)
    ensures cv.Arr? && idx < |cv.items| && Truthy(cv.items[idx]) ==> r == cv.items[idx]
    ensures cv.Arr? && idx < |cv.items| && !Truthy(cv.items[idx]) ==> r == Value(cv.items, 0)
    ensures cv.Arr? && idx >= |cv.items| ==> r == Value(cv.items, 0)
    ensures !cv.Arr? ==> r == cv
  {
    var cvs := ItemsOf(cv);
    OrElse(Value(cvs, idx), Value(cvs, 0))
  }

  /** What one condition contributes to the fold for element `idx`; a
      condition whose input does not resolve is skipped. */
  function CondStep(c: Condition, input: Json, data: Fields, idx: nat): Step {
    var cv := Lookup(input, c.input_name, data);
    Step(c.operator, if cv.Undefined? then None else Some(Compare(c.operation, CondValue(cv, idx), c.values)))
  }

  function CondSteps(conds: seq<Condition>, input: Json, data: Fields, idx: nat): (r: seq<Step>)
    ensures |r| == |conds|
  {
    seq(|conds|, i requires 0 <= i < |conds| => CondStep(conds[i], input, data, idx))
  }

  /** `{ result: finalResult, value: ... }` for one element. */
  datatype Outcome = Outcome(result: bool, value: Json)

  function Element(b: LogicBlock, input: Json, data: Fields, x: Json, idx: nat): Outcome {
    var r := Fold(Primary(b.operation, x, b.values, b.input_name), CondSteps(ConditionsOf(b), input, data, idx));
    Outcome(r, if r then b.output_value else OrElse(b.default_value, Str("")))
  }

  function Results(b: LogicBlock, input: Json, data: Fields, items: seq<Json>): (rs: seq<Outcome>)
    ensures |rs| == |items|
  {
    seq(|items|, i requires 0 <= i < |items| => Element(b, input, data, items[i], i))
  }

  /** `results.some(r => r.result)` */
  predicate AnyResult(rs: seq<Outcome>) {
    exists i :: 0 <= i < |rs| && rs[i].result
  }

  /** What a block stores from its element results: one value for `in` and
      `has`, an array aligned with an array input of several elements, and
      otherwise the first element's value. */
  function Aggregate(b: LogicBlock, inputValue: Json, rs: seq<Outcome>): Json {
    if b.operation == In || b.operation == Has then
      if AnyResult(rs) then OrElse(b.output_value, Num(20)) else OrElse(b.default_value, Num(0))
    else if inputValue.Arr? && |rs| > 1 then
      Arr(seq(|rs|, i requires 0 <= i < |rs| => rs[i].value))
    else
      OrElse(OrElse(if |rs| > 0 then rs[0].value else Undefined, b.default_value), Num(0))
  }

  /** The value a block with an output name stores, given the block data
      written so far; an input that does not resolve stores the default. */
  function BlockValue(b: LogicBlock, input: Json, data: Fields): Json {
    var v := Lookup(input, b.input_name, data);
    if v.Undefined? then OrElse(b.default_value, Str(""))
    else Aggregate(b, v, Results(b, input, data, ItemsOf(v)))
  }

  /** `data` after the logic blocks: each block with an output name writes,
      and each sees what the blocks before it wrote. */
  function RunBlocks(blocks: seq<LogicBlock>, input: Json): Fields
    decreases |blocks|
  {
    if blocks == [] then []
    else
      var init, b := blocks[..|blocks| - 1], blocks[|blocks| - 1];
      var data := RunBlocks(init, input);
      if b.output_name == "" then data else Put(data, b.output_name, BlockValue(b, input, data))
  }

  /** One more block stores its value, unless it has no output name. */
  lemma RunBlocksLast(blocks: seq<LogicBlock>, i: nat, input: Json)
    requires i < |blocks|
    ensures RunBlocks(blocks[..i + 1], input) ==
      if blocks[i].output_name == "" then RunBlocks(blocks[..i], input)
      else Put(RunBlocks(blocks[..i], input), blocks[i].output_name, BlockValue(blocks[i], input, RunBlocks(blocks[..i], input)))
  {
    assert blocks[..i + 1][..i] == blocks[..i];
  }

  /** The keys of the block data are exactly the blocks' output names:
      unlike the other engines, a block whose input does not resolve
      still writes. */
  lemma {:induction false} BlockKeys(blocks: seq<LogicBlock>, input: Json, k: string)
    ensures HasKey(RunBlocks(blocks, input), k) <==> OutputsName(blocks, k)
    decreases |blocks|
  {
    if blocks != [] {
      var init, b := blocks[..|blocks| - 1], blocks[|blocks| - 1];
      BlockKeys(init, input, k);
      if b.output_name != "" {
        PutHasKey(RunBlocks(init, input), b.output_name, BlockValue(b, input, RunBlocks(init, input)), k);
      }
    }
  }

  /** A block whose input name is the output name of an earlier block reads
      that block's stored value, before the parsed input is consulted. */
  lemma EarlierOutputFirst(blocks: seq<LogicBlock>, input: Json, k: string)
    requires OutputsName(blocks, k)
    ensures Lookup(input, k, RunBlocks(blocks, input)) == Get(RunBlocks(blocks, input), k)
  {
    BlockKeys(blocks, input, k);
  }

  /** A block with an output name stores its value, computed on the data
      before it, and it stays there unless a later block has the same name. */
  lemma {:induction false} BlocksStore(blocks: seq<LogicBlock>, input: Json, i: nat)
    requires i < |blocks| && blocks[i].output_name != ""
    requires forall j :: i < j < |blocks| ==> blocks[j].output_name != blocks[i].output_name
    ensures Get(RunBlocks(blocks, input), blocks[i].output_name) ==
            BlockValue(blocks[i], input, RunBlocks(blocks[..i], input))
    decreases |blocks|
  {
    var init, b := blocks[..|blocks| - 1], blocks[|blocks| - 1];
    if i == |blocks| - 1 {
      assert blocks[..i] == init;
    } else {
      assert init[..i] == blocks[..i];
      BlocksStore(init, input, i);
      if b.output_name != "" {
        PutOther(RunBlocks(init, input), b.output_name, BlockValue(b, input, RunBlocks(init, input)), blocks[i].output_name);
      }
    }
  }

  /** `in` and `has` store a single value: `output_value || 20` when the
      test passes on some element, else `default_value || 0`. */
  lemma SingleValueTests(b: LogicBlock, input: Json, data: Fields)
    requires b.operation == In || b.operation == Has
    requires !Lookup(input, b.input_name, data).Undefined?
    ensures var items := ItemsOf(Lookup(input, b.input_name, data));
      BlockValue(b, input, data) ==
        if exists i :: 0 <= i < |items| && Element(b, input, data, items[i], i).result
        then OrElse(b.output_value, Num(20)) else OrElse(b.default_value, Num(0))
  {
    var items := ItemsOf(Lookup(input, b.input_name, data));
    var rs := Results(b, input, data, items);
    assert forall i :: 0 <= i < |items| ==> rs[i] == Element(b, input, data, items[i], i);
  }

  /** Any other test on an array of several elements stores an array of
      the same length, element by element. */
  lemma ArrayAligned(b: LogicBlock, input: Json, data: Fields)
    requires b.operation != In && b.operation != Has
    requires var v := Lookup(input, b.input_name, data); v.Arr? && |v.items| > 1
    ensures var items := Lookup(input, b.input_name, data).items;
      var r := BlockValue(b, input, data);
      r.Arr? && |r.items| == |items| &&
      forall i :: 0 <= i < |items| ==> r.items[i] == Element(b, input, data, items[i], i).value
  {
  }

  /** `equal`, `neq` and `in` fail on a `null` element, `neq` included. */
  lemma NullNeverMatches(op: Operation, values: seq<Json>, name: string)
    requires op == Equal || op == Neq || op == In
    ensures !Primary(op, Null, values, name)
  {
  }

  /** On an object element, `equal` compares the member named after the
      last segment of the input name. */
  lemma ObjectComparedByField(fs: Fields, parts: seq<string>, values: seq<Json>)
    requires |parts| > 0
    requires forall i :: 0 <= i < |parts| ==> !Contains(parts[i], ".")
    ensures Primary(Equal, Obj(fs), values, Join(parts, ".")) <==>
            Normalized(Get(fs, parts[|parts| - 1])) == OperandText(values)
  {
    FieldNameOfJoin(parts);
  }

  /** The lookup and the test of one condition for element `idx`. */
  method ConditionStep(c: Condition, input: Json, data: Fields, idx: nat) returns (st: Step)
    ensures st == CondStep(c, input, data, idx)
  {
    var cv := GetNestedValue(input, c.input_name, data);
    if cv == Undefined {
      return Step(c.operator, None);
    }
    var conditionValues := ItemsOf(cv);
    var condValue := OrElse(Value(conditionValues, idx), Value(conditionValues, 0));
    st := Step(c.operator, Some(Compare(c.operation, condValue, c.values)));
  }

  /** The `block.conditions?.forEach` loop for element `idx`. */
  method EvaluateConditions(primary: bool, conds: seq<Condition>, input: Json, data: Fields, idx: nat)
    returns (finalResult: bool)
    ensures finalResult == Fold(primary, CondSteps(conds, input, data, idx))
  {
    ghost var steps := CondSteps(conds, input, data, idx);
    finalResult := primary;
    var j := 0;
    while j < |conds|
      invariant 0 <= j <= |conds|
      invariant finalResult == Fold(primary, steps[..j])
    {
      FoldPrefix(primary, steps, j);
      var st := ConditionStep(conds[j], input, data, idx);
      assert st == steps[j];
      if st.result.Some? {
        if st.op == And {
          finalResult := finalResult && st.result.value;
        } else {
          finalResult := finalResult || st.result.value;
        }
      }
      j := j + 1;
    }
    assert steps[..j] == steps;
  }

  /** The `inputValues.map` callback. */
  method EvaluateElement(b: LogicBlock, input: Json, data: Fields, x: Json, idx: nat) returns (o: Outcome)
    ensures o == Element(b, input, data, x, idx)
  {
    var primaryResult := Primary(b.operation, x, b.values, b.input_name);
    var finalResult := EvaluateConditions(primaryResult, ConditionsOf(b), input, data, idx);
    o := Outcome(finalResult, if finalResult then b.output_value else OrElse(b.default_value, Str("")));
  }

  /** One block with an output name, given the block data so far. */
  method EvaluateBlock(b: LogicBlock, input: Json, data: Fields) returns (value: Json)
    ensures value == BlockValue(b, input, data)
  {
    var inputValue := GetNestedValue(input, b.input_name, data);
    if inputValue == Undefined {
      return OrElse(b.default_value, Str(""));
    }
    var inputValues := ItemsOf(inputValue);
    var results: seq<Outcome> := [];
    var i := 0;
    while i < |inputValues|
      invariant 0 <= i <= |inputValues|
      invariant results == Results(b, input, data, inputValues[..i])
    {
      var o := EvaluateElement(b, input, data, inputValues[i], i);
      ResultsLast(b, input, data, inputValues, i);
      results := results + [o];
      i := i + 1;
    }
    assert inputValues[..i] == inputValues;
    value := Aggregate(b, inputValue, results);
  }

  lemma ResultsLast(b: LogicBlock, input: Json, data: Fields, items: seq<Json>, i: nat)
    requires i < |items|
    ensures Results(b, input, data, items[..i + 1])
      == Results(b, input, data, items[..i]) + [Element(b, input, data, items[i], i)]
  {
    var r := Results(b, input, data, items[..i + 1]);
    var t := Results(b, input, data, items[..i]) + [Element(b, input, data, items[i], i)];
    forall j | 0 <= j < i + 1 ensures r[j] == t[j] {
      assert items[..i + 1][j] == items[j];
    }
  }

  /** The logic-block loop of `getOutputData`. */
  method RunLogicBlocks(blocks: seq<LogicBlock>, input: Json) returns (data: Fields)
    ensures data == RunBlocks(blocks, input)
  {
    data := [];
    var i := 0;
    while i < |blocks|
      invariant 0 <= i <= |blocks|
      invariant data == RunBlocks(blocks[..i], input)
    {
      RunBlocksLast(blocks, i, input);
      data := StoreBlock(blocks[i], input, data);
      i := i + 1;
    }
    assert blocks[..i] == blocks;
  }

  /** One pass of the block loop: a block with an output name stores its
      value. */
  method StoreBlock(b: LogicBlock, input: Json, data: Fields) returns (data': Fields)
    ensures data' == if b.output_name == "" then data else Put(data, b.output_name, BlockValue(b, input, data))
  {
    data' := data;
    if b.output_name != "" {
      var value := EvaluateBlock(b, input, data);
      data' := Put(data, b.output_name, value);
    }
  }

  // ---------------------------------------------------------------------
  // Calculations

  /** The text a `${key}` placeholder becomes, from the value the key
      resolves to in the context; `None` (the replacement throws) when it
      does not resolve. */
  function NumText(v: Json): (r: Option<string>)
    ensures r.None? <==> v.Undefined?
  {
    match v
    case Undefined => None
    case Bool(b) => Some(if b then "1" else "0")
    case Str(s) =>
      if Lower(s) == "true" then Some("1")
      else if Lower(s) == "false" then Some("0")
      else
        var n := ParseNumber(s);
        if n.None? then Some("0") else Some(IntToString(n.value))
    case Null => Some("0")
    case Arr(items) => Some(NatToString(|items|))
    case Obj(_) => Some("0")
    case Num(n) => Some(IntToString(n))
  }

  /** The replacement callback over a calculation's context. */
  function Coerce(context: Fields): string -> Option<string> {
    k => NumText(Lookup(Obj(context), k, []))
  }

  /** Whatever a placeholder resolves to, it is replaced by an integer
      numeral. */
  lemma CoercedNumeral(v: Json)
    requires !v.Undefined?
    ensures IsNumeral(NumText(v).value)
  {
    var t := NumText(v).value;
    match v
    case Str(s) =>
      if Lower(s) != "true" && Lower(s) != "false" && ParseNumber(s).Some? {
        IntToStringNumeral(ParseNumber(s).value);
      } else {
        assert IsDigits(t);
      }
    case Num(n) => IntToStringNumeral(n);
    case Arr(items) => assert t == NatToString(|items|);
    case _ => assert IsDigits(t);
  }

  /** A number, a boolean, `null` or a numeric string is replaced by the
      numeral of its own `Number` value: the formula computes on the values
      themselves. */
  lemma CoercionKeepsNumbers(v: Json)
    requires v.Num? || v.Bool? || v.Null? || (v.Str? && ParseNumber(v.s).Some?)
    ensures NumText(v).Some? && ParseNumber(NumText(v).value) == ToNumber(v)
  {
    match v
    case Str(s) =>
      if Lower(s) == "true" || Lower(s) == "false" {
        BooleanWordsNotNumbers(s);
      }
      ParseIntToString(ParseNumber(s).value);
    case Num(n) => ParseIntToString(n);
    case Bool(b) => ParseIntToString(if b then 1 else 0);
    case Null => ParseIntToString(0);
  }

  /** The checks a substituted formula must pass before it is evaluated:
      not blank, not `{}` or `undefined`, parentheses balanced. */
  predicate Admissible(f: string) {
    !IsBlank(f) && f != "{}" && f != "undefined" && Balanced(f)
  }

  /** What a calculation stores: 0 when a placeholder does not resolve or
      the formula fails a check, else what `eval` makes of the formula, 0
      where that is not a number.  `eval` stands for the syntax check and
      the `Number(...)` evaluation by `new Function`. */
  function CalcValue(context: Fields, formula: string, eval: string -> Option<int>): (r: Json)
    ensures r.Num?
  {
    var f := Template.Replace(formula, Coerce(context));
    if f.None? || !Admissible(f.value) then Num(0)
    else if eval(f.value).None? then Num(0)
    else Num(eval(f.value).value)
  }

  /** One pass of the calculation loop: every calculation with an output
      name writes, in the context of the block outputs in `data`. */
  function CalcStep(input: Json, blocks: seq<LogicBlock>, eval: string -> Option<int>, data: Fields, c: Calculation): Fields {
    if c.output_name == "" then data
    else Put(data, c.output_name, CalcValue(BlockContext(input, blocks, data), c.formula, eval))
  }

  function CalcStepper(input: Json, blocks: seq<LogicBlock>, eval: string -> Option<int>): (Fields, Calculation) -> Fields {
    (data, c) => CalcStep(input, blocks, eval, data, c)
  }

  function RunCalcs(input: Json, blocks: seq<LogicBlock>, calcs: seq<Calculation>, eval: string -> Option<int>, data: Fields): Fields {
    Iterate(CalcStepper(input, blocks, eval), calcs, data)
  }

  lemma RunCalcsLast(input: Json, blocks: seq<LogicBlock>, calcs: seq<Calculation>, eval: string -> Option<int>, data: Fields)
    requires calcs != []
    ensures RunCalcs(input, blocks, calcs, eval, data) ==
      CalcStep(input, blocks, eval, RunCalcs(input, blocks, calcs[..|calcs| - 1], eval, data), calcs[|calcs| - 1])
  {
  }

  /** A placeholder whose key does not resolve makes the calculation 0. */
  lemma MissingVariableIsZero(context: Fields, k: string, rest: string, eval: string -> Option<int>)
    requires Template.IsKey(k)
    requires Lookup(Obj(context), k, []) == Undefined
    ensures CalcValue(context, "${" + k + "}" + rest, eval) == Num(0)
  {
    Template.ReplaceLeading(k, rest, Coerce(context));
  }

  /** A formula without placeholders is evaluated as written when it passes
      the checks, and is 0 otherwise; an unbalanced one is always 0. */
  lemma PlainFormula(context: Fields, f: string, eval: string -> Option<int>)
    requires forall i :: 0 <= i < |f| ==> f[i] != '$'
    ensures CalcValue(context, f, eval) ==
      if Admissible(f) && eval(f).Some? then Num(eval(f).value) else Num(0)
    ensures !Balanced(f) ==> CalcValue(context, f, eval) == Num(0)
  {
    Template.ReplaceNoDollar(f, Coerce(context));
  }

  lemma CalcStepKeys(input: Json, blocks: seq<LogicBlock>, eval: string -> Option<int>, data: Fields, c: Calculation, k: string)
    ensures HasKey(CalcStep(input, blocks, eval, data, c), k) <==> HasKey(data, k) || (c.output_name == k && k != "")
  {
    if c.output_name != "" {
      PutHasKey(data, c.output_name, CalcValue(BlockContext(input, blocks, data), c.formula, eval), k);
    }
  }

  /** Every calculation with an output name writes its key, and nothing
      else gains a key. */
  lemma {:induction false} CalcKeys(input: Json, blocks: seq<LogicBlock>, calcs: seq<Calculation>, eval: string -> Option<int>, data: Fields, k: string)
    ensures HasKey(RunCalcs(input, blocks, calcs, eval, data), k) <==>
      HasKey(data, k) || exists i :: 0 <= i < |calcs| && calcs[i].output_name == k && k != ""
    decreases |calcs|
  {
    if calcs != [] {
      var init, c := calcs[..|calcs| - 1], calcs[|calcs| - 1];
      CalcKeys(input, blocks, init, eval, data, k);
      var d := RunCalcs(input, blocks, init, eval, data);
      assert HasKey(RunCalcs(input, blocks, calcs, eval, data), k) <==> HasKey(d, k) || (c.output_name == k && k != "") by {
        RunCalcsLast(input, blocks, calcs, eval, data);
        CalcStepKeys(input, blocks, eval, d, c, k);
      }
      NamedSnoc(calcs, k);
    }
  }

  lemma NamedSnoc(calcs: seq<Calculation>, k: string)
    requires calcs != []
    ensures var init := calcs[..|calcs| - 1];
      (exists i :: 0 <= i < |calcs| && calcs[i].output_name == k && k != "") <==>
      (exists i :: 0 <= i < |init| && init[i].output_name == k && k != "") || (calcs[|calcs| - 1].output_name == k && k != "")
  {
    var init := calcs[..|calcs| - 1];
    if exists i :: 0 <= i < |calcs| && calcs[i].output_name == k && k != "" {
      var i :| 0 <= i < |calcs| && calcs[i].output_name == k && k != "";
      if i < |init| {
        assert init[i] == calcs[i];
      }
    }
    if exists i :: 0 <= i < |init| && init[i].output_name == k && k != "" {
      var i :| 0 <= i < |init| && init[i].output_name == k && k != "";
      assert calcs[i] == init[i];
    }
  }

  /** When no named calculation shares its name with a block, the
      calculations all read the context of the block outputs: no
      calculation sees another's result. A calculation without a name is
      skipped, so it may share the empty name with an unnamed block. */
  lemma {:induction false} ContextFixed(input: Json, blocks: seq<LogicBlock>, calcs: seq<Calculation>, eval: string -> Option<int>, data: Fields)
    requires forall i, j :: 0 <= i < |calcs| && 0 <= j < |blocks| && calcs[i].output_name != "" ==> calcs[i].output_name != blocks[j].output_name
    ensures BlockContext(input, blocks, RunCalcs(input, blocks, calcs, eval, data)) == BlockContext(input, blocks, data)
    decreases |calcs|
  {
    if calcs != [] {
      var init, c := calcs[..|calcs| - 1], calcs[|calcs| - 1];
      ContextFixed(input, blocks, init, eval, data);
      RunCalcsLast(input, blocks, calcs, eval, data);
      var d := RunCalcs(input, blocks, init, eval, data);
      if c.output_name != "" {
        BlockContextIgnores(input, blocks, d, c.output_name, CalcValue(BlockContext(input, blocks, d), c.formula, eval));
      }
    }
  }

  /** The parenthesis scan: it stops at the first `)` that closes more than
      was opened, and fails when anything is left open. */
  method CheckParens(formula: string) returns (ok: bool)
    ensures ok == Balanced(formula)
  {
    var parenCount := 0;
    var i := 0;
    while i < |formula|
      invariant 0 <= i <= |formula|
      invariant parenCount == Depth(formula[..i])
      invariant forall k :: 0 <= k <= i ==> Depth(formula[..k]) >= 0
    {
      DepthSnoc(formula[..i], formula[i]);
      assert formula[..i + 1] == formula[..i] + [formula[i]];
      if formula[i] == '(' {
        parenCount := parenCount + 1;
      }
      if formula[i] == ')' {
        parenCount := parenCount - 1;
      }
      if parenCount < 0 {
        return false;
      }
      i := i + 1;
    }
    assert formula[..i] == formula;
    ok := !(parenCount > 0);
  }

  /** The checks before evaluation, in the engine's order. */
  method CheckFormula(formula: string) returns (ok: bool)
    ensures ok == Admissible(formula)
  {
    TrimEmptyIffBlank(formula);
    if formula == "" || Trim(formula) == "" {
      return false;
    }
    if formula == "{}" || formula == "undefined" {
      return false;
    }
    ok := CheckParens(formula);
  }

  /** The body of the `try` around one calculation. */
  method EvaluateCalculation(context: Fields, rawFormula: string, eval: string -> Option<int>) returns (result: Json)
    ensures result == CalcValue(context, rawFormula, eval)
  {
    var formula := Template.Replace(rawFormula, Coerce(context));
    if formula.None? {
      return Num(0);
    }
    var ok := CheckFormula(formula.value);
    if !ok {
      return Num(0);
    }
    var n := eval(formula.value);
    result := if n.None? then Num(0) else Num(n.value);
  }

  method RunCalculation(input: Json, blocks: seq<LogicBlock>, eval: string -> Option<int>, data0: Fields, c: Calculation)
    returns (data: Fields)
    ensures data == CalcStep(input, blocks, eval, data0, c)
  {
    data := data0;
    if c.output_name != "" {
      var context := BuildContext(input, blocks, data);
      var result := EvaluateCalculation(context, c.formula, eval);
      data := Put(data, c.output_name, result);
    }
  }

  /** The calculation loop of `getOutputData`. */
  method RunCalculations(input: Json, blocks: seq<LogicBlock>, calcs: seq<Calculation>, eval: string -> Option<int>, data0: Fields)
    returns (data: Fields)
    ensures data == RunCalcs(input, blocks, calcs, eval, data0)
  {
    data := data0;
    var i := 0;
    while i < |calcs|
      invariant 0 <= i <= |calcs|
      invariant data == RunCalcs(input, blocks, calcs[..i], eval, data0)
    {
      RunCalcsLast(input, blocks, calcs[..i + 1], eval, data0);
      assert calcs[..i + 1][..i] == calcs[..i];
      data := RunCalculation(input, blocks, eval, data, calcs[i]);
      i := i + 1;
    }
    assert calcs[..i] == calcs;
  }

  // ---------------------------------------------------------------------
  // The output schema

  /** The entries the schema does not switch off (`outputSchema[key] !== false`),
      in order. */
  function KeepNotFalse(fs: Fields, schema: Fields): Fields {
    if fs == [] then []
    else (if Get(schema, fs[0].0) != Bool(false) then [fs[0]] else []) + KeepNotFalse(fs[1..], schema)
  }

  /** The filter keeps a member exactly when the schema does not mark it
      `false`; a key the schema does not list is kept. */
  lemma {:induction false} KeepNotFalseGet(fs: Fields, schema: Fields, k: string)
    ensures Get(KeepNotFalse(fs, schema), k) == if Get(schema, k) != Bool(false) then Get(fs, k) else Undefined
    ensures HasKey(KeepNotFalse(fs, schema), k) <==> HasKey(fs, k) && Get(schema, k) != Bool(false)
  {
    if fs != [] {
      KeepNotFalseGet(fs[1..], schema, k);
      if Get(schema, fs[0].0) != Bool(false) {
        assert ([fs[0]] + KeepNotFalse(fs[1..], schema))[1..] == KeepNotFalse(fs[1..], schema);
      } else {
        assert [] + KeepNotFalse(fs[1..], schema) == KeepNotFalse(fs[1..], schema);
      }
    }
  }

  /** A schema that switches none of the members off keeps them all. */
  lemma {:induction false} KeepAll(fs: Fields, schema: Fields)
    requires forall i :: 0 <= i < |fs| ==> Get(schema, fs[i].0) != Bool(false)
    ensures KeepNotFalse(fs, schema) == fs
  {
    if fs != [] {
      KeepAll(fs[1..], schema);
      assert [fs[0]] + fs[1..] == fs;
    }
  }

  /** The schema first written for the data: each key mapped to `true`, in
      the keys' order. */
  function TrueSchema(keys: seq<string>): Fields
    decreases |keys|
  {
    if keys == [] then []
    else Put(TrueSchema(keys[..|keys| - 1]), keys[|keys| - 1], Bool(true))
  }

  lemma {:induction false} TrueSchemaGet(keys: seq<string>, k: string)
    ensures Get(TrueSchema(keys), k) == if k in keys then Bool(true) else Undefined
    decreases |keys|
  {
    if keys != [] {
      var init, last := keys[..|keys| - 1], keys[|keys| - 1];
      TrueSchemaGet(init, k);
      assert keys == init + [last];
      if k != last {
        PutOther(TrueSchema(init), last, Bool(true), k);
      }
    }
  }

  /** `getOutputData().data` on the parsed input. */
  function Outputs(input: Json, blocks: seq<LogicBlock>, calcs: seq<Calculation>, eval: string -> Option<int>): Fields {
    RunCalcs(input, blocks, calcs, eval, RunBlocks(blocks, input))
  }

  /** What the effect hands on: the data it shows and, when the workflow has
      no output schema yet, the schema it asks the parent to store. */
  datatype Refresh = Refresh(shown: Fields, newSchema: Option<Fields>)

  function Refreshed(data: Fields, schema: Option<Fields>): Refresh {
    if schema.None? then Refresh(data, Some(TrueSchema(Keys(data))))
    else Refresh(KeepNotFalse(data, schema.value), None)
  }

  /** The first schema lists every output and switches it on, and the next
      refresh under it shows the same data. */
  lemma FirstSchemaShowsAll(data: Fields, k: string)
    ensures var r := Refreshed(data, None);
      r.shown == data && r.newSchema.Some? &&
      Get(r.newSchema.value, k) == (if HasKey(data, k) then Bool(true) else Undefined) &&
      Refreshed(data, r.newSchema).shown == data
  {
    var schema := TrueSchema(Keys(data));
    TrueSchemaGet(Keys(data), k);
    HasKeyIffInKeys(data, k);
    forall i | 0 <= i < |data| ensures Get(schema, data[i].0) != Bool(false) {
      TrueSchemaGet(Keys(data), data[i].0);
      assert Keys(data)[i] == data[i].0;
    }
    KeepAll(data, schema);
  }

  /** With a schema, an output is shown exactly when the schema does not
      switch it off, with its computed value. */
  lemma ShownOutputs(data: Fields, schema: Fields, k: string)
    ensures var r := Refreshed(data, Some(schema));
      r.newSchema.None? &&
      (HasKey(r.shown, k) <==> HasKey(data, k) && Get(schema, k) != Bool(false)) &&
      (HasKey(r.shown, k) ==> Get(r.shown, k) == Get(data, k))
  {
    KeepNotFalseGet(data, schema, k);
  }

  /** `getOutputData()`: the blocks, then the calculations, over the parsed
      input. */
  method GetOutputData(input: Json, blocks: seq<LogicBlock>, calcs: seq<Calculation>, eval: string -> Option<int>)
    returns (data: Fields)
    ensures data == Outputs(input, blocks, calcs, eval)
  {
    data := RunLogicBlocks(blocks, input);
    data := RunCalculations(input, blocks, calcs, eval, data);
  }

  /** The `reduce` that writes the first schema. */
  method InitialSchema(keys: seq<string>) returns (newSchema: Fields)
    ensures newSchema == TrueSchema(keys)
  {
    newSchema := [];
    var i := 0;
    while i < |keys|
      invariant 0 <= i <= |keys|
      invariant newSchema == TrueSchema(keys[..i])
    {
      assert keys[..i + 1][..i] == keys[..i];
      newSchema := Put(newSchema, keys[i], Bool(true));
      i := i + 1;
    }
    assert keys[..i] == keys;
  }

  /** The effect that refreshes the output when the workflow changes. */
  method RefreshOutput(input: Json, blocks: seq<LogicBlock>, calcs: seq<Calculation>, eval: string -> Option<int>,
                       schema: Option<Fields>)
    returns (r: Refresh)
    ensures r == Refreshed(Outputs(input, blocks, calcs, eval), schema)
  {
    var data := GetOutputData(input, blocks, calcs, eval);
    if schema.None? {
      var newSchema := InitialSchema(Keys(data));
      r := Refresh(data, Some(newSchema));
    } else {
      r := Refresh(KeepNotFalse(data, schema.value), None);
    }
  }
}
