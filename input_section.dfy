/**
 * The input editor of src/components/input-section.tsx: the keys a parsed
 * input yields as the input schema (`extractAllKeys`), the list edits on
 * that schema (add, remove, rename from the edit dialog or in place on
 * blur), and the way pasted test data is read: as JSON, or else as a CSV
 * header line with an optional data line.
 */
module InputSection {
  import opened Wrappers
  import opened Strings
  import opened Js
  import opened Paths
  import Csv
  import Utils

  // ---------------------------------------------------------------------
  // Keys of a parsed input

  /** No string occurs twice. */
  predicate Distinct(xs: seq<string>) {
    forall i, j :: 0 <= i < j < |xs| ==> xs[i] != xs[j]
  }

  /** `[...new Set(xs)]`: every string once, in order of first occurrence. */
  function Dedupe(xs: seq<string>): seq<string>
    decreases |xs|
  {
    if xs == [] then []
    else
      var d := Dedupe(xs[..|xs| - 1]);
      if xs[|xs| - 1] in d then d else d + [xs[|xs| - 1]]
  }

  /** `extractAllKeys(data, prefix)`: the collected keys without repeats. */
  function ExtractKeys(v: Json, prefix: string): seq<string>
    decreases v, 2
  {
    Dedupe(Collected(v, prefix))
  }

  /** The keys collected before the repeats are dropped.  An array gives
      its prefix and the keys of its first element under the same prefix;
      an object gives, member by member, the member's full key and then
      the keys of a child that is an array or an object; any other value,
      `null` included, gives nothing. */
  function Collected(v: Json, prefix: string): seq<string>
    decreases v, 1
  {
    if v.Arr? then [prefix] + (if |v.items| > 0 then ExtractKeys(v.items[0], prefix) else [])
    else if v.Obj? then MemberKeys(v, v.fields, prefix)
    else []
  }

  /** The `for...in` loop over the members `fs` of `v`, in member order. */
  function MemberKeys(v: Json, fs: Fields, prefix: string): seq<string>
    requires forall i :: 0 <= i < |fs| ==> fs[i].1 < v
    decreases v, 0, |fs|
  {
    if fs == [] then []
    else
      var key := fs[|fs| - 1].0;
      var child := fs[|fs| - 1].1;
      var full := Under(prefix, key);
      MemberKeys(v, fs[..|fs| - 1], prefix) + [full]
        + (if child.Arr? || child.Obj? then ExtractKeys(child, full) else [])
  }

  /** `extractAllKeys`, with its `push`/`concat` loop over the members. */
  method ExtractAllKeys(data: Json, prefix: string) returns (keys: seq<string>)
    ensures keys == ExtractKeys(data, prefix)
    decreases data
  {
    var collected: seq<string> := [];
    if data.Arr? {
      collected := collected + [prefix];
      if |data.items| > 0 {
        var sub := ExtractAllKeys(data.items[0], prefix);
        collected := collected + sub;
      }
      assert collected == Collected(data, prefix);
    } else if data.Obj? {
      var fs := data.fields;
      var i := 0;
      while i < |fs|
        invariant 0 <= i <= |fs|
        invariant collected == MemberKeys(data, fs[..i], prefix)
      {
        var key := fs[i].0;
        var child := fs[i].1;
        var full := Under(prefix, key);
        collected := collected + [full];
        if child.Arr? || child.Obj? {
          var sub := ExtractAllKeys(child, full);
          collected := collected + sub;
        }
        assert fs[..i + 1][..i] == fs[..i];
        i := i + 1;
      }
      assert fs[..|fs|] == fs;
      assert collected == Collected(data, prefix);
    }
    keys := Dedupe(collected);
  }

  lemma IndexOfSnoc(s: seq<string>, z: string, y: string)
    requires y in s
    ensures IndexOf(s + [z], y) == IndexOf(s, y)
  {
    var q := IndexOf(s, y);
    assert (s + [z])[q] == y;
    var r := IndexOf(s + [z], y);
    assert r <= q;
    assert s[r] == (s + [z])[r];
  }

  lemma IndexOfLast(s: seq<string>, z: string)
    requires z !in s
    ensures IndexOf(s + [z], z) == |s|
  {
    assert (s + [z])[|s|] == z;
    forall j | 0 <= j < |s| ensures (s + [z])[j] != z {
      assert (s + [z])[j] == s[j];
    }
  }

  /** The set semantics: no repeats, the same members, and the members in
      the order of their first occurrence. */
  lemma {:induction false} DedupeSpec(xs: seq<string>)
    ensures Distinct(Dedupe(xs))
    ensures forall x :: x in Dedupe(xs) <==> x in xs
    ensures forall i, j :: 0 <= i < j < |Dedupe(xs)| ==> IndexOf(xs, Dedupe(xs)[i]) < IndexOf(xs, Dedupe(xs)[j])
    decreases |xs|
  {
    if xs != [] {
      var init := xs[..|xs| - 1];
      var z := xs[|xs| - 1];
      assert xs == init + [z];
      DedupeSpec(init);
      forall y | y in init ensures IndexOf(xs, y) == IndexOf(init, y) {
        IndexOfSnoc(init, z, y);
      }
      if z !in Dedupe(init) {
        IndexOfLast(init, z);
      }
    }
  }

  /** The first element collected comes first. */
  lemma {:induction false} DedupeHead(xs: seq<string>)
    requires xs != []
    ensures |Dedupe(xs)| > 0 && Dedupe(xs)[0] == xs[0]
    decreases |xs|
  {
    if |xs| > 1 {
      DedupeHead(xs[..|xs| - 1]);
    }
  }

  /** The keys of an input are distinct, they are exactly the keys
      collected, and they keep the order of first occurrence. */
  lemma KeysDistinct(v: Json, prefix: string)
    ensures Distinct(ExtractKeys(v, prefix))
    ensures forall x :: x in ExtractKeys(v, prefix) <==> x in Collected(v, prefix)
    ensures var r := ExtractKeys(v, prefix);
      forall i, j :: 0 <= i < j < |r| ==> IndexOf(Collected(v, prefix), r[i]) < IndexOf(Collected(v, prefix), r[j])
  {
    DedupeSpec(Collected(v, prefix));
  }

  /** An array gives its prefix first, then the keys of its first element
      and nothing else; a value that is neither array nor object gives no
      key at all. */
  lemma ArrayKeys(v: Json, prefix: string)
    ensures !(v.Arr? || v.Obj?) ==> ExtractKeys(v, prefix) == []
    ensures v.Arr? ==> |ExtractKeys(v, prefix)| > 0 && ExtractKeys(v, prefix)[0] == prefix
    ensures v.Arr? ==> forall x :: x in ExtractKeys(v, prefix) <==>
      x == prefix || (|v.items| > 0 && x in ExtractKeys(v.items[0], prefix))
  {
    if v.Arr? {
      DedupeHead(Collected(v, prefix));
      DedupeSpec(Collected(v, prefix));
    }
  }

  /** Only the first element of an array is looked at. */
  lemma LaterElementsIgnored(x: Json, rest1: seq<Json>, rest2: seq<Json>, prefix: string)
    ensures ExtractKeys(Arr([x] + rest1), prefix) == ExtractKeys(Arr([x] + rest2), prefix)
  {
    assert ([x] + rest1)[0] == x && ([x] + rest2)[0] == x;
  }

  lemma {:induction false} MemberKeysContain(v: Json, fs: Fields, prefix: string, i: nat, x: string)
    requires forall j :: 0 <= j < |fs| ==> fs[j].1 < v
    requires i < |fs|
    requires x == Under(prefix, fs[i].0) ||
      ((fs[i].1.Arr? || fs[i].1.Obj?) && x in ExtractKeys(fs[i].1, Under(prefix, fs[i].0)))
    ensures x in MemberKeys(v, fs, prefix)
    decreases |fs|
  {
    if i < |fs| - 1 {
      MemberKeysContain(v, fs[..|fs| - 1], prefix, i, x);
    }
  }

  /** Every member contributes its full key, and a member holding an array
      or an object contributes that child's keys under the full key. */
  lemma MemberListed(fs: Fields, prefix: string, i: nat)
    requires i < |fs|
    ensures Under(prefix, fs[i].0) in ExtractKeys(Obj(fs), prefix)
    ensures fs[i].1.Arr? || fs[i].1.Obj? ==>
      forall x :: x in ExtractKeys(fs[i].1, Under(prefix, fs[i].0)) ==> x in ExtractKeys(Obj(fs), prefix)
  {
    DedupeSpec(Collected(Obj(fs), prefix));
    MemberKeysContain(Obj(fs), fs, prefix, i, Under(prefix, fs[i].0));
    if fs[i].1.Arr? || fs[i].1.Obj? {
      forall x | x in ExtractKeys(fs[i].1, Under(prefix, fs[i].0)) ensures x in ExtractKeys(Obj(fs), prefix) {
        MemberKeysContain(Obj(fs), fs, prefix, i, x);
      }
    }
  }

  lemma UnderStartsWith(prefix: string, key: string)
    ensures StartsWith(Under(prefix, key), prefix)
  {
    if prefix != "" {
      assert Under(prefix, key)[..|prefix|] == prefix;
    }
  }

  /** Every key starts with the prefix it was extracted under. */
  lemma {:induction false} KeysPrefixed(v: Json, prefix: string)
    ensures forall x :: x in ExtractKeys(v, prefix) ==> StartsWith(x, prefix)
    decreases v, 2
  {
    DedupeSpec(Collected(v, prefix));
    CollectedPrefixed(v, prefix);
  }

  lemma {:induction false} CollectedPrefixed(v: Json, prefix: string)
    ensures forall x :: x in Collected(v, prefix) ==> StartsWith(x, prefix)
    decreases v, 1
  {
    if v.Arr? {
      if |v.items| > 0 {
        KeysPrefixed(v.items[0], prefix);
      }
    } else if v.Obj? {
      MemberKeysPrefixed(v, v.fields, prefix);
    }
  }

  lemma {:induction false} MemberKeysPrefixed(v: Json, fs: Fields, prefix: string)
    requires forall i :: 0 <= i < |fs| ==> fs[i].1 < v
    ensures forall x :: x in MemberKeys(v, fs, prefix) ==> StartsWith(x, prefix)
    decreases v, 0, |fs|
  {
    if fs != [] {
      var key := fs[|fs| - 1].0;
      var child := fs[|fs| - 1].1;
      var full := Under(prefix, key);
      MemberKeysPrefixed(v, fs[..|fs| - 1], prefix);
      UnderStartsWith(prefix, key);
      if child.Arr? || child.Obj? {
        KeysPrefixed(child, full);
        forall x | x in ExtractKeys(child, full) ensures StartsWith(x, prefix) {
          StartsWithTrans(x, full, prefix);
        }
      }
    }
  }

  /** The two enumerators disagree on arrays: `getAllPaths` names the
      array's entries by index, `extractAllKeys` names the array itself
      and reads its first element under the same prefix. */
  lemma EnumeratorsDiffer()
    ensures ExtractKeys(Arr([Obj([("a", Num(1))])]), "") == ["", "a"]
    ensures Utils.GetAllPaths(Arr([Obj([("a", Num(1))])]), "") == ["0", "0.a"]
  {
    var inner := Obj([("a", Num(1))]);
    assert [("a", Num(1))][..0] == [];
    assert MemberKeys(inner, [("a", Num(1))], "") == ["a"];
    assert ExtractKeys(inner, "") == ["a"] by {
      assert Dedupe(["a"]) == ["a"] by { assert ["a"][..0] == []; }
    }
    assert Collected(Arr([inner]), "") == ["", "a"];
    assert Dedupe(["", "a"]) == ["", "a"] by {
      assert ["", "a"][..1] == [""];
      assert [""][..0] == [];
    }
    assert Utils.GetAllPaths(inner, "0") == ["0.a"] by {
      assert Under("0", "a") == "0.a";
      assert Utils.EntryPaths("a", Num(1), "0") == ["0.a"];
      assert Utils.EntriesPaths(inner, [("a", Num(1))][1..], "0") == [];
    }
    assert Utils.GetAllPaths(Arr([inner]), "") == ["0", "0.a"] by {
      var es := Entries(Arr([inner]));
      assert es == [("0", inner)];
      assert Utils.EntryPaths("0", inner, "") == ["0", "0.a"];
      assert Utils.EntriesPaths(Arr([inner]), es[1..], "") == [];
    }
  }

  // ---------------------------------------------------------------------
  // Edits of the input schema

  /** The strings of an array, in order. */
  function Strs(items: seq<Json>): seq<string> {
    if items == [] then [] else (if items[0].Str? then [items[0].s] else []) + Strs(items[1..])
  }

  /** `inputSchema`: the strings of `input_schema` when it is an array. */
  function InputSchema(raw: Json): seq<string> {
    if raw.Arr? then Strs(raw.items) else []
  }

  /** The schema lists exactly the strings of the stored array. */
  lemma {:induction false} InputSchemaMembers(raw: Json, x: string)
    ensures x in InputSchema(raw) <==> raw.Arr? && Str(x) in raw.items
  {
    if raw.Arr? {
      StrsMembers(raw.items, x);
    }
  }

  lemma {:induction false} StrsMembers(items: seq<Json>, x: string)
    ensures x in Strs(items) <==> Str(x) in items
  {
    if items != [] {
      StrsMembers(items[1..], x);
      assert items == [items[0]] + items[1..];
    }
  }

  /** `handleAddInput`: a non-empty name not yet present is appended. */
  function AddInput(schema: seq<string>, value: string): seq<string> {
    if value != "" && value !in schema then schema + [value] else schema
  }

  /** The schema keeps its entries in place, gains at most the new name,
      and stays free of repeats. */
  lemma AddInputSpec(schema: seq<string>, value: string)
    ensures |AddInput(schema, value)| >= |schema| && AddInput(schema, value)[..|schema|] == schema
    ensures forall x :: x in AddInput(schema, value) <==> x in schema || (x == value && value != "")
    ensures |AddInput(schema, value)| == |schema| + (if value != "" && value !in schema then 1 else 0)
    ensures Distinct(schema) ==> Distinct(AddInput(schema, value))
  {
    assert (schema + [value])[..|schema|] == schema;
  }

  /** `handleRemoveInput`: `filter(i => i !== input)`. */
  function RemoveInput(schema: seq<string>, input: string): seq<string> {
    if schema == [] then []
    else (if schema[0] != input then [schema[0]] else []) + RemoveInput(schema[1..], input)
  }

  /** Removal drops every occurrence of the name and nothing else. */
  lemma {:induction false} RemoveInputMembers(schema: seq<string>, input: string)
    ensures forall x :: x in RemoveInput(schema, input) <==> x in schema && x != input
    ensures input !in schema ==> RemoveInput(schema, input) == schema
  {
    if schema != [] {
      RemoveInputMembers(schema[1..], input);
      assert schema == [schema[0]] + schema[1..];
    }
  }

  /** The rest keep their order: removal distributes over concatenation. */
  lemma {:induction false} RemoveInputSplits(a: seq<string>, b: seq<string>, input: string)
    ensures RemoveInput(a + b, input) == RemoveInput(a, input) + RemoveInput(b, input)
  {
    if a != [] {
      RemoveInputSplits(a[1..], b, input);
      assert (a + b)[1..] == a[1..] + b;
    } else {
      assert a + b == b;
    }
  }

  /** In a schema without repeats, removal deletes the one position that
      holds the name. */
  lemma RemoveInputAt(schema: seq<string>, i: nat)
    requires i < |schema| && Distinct(schema)
    ensures RemoveInput(schema, schema[i]) == schema[..i] + schema[i + 1..]
  {
    var input := schema[i];
    var before := schema[..i];
    var after := schema[i + 1..];
    assert RemoveInput(before + [input] + after, input) == before + after by {
      NotBeforeNorAfter(schema, i);
      RemoveAround(before, input, after);
    }
    assert schema == before + [input] + after;
  }

  lemma NotBeforeNorAfter(schema: seq<string>, i: nat)
    requires i < |schema| && Distinct(schema)
    ensures schema[i] !in schema[..i] && schema[i] !in schema[i + 1..]
  {
    forall j | 0 <= j < i ensures schema[..i][j] != schema[i] {
      assert schema[..i][j] == schema[j];
    }
    var tail := schema[i + 1..];
    forall j | 0 <= j < |tail| ensures tail[j] != schema[i] {
      assert tail[j] == schema[i + 1 + j];
    }
  }

  lemma RemoveAround(a: seq<string>, x: string, b: seq<string>)
    requires x !in a && x !in b
    ensures RemoveInput(a + [x] + b, x) == a + b
  {
    calc {
      RemoveInput(a + [x] + b, x);
    == { RemoveInputSplits(a + [x], b, x); }
      RemoveInput(a + [x], x) + RemoveInput(b, x);
    == { RemoveInputSplits(a, [x], x); }
      RemoveInput(a, x) + RemoveInput([x], x) + RemoveInput(b, x);
    == { RemoveAbsent(a, x); RemoveAbsent(b, x); assert RemoveInput([x], x) == []; }
      a + [] + b;
    }
    assert a + [] + b == a + b;
  }

  lemma {:induction false} RemoveAbsent(s: seq<string>, x: string)
    requires x !in s
    ensures RemoveInput(s, x) == s
  {
    if s != [] {
      RemoveAbsent(s[1..], x);
      assert s == [s[0]] + s[1..];
    }
  }

  /** The outcome of a rename: the new schema, the "Field name already
      exists" error, or nothing at all. */
  datatype Edit = Renamed(schema: seq<string>) | AlreadyExists | NoChange

  /** `inputSchema.map(i => i === from ? to : i)` */
  function MapRename(schema: seq<string>, from: string, to: string): (r: seq<string>)
    ensures |r| == |schema|
  {
    seq(|schema|, i requires 0 <= i < |schema| => if schema[i] == from then to else schema[i])
  }

  /** `handleSaveEdit`: rename every entry equal to the edited field when
      a field is being edited and the new name is non-empty and absent;
      report an existing name otherwise. */
  function SaveEdit(schema: seq<string>, editing: Option<string>, editValue: string): Edit {
    if editing.Some? && editing.value != "" && editValue != "" && editValue !in schema then
      Renamed(MapRename(schema, editing.value, editValue))
    else if editValue in schema then AlreadyExists
    else NoChange
  }

  /** A save renames exactly when a field is being edited and the new name
      is non-empty and new, reports an error exactly when the name is
      taken, and a rename replaces the edited name in place. */
  lemma SaveEditSpec(schema: seq<string>, editing: Option<string>, editValue: string)
    ensures SaveEdit(schema, editing, editValue).Renamed? <==>
      editing.Some? && editing.value != "" && editValue != "" && editValue !in schema
    ensures SaveEdit(schema, editing, editValue).AlreadyExists? <==> editValue in schema
    ensures var e := SaveEdit(schema, editing, editValue);
      e.Renamed? ==>
        |e.schema| == |schema| &&
        (forall i :: 0 <= i < |schema| && schema[i] != editing.value ==> e.schema[i] == schema[i]) &&
        (forall i :: 0 <= i < |schema| && schema[i] == editing.value ==> e.schema[i] == editValue) &&
        editing.value !in e.schema &&
        (editValue in e.schema <==> editing.value in schema) &&
        (Distinct(schema) ==> Distinct(e.schema))
  {
    var e := SaveEdit(schema, editing, editValue);
    if e.Renamed? {
      var from := editing.value;
      var r := e.schema;
      if from in schema {
        var k :| 0 <= k < |schema| && schema[k] == from;
        assert r[k] == editValue;
      }
      if editValue in r {
        var k :| 0 <= k < |r| && r[k] == editValue;
        assert schema[k] == from;
      }
    }
  }

  /** The rename on blur: the trimmed text replaces the entry at `index`
      when it is non-empty, differs from the entry and is not in the
      schema; a text equal to another entry is reported. */
  function BlurRename(schema: seq<string>, index: nat, typed: string): Edit
    requires index < |schema|
  {
    var newValue := Trim(typed);
    var input := schema[index];
    if newValue != "" && newValue != input && newValue !in schema then Renamed(schema[index := newValue])
    else if newValue in schema && newValue != input then AlreadyExists
    else NoChange
  }

  /** A blur rename touches only its own position, writes a trimmed
      non-empty name and keeps the schema free of repeats. */
  lemma BlurRenameSpec(schema: seq<string>, index: nat, typed: string)
    requires index < |schema|
    ensures BlurRename(schema, index, typed).AlreadyExists? <==> Trim(typed) in schema && Trim(typed) != schema[index]
    ensures var e := BlurRename(schema, index, typed);
      e.Renamed? ==>
        |e.schema| == |schema| && e.schema[index] == Trim(typed) &&
        e.schema[index] != "" && IsTrimmed(e.schema[index]) &&
        (forall j :: 0 <= j < |schema| && j != index ==> e.schema[j] == schema[j]) &&
        (Distinct(schema) ==> Distinct(e.schema))
  {
  }

  /** In a schema without repeats, renaming on blur is the dialog's save
      with the entry as the edited field, unless the name is unchanged:
      then the blur does nothing while the save reports the name as
      existing. */
  lemma BlurAgreesWithSave(schema: seq<string>, index: nat, typed: string)
    requires index < |schema| && Distinct(schema) && schema[index] != ""
    ensures Trim(typed) != schema[index] ==>
      BlurRename(schema, index, typed) == SaveEdit(schema, Some(schema[index]), Trim(typed))
    ensures Trim(typed) == schema[index] ==>
      BlurRename(schema, index, typed) == NoChange &&
      SaveEdit(schema, Some(schema[index]), Trim(typed)) == AlreadyExists
  {
    var nv := Trim(typed);
    if nv != schema[index] && nv != "" && nv !in schema {
      assert MapRename(schema, schema[index], nv) == schema[index := nv];
    }
  }

  // ---------------------------------------------------------------------
  // Reading the test data

  const NewLine := "\n"

  /** The headers of a CSV header line: its comma-separated pieces trimmed,
      the empty ones dropped. */
  function Headers(line: string): seq<string> {
    NonEmpty(TrimAll(Split(line, ",")))
  }

  /** `values[index]?.trim() || ''` */
  function FieldText(values: seq<string>, i: nat): string {
    if i < |values| then Trim(values[i]) else ""
  }

  /** The record the `forEach` over the headers builds: header `i`
      (trimmed) assigned the trimmed field `i` of the data line. */
  function Record(headers: seq<string>, values: seq<string>): Fields
    decreases |headers|
  {
    if headers == [] then []
    else
      var i := |headers| - 1;
      Put(Record(headers[..i], values), Trim(headers[i]), Str(FieldText(values, i)))
  }

  /** What handling the text does: a schema of extracted keys (the text
      itself is stored), a schema of CSV headers with the record of the
      first data line when there is one (stored as its JSON text), nothing,
      or the "Invalid input format" error. */
  datatype Loaded =
    | JsonKeys(keys: seq<string>)
    | CsvHeaders(headers: seq<string>, record: Option<Fields>)
    | Ignored
    | Rejected

  /** The `catch` branch, taken when the text is not JSON.  The lines are
      those of the trimmed text, split at line feeds. */
  function CsvFallback(value: string): Loaded {
    if !Contains(value, ",") then Rejected
    else
      var lines := Split(Trim(value), NewLine);
      if lines[0] == "" then Ignored
      else
        var headers := Headers(lines[0]);
        CsvHeaders(headers, if |lines| >= 2 then Some(Record(headers, Split(lines[1], ","))) else None)
  }

  /** `handleInputDataChange`, given what `JSON.parse` makes of the text
      (`None` when it throws): an object or array gives its keys, any
      other JSON value changes nothing. */
  function InputData(parsed: Option<Json>, value: string): Loaded {
    if parsed.Some? then
      (if parsed.value.Arr? || parsed.value.Obj? then JsonKeys(ExtractKeys(parsed.value, "")) else Ignored)
    else CsvFallback(value)
  }

  /** Every header is a trimmed non-empty piece of the header line, and
      every such piece is a header. */
  lemma HeadersClean(line: string)
    ensures forall h :: h in Headers(line) <==> h != "" && h in TrimAll(Split(line, ","))
    ensures forall h :: h in Headers(line) ==> h != "" && IsTrimmed(h)
  {
    var t := TrimAll(Split(line, ","));
    forall h ensures h in Headers(line) <==> h != "" && h in t {
      NonEmptyMembers(t, h);
    }
  }

  /** Repeated headers merge: the record's members are the trimmed headers
      without repeats, in order of first occurrence. */
  lemma {:induction false} RecordKeys(headers: seq<string>, values: seq<string>)
    ensures Keys(Record(headers, values)) == Dedupe(TrimAll(headers))
    decreases |headers|
  {
    if headers != [] {
      var i := |headers| - 1;
      var init := headers[..i];
      RecordKeys(init, values);
      var t := TrimAll(headers);
      assert t[..i] == TrimAll(init);
      var rec := Record(init, values);
      HasKeyIffInKeys(rec, Trim(headers[i]));
      PutKeys(rec, Trim(headers[i]), Str(FieldText(values, i)));
    }
  }

  /** With distinct trimmed headers, header `i` holds the trimmed field `i`
      of the data line, or `''` past its end. */
  lemma {:induction false} RecordFields(headers: seq<string>, values: seq<string>)
    requires Distinct(headers) && forall k :: 0 <= k < |headers| ==> IsTrimmed(headers[k])
    ensures Keys(Record(headers, values)) == headers
    ensures forall k :: 0 <= k < |headers| ==> Get(Record(headers, values), headers[k]) == Str(FieldText(values, k))
    decreases |headers|
  {
    if headers != [] {
      var i := |headers| - 1;
      var init := headers[..i];
      RecordFields(init, values);
      var rec := Record(init, values);
      var h := headers[i];
      TrimOfTrimmed(h);
      assert h !in init by {
        forall k | 0 <= k < i ensures init[k] != h {
          assert init[k] == headers[k];
        }
      }
      HasKeyIffInKeys(rec, h);
      PutKeys(rec, h, Str(FieldText(values, i)));
      forall k | 0 <= k < i ensures Get(Record(headers, values), headers[k]) == Str(FieldText(values, k)) {
        assert headers[k] == init[k];
        PutOther(rec, h, Str(FieldText(values, i)), headers[k]);
      }
    }
  }

  /** A text with a comma always yields a header line: the branch for an
      empty first line is never taken. */
  lemma FallbackOutcome(value: string)
    ensures CsvFallback(value).Rejected? <==> !Contains(value, ",")
    ensures CsvFallback(value).CsvHeaders? <==> Contains(value, ",")
  {
    if Contains(value, ",") {
      HeaderLineNonEmpty(value);
    }
  }

  lemma CommaNotBlank(value: string, k: nat)
    requires k < |value| && value[k] == ','
    ensures !IsBlank(value)
  {
  }

  lemma HeaderLineNonEmpty(value: string)
    requires Contains(value, ",")
    ensures Split(Trim(value), NewLine)[0] != ""
  {
    var k: nat :| k <= |value| && OccursAt(value, ",", k);
    assert value[k] == ',' by {
      assert value[k] == value[k..k + 1][0];
    }
    CommaNotBlank(value, k);
    TrimEmptyIffBlank(value);
    var t := Trim(value);
    assert t[0] != '\n';
    assert t[..|NewLine|] != NewLine;
    var rest := Split(t[1..], NewLine);
    assert Split(t, NewLine) == [[t[0]] + rest[0]] + rest[1..];
  }

  /** JSON text with an object or array gives distinct keys; text that is
      not JSON is read as CSV exactly when it holds a comma and is
      rejected otherwise; other JSON is ignored. */
  lemma InputDataOutcome(parsed: Option<Json>, value: string)
    ensures InputData(parsed, value).JsonKeys? <==> parsed.Some? && (parsed.value.Arr? || parsed.value.Obj?)
    ensures InputData(parsed, value).JsonKeys? ==> Distinct(InputData(parsed, value).keys)
    ensures InputData(parsed, value).CsvHeaders? <==> parsed.None? && Contains(value, ",")
    ensures InputData(parsed, value).Rejected? <==> parsed.None? && !Contains(value, ",")
    ensures InputData(parsed, value).Ignored? <==> parsed.Some? && !(parsed.value.Arr? || parsed.value.Obj?)
  {
    if parsed.Some? {
      KeysDistinct(parsed.value, "");
    } else {
      FallbackOutcome(value);
    }
  }
}
