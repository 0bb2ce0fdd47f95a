/**
 * The CSV serialiser and parser of the export and import buttons
 * (src/lib/csv.ts).  Both use, as their line break, the two characters
 * backslash and `n`, not a newline.
 */
module Csv {
  import opened Strings
  import opened Js

  /** The two-character line separator, a backslash followed by `n`. */
  const LineBreak: string := "\\n"

  /** `value.replace(/"/g, '""')` */
  function DoubleQuotes(s: string): string {
    if s == [] then [] else (if s[0] == '"' then "\"\"" else [s[0]]) + DoubleQuotes(s[1..])
  }

  /** One field: empty for `null` and `undefined`, quoted when it is a
      string holding a comma, else the value's text. */
  function EncodeField(v: Json): string {
    if v.Null? || v.Undefined? then ""
    else if v.Str? && Contains(v.s, ",") then "\"" + DoubleQuotes(v.s) + "\""
    else ToStr(v)
  }

  /** One data line: the object's values in header order. */
  function Row(obj: Fields, headers: seq<string>): string {
    Join(seq(|headers|, j requires 0 <= j < |headers| => EncodeField(Get(obj, headers[j]))), ",")
  }

  /** `objectToCSV(data)`: the keys of the first object as the header
      line, then one line per object. */
  function ObjectToCSV(data: seq<Fields>): string {
    if data == [] then ""
    else
      var headers := Keys(data[0]);
      Join([Join(headers, ",")] + seq(|data|, i requires 0 <= i < |data| => Row(data[i], headers)), LineBreak)
  }

  /** `values[i]`, `undefined` past the end. */
  function FieldValue(values: seq<string>, i: nat): Json {
    if i < |values| then Str(values[i]) else Undefined
  }

  /** The `reduce` that assigns `obj[header] = values[i]`, header by header. */
  function AssignFrom(obj: Fields, headers: seq<string>, values: seq<string>, i: nat): Fields
    requires i <= |headers|
    decreases |headers| - i
  {
    if i == |headers| then obj
    else AssignFrom(Put(obj, headers[i], FieldValue(values, i)), headers, values, i + 1)
  }

  function ParseRow(headers: seq<string>, row: string): Fields {
    AssignFrom([], headers, TrimAll(Split(row, ",")), 0)
  }

  /** `parseCSV(csv)`: nothing without a data line, else one record per
      line after the header line. */
  function ParseCSV(csv: string): seq<Fields> {
    var lines := Split(csv, LineBreak);
    if |lines| < 2 then []
    else
      var headers := TrimAll(Split(lines[0], ","));
      seq(|lines| - 1, i requires 0 <= i < |lines| - 1 => ParseRow(headers, lines[i + 1]))
  }

  // ---------------------------------------------------------------------
  // Properties

  /** Only the first object's keys become columns: a member under any
      other key never reaches the line. */
  lemma OtherKeysDropped(obj: Fields, headers: seq<string>, k: string, v: Json)
    requires k !in headers
    ensures Row(Put(obj, k, v), headers) == Row(obj, headers)
  {
    var a := seq(|headers|, j requires 0 <= j < |headers| => EncodeField(Get(Put(obj, k, v), headers[j])));
    var b := seq(|headers|, j requires 0 <= j < |headers| => EncodeField(Get(obj, headers[j])));
    forall j | 0 <= j < |headers| ensures a[j] == b[j] {
      PutOther(obj, k, v, headers[j]);
    }
    assert a == b;
  }

  /** A text with fewer than two lines parses to no records. */
  lemma SingleLineNoRecords(csv: string)
    requires !Contains(csv, LineBreak)
    ensures ParseCSV(csv) == []
  {
    SplitWithout(csv, LineBreak);
  }

  /** Nothing is exported for no records, and something for any record:
      the header line and a data line are always separated. */
  lemma ExportEmptyIff(data: seq<Fields>)
    ensures ObjectToCSV(data) == "" <==> data == []
  {
    if data != [] {
      var headers := Keys(data[0]);
      var lines := [Join(headers, ",")] + seq(|data|, i requires 0 <= i < |data| => Row(data[i], headers));
      assert |lines| >= 2;
      assert Join(lines, LineBreak) == lines[0] + LineBreak + Join(lines[1..], LineBreak);
    }
  }

  /** Reading a quoted field back: each doubled quote becomes one. */
  function Undouble(s: string): string {
    if s == [] then []
    else if |s| >= 2 && s[0] == '"' && s[1] == '"' then "\"" + Undouble(s[2..])
    else [s[0]] + Undouble(s[1..])
  }

  lemma {:induction false} UndoubleDoubled(s: string)
    ensures Undouble(DoubleQuotes(s)) == s
  {
    if s != [] {
      var d := DoubleQuotes(s);
      UndoubleDoubled(s[1..]);
      if s[0] == '"' {
        assert d == "\"\"" + DoubleQuotes(s[1..]);
        assert d[2..] == DoubleQuotes(s[1..]);
        assert Undouble(d) == "\"" + s[1..];
      } else {
        assert d == [s[0]] + DoubleQuotes(s[1..]);
        assert d[1..] == DoubleQuotes(s[1..]);
        assert Undouble(d) == [s[0]] + s[1..];
      }
      assert [s[0]] + s[1..] == s;
    }
  }

  /** The field encoding: `null` and `undefined` give an empty field, a
      string with a comma is quoted with its quotes doubled, so that the
      text between the outer quotes reads back as the string, and any
      other value is written as its text. */
  lemma EncodeFieldSpec(v: Json)
    ensures v.Null? || v.Undefined? ==> EncodeField(v) == ""
    ensures v.Str? && Contains(v.s, ",") ==>
      var r := EncodeField(v);
      |r| >= 2 && r[0] == '"' && r[|r| - 1] == '"' && Undouble(r[1..|r| - 1]) == v.s
    ensures !v.Null? && !v.Undefined? && !(v.Str? && Contains(v.s, ",")) ==> EncodeField(v) == ToStr(v)
  {
    if v.Str? && Contains(v.s, ",") {
      var r := EncodeField(v);
      assert r[1..|r| - 1] == DoubleQuotes(v.s);
      UndoubleDoubled(v.s);
    }
  }

  /** Assigning the later headers leaves a name none of them is alone. */
  lemma {:induction false} AssignOther(obj: Fields, headers: seq<string>, values: seq<string>, i: nat, k: string)
    requires i <= |headers| && k !in headers[i..]
    ensures Get(AssignFrom(obj, headers, values, i), k) == Get(obj, k)
    decreases |headers| - i
  {
    if i < |headers| {
      assert headers[i] == headers[i..][0];
      assert headers[i + 1..] == headers[i..][1..];
      AssignOther(Put(obj, headers[i], FieldValue(values, i)), headers, values, i + 1, k);
      PutOther(obj, headers[i], FieldValue(values, i), k);
    }
  }

  /** With distinct headers, header `j` receives value `j`. */
  lemma {:induction false} AssignAt(obj: Fields, headers: seq<string>, values: seq<string>, i: nat, j: nat)
    requires i <= j < |headers|
    requires forall a, b :: i <= a < b < |headers| ==> headers[a] != headers[b]
    ensures Get(AssignFrom(obj, headers, values, i), headers[j]) == FieldValue(values, j)
    decreases |headers| - i
  {
    var next := Put(obj, headers[i], FieldValue(values, i));
    if j == i {
      assert headers[i] !in headers[i + 1..] by {
        var tail := headers[i + 1..];
        forall b | 0 <= b < |tail| ensures tail[b] != headers[i] {
          assert tail[b] == headers[i + 1 + b];
        }
      }
      AssignOther(next, headers, values, i + 1, headers[i]);
    } else {
      AssignDistinctAfter(headers, i);
      AssignAt(next, headers, values, i + 1, j);
    }
  }

  lemma AssignDistinctAfter(headers: seq<string>, i: nat)
    requires i < |headers|
    requires forall a, b :: i <= a < b < |headers| ==> headers[a] != headers[b]
    ensures forall a, b :: i + 1 <= a < b < |headers| ==> headers[a] != headers[b]
  {
  }

  /** A data line read under distinct headers: header `j` holds field `j`,
      trimmed, or `undefined` when the line has fewer fields; any other
      name is absent. */
  lemma ParseRowFields(headers: seq<string>, row: string, j: nat, k: string)
    requires forall a, b :: 0 <= a < b < |headers| ==> headers[a] != headers[b]
    ensures var fields := TrimAll(Split(row, ","));
      j < |headers| ==>
        Get(ParseRow(headers, row), headers[j]) == if j < |fields| then Str(fields[j]) else Undefined
    ensures k !in headers ==> Get(ParseRow(headers, row), k) == Undefined
  {
    var fields := TrimAll(Split(row, ","));
    if j < |headers| {
      AssignAt([], headers, fields, 0, j);
    }
    if k !in headers {
      assert headers[0..] == headers;
      AssignOther([], headers, fields, 0, k);
    }
  }

  predicate DistinctKeys(fs: Fields) {
    forall a, b :: 0 <= a < b < |fs| ==> fs[a].0 != fs[b].0
  }

  /** A value that survives a line: trimmed, without a comma and without
      the line break. */
  predicate Plain(s: string) {
    IsTrimmed(s) && !Contains(s, ",") && !Contains(s, LineBreak)
  }

  /** An object whose keys are `headers`, each once, holding plain strings. */
  predicate PlainRecord(fs: Fields, headers: seq<string>) {
    Keys(fs) == headers && DistinctKeys(fs) &&
    forall j :: 0 <= j < |fs| ==> fs[j].1.Str? && Plain(fs[j].1.s)
  }

  function Texts(fs: Fields): (r: seq<string>)
    requires forall j :: 0 <= j < |fs| ==> fs[j].1.Str?
    ensures |r| == |fs|
  {
    seq(|fs|, j requires 0 <= j < |fs| => fs[j].1.s)
  }

  lemma ContainsAcross(x: string, c: char, y: string, t: string)
    requires |t| > 0 && c !in t
    requires !Contains(x, t) && !Contains(y, t)
    ensures !Contains(x + [c] + y, t)
  {
    var s := x + [c] + y;
    forall k: nat | k <= |s| ensures !OccursAt(s, t, k) {
      if k + |t| <= |s| {
        if k + |t| <= |x| {
          assert s[k..k + |t|] == x[k..k + |t|];
          assert !OccursAt(x, t, k);
        } else if k > |x| {
          assert s[k..k + |t|] == y[k - |x| - 1..k - |x| - 1 + |t|];
          assert !OccursAt(y, t, k - |x| - 1);
        } else {
          assert s[k..k + |t|][|x| - k] == c;
          assert t[|x| - k] != c;
        }
      }
    }
  }

  /** Joining with commas creates no occurrence of a text free of commas. */
  lemma {:induction false} JoinAvoids(parts: seq<string>, t: string)
    requires |t| > 0 && ',' !in t
    requires forall i :: 0 <= i < |parts| ==> !Contains(parts[i], t)
    ensures !Contains(Join(parts, ","), t)
  {
    if |parts| == 0 {
      assert forall k: nat | k <= 0 :: !OccursAt("", t, k);
    } else if |parts| > 1 {
      JoinAvoids(parts[1..], t);
      ContainsAcross(parts[0], ',', Join(parts[1..], ","), t);
      assert parts[0] + "," + Join(parts[1..], ",") == parts[0] + [','] + Join(parts[1..], ",");
    }
  }

  lemma {:induction false} GetDistinct(fs: Fields, j: nat)
    requires j < |fs| && DistinctKeys(fs)
    ensures Get(fs, fs[j].0) == fs[j].1
  {
    if j > 0 {
      GetDistinct(fs[1..], j - 1);
    }
  }

  /** An object of plain strings is written as its texts joined by commas. */
  lemma RowOfRecord(fs: Fields, headers: seq<string>)
    requires PlainRecord(fs, headers)
    ensures Row(fs, headers) == Join(Texts(fs), ",")
  {
    var a := seq(|headers|, j requires 0 <= j < |headers| => EncodeField(Get(fs, headers[j])));
    forall j | 0 <= j < |headers| ensures a[j] == Texts(fs)[j] {
      assert headers[j] == fs[j].0;
      GetDistinct(fs, j);
    }
    assert a == Texts(fs);
  }

  lemma PutNew(fs: Fields, k: string, v: Json)
    requires !HasKey(fs, k)
    ensures Put(fs, k, v) == fs + [(k, v)]
  {
    if fs != [] {
      PutNew(fs[1..], k, v);
      assert [fs[0]] + (fs[1..] + [(k, v)]) == fs + [(k, v)];
    }
  }

  lemma {:induction false} HasKeySnoc(fs: Fields, k: string, v: Json, x: string)
    ensures HasKey(fs + [(k, v)], x) <==> HasKey(fs, x) || x == k
  {
    if fs != [] {
      HasKeySnoc(fs[1..], k, v, x);
      assert (fs + [(k, v)])[1..] == fs[1..] + [(k, v)];
    }
  }

  /** With distinct headers the reduce lays the members out in header order. */
  lemma {:induction false} AssignDistinct(obj: Fields, fs: Fields, values: seq<string>, i: nat)
    requires i <= |fs| && DistinctKeys(fs) && |values| == |fs|
    requires forall j :: i <= j < |fs| ==> !HasKey(obj, fs[j].0)
    requires forall j :: i <= j < |fs| ==> fs[j].1 == Str(values[j])
    ensures AssignFrom(obj, Keys(fs), values, i) == obj + fs[i..]
    decreases |fs| - i
  {
    if i == |fs| {
      assert obj + fs[i..] == obj;
    } else {
      var next := obj + [fs[i]];
      AssignStep(obj, fs, values, i);
      assert forall j :: i + 1 <= j < |fs| ==> !HasKey(next, fs[j].0) by {
        forall j | i + 1 <= j < |fs| ensures !HasKey(next, fs[j].0) {
          HasKeySnoc(obj, fs[i].0, fs[i].1, fs[j].0);
        }
      }
      AssignDistinct(next, fs, values, i + 1);
      SnocSlice(obj, fs, i);
    }
  }

  /** One header of the `reduce`: a key not yet assigned is appended. */
  lemma AssignStep(obj: Fields, fs: Fields, values: seq<string>, i: nat)
    requires i < |fs| && |values| == |fs|
    requires !HasKey(obj, fs[i].0) && fs[i].1 == Str(values[i])
    ensures AssignFrom(obj, Keys(fs), values, i) == AssignFrom(obj + [fs[i]], Keys(fs), values, i + 1)
  {
    assert Keys(fs)[i] == fs[i].0;
    PutNew(obj, fs[i].0, fs[i].1);
  }

  lemma SnocSlice<T>(a: seq<T>, s: seq<T>, i: nat)
    requires i < |s|
    ensures a + s[i..] == (a + [s[i]]) + s[i + 1..]
  {
    assert s[i..] == [s[i]] + s[i + 1..];
  }

  /** A data line written from an object of plain strings parses back to it. */
  lemma ParseRowOfRecord(fs: Fields, headers: seq<string>)
    requires PlainRecord(fs, headers) && |fs| > 0
    ensures ParseRow(headers, Row(fs, headers)) == fs
  {
    RowOfRecord(fs, headers);
    var texts := Texts(fs);
    SplitJoin(texts, ",");
    forall j | 0 <= j < |texts| ensures Trim(texts[j]) == texts[j] {
      TrimOfTrimmed(texts[j]);
    }
    assert TrimAll(Split(Row(fs, headers), ",")) == texts;
    AssignDistinct([], fs, texts, 0);
    assert [] + fs[0..] == fs;
  }

  /** Preconditions of the round trip, shared by its steps. */
  predicate RoundTrips(d: seq<Fields>) {
    |d| > 0 && |d[0]| > 0 &&
    (forall j :: 0 <= j < |d[0]| ==> Plain(d[0][j].0)) &&
    forall i :: 0 <= i < |d| ==> PlainRecord(d[i], Keys(d[0]))
  }

  function Lines(d: seq<Fields>): seq<string>
    requires |d| > 0
  {
    [Join(Keys(d[0]), ",")] + seq(|d|, i requires 0 <= i < |d| => Row(d[i], Keys(d[0])))
  }

  lemma RowAvoidsBreak(fs: Fields, headers: seq<string>)
    requires PlainRecord(fs, headers)
    ensures !Contains(Row(fs, headers), LineBreak)
  {
    RowOfRecord(fs, headers);
    JoinAvoids(Texts(fs), LineBreak);
  }

  lemma LinesSplit(d: seq<Fields>)
    requires RoundTrips(d)
    ensures Split(ObjectToCSV(d), LineBreak) == Lines(d)
  {
    var headers := Keys(d[0]);
    var lines := Lines(d);
    assert !Contains(lines[0], LineBreak) by {
      assert forall j :: 0 <= j < |headers| ==> headers[j] == d[0][j].0;
      JoinAvoids(headers, LineBreak);
    }
    forall i | 1 <= i < |lines| ensures !Contains(lines[i], LineBreak) {
      RowAvoidsBreak(d[i - 1], headers);
    }
    SplitJoin(lines, LineBreak);
  }

  lemma HeaderLine(headers: seq<string>)
    requires |headers| > 0
    requires forall j :: 0 <= j < |headers| ==> Plain(headers[j])
    ensures TrimAll(Split(Join(headers, ","), ",")) == headers
  {
    assert forall j :: 0 <= j < |headers| ==> !Contains(headers[j], ",") && IsTrimmed(headers[j]);
    SplitJoin(headers, ",");
    TrimAllTrimmed(headers);
  }

  /** The round trip: records that all have the first record's keys, at
      least one, and hold plain strings under plain keys come back from
      `parseCSV(objectToCSV(d))` as they were. */
  lemma RoundTrip(d: seq<Fields>)
    requires RoundTrips(d)
    ensures ParseCSV(ObjectToCSV(d)) == d
  {
    LinesSplit(d);
    var headers := Keys(d[0]);
    assert forall j :: 0 <= j < |headers| ==> headers[j] == d[0][j].0;
    HeaderLine(headers);
    var lines := Lines(d);
    var r := ParseCSV(ObjectToCSV(d));
    assert |r| == |d|;
    forall i | 0 <= i < |d| ensures r[i] == d[i] {
      assert lines[i + 1] == Row(d[i], headers);
      ParseRowOfRecord(d[i], headers);
    }
  }
}
