/**
 * JavaScript values and the coercions the engines apply to them: the
 * `Json` type of src/types/supabase.ts, truthiness, `String(...)`,
 * `JSON.stringify(...)`, `Number(...)`, property access and
 * `Object.entries(...)`.
 */
module Js {
  import opened Wrappers
  import opened Strings

  /** A JavaScript value as the engines meet it: a JSON document
      (src/types/supabase.ts:1-7), whose object members may also be
      `undefined`, which is the value of every missing path.  Numbers are
      integers in this model.  An object is the list of its own members in
      insertion order. */
  datatype Json =
    | Undefined
    | Null
    | Bool(b: bool)
    | Num(n: int)
    | Str(s: string)
    | Arr(items: seq<Json>)
    | Obj(fields: Fields)

  type Fields = seq<(string, Json)>

  /** The member names of an object, in order (`Object.keys`). */
  function Keys(fs: Fields): (r: seq<string>)
    ensures |r| == |fs|
    ensures forall i :: 0 <= i < |fs| ==> r[i] == fs[i].0
  {
    if fs == [] then [] else [fs[0].0] + Keys(fs[1..])
  }

  /** The member values of an object, in order (`Object.values`). */
  function Values(fs: Fields): (r: seq<Json>)
    ensures |r| == |fs|
    ensures forall i :: 0 <= i < |fs| ==> r[i] == fs[i].1
  {
    seq(|fs|, i requires 0 <= i < |fs| => fs[i].1)
  }

  /** `obj.hasOwnProperty(key)` */
  predicate HasKey(fs: Fields, key: string) {
    fs != [] && (fs[0].0 == key || HasKey(fs[1..], key))
  }

  /** A member exists exactly when its name is among the keys. */
  lemma {:induction false} HasKeyIffInKeys(fs: Fields, key: string)
    ensures HasKey(fs, key) <==> key in Keys(fs)
  {
    if fs != [] {
      HasKeyIffInKeys(fs[1..], key);
    }
  }

  /** `obj[key]` on a plain object: the first member with that name. */
  function Get(fs: Fields, key: string): (r: Json)
    ensures !HasKey(fs, key) ==> r == Undefined
  {
    if fs == [] then Undefined
    else if fs[0].0 == key then fs[0].1
    else Get(fs[1..], key)
  }

  /** `obj[key] = v`: an existing member keeps its place, a new one goes last. */
  function Put(fs: Fields, key: string, v: Json): (r: Fields)
    ensures Get(r, key) == v
  {
    if fs == [] then [(key, v)]
    else if fs[0].0 == key then [(key, v)] + fs[1..]
    else [fs[0]] + Put(fs[1..], key, v)
  }

  /** Assigning one member leaves every other member as it was. */
  lemma {:induction false} PutOther(fs: Fields, key: string, v: Json, k: string)
    requires k != key
    ensures Get(Put(fs, key, v), k) == Get(fs, k)
  {
    if fs != [] && fs[0].0 != key {
      PutOther(fs[1..], key, v, k);
      assert Put(fs, key, v)[1..] == Put(fs[1..], key, v);
    }
  }

  /** After the assignment the object has the member, and no other new one. */
  lemma {:induction false} PutHasKey(fs: Fields, key: string, v: Json, k: string)
    ensures HasKey(Put(fs, key, v), k) <==> HasKey(fs, k) || k == key
  {
    if fs != [] && fs[0].0 != key {
      PutHasKey(fs[1..], key, v, k);
      assert Put(fs, key, v)[1..] == Put(fs[1..], key, v);
    } else if fs != [] {
      assert Put(fs, key, v)[1..] == fs[1..];
    }
  }

  /** The member order: an existing key keeps its place, a new key goes last. */
  lemma {:induction false} PutKeys(fs: Fields, key: string, v: Json)
    ensures HasKey(fs, key) ==> Keys(Put(fs, key, v)) == Keys(fs)
    ensures !HasKey(fs, key) ==> Keys(Put(fs, key, v)) == Keys(fs) + [key]
  {
    if fs != [] {
      var r := Put(fs, key, v);
      if fs[0].0 == key {
        assert r[1..] == fs[1..];
      } else {
        PutKeys(fs[1..], key, v);
        assert r[1..] == Put(fs[1..], key, v);
      }
    }
  }

  /** No member name appears twice, as in every JavaScript object. */
  predicate UniqueKeys(fs: Fields) {
    fs == [] || (!HasKey(fs[1..], fs[0].0) && UniqueKeys(fs[1..]))
  }

  lemma {:induction false} PutUnique(fs: Fields, key: string, v: Json)
    requires UniqueKeys(fs)
    ensures UniqueKeys(Put(fs, key, v))
  {
    if fs != [] && fs[0].0 != key {
      PutUnique(fs[1..], key, v);
      PutHasKey(fs[1..], key, v, fs[0].0);
      assert Put(fs, key, v)[1..] == Put(fs[1..], key, v);
    }
  }

  /** `{ ...base, ...top }`: the members of `top` assigned in order over a
      copy of `base`. */
  function Overlay(base: Fields, top: Fields): Fields
    decreases |top|
  {
    if top == [] then base else Overlay(Put(base, top[0].0, top[0].1), top[1..])
  }

  /** In the overlay a member of `top` wins over one of `base`. */
  lemma {:induction false} OverlayGet(base: Fields, top: Fields, k: string)
    requires UniqueKeys(top)
    ensures Get(Overlay(base, top), k) == if HasKey(top, k) then Get(top, k) else Get(base, k)
    decreases |top|
  {
    if top != [] {
      OverlayGet(Put(base, top[0].0, top[0].1), top[1..], k);
      if k != top[0].0 {
        PutOther(base, top[0].0, top[0].1, k);
      }
    }
  }

  /** `typeof v === 'object'`, which holds of `null` too. */
  predicate IsObjectType(v: Json) {
    v.Null? || v.Arr? || v.Obj?
  }

  /** JavaScript truthiness. */
  predicate Truthy(v: Json) {
    match v
    case Undefined => false
    case Null => false
    case Bool(b) => b
    case Num(n) => n != 0
    case Str(s) => s != ""
    case _ => true
  }

  /** `v || d` */
  function OrElse(v: Json, d: Json): (r: Json)
    ensures Truthy(v) ==> r == v
    ensures !Truthy(v) ==> r == d
  {
    if Truthy(v) then v else d
  }

  /** `String(v)` */
  function ToStr(v: Json): string {
    match v
    case Undefined => "undefined"
    case Null => "null"
    case Bool(b) => if b then "true" else "false"
    case Num(n) => IntToString(n)
    case Str(s) => s
    case Arr(items) =>
      // `Array.prototype.join` writes `null` and `undefined` elements as ""
      Join(seq(|items|, i requires 0 <= i < |items| =>
             if items[i].Undefined? || items[i].Null? then "" else ToStr(items[i])), ",")
    case Obj(_) => "[object Object]"
  }

  function HexDigit(d: nat): char
    requires d < 16
  {
    if d < 10 then DigitChar(d) else ('a' as int + d - 10) as char
  }

  /** One character of a JSON string literal. */
  function EscapeChar(c: char): string {
    if c == '"' then "\\\""
    else if c == '\\' then "\\\\"
    else if c == '\n' then "\\n"
    else if c == '\r' then "\\r"
    else if c == '\t' then "\\t"
    else if c == '\U{08}' then "\\b"
    else if c == '\U{0C}' then "\\f"
    else if c < ' ' then "\\u00" + [HexDigit(c as int / 16), HexDigit(c as int % 16)]
    else [c]
  }

  function Escape(s: string): string {
    if s == [] then "" else EscapeChar(s[0]) + Escape(s[1..])
  }

  function Quote(s: string): string {
    "\"" + Escape(s) + "\""
  }

  /** `JSON.stringify(v)` for the values it is applied to here (`null`,
      arrays and objects, and their members).  An `undefined` array element
      is written `null`; an `undefined` object member is omitted. */
  function Stringify(v: Json): string
    decreases v, 1
  {
    match v
    case Undefined => "null"
    case Null => "null"
    case Bool(b) => if b then "true" else "false"
    case Num(n) => IntToString(n)
    case Str(s) => Quote(s)
    case Arr(items) =>
      "[" + Join(seq(|items|, i requires 0 <= i < |items| => Stringify(items[i])), ",") + "]"
    case Obj(fs) => "{" + Join(StringifyMembers(v, 0), ",") + "}"
  }

  function StringifyMembers(v: Json, i: nat): seq<string>
    requires v.Obj? && i <= |v.fields|
    decreases v, 0, |v.fields| - i
  {
    if i == |v.fields| then []
    else if v.fields[i].1.Undefined? then StringifyMembers(v, i + 1)
    else [Quote(v.fields[i].0) + ":" + Stringify(v.fields[i].1)] + StringifyMembers(v, i + 1)
  }

  /** `Number(s)` on a string: surrounding white space is ignored, the empty
      string is 0, and an optionally signed decimal integer is its value.
      Every other string is `NaN` (`None`) in this model. */
  function ParseNumber(s: string): (r: Option<int>)
    ensures IsBlank(s) ==> r == Some(0)
  {
    var t := Trim(s);
    TrimEmptyIffBlank(s);
    if t == "" then Some(0)
    else if IsDigits(t) then Some(DigitsValue(t))
    else if |t| > 1 && t[0] == '-' && IsDigits(t[1..]) then Some(0 - DigitsValue(t[1..]))
    else if |t| > 1 && t[0] == '+' && IsDigits(t[1..]) then Some(DigitsValue(t[1..]))
    else None
  }

  /** `Number(v)`; `None` is `NaN`. */
  function ToNumber(v: Json): Option<int> {
    match v
    case Undefined => None
    case Null => Some(0)
    case Bool(b) => Some(if b then 1 else 0)
    case Num(n) => Some(n)
    case Str(s) => ParseNumber(s)
    case _ => ParseNumber(ToStr(v))
  }

  /** The four numeric comparisons; any comparison with `NaN` is false. */
  predicate Greater(a: Option<int>, b: Option<int>) { a.Some? && b.Some? && a.value > b.value }
  predicate AtLeast(a: Option<int>, b: Option<int>) { a.Some? && b.Some? && a.value >= b.value }
  predicate Less(a: Option<int>, b: Option<int>) { a.Some? && b.Some? && a.value < b.value }
  predicate AtMost(a: Option<int>, b: Option<int>) { a.Some? && b.Some? && a.value <= b.value }

  /** `v[key]` where `v` is neither `null` nor `undefined`: an own member of
      an object, an element or the `length` of an array or a string. */
  function Member(v: Json, key: string): Json {
    match v
    case Obj(fs) => Get(fs, key)
    case Arr(items) =>
      if IsIndexString(key) && DigitsValue(key) < |items| then items[DigitsValue(key)]
      else if key == "length" then Num(|items|)
      else Undefined
    case Str(s) =>
      if IsIndexString(key) && DigitsValue(key) < |s| then Str([s[DigitsValue(key)]])
      else if key == "length" then Num(|s|)
      else Undefined
    case _ => Undefined
  }

  /** `Object.entries(v)` for an object or an array (whose keys are its
      indices). */
  function Entries(v: Json): (r: Fields)
    ensures v.Obj? ==> r == v.fields
    ensures v.Arr? ==> |r| == |v.items|
    ensures forall i :: 0 <= i < |r| ==> r[i].1 < v
  {
    match v
    case Obj(fs) => fs
    case Arr(items) => seq(|items|, i requires 0 <= i < |items| => (NatToString(i), items[i]))
    case _ => []
  }

  /** The members `{ ...v }` copies: those of an object, the indices of an
      array or of a string, and none for any other value. */
  function Spread(v: Json): (r: Fields)
    ensures v.Obj? ==> r == v.fields
  {
    match v
    case Str(s) => seq(|s|, i requires 0 <= i < |s| => (NatToString(i), Str([s[i]])))
    case _ => Entries(v)
  }

  /** `Number(String(n)) === n` */
  lemma ParseIntToString(n: int)
    ensures ParseNumber(IntToString(n)) == Some(n)
  {
    var t := IntToString(n);
    IntToStringNumeral(n);
    assert !IsSpace(t[0]) && !IsSpace(t[|t| - 1]);
    TrimOfTrimmed(t);
    if n < 0 {
      assert t[1..] == NatToString(-n);
      assert !IsDigit(t[0]);
    }
  }

  /** A text that starts and ends with a letter is not a number. */
  lemma LetterEndsNotNumber(s: string)
    requires s != [] && IsLetter(s[0]) && IsLetter(s[|s| - 1])
    ensures ParseNumber(s) == None
  {
    assert !IsSpace(s[0]) && !IsSpace(s[|s| - 1]);
    TrimOfTrimmed(s);
    assert !IsDigit(s[0]);
  }

  /** The words `true` and `false`, in any case, are not numbers. */
  lemma BooleanWordsNotNumbers(s: string)
    requires Lower(s) == "true" || Lower(s) == "false"
    ensures ParseNumber(s) == None
  {
    assert LowerChar(s[0]) == 't' || LowerChar(s[0]) == 'f';
    assert LowerChar(s[|s| - 1]) == 'e';
    LetterEndsNotNumber(s);
  }
}
