/**
 * `getAllPaths` of src/lib/utils.ts: the dotted paths of a parsed input
 * that the editor offers as input names.  An array contributes its own
 * path and, when its first element is of object type, that element's
 * paths under the same prefix; no other element is visited.
 */
module Utils {
  import opened Strings
  import opened Js
  import opened Paths

  /** `getAllPaths(obj, prefix)`; nothing for a value that is not an
      array or an object. */
  function GetAllPaths(v: Json, prefix: string): seq<string>
    decreases v, 2
  {
    if v.Arr? || v.Obj? then EntriesPaths(v, Entries(v), prefix) else []
  }

  /** The `reduce` over `Object.entries(obj)`, in entry order. */
  function EntriesPaths(v: Json, es: Fields, prefix: string): seq<string>
    requires forall i :: 0 <= i < |es| ==> es[i].1 < v
    decreases v, 1, |es|
  {
    if es == [] then [] else EntryPaths(es[0].0, es[0].1, prefix) + EntriesPaths(v, es[1..], prefix)
  }

  /** The paths one entry contributes: its own path first. */
  function EntryPaths(key: string, value: Json, prefix: string): seq<string>
    decreases value, 3
  {
    var cp := Under(prefix, key);
    if value.Arr? then
      [cp] + (if |value.items| > 0 && IsObjectType(value.items[0]) then GetAllPaths(value.items[0], cp) else [])
    else if value.Obj? then [cp] + GetAllPaths(value, cp)
    else [cp]
  }

  /** Under a non-empty prefix every path starts with the prefix and a dot. */
  lemma {:induction false} PathsPrefixed(v: Json, prefix: string)
    requires prefix != ""
    ensures forall p :: p in GetAllPaths(v, prefix) ==> StartsWith(p, prefix + ".")
    decreases v, 2
  {
    if v.Arr? || v.Obj? {
      EntriesPrefixed(v, Entries(v), prefix);
    }
  }

  lemma {:induction false} EntriesPrefixed(v: Json, es: Fields, prefix: string)
    requires prefix != ""
    requires forall i :: 0 <= i < |es| ==> es[i].1 < v
    ensures forall p :: p in EntriesPaths(v, es, prefix) ==> StartsWith(p, prefix + ".")
    decreases v, 1, |es|
  {
    if es != [] {
      EntryPrefixed(es[0].0, es[0].1, prefix);
      EntriesPrefixed(v, es[1..], prefix);
      var cp := Under(prefix, es[0].0);
      assert StartsWith(cp, prefix + ".");
      forall p | p in EntryPaths(es[0].0, es[0].1, prefix) ensures StartsWith(p, prefix + ".") {
        StartsWithTrans(p, cp, prefix + ".");
      }
    }
  }

  /** An entry's paths all start with the entry's own path. */
  lemma {:induction false} EntryPrefixed(key: string, value: Json, prefix: string)
    ensures forall p :: p in EntryPaths(key, value, prefix) ==> StartsWith(p, Under(prefix, key))
    decreases value, 3
  {
    var cp := Under(prefix, key);
    if cp != "" {
      if value.Arr? && |value.items| > 0 && IsObjectType(value.items[0]) {
        PathsPrefixed(value.items[0], cp);
        forall p | p in GetAllPaths(value.items[0], cp) ensures StartsWith(p, cp) {
          StartsWithTrans(p, cp + ".", cp);
        }
      } else if value.Obj? {
        PathsPrefixed(value, cp);
        forall p | p in GetAllPaths(value, cp) ensures StartsWith(p, cp) {
          StartsWithTrans(p, cp + ".", cp);
        }
      }
    }
  }

  lemma {:induction false} EntryInEntries(v: Json, es: Fields, prefix: string, i: nat, p: string)
    requires forall j :: 0 <= j < |es| ==> es[j].1 < v
    requires i < |es| && p in EntryPaths(es[i].0, es[i].1, prefix)
    ensures p in EntriesPaths(v, es, prefix)
    decreases |es|
  {
    if i > 0 {
      EntryInEntries(v, es[1..], prefix, i - 1, p);
    }
  }

  /** Every member is listed under its own path, and under a member whose
      value is an array with an object-typed first element, that element's
      paths are listed too, without an index. */
  lemma MembersListed(fs: Fields, prefix: string, i: nat)
    requires i < |fs|
    ensures Under(prefix, fs[i].0) in GetAllPaths(Obj(fs), prefix)
    ensures var a := fs[i].1;
      a.Arr? && |a.items| > 0 && IsObjectType(a.items[0]) ==>
      forall p :: p in GetAllPaths(a.items[0], Under(prefix, fs[i].0)) ==> p in GetAllPaths(Obj(fs), prefix)
  {
    EntryInEntries(Obj(fs), fs, prefix, i, Under(prefix, fs[i].0));
    var a := fs[i].1;
    if a.Arr? && |a.items| > 0 && IsObjectType(a.items[0]) {
      forall p | p in GetAllPaths(a.items[0], Under(prefix, fs[i].0)) ensures p in GetAllPaths(Obj(fs), prefix) {
        EntryInEntries(Obj(fs), fs, prefix, i, p);
      }
    }
  }

  /** A path of the entries comes from one of them. */
  lemma {:induction false} EntriesOnly(v: Json, es: Fields, prefix: string, p: string)
    requires forall i :: 0 <= i < |es| ==> es[i].1 < v
    requires p in EntriesPaths(v, es, prefix)
    ensures exists i :: 0 <= i < |es| && p in EntryPaths(es[i].0, es[i].1, prefix)
    decreases |es|
  {
    if p in EntryPaths(es[0].0, es[0].1, prefix) {
      assert 0 < |es|;
    } else {
      EntriesOnly(v, es[1..], prefix, p);
      var i :| 0 <= i < |es[1..]| && p in EntryPaths(es[1..][i].0, es[1..][i].1, prefix);
      assert es[1..][i] == es[i + 1];
    }
  }

  /** Conversely, every path of an object lies under one of its members:
      the enumeration adds nothing that no member accounts for. */
  lemma PathsUnderMembers(fs: Fields, prefix: string, p: string)
    requires p in GetAllPaths(Obj(fs), prefix)
    ensures exists i :: 0 <= i < |fs| && StartsWith(p, Under(prefix, fs[i].0))
  {
    EntriesOnly(Obj(fs), fs, prefix, p);
    var i :| 0 <= i < |fs| && p in EntryPaths(fs[i].0, fs[i].1, prefix);
    EntryPrefixed(fs[i].0, fs[i].1, prefix);
  }

  /** Only the first element of an array is visited: the elements after it
      make no difference. */
  lemma LaterElementsIgnored(key: string, x: Json, rest1: seq<Json>, rest2: seq<Json>, prefix: string)
    ensures EntryPaths(key, Arr([x] + rest1), prefix) == EntryPaths(key, Arr([x] + rest2), prefix)
  {
    assert ([x] + rest1)[0] == x && ([x] + rest2)[0] == x;
  }
}
