// JSON values as the SDK sees them after `json.loads`: Python dicts keep
// insertion order, so an object is an ordered list of entries. JSON numbers
// are a single `real` kind, because Python compares and hashes `5` and `5.0`
// alike.

module JsonValue {

  datatype Option<+T> = None | Some(value: T)

  datatype Json =
    | JNull
    | JBool(b: bool)
    | JNum(n: real)
    | JStr(s: string)
    | JArray(items: seq<Json>)
    | JObject(entries: seq<(string, Json)>)

  type Entries = seq<(string, Json)>

  // Dict helpers are generic in the value type: the camelCase translation
  // uses them on dicts whose values are heap references.

  /** The keys of a dict, in insertion order. */
  function Keys<V>(entries: seq<(string, V)>): (ks: seq<string>)
    ensures |ks| == |entries|
    ensures forall i :: 0 <= i < |entries| ==> ks[i] == entries[i].0
  {
    if entries == [] then [] else [entries[0].0] + Keys(entries[1..])
  }

  /** A Python dict never holds the same key twice. */
  predicate DistinctKeys<V>(entries: seq<(string, V)>)
  {
    forall i, j :: 0 <= i < j < |entries| ==> entries[i].0 != entries[j].0
  }

  /** `key in d` */
  predicate HasKey<V>(entries: seq<(string, V)>, key: string)
  {
    exists i :: 0 <= i < |entries| && entries[i].0 == key
  }

  /** A key is in a dict exactly when it is among its keys. */
  lemma HasKeyIffInKeys<V>(entries: seq<(string, V)>, key: string)
    ensures HasKey(entries, key) <==> key in Keys(entries)
  {
    if key in Keys(entries) {
      var i :| 0 <= i < |Keys(entries)| && Keys(entries)[i] == key;
      assert entries[i].0 == key;
    }
  }

  /** `d.get(key)` finds the first entry holding `key`. */
  lemma {:induction false} LookupFirstAt<V>(entries: seq<(string, V)>, key: string, i: nat)
    requires i < |entries| && entries[i].0 == key && key !in Keys(entries[..i])
    ensures Lookup(entries, key) == Some(entries[i].1)
  {
    if i > 0 {
      assert Keys(entries[..i])[0] == entries[0].0;
      assert entries[1..][..i - 1] == entries[..i][1..];
      assert Keys(entries[1..][..i - 1]) == Keys(entries[..i])[1..];
      LookupFirstAt(entries[1..], key, i - 1);
    }
  }

  /** `d.get(key)` */
  function Lookup<V>(entries: seq<(string, V)>, key: string): (r: Option<V>)
    ensures r.Some? <==> HasKey(entries, key)
    ensures r.Some? ==> (key, r.value) in entries
  {
    if entries == [] then None
    else if entries[0].0 == key then Some(entries[0].1)
    else
      var r := Lookup(entries[1..], key);
      assert forall i :: 1 <= i < |entries| ==> entries[i] == entries[1..][i - 1];
      r
  }

  /** Looking past a first entry that does not hold the key. */
  lemma LookupCons<V>(first: (string, V), rest: seq<(string, V)>, key: string)
    ensures Lookup([first] + rest, key) == if first.0 == key then Some(first.1) else Lookup(rest, key)
  {
    assert ([first] + rest)[0] == first;
    assert ([first] + rest)[1..] == rest;
  }

  /** `d[key] = value`: an existing key keeps its place, a new key goes last. */
  function Put<V>(entries: seq<(string, V)>, key: string, value: V): (r: seq<(string, V)>)
    ensures Lookup(r, key) == Some(value)
    ensures forall k :: k != key ==> Lookup(r, k) == Lookup(entries, k)
    ensures HasKey(entries, key) ==> Keys(r) == Keys(entries)
    ensures !HasKey(entries, key) ==> r == entries + [(key, value)]
  {
    if HasKey(entries, key) then
      var r := Replace(entries, key, value);
      LookupReplace(entries, key, value);
      r
    else
      LookupAppend(entries, key, value);
      entries + [(key, value)]
  }

  /** Every entry for `key` gets `value`, in place. */
  function Replace<V>(entries: seq<(string, V)>, key: string, value: V): (r: seq<(string, V)>)
    ensures |r| == |entries|
    ensures forall i :: 0 <= i < |r| ==> r[i] == (if entries[i].0 == key then (key, value) else entries[i])
  {
    if entries == [] then []
    else [if entries[0].0 == key then (key, value) else entries[0]] + Replace(entries[1..], key, value)
  }

  lemma {:induction false} LookupReplace<V>(entries: seq<(string, V)>, key: string, value: V)
    requires HasKey(entries, key)
    ensures Lookup(Replace(entries, key, value), key) == Some(value)
    ensures forall k :: k != key ==> Lookup(Replace(entries, key, value), k) == Lookup(entries, k)
    ensures Keys(Replace(entries, key, value)) == Keys(entries)
  {
    forall k
      ensures Lookup(Replace(entries, key, value), k)
        == if k == key then Some(value) else Lookup(entries, k)
    {
      LookupReplaceAt(entries, key, value, k);
    }
    KeysReplace(entries, key, value);
  }

  lemma KeysReplace<V>(entries: seq<(string, V)>, key: string, value: V)
    ensures Keys(Replace(entries, key, value)) == Keys(entries)
  {
    var r := Replace(entries, key, value);
    assert forall i :: 0 <= i < |r| ==> r[i].0 == entries[i].0;
  }

  lemma {:induction false} LookupReplaceAt<V>(entries: seq<(string, V)>, key: string, value: V, k: string)
    ensures Lookup(Replace(entries, key, value), k)
      == if k == key && HasKey(entries, key) then Some(value)
         else if k == key then None
         else Lookup(entries, k)
  {
    if entries != [] {
      var r := Replace(entries, key, value);
      assert r[1..] == Replace(entries[1..], key, value);
      HasKeyTail(entries);
      LookupReplaceAt(entries[1..], key, value, k);
    }
  }

  lemma {:induction false} LookupReplaceAbsent<V>(entries: seq<(string, V)>, key: string, value: V)
    requires !HasKey(entries, key)
    ensures Replace(entries, key, value) == entries
  {
    if entries != [] {
      HasKeyTail(entries);
      LookupReplaceAbsent(entries[1..], key, value);
    }
  }

  lemma {:induction false} LookupAppend<V>(entries: seq<(string, V)>, key: string, value: V)
    requires !HasKey(entries, key)
    ensures Lookup(entries + [(key, value)], key) == Some(value)
    ensures forall k :: k != key ==> Lookup(entries + [(key, value)], k) == Lookup(entries, k)
  {
    if entries != [] {
      assert (entries + [(key, value)])[1..] == entries[1..] + [(key, value)];
      HasKeyTail(entries);
      LookupAppend(entries[1..], key, value);
    }
  }

  lemma HasKeyTail<V>(entries: seq<(string, V)>)
    requires entries != []
    ensures forall k :: HasKey(entries, k) <==> entries[0].0 == k || HasKey(entries[1..], k)
  {
    forall k | HasKey(entries, k) && entries[0].0 != k
      ensures HasKey(entries[1..], k)
    {
      var i :| 0 <= i < |entries| && entries[i].0 == k;
      assert entries[1..][i - 1].0 == k;
    }
    forall k | HasKey(entries[1..], k)
      ensures HasKey(entries, k)
    {
      var i :| 0 <= i < |entries[1..]| && entries[1..][i].0 == k;
      assert entries[i + 1].0 == k;
    }
  }

  /** `d.pop(key, None)`: the entry for `key`, if any, is removed. */
  function Remove<V>(entries: seq<(string, V)>, key: string): (r: seq<(string, V)>)
    ensures !HasKey(r, key)
    ensures forall k :: k != key ==> Lookup(r, k) == Lookup(entries, k)
    ensures forall e :: e in r ==> e in entries
  {
    if entries == [] then []
    else if entries[0].0 == key then Remove(entries[1..], key)
    else [entries[0]] + Remove(entries[1..], key)
  }

  /** The value of `key` when `j` is a dict holding it. */
  function Get(j: Json, key: string): (r: Option<Json>)
    ensures r.Some? ==> j.JObject? && HasKey(j.entries, key)
  {
    if j.JObject? then Lookup(j.entries, key) else None
  }

  /** `j` is a dict whose "type" is the string `t`. */
  predicate TypeIs(j: Json, t: string)
  {
    Get(j, "type") == Some(JStr(t))
  }

  /** Python truthiness of a decoded JSON value. */
  predicate Truthy(j: Json)
  {
    match j
    case JNull => false
    case JBool(b) => b
    case JNum(n) => n != 0.0
    case JStr(s) => s != []
    case JArray(items) => items != []
    case JObject(entries) => entries != []
  }

  /** `needle` occurs as a contiguous part of `hay` (Python's `in` on strings). */
  predicate IsSubstring(needle: string, hay: string)
  {
    exists i :: 0 <= i <= |hay| && needle <= hay[i..]
  }

  /**
   * Python's `key in container` for a decoded value: key membership for a
   * dict, element membership for a list, substring test for a string, and
   * None when Python raises a TypeError (numbers, booleans, None).
   */
  function Contains(container: Json, key: string): (r: Option<bool>)
    ensures r == Some(true) && container.JObject? ==> HasKey(container.entries, key)
    ensures r.None? <==> container.JNull? || container.JBool? || container.JNum?
  {
    match container
    case JObject(entries) => Some(HasKey(entries, key))
    case JArray(items) => Some(JStr(key) in items)
    case JStr(s) => Some(IsSubstring(key, s))
    case _ => None
  }

  /**
   * The number Python sees in a decoded value: ints and floats as they are,
   * and `True`/`False` as 1 and 0 (bool is a subclass of int). Strings, None
   * and containers are not numbers: comparing them with one raises TypeError.
   */
  function NumberValue(j: Json): (r: Option<real>)
    ensures r.Some? <==> j.JNum? || j.JBool?
    ensures j.JNum? ==> r == Some(j.n)
  {
    match j
    case JNum(n) => Some(n)
    case JBool(b) => Some(if b then 1.0 else 0.0)
    case _ => None
  }

  /** A real that is a whole number, as a float key like `3.0` equals the int key 3. */
  predicate IsWhole(n: real)
  {
    n == n.Floor as real
  }

  /** Lists and dicts cannot be dict keys: looking one up raises TypeError. */
  predicate Hashable(j: Json)
  {
    !j.JArray? && !j.JObject?
  }

  /** The int dict key a decoded value is equal to, if any. */
  function IntKey(j: Json): (r: Option<int>)
    ensures r.Some? ==> NumberValue(j) == Some(r.value as real)
    ensures NumberValue(j).Some? && IsWhole(NumberValue(j).value) ==> r.Some?
  {
    match NumberValue(j)
    case Some(n) => if IsWhole(n) then Some(n.Floor) else None
    case None => None
  }
}
