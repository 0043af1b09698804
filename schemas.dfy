// Dict keys written in snake_case are turned into the camelCase the LM Studio
// API expects, through nested dicts and lists.
//
// Dicts are heap objects here (`PyDict`), because the translation tells them
// apart by identity: it refuses a dict it has already met, which is how it
// notices cycles (and shared sub-dicts).

module Schemas {
  import opened JsonValue
  import opened SdkErrors
  import PyStrings

  /* ---------------------------------------------------------------------
   * Key conversion
   * ------------------------------------------------------------------- */

  /** The one API key that spells the `V` of `KV` in upper case. */
  const KvCacheKeyAsConverted: string := "useFp16ForKvCache"
  const KvCacheKeyInApi: string := "useFp16ForKVCache"

  /** Values under these keys are copied as they are, never translated. */
  const SkipFieldRecursion: set<string> := {"json_schema", "jsonSchema"}

  predicate IsAsciiUpper(c: char) { 'A' <= c <= 'Z' }
  predicate IsAsciiLower(c: char) { 'a' <= c <= 'z' }

  function ToUpper(c: char): (u: char)
    ensures IsAsciiLower(c) ==> IsAsciiUpper(u)
    ensures !IsAsciiLower(c) ==> u == c
  {
    if IsAsciiLower(c) then (c as int - 'a' as int + 'A' as int) as char else c
  }

  function ToLower(c: char): (l: char)
    ensures IsAsciiUpper(c) ==> IsAsciiLower(l)
    ensures !IsAsciiUpper(c) ==> l == c
  {
    if IsAsciiUpper(c) then (c as int - 'A' as int + 'a' as int) as char else c
  }

  function LowerAll(s: string): (r: string)
    ensures |r| == |s|
    ensures forall i :: 0 <= i < |s| ==> r[i] == ToLower(s[i])
  {
    if s == [] then [] else [ToLower(s[0])] + LowerAll(s[1..])
  }

  /** `str.capitalize()`: first character upper case, the rest lower case. */
  function Capitalize(w: string): (r: string)
    ensures |r| == |w|
    ensures w != [] ==> r[0] == ToUpper(w[0]) && r[1..] == LowerAll(w[1..])
  {
    if w == [] then [] else [ToUpper(w[0])] + LowerAll(w[1..])
  }

  function ConcatCapitalized(words: seq<string>): (r: string)
    ensures |r| == SumLengths(words)
  {
    if words == [] then [] else Capitalize(words[0]) + ConcatCapitalized(words[1..])
  }

  function SumLengths(words: seq<string>): nat
  {
    if words == [] then 0 else |words[0]| + SumLengths(words[1..])
  }

  /** `_snake_case_to_camelCase`: drop the underscores, capitalising every word after the first. */
  function SnakeCaseToCamelCase(key: string): (r: string)
  {
    var words := PyStrings.Split(key, '_');
    var camel := words[0] + ConcatCapitalized(words[1..]);
    if camel == KvCacheKeyAsConverted then KvCacheKeyInApi else camel
  }

  /** The key a translated dict uses: only keys holding an underscore are converted. */
  function TranslatedKey(k: string): string
  {
    if '_' in k then SnakeCaseToCamelCase(k) else k
  }

  lemma {:induction false} ConcatCapitalizedNoUnderscore(words: seq<string>)
    requires PyStrings.NoneContains(words, '_')
    ensures '_' !in ConcatCapitalized(words)
  {
    if words != [] {
      assert '_' !in words[0];
      assert forall i :: 0 <= i < |Capitalize(words[0])| ==> Capitalize(words[0])[i] != '_' by {
        forall i | 0 <= i < |Capitalize(words[0])|
          ensures Capitalize(words[0])[i] != '_'
        {
          assert words[0][i] != '_';
          if i > 0 {
            assert Capitalize(words[0])[i] == LowerAll(words[0][1..])[i - 1];
          }
        }
      }
      assert PyStrings.NoneContains(words[1..], '_') by {
        forall i | 0 <= i < |words[1..]|
          ensures '_' !in words[1..][i]
        {
          assert words[1..][i] == words[i + 1];
        }
      }
      ConcatCapitalizedNoUnderscore(words[1..]);
    }
  }

  /** A converted key never holds an underscore. */
  lemma SnakeCaseToCamelCaseHasNoUnderscore(key: string)
    ensures '_' !in SnakeCaseToCamelCase(key)
  {
    var words := PyStrings.Split(key, '_');
    assert PyStrings.NoneContains(words[1..], '_') by {
      forall i | 0 <= i < |words[1..]|
        ensures '_' !in words[1..][i]
      {
        assert words[1..][i] == words[i + 1];
      }
    }
    ConcatCapitalizedNoUnderscore(words[1..]);
  }

  /** A translated key keeps its name exactly when it holds no underscore, and never holds one. */
  lemma TranslatedKeyProperties(k: string)
    ensures '_' !in TranslatedKey(k)
    ensures TranslatedKey(k) == k <==> '_' !in k
  {
    if '_' in k {
      SnakeCaseToCamelCaseHasNoUnderscore(k);
    }
  }

  /* Canonical snake_case keys, and the camelCase-to-snake_case direction. */

  predicate IsLowerOrDigit(c: char) { IsAsciiLower(c) || '0' <= c <= '9' }

  /** A word of a canonical snake_case key: lower-case letters and digits, starting with a letter. */
  predicate CanonicalWord(w: string)
  {
    w != [] && IsAsciiLower(w[0]) && forall i :: 0 <= i < |w| ==> IsLowerOrDigit(w[i])
  }

  predicate CanonicalWords(words: seq<string>)
  {
    forall i :: 0 <= i < |words| ==> CanonicalWord(words[i])
  }

  /** camelCase back to snake_case: every upper-case letter becomes "_" and its lower-case form. */
  function CamelCaseToSnakeCase(s: string): string
  {
    if s == [] then []
    else (if IsAsciiUpper(s[0]) then ['_', ToLower(s[0])] else [s[0]]) + CamelCaseToSnakeCase(s[1..])
  }

  lemma {:induction false} CamelCaseToSnakeCaseAppend(a: string, b: string)
    ensures CamelCaseToSnakeCase(a + b) == CamelCaseToSnakeCase(a) + CamelCaseToSnakeCase(b)
  {
    if a == [] {
      assert a + b == b;
    } else {
      assert (a + b)[1..] == a[1..] + b;
      CamelCaseToSnakeCaseAppend(a[1..], b);
    }
  }

  lemma {:induction false} CamelCaseToSnakeCaseLower(w: string)
    requires forall i :: 0 <= i < |w| ==> IsLowerOrDigit(w[i])
    ensures CamelCaseToSnakeCase(w) == w
    ensures LowerAll(w) == w
  {
    if w != [] {
      CamelCaseToSnakeCaseLower(w[1..]);
    }
  }

  lemma {:induction false} CapitalizeCanonical(w: string)
    requires CanonicalWord(w)
    ensures CamelCaseToSnakeCase(Capitalize(w)) == ['_'] + w
  {
    var rest := w[1..];
    assert forall i :: 0 <= i < |rest| ==> IsLowerOrDigit(rest[i]);
    CamelCaseToSnakeCaseLower(rest);
    var up := ToUpper(w[0]);
    CaseRoundTrip(w[0]);
    assert Capitalize(w) == [up] + rest;
    SnakeOfUpperFirst(up, rest);
    assert CamelCaseToSnakeCase(Capitalize(w)) == ['_', w[0]] + rest;
    PrependFirst('_', w);
  }

  lemma PrependFirst(c: char, w: string)
    requires w != []
    ensures [c, w[0]] + w[1..] == [c] + w
  {
  }

  lemma CaseRoundTrip(c: char)
    requires IsAsciiLower(c)
    ensures IsAsciiUpper(ToUpper(c)) && ToLower(ToUpper(c)) == c
  {
  }

  lemma {:induction false} SnakeOfUpperFirst(up: char, rest: string)
    requires IsAsciiUpper(up)
    ensures CamelCaseToSnakeCase([up] + rest) == ['_', ToLower(up)] + CamelCaseToSnakeCase(rest)
  {
    assert ([up] + rest)[1..] == rest;
  }

  lemma {:induction false} ConcatCapitalizedToSnake(words: seq<string>)
    requires CanonicalWords(words)
    ensures CamelCaseToSnakeCase(ConcatCapitalized(words)) == if words == [] then "" else "_" + PyStrings.Join(words, '_')
  {
    if words != [] {
      var rest := words[1..];
      var tail := if |words| == 1 then "" else "_" + PyStrings.Join(rest, '_');
      CapitalizeCanonical(words[0]);
      CanonicalTail(words);
      ConcatCapitalizedToSnake(rest);
      CamelCaseToSnakeCaseAppend(Capitalize(words[0]), ConcatCapitalized(rest));
      assert CamelCaseToSnakeCase(ConcatCapitalized(words)) == ("_" + words[0]) + tail;
      PyStrings.Assoc("_", words[0], tail);
      PyStrings.JoinCons(words, '_');
    }
  }

  lemma CanonicalTail(words: seq<string>)
    requires words != [] && CanonicalWords(words)
    ensures CanonicalWords(words[1..])
  {
    forall i | 0 <= i < |words[1..]|
      ensures CanonicalWord(words[1..][i])
    {
      assert words[1..][i] == words[i + 1];
    }
  }

  predicate WordsHaveNoUnderscore(words: seq<string>)
  {
    PyStrings.NoneContains(words, '_')
  }

  lemma CanonicalWordsHaveNoUnderscore(words: seq<string>)
    requires CanonicalWords(words)
    ensures WordsHaveNoUnderscore(words)
  {
    forall i | 0 <= i < |words|
      ensures '_' !in words[i]
    {
      assert forall j :: 0 <= j < |words[i]| ==> IsLowerOrDigit(words[i][j]);
    }
  }

  /**
   * Round trip: a canonical snake_case key converted to camelCase and back
   * is the key it started from. The one key the API spells differently
   * ("useFp16ForKVCache") is the exception.
   */
  lemma {:induction false} SnakeCaseRoundTrip(words: seq<string>)
    requires words != [] && CanonicalWords(words)
    requires words[0] + ConcatCapitalized(words[1..]) != KvCacheKeyAsConverted
    ensures CamelCaseToSnakeCase(SnakeCaseToCamelCase(PyStrings.Join(words, '_'))) == PyStrings.Join(words, '_')
  {
    var key := PyStrings.Join(words, '_');
    var rest := words[1..];
    var tail := if |words| == 1 then "" else "_" + PyStrings.Join(rest, '_');
    CanonicalWordsHaveNoUnderscore(words);
    PyStrings.SplitJoin(words, '_');
    assert SnakeCaseToCamelCase(key) == words[0] + ConcatCapitalized(rest);
    CanonicalTail(words);
    ConcatCapitalizedToSnake(rest);
    CamelCaseToSnakeCaseLower(words[0]);
    CamelCaseToSnakeCaseAppend(words[0], ConcatCapitalized(rest));
    PyStrings.JoinCons(words, '_');
  }

  /** "use_fp16_for_kv_cache" becomes the API's "useFp16ForKVCache", not "useFp16ForKvCache". */
  lemma KvCacheKeyOverride()
    ensures SnakeCaseToCamelCase(PyStrings.Join(["use", "fp16", "for", "kv", "cache"], '_')) == KvCacheKeyInApi
  {
    var words := ["use", "fp16", "for", "kv", "cache"];
    var key := PyStrings.Join(words, '_');
    assert PyStrings.NoneContains(words, '_');
    PyStrings.SplitJoin(words, '_');
    assert PyStrings.Split(key, '_') == words;
    KvCacheWordsCapitalized();
    KvCacheLiterals();
  }

  lemma KvCacheLiterals()
    ensures ["use", "fp16", "for", "kv", "cache"][1..] == ["fp16", "for", "kv", "cache"]
    ensures ["use", "fp16", "for", "kv", "cache"][0] + "Fp16ForKvCache" == KvCacheKeyAsConverted
  {
  }

  lemma KvCacheWordsCapitalized()
    ensures ConcatCapitalized(["fp16", "for", "kv", "cache"]) == "Fp16ForKvCache"
  {
    var words := ["fp16", "for", "kv", "cache"];
    assert words[1..] == ["for", "kv", "cache"];
    assert ConcatCapitalized(words) == Capitalize(words[0]) + ConcatCapitalized(words[1..]);
    KvCacheTail();
    Fp16Capitalized();
    assert "Fp16" + "ForKvCache" == "Fp16ForKvCache";
  }

  lemma Fp16Capitalized()
    ensures Capitalize("fp16") == "Fp16"
  {
    CapitalizeWord("fp16", 'F', "p16");
  }

  lemma KvCacheTail()
    ensures ConcatCapitalized(["for", "kv", "cache"]) == "ForKvCache"
  {
    KvCacheLastTwo();
    CapitalizeWord("for", 'F', "or");
    assert ["for", "kv", "cache"][1..] == ["kv", "cache"];
  }

  lemma KvCacheLastTwo()
    ensures ConcatCapitalized(["kv", "cache"]) == "KvCache"
  {
    CapitalizeWord("kv", 'K', "v");
    CapitalizeWord("cache", 'C', "ache");
    assert ["kv", "cache"][1..] == ["cache"];
  }

  lemma CapitalizeWord(w: string, first: char, rest: string)
    requires w != [] && w[1..] == rest && ToUpper(w[0]) == first
    requires forall i :: 0 <= i < |rest| ==> IsLowerOrDigit(rest[i])
    ensures Capitalize(w) == [first] + rest
  {
    CamelCaseToSnakeCaseLower(rest);
  }

  /* ---------------------------------------------------------------------
   * Translating a dict and everything it holds
   * ------------------------------------------------------------------- */

  datatype Scalar = SNone | SBool(b: bool) | SNum(n: real) | SStr(s: string)

  /** A dict value: a scalar, a reference to a dict object, or a list of values. */
  datatype PyValue =
    | PyScalar(scalar: Scalar)
    | DictRef(dict: PyDict)
    | ListVal(items: seq<PyValue>)

  type PyEntries = seq<(string, PyValue)>

  /** A Python dict object: its entries in insertion order. */
  class PyDict {
    var entries: PyEntries

    constructor Empty()
      ensures entries == []
    {
      entries := [];
    }
  }

  /** The dicts the translation queues for one list item. */
  function ItemRef(v: PyValue): seq<PyDict>
  {
    if v.DictRef? then [v.dict] else []
  }

  /** The dicts the translation queues for the items of a list, in order. */
  function ItemRefs(items: seq<PyValue>): seq<PyDict>
  {
    if items == [] then [] else ItemRefs(items[..|items| - 1]) + ItemRef(items[|items| - 1])
  }

  /** The dicts the translation queues for one entry: none under a skipped key. */
  function EntryRefs(k: string, v: PyValue): seq<PyDict>
  {
    match v
    case DictRef(d) => if k in SkipFieldRecursion then [] else [d]
    case ListVal(items) => ItemRefs(items)
    case PyScalar(_) => []
  }

  /** The dicts the translation queues for a dict's entries, in order. */
  function Refs(entries: PyEntries): seq<PyDict>
  {
    if entries == [] then []
    else Refs(entries[..|entries| - 1]) + EntryRefs(entries[|entries| - 1].0, entries[|entries| - 1].1)
  }

  /** The dicts queued while processing, in turn, dicts whose entries are `es`. */
  function Queued(es: seq<PyEntries>): seq<PyDict>
  {
    if es == [] then [] else Queued(es[..|es| - 1]) + Refs(es[|es| - 1])
  }

  /** The entries of each of `ds`. */
  function EntriesOf(ds: seq<PyDict>): (es: seq<PyEntries>)
    reads set x | x in ds
    ensures |es| == |ds| && forall n :: 0 <= n < |ds| ==> es[n] == ds[n].entries
  {
    if ds == [] then [] else EntriesOf(ds[..|ds| - 1]) + [ds[|ds| - 1].entries]
  }

  predicate ListOfLists(v: PyValue)
  {
    v.ListVal? && exists n :: 0 <= n < |v.items| && v.items[n].ListVal?
  }

  predicate NoListOfLists(entries: PyEntries)
  {
    forall n :: 0 <= n < |entries| ==> !ListOfLists(entries[n].1)
  }

  predicate Distinct<T(==)>(s: seq<T>)
  {
    forall a, b :: 0 <= a < b < |s| ==> s[a] != s[b]
  }

  /** Every dict reachable from `universe` through the entries the translation follows is in it. */
  predicate Closed(universe: set<PyDict>)
    reads universe
  {
    forall x, y :: x in universe && y in Refs(x.entries) ==> y in universe
  }

  /* The translation of a dict, given which output dict each input dict was paired with. */

  function Paired(d: PyDict, pair: map<PyDict, PyDict>): PyDict
  {
    if d in pair then pair[d] else d
  }

  function TranslateItem(v: PyValue, pair: map<PyDict, PyDict>): PyValue
  {
    if v.DictRef? then DictRef(Paired(v.dict, pair)) else v
  }

  function TranslateItems(items: seq<PyValue>, pair: map<PyDict, PyDict>): (r: seq<PyValue>)
    ensures |r| == |items|
  {
    if items == [] then []
    else TranslateItems(items[..|items| - 1], pair) + [TranslateItem(items[|items| - 1], pair)]
  }

  /** A dict under a skipped key stays the input's own dict; other dicts become their output dicts. */
  function TranslateValue(k: string, v: PyValue, pair: map<PyDict, PyDict>): PyValue
  {
    match v
    case DictRef(d) => if k in SkipFieldRecursion then v else DictRef(Paired(d, pair))
    case ListVal(items) => ListVal(TranslateItems(items, pair))
    case PyScalar(_) => v
  }

  /** The output dict's entries: each entry stored in turn under its translated key. */
  function Translate(entries: PyEntries, pair: map<PyDict, PyDict>): PyEntries
  {
    if entries == [] then []
    else
      var last := entries[|entries| - 1];
      Put(Translate(entries[..|entries| - 1], pair), TranslatedKey(last.0), TranslateValue(last.0, last.1, pair))
  }

  /* Lemmas the worklist proof uses. */

  predicate Within(refs: seq<PyDict>, keys: set<PyDict>)
  {
    forall x :: x in refs ==> x in keys
  }

  /** `bigger` pairs every dict `pair` pairs, with the same output dict. */
  predicate Extends(bigger: map<PyDict, PyDict>, pair: map<PyDict, PyDict>)
  {
    forall x :: x in pair ==> x in bigger && bigger[x] == pair[x]
  }

  lemma {:induction false} TranslateItemsStable(items: seq<PyValue>, pair: map<PyDict, PyDict>, bigger: map<PyDict, PyDict>)
    requires Extends(bigger, pair) && Within(ItemRefs(items), pair.Keys)
    ensures TranslateItems(items, bigger) == TranslateItems(items, pair)
  {
    if items != [] {
      var init := items[..|items| - 1];
      assert ItemRefs(items) == ItemRefs(init) + ItemRef(items[|items| - 1]);
      TranslateItemsStable(init, pair, bigger);
    }
  }

  lemma {:induction false} TranslateStable(entries: PyEntries, pair: map<PyDict, PyDict>, bigger: map<PyDict, PyDict>)
    requires Extends(bigger, pair) && Within(Refs(entries), pair.Keys)
    ensures Translate(entries, bigger) == Translate(entries, pair)
  {
    if entries != [] {
      var init := entries[..|entries| - 1];
      var last := entries[|entries| - 1];
      assert Refs(entries) == Refs(init) + EntryRefs(last.0, last.1);
      TranslateStable(init, pair, bigger);
      if last.1.ListVal? {
        TranslateItemsStable(last.1.items, pair, bigger);
      }
      assert TranslateValue(last.0, last.1, bigger) == TranslateValue(last.0, last.1, pair);
    }
  }

  lemma {:induction false} QueuedHolds(es: seq<PyEntries>, n: nat)
    requires n < |es|
    ensures forall x :: x in Refs(es[n]) ==> x in Queued(es)
  {
    if n < |es| - 1 {
      assert es[..|es| - 1][n] == es[n];
      QueuedHolds(es[..|es| - 1], n);
    }
  }

  lemma QueuedStep(es: seq<PyEntries>, e: PyEntries)
    ensures Queued(es + [e]) == Queued(es) + Refs(e)
  {
    assert (es + [e])[..|es|] == es;
  }

  lemma {:induction false} RefsPrefix(entries: PyEntries, j: nat)
    requires j <= |entries|
    ensures Refs(entries[..j]) <= Refs(entries)
    decreases |entries| - j
  {
    if j < |entries| {
      RefsPrefix(entries, j + 1);
      assert entries[..j + 1][..j] == entries[..j];
    } else {
      assert entries[..j] == entries;
    }
  }

  lemma {:induction false} ItemRefsPrefix(items: seq<PyValue>, m: nat)
    requires m <= |items|
    ensures ItemRefs(items[..m]) <= ItemRefs(items)
    decreases |items| - m
  {
    if m < |items| {
      ItemRefsPrefix(items, m + 1);
      assert items[..m + 1][..m] == items[..m];
    } else {
      assert items[..m] == items;
    }
  }

  lemma {:induction false} QueuedPrefix(es: seq<PyEntries>, longer: seq<PyEntries>)
    requires es <= longer
    ensures Queued(es) <= Queued(longer)
    decreases |longer|
  {
    if |es| < |longer| {
      var init := longer[..|longer| - 1];
      assert es <= init;
      QueuedPrefix(es, init);
    } else {
      assert es == longer;
    }
  }

  lemma DistinctPrefix<T>(a: seq<T>, b: seq<T>)
    requires a <= b && !Distinct(a)
    ensures !Distinct(b)
  {
    var x, y :| 0 <= x < y < |a| && a[x] == a[y];
    assert b[x] == b[y];
  }

  lemma DistinctCard<T>(s: seq<T>)
    requires Distinct(s)
    ensures |set x | x in s| == |s|
  {
    if s != [] {
      var init := s[..|s| - 1];
      DistinctCard(init);
      assert (set x | x in s) == (set x | x in init) + {s[|s| - 1]};
    }
  }

  lemma SubsetCard<T>(a: set<T>, b: set<T>)
    requires a <= b
    ensures |a| <= |b|
  {
    if a != {} {
      var x :| x in a;
      SubsetCard(a - {x}, b - {x});
    }
  }

  /* The worklist. */

  /**
   * What the worklist has done so far, for the proof: the input dicts in the
   * order they were queued, the output dict each one was paired with, and the
   * two inverse maps that show neither list repeats itself.
   */
  datatype Trace = Trace(order: seq<PyDict>, pair: map<PyDict, PyDict>,
                         pos: map<PyDict, int>, owner: map<PyDict, PyDict>)

  /** `work` and `queued` agree with the trace, whose inputs lie in `universe` and outputs outside it. */
  ghost predicate Tracked(data: PyDict, work: seq<(PyDict, PyDict)>, queued: set<PyDict>,
                          t: Trace, universe: set<PyDict>)
  {
    && |t.order| >= 1 && t.order[0] == data
    && queued == t.pair.Keys
    && |work| == |t.order|
    && (forall n :: 0 <= n < |t.order| ==>
          && t.order[n] in t.pair && t.order[n] in universe
          && t.order[n] in t.pos && t.pos[t.order[n]] == n
          && work[n] == (t.order[n], t.pair[t.order[n]]))
    && (forall x :: x in t.pair ==> x in t.pos && 0 <= t.pos[x] < |t.order| && t.order[t.pos[x]] == x)
    && (forall x :: x in t.pair ==> t.pair[x] !in universe && t.pair[x] in t.owner && t.owner[t.pair[x]] == x)
  }

  /** Every output dict belongs to one input dict. */
  predicate Injective(pair: map<PyDict, PyDict>)
  {
    forall x, y :: x in pair && y in pair && x != y ==> pair[x] != pair[y]
  }

  lemma TrackedFacts(data: PyDict, work: seq<(PyDict, PyDict)>, queued: set<PyDict>, t: Trace, universe: set<PyDict>)
    requires Tracked(data, work, queued, t, universe)
    ensures Distinct(t.order) && Injective(t.pair)
    ensures forall x :: x in t.pair ==> x in t.order
    ensures |t.order| <= |universe|
  {
    assert forall a, b :: 0 <= a < b < |t.order| ==> t.pos[t.order[a]] != t.pos[t.order[b]];
    forall x | x in t.pair
      ensures x in t.order
    {
      assert t.order[t.pos[x]] == x;
    }
    DistinctCard(t.order);
    SubsetCard((set x | x in t.order), universe);
  }

  lemma OrderIsKeys(data: PyDict, work: seq<(PyDict, PyDict)>, queued: set<PyDict>, t: Trace, universe: set<PyDict>)
    requires Tracked(data, work, queued, t, universe)
    ensures forall x :: x in t.order ==> x in t.pair
  {
  }

  /**
   * `_queue_dict`: a dict met for the first time gets a fresh output dict and
   * joins the worklist; a dict met before is refused with a ValueError.
   */
  method QueueDict(d: PyDict, work: seq<(PyDict, PyDict)>, queued: set<PyDict>,
                   ghost data: PyDict, ghost t: Trace, ghost universe: set<PyDict>)
    returns (r: Result<PyDict>, work': seq<(PyDict, PyDict)>, queued': set<PyDict>, ghost t': Trace)
    requires Tracked(data, work, queued, t, universe) && d in universe
    ensures r.Err? <==> d in queued
    ensures r.Err? ==> r.error == ValueError && d in t.order && work' == work && queued' == queued && t' == t
    ensures r.Ok? ==> fresh(r.value) && r.value.entries == []
    ensures r.Ok? ==> work' == work + [(d, r.value)] && queued' == queued + {d}
    ensures r.Ok? ==> t'.order == t.order + [d] && t'.pair == t.pair[d := r.value]
    ensures r.Ok? ==> t'.owner == t.owner[r.value := d]
    ensures Tracked(data, work', queued', t', universe)
  {
    if d in queued {
      assert t.order[t.pos[d]] == d;
      return Err(ValueError), work, queued, t;
    }
    var output := new PyDict.Empty();
    r := Ok(output);
    queued' := queued + {d};
    work' := work + [(d, output)];
    t' := Trace(t.order + [d], t.pair[d := output], t.pos[d := |t.order|], t.owner[output := d]);
  }

  /** One list item: a dict is queued, a list is refused, anything else is kept. */
  method TranslateListItem(item: PyValue, work: seq<(PyDict, PyDict)>, queued: set<PyDict>,
                           ghost data: PyDict, ghost t: Trace, ghost universe: set<PyDict>)
    returns (r: Result<PyValue>, work': seq<(PyDict, PyDict)>, queued': set<PyDict>, ghost t': Trace)
    requires Tracked(data, work, queued, t, universe)
    requires Within(ItemRef(item), universe)
    ensures Tracked(data, work', queued', t', universe)
    ensures Extends(t'.pair, t.pair)
    ensures forall y :: y in t'.owner && y !in t.owner ==> fresh(y)
    ensures r.Ok? ==> !item.ListVal? && t'.order == t.order + ItemRef(item) && r.value == TranslateItem(item, t'.pair)
    ensures r.Err? ==> r.error == ValueError && t'.order == t.order
    ensures r.Err? ==> item.ListVal? || (item.DictRef? && item.dict in t.order)
  {
    work', queued', t' := work, queued, t;
    match item {
      case DictRef(d) =>
        assert d in ItemRef(item);
        var q;
        q, work', queued', t' := QueueDict(d, work, queued, data, t, universe);
        if q.Err? {
          return Err(ValueError), work', queued', t';
        }
        r := Ok(DictRef(q.value));
      case ListVal(_) =>
        r := Err(ValueError);
      case PyScalar(_) =>
        r := Ok(item);
    }
  }

  /** The list branch: dict items are queued, a list item is refused, other items are kept. */
  method TranslateList(items: seq<PyValue>, work: seq<(PyDict, PyDict)>, queued: set<PyDict>,
                       ghost data: PyDict, ghost t: Trace, ghost universe: set<PyDict>)
    returns (r: Result<seq<PyValue>>, work': seq<(PyDict, PyDict)>, queued': set<PyDict>, ghost t': Trace)
    requires Tracked(data, work, queued, t, universe)
    requires Within(ItemRefs(items), universe)
    ensures Tracked(data, work', queued', t', universe)
    ensures Extends(t'.pair, t.pair) && t.order <= t'.order
    ensures forall y :: y in t'.owner && y !in t.owner ==> fresh(y)
    ensures r.Ok? ==> r.value == TranslateItems(items, t'.pair) && t'.order == t.order + ItemRefs(items)
    ensures r.Ok? ==> !ListOfLists(ListVal(items))
    ensures r.Err? ==> r.error == ValueError
    ensures r.Err? ==> !Distinct(t.order + ItemRefs(items)) || ListOfLists(ListVal(items))
  {
    var newList: seq<PyValue> := [];
    work', queued', t' := work, queued, t;
    var m := 0;
    while m < |items|
      invariant 0 <= m <= |items|
      invariant Tracked(data, work', queued', t', universe)
      invariant Extends(t'.pair, t.pair)
      invariant t'.order == t.order + ItemRefs(items[..m])
      invariant forall y :: y in t'.owner && y !in t.owner ==> fresh(y)
      invariant newList == TranslateItems(items[..m], t'.pair)
      invariant !ListOfLists(ListVal(items[..m]))
    {
      var item := items[m];
      ItemRefsStep(items, m);
      ghost var before := t';
      OrderIsKeys(data, work', queued', t', universe);
      var q;
      q, work', queued', t' := TranslateListItem(item, work', queued', data, t', universe);
      if q.Err? {
        if item.ListVal? {
          assert ListOfLists(ListVal(items));
        } else {
          RepeatNotDistinct(t.order, items, m, before.order);
        }
        return Err(ValueError), work', queued', t';
      }
      TranslateItemsStable(items[..m], before.pair, t'.pair);
      TranslateItemsStep(items, m, t'.pair);
      ListOfListsStep(items, m);
      AppendAssoc(t.order, ItemRefs(items[..m]), ItemRef(items[m]));
      newList := newList + [q.value];
      m := m + 1;
    }
    assert items[..m] == items;
    r := Ok(newList);
  }

  lemma ItemRefsStep(items: seq<PyValue>, m: nat)
    requires m < |items|
    ensures ItemRefs(items[..m + 1]) == ItemRefs(items[..m]) + ItemRef(items[m])
    ensures forall x :: x in ItemRef(items[m]) ==> x in ItemRefs(items)
  {
    var longer := items[..m + 1];
    assert longer[..m] == items[..m] && longer[m] == items[m];
    var refs := ItemRefs(longer);
    assert refs == ItemRefs(items[..m]) + ItemRef(items[m]);
    ItemRefsPrefix(items, m + 1);
    if items[m].DictRef? {
      assert refs[|refs| - 1] == items[m].dict;
      assert ItemRefs(items)[|refs| - 1] == items[m].dict;
    }
  }

  lemma TranslateItemsStep(items: seq<PyValue>, m: nat, pair: map<PyDict, PyDict>)
    requires m < |items|
    ensures TranslateItems(items[..m + 1], pair) == TranslateItems(items[..m], pair) + [TranslateItem(items[m], pair)]
  {
    assert items[..m + 1][..m] == items[..m];
  }

  lemma ListOfListsStep(items: seq<PyValue>, m: nat)
    requires m < |items|
    ensures ListOfLists(ListVal(items[..m + 1])) <==> ListOfLists(ListVal(items[..m])) || items[m].ListVal?
  {
    var longer := items[..m + 1];
    assert longer[m] == items[m];
    assert forall n :: 0 <= n < m ==> longer[n] == items[..m][n];
  }

  /** A list item that is a dict already queued makes the queue order repeat itself. */
  lemma RepeatNotDistinct(order: seq<PyDict>, items: seq<PyValue>, m: nat, before: seq<PyDict>)
    requires m < |items| && items[m].DictRef? && items[m].dict in before
    requires before == order + ItemRefs(items[..m])
    ensures !Distinct(order + ItemRefs(items))
  {
    ItemRefsStep(items, m);
    var prefix := order + ItemRefs(items[..m + 1]);
    assert prefix == before + [items[m].dict];
    RepeatAtEnd(before, items[m].dict);
    ItemRefsPrefix(items, m + 1);
    PrefixOfAppend(order, ItemRefs(items[..m + 1]), ItemRefs(items));
    DistinctPrefix(prefix, order + ItemRefs(items));
  }

  lemma RepeatAtEnd<T>(s: seq<T>, x: T)
    requires x in s
    ensures !Distinct(s + [x])
  {
    var a :| 0 <= a < |s| && s[a] == x;
    assert (s + [x])[a] == (s + [x])[|s|];
  }

  lemma AppendAssoc<T>(a: seq<T>, b: seq<T>, c: seq<T>)
    ensures (a + b) + c == a + (b + c)
  {
  }

  lemma PrefixOfAppend<T>(a: seq<T>, b: seq<T>, c: seq<T>)
    requires b <= c
    ensures a + b <= a + c
  {
    assert (a + c)[..|a + b|] == a + b;
  }

  /** A nested dict as an entry's value: queued for translation unless its key is skipped. */
  method TranslateDictValue(k: string, d: PyDict, work: seq<(PyDict, PyDict)>, queued: set<PyDict>,
                            ghost data: PyDict, ghost t: Trace, ghost universe: set<PyDict>)
    returns (r: Result<PyValue>, work': seq<(PyDict, PyDict)>, queued': set<PyDict>, ghost t': Trace)
    requires Tracked(data, work, queued, t, universe)
    requires Within(EntryRefs(k, DictRef(d)), universe)
    ensures Tracked(data, work', queued', t', universe)
    ensures Extends(t'.pair, t.pair) && t.order <= t'.order
    ensures forall y :: y in t'.owner && y !in t.owner ==> fresh(y)
    ensures r.Ok? ==> r.value == TranslateValue(k, DictRef(d), t'.pair) && t'.order == t.order + EntryRefs(k, DictRef(d))
    ensures r.Err? ==> r.error == ValueError && !Distinct(t.order + EntryRefs(k, DictRef(d)))
  {
    work', queued', t' := work, queued, t;
    if k in SkipFieldRecursion {
      assert t.order + EntryRefs(k, DictRef(d)) == t.order;
      return Ok(DictRef(d)), work', queued', t';
    }
    assert d in EntryRefs(k, DictRef(d));
    var q;
    q, work', queued', t' := QueueDict(d, work, queued, data, t, universe);
    if q.Err? {
      RepeatAtEnd(t.order, d);
      return Err(ValueError), work', queued', t';
    }
    r := Ok(DictRef(q.value));
  }

  /** One entry's value: a nested dict is queued unless its key is skipped, a list goes item by item. */
  method TranslateEntryValue(k: string, v: PyValue, work: seq<(PyDict, PyDict)>, queued: set<PyDict>,
                             ghost data: PyDict, ghost t: Trace, ghost universe: set<PyDict>)
    returns (r: Result<PyValue>, work': seq<(PyDict, PyDict)>, queued': set<PyDict>, ghost t': Trace)
    requires Tracked(data, work, queued, t, universe)
    requires Within(EntryRefs(k, v), universe)
    ensures Tracked(data, work', queued', t', universe)
    ensures Extends(t'.pair, t.pair) && t.order <= t'.order
    ensures forall y :: y in t'.owner && y !in t.owner ==> fresh(y)
    ensures r.Ok? ==> r.value == TranslateValue(k, v, t'.pair) && t'.order == t.order + EntryRefs(k, v)
    ensures r.Ok? ==> !ListOfLists(v)
    ensures r.Err? ==> r.error == ValueError
    ensures r.Err? ==> !Distinct(t.order + EntryRefs(k, v)) || ListOfLists(v)
  {
    work', queued', t' := work, queued, t;
    match v {
      case DictRef(d) =>
        r, work', queued', t' := TranslateDictValue(k, d, work, queued, data, t, universe);
      case ListVal(items) =>
        var l;
        l, work', queued', t' := TranslateList(items, work, queued, data, t, universe);
        if l.Err? {
          return Err(ValueError), work', queued', t';
        }
        r := Ok(ListVal(l.value));
      case PyScalar(_) =>
        assert t.order + EntryRefs(k, v) == t.order;
        r := Ok(v);
    }
  }

  /** `d`'s output dict holds the translation of `d`'s entries, and `d` holds no list of lists. */
  predicate Done(d: PyDict, pair: map<PyDict, PyDict>)
    reads d, if d in pair then {pair[d]} else {}
  {
    d in pair && pair[d].entries == Translate(d.entries, pair) && NoListOfLists(d.entries)
  }

  /**
   * Before the next queued dict is processed: the dicts with entries `es`
   * were processed first, in queue order, and queued the rest; `outs` holds
   * their translations.
   */
  ghost predicate Between(data: PyDict, work: seq<(PyDict, PyDict)>, queued: set<PyDict>, t: Trace,
                          universe: set<PyDict>, es: seq<PyEntries>, outs: seq<PyEntries>)
    reads set x | x in t.order
  {
    && Tracked(data, work, queued, t, universe)
    && |es| <= |t.order| && |outs| == |es|
    && (forall n :: 0 <= n < |es| ==> es[n] == t.order[n].entries)
    && t.order == [data] + Queued(es)
    && (forall n :: 0 <= n < |es| ==> outs[n] == Translate(es[n], t.pair) && NoListOfLists(es[n]))
  }

  /**
   * While the next queued dict, with entries `cur`, is processed: its first
   * `j` entries are translated into `out`.
   */
  ghost predicate Midway(data: PyDict, work: seq<(PyDict, PyDict)>, queued: set<PyDict>, t: Trace,
                         universe: set<PyDict>, es: seq<PyEntries>, outs: seq<PyEntries>,
                         cur: PyEntries, j: nat, out: PyEntries)
    reads set x | x in t.order
  {
    && Tracked(data, work, queued, t, universe)
    && |es| < |t.order| && |outs| == |es| && j <= |cur|
    && (forall n :: 0 <= n < |es| ==> es[n] == t.order[n].entries)
    && cur == t.order[|es|].entries
    && t.order == [data] + Queued(es) + Refs(cur[..j])
    && out == Translate(cur[..j], t.pair) && NoListOfLists(cur[..j])
    && (forall n :: 0 <= n < |es| ==> outs[n] == Translate(es[n], t.pair) && NoListOfLists(es[n]))
  }

  lemma StartDict(data: PyDict, work: seq<(PyDict, PyDict)>, queued: set<PyDict>, t: Trace,
                  universe: set<PyDict>, es: seq<PyEntries>, outs: seq<PyEntries>)
    requires Between(data, work, queued, t, universe, es, outs) && |es| < |t.order|
    ensures Midway(data, work, queued, t, universe, es, outs, t.order[|es|].entries, 0, [])
  {
    assert t.order[|es|].entries[..0] == [];
    assert [data] + Queued(es) + [] == [data] + Queued(es);
  }

  /** All entries of the dict being processed are translated: it joins the processed ones. */
  lemma FinishDict(data: PyDict, work: seq<(PyDict, PyDict)>, queued: set<PyDict>, t: Trace,
                   universe: set<PyDict>, es: seq<PyEntries>, outs: seq<PyEntries>, cur: PyEntries, out: PyEntries)
    requires Midway(data, work, queued, t, universe, es, outs, cur, |cur|, out)
    ensures Between(data, work, queued, t, universe, es + [cur], outs + [out])
  {
    FinishOrder(data, es, cur, t.order);
    FinishEntries(es, cur, t.order);
    FinishCopies(es, outs, cur, out, t.pair);
  }

  lemma FinishOrder(data: PyDict, es: seq<PyEntries>, cur: PyEntries, order: seq<PyDict>)
    requires order == [data] + Queued(es) + Refs(cur[..|cur|])
    ensures order == [data] + Queued(es + [cur])
  {
    assert cur[..|cur|] == cur;
    QueuedStep(es, cur);
    AppendAssoc([data], Queued(es), Refs(cur));
  }

  lemma FinishEntries(es: seq<PyEntries>, cur: PyEntries, order: seq<PyDict>)
    requires |es| < |order| && (forall n :: 0 <= n < |es| ==> es[n] == order[n].entries)
    requires cur == order[|es|].entries
    ensures forall n :: 0 <= n < |es| + 1 ==> (es + [cur])[n] == order[n].entries
  {
    forall n | 0 <= n < |es| + 1
      ensures (es + [cur])[n] == order[n].entries
    {
      if n < |es| {
        assert (es + [cur])[n] == es[n];
      }
    }
  }

  lemma FinishCopies(es: seq<PyEntries>, outs: seq<PyEntries>, cur: PyEntries, out: PyEntries, pair: map<PyDict, PyDict>)
    requires |outs| == |es|
    requires forall n :: 0 <= n < |es| ==> outs[n] == Translate(es[n], pair) && NoListOfLists(es[n])
    requires out == Translate(cur[..|cur|], pair) && NoListOfLists(cur[..|cur|])
    ensures forall n :: 0 <= n < |es| + 1 ==>
      (outs + [out])[n] == Translate((es + [cur])[n], pair) && NoListOfLists((es + [cur])[n])
  {
    assert cur[..|cur|] == cur;
    forall n | 0 <= n < |es| + 1
      ensures (outs + [out])[n] == Translate((es + [cur])[n], pair) && NoListOfLists((es + [cur])[n])
    {
      if n < |es| {
        assert (es + [cur])[n] == es[n] && (outs + [out])[n] == outs[n];
      }
    }
  }

  /** When every queued dict is processed and its translation stored, every copy is done. */
  lemma AllDone(data: PyDict, work: seq<(PyDict, PyDict)>, queued: set<PyDict>, t: Trace,
                universe: set<PyDict>, es: seq<PyEntries>, outs: seq<PyEntries>)
    requires Between(data, work, queued, t, universe, es, outs) && |es| == |t.order|
    requires forall n :: 0 <= n < |work| ==> work[n].1.entries == outs[n]
    ensures t.order == [data] + Queued(EntriesOf(t.order)) && Distinct(t.order) && Injective(t.pair)
    ensures forall x :: x in t.pair ==> x in t.order
    ensures forall n :: 0 <= n < |t.order| ==> Done(t.order[n], t.pair)
  {
    assert es == EntriesOf(t.order);
    TrackedFacts(data, work, queued, t, universe);
    forall n | 0 <= n < |t.order|
      ensures Done(t.order[n], t.pair)
    {
      assert work[n].1 == t.pair[t.order[n]];
    }
  }

  /** One entry of the dict being processed: its value is translated and put under the converted key. */
  method TranslateEntry(inD: PyDict, j: nat, out: PyEntries, work: seq<(PyDict, PyDict)>, queued: set<PyDict>,
                        ghost data: PyDict, ghost t: Trace, ghost universe: set<PyDict>,
                        ghost es: seq<PyEntries>, ghost outs: seq<PyEntries>)
    returns (r: Result<PyEntries>, work': seq<(PyDict, PyDict)>, queued': set<PyDict>, ghost t': Trace)
    requires Closed(universe)
    requires Midway(data, work, queued, t, universe, es, outs, inD.entries, j, out) && j < |inD.entries|
    requires inD == t.order[|es|]
    ensures Tracked(data, work', queued', t', universe)
    ensures t.order <= t'.order && Extends(t'.pair, t.pair)
    ensures forall y :: y in t'.owner && y !in t.owner ==> fresh(y)
    ensures r.Ok? ==> Midway(data, work', queued', t', universe, es, outs, inD.entries, j + 1, r.value)
    ensures r.Err? ==> r.error == ValueError
    ensures r.Err? ==> !Distinct([data] + Queued(EntriesOf(t'.order)))
                       || exists n :: 0 <= n < |t'.order| && !NoListOfLists(t'.order[n].entries)
  {
    var k := inD.entries[j].0;
    var v := inD.entries[j].1;
    EntryWithin(universe, inD, j);
    KnownRefs(data, work, queued, t, universe, es, inD.entries, j);
    var q;
    q, work', queued', t' := TranslateEntryValue(k, v, work, queued, data, t, universe);
    if q.Err? {
      ErrWitness(data, es, inD.entries, j, t.order);
      PrefixIndices(t.order, t'.order);
      ErrLift(data, es, inD.entries, t'.order);
      return Err(ValueError), work', queued', t';
    }
    EntryAdvance(data, es, inD.entries, j, t.order, t'.order, t.pair, t'.pair, q.value);
    NewTail(data, work, queued, t, work', queued', t', universe);
    r := Ok(Put(out, TranslatedKey(k), q.value));
  }

  /** The inner loop: every entry of the dict being processed is translated, in insertion order. */
  method TranslateEntries(inD: PyDict, work: seq<(PyDict, PyDict)>, queued: set<PyDict>,
                          ghost data: PyDict, ghost t: Trace, ghost universe: set<PyDict>,
                          ghost es: seq<PyEntries>, ghost outs: seq<PyEntries>)
    returns (r: Result<PyEntries>, work': seq<(PyDict, PyDict)>, queued': set<PyDict>, ghost t': Trace)
    requires Closed(universe)
    requires Between(data, work, queued, t, universe, es, outs) && |es| < |t.order| && inD == t.order[|es|]
    ensures Tracked(data, work', queued', t', universe)
    ensures t.order <= t'.order && Extends(t'.pair, t.pair)
    ensures forall y :: y in t'.owner && y !in t.owner ==> fresh(y)
    ensures r.Ok? ==> Between(data, work', queued', t', universe, es + [inD.entries], outs + [r.value])
    ensures r.Err? ==> r.error == ValueError
    ensures r.Err? ==> !Distinct([data] + Queued(EntriesOf(t'.order)))
                       || exists n :: 0 <= n < |t'.order| && !NoListOfLists(t'.order[n].entries)
  {
    StartDict(data, work, queued, t, universe, es, outs);
    work', queued', t' := work, queued, t;
    var out: PyEntries := [];
    var j := 0;
    while j < |inD.entries|
      invariant Midway(data, work', queued', t', universe, es, outs, inD.entries, j, out)
      invariant inD == t'.order[|es|]
      invariant t.order <= t'.order && Extends(t'.pair, t.pair)
      invariant forall y :: y in t'.owner && y !in t.owner ==> fresh(y)
    {
      ghost var before := t';
      var step;
      step, work', queued', t' := TranslateEntry(inD, j, out, work', queued', data, t', universe, es, outs);
      PrefixTrans(t.order, before.order, t'.order);
      if step.Err? {
        return Err(ValueError), work', queued', t';
      }
      out := step.value;
      j := j + 1;
    }
    FinishDict(data, work', queued', t', universe, es, outs, inD.entries, out);
    r := Ok(out);
  }

  /**
   * The outer loop: the queued dicts are processed in the order they were
   * queued, until none is left or one is refused; the result holds the
   * translation of each, in that order.
   */
  method Drain(data: PyDict, ghost universe: set<PyDict>)
    returns (r: Result<seq<PyEntries>>, translated: PyDict, work: seq<(PyDict, PyDict)>, queued: set<PyDict>,
             ghost t: Trace, ghost es: seq<PyEntries>)
    requires data in universe && Closed(universe)
    ensures Tracked(data, work, queued, t, universe)
    ensures data in t.pair && translated == t.pair[data] && fresh(translated)
    ensures r.Ok? ==> forall n :: 0 <= n < |work| ==> fresh(work[n].1)
    ensures r.Ok? ==> Between(data, work, queued, t, universe, es, r.value) && |es| == |t.order|
    ensures r.Err? ==> r.error == ValueError
    ensures r.Err? ==> !Distinct([data] + Queued(EntriesOf(t.order)))
                       || exists n :: 0 <= n < |t.order| && !NoListOfLists(t.order[n].entries)
  {
    translated := new PyDict.Empty();
    var work0 := [(data, translated)];
    var queued0 := {data};
    ghost var t0 := Trace([data], map[data := translated], map[data := 0], map[translated := data]);
    Started(data, translated, universe);
    r, work, queued, t, es := DrainFrom(work0, queued0, data, t0, universe);
    OnlyOwner(translated, data, work);
  }

  lemma OnlyOwner(o: PyDict, d: PyDict, work: seq<(PyDict, PyDict)>)
    ensures forall n :: 0 <= n < |work| && work[n].1 in map[o := d] ==> work[n].1 == o
  {
  }

  method DrainFrom(work: seq<(PyDict, PyDict)>, queued: set<PyDict>,
                   ghost data: PyDict, ghost t: Trace, ghost universe: set<PyDict>)
    returns (r: Result<seq<PyEntries>>, work': seq<(PyDict, PyDict)>, queued': set<PyDict>,
             ghost t': Trace, ghost es: seq<PyEntries>)
    requires Closed(universe) && Between(data, work, queued, t, universe, [], [])
    ensures Tracked(data, work', queued', t', universe)
    ensures Extends(t'.pair, t.pair)
    ensures r.Ok? ==> forall n :: 0 <= n < |work'| ==> work'[n].1 in t.owner || fresh(work'[n].1)
    ensures r.Ok? ==> Between(data, work', queued', t', universe, es, r.value) && |es| == |t'.order|
    ensures r.Err? ==> r.error == ValueError
    ensures r.Err? ==> !Distinct([data] + Queued(EntriesOf(t'.order)))
                       || exists n :: 0 <= n < |t'.order| && !NoListOfLists(t'.order[n].entries)
  {
    work', queued', t', es := work, queued, t, [];
    var outs: seq<PyEntries> := [];
    var i := 0;
    while i < |work'|
      invariant Between(data, work', queued', t', universe, es, outs) && |es| == i
      invariant Extends(t'.pair, t.pair)
      invariant forall y :: y in t'.owner && y !in t.owner ==> fresh(y)
      decreases |universe| - i
    {
      OrderBounded(data, work', queued', t', universe);
      var inD := work'[i].0;
      ghost var cur := inD.entries;
      var step;
      step, work', queued', t' := TranslateEntries(inD, work', queued', data, t', universe, es, outs);
      if step.Err? {
        return Err(ValueError), work', queued', t', es;
      }
      outs := outs + [step.value];
      es := es + [cur];
      i := i + 1;
    }
    Outputs(data, work', queued', t', universe);
    r := Ok(outs);
  }

  /**
   * `_snake_case_keys_to_camelCase`: `data` and every dict reachable from it
   * (except through the skipped keys) are copied into fresh dicts whose keys
   * are converted; a dict met twice, or a list inside a list, is refused
   * with a ValueError. `universe` is every dict reachable from `data`; the
   * trace records the order in which the dicts were queued and the copy
   * made of each.
   */
  method SnakeCaseKeysToCamelCase(data: PyDict, ghost universe: set<PyDict>) returns (r: Result<PyDict>, ghost t: Trace)
    requires data in universe && Closed(universe)
    ensures |t.order| >= 1 && t.order[0] == data && data in t.pair
    ensures forall x :: x in t.pair ==> t.pair[x] !in universe
    ensures r.Ok? ==> r.value == t.pair[data] && fresh(r.value)
    ensures r.Ok? ==> t.order == [data] + Queued(EntriesOf(t.order)) && Distinct(t.order) && Injective(t.pair)
    ensures r.Ok? ==> forall x :: x in t.pair ==> x in t.order
    ensures r.Ok? ==> forall n :: 0 <= n < |t.order| ==> Done(t.order[n], t.pair)
    ensures r.Err? ==> r.error == ValueError
    ensures r.Err? ==> !Distinct([data] + Queued(EntriesOf(t.order)))
                       || exists n :: 0 <= n < |t.order| && !NoListOfLists(t.order[n].entries)
  {
    var done, translated, work, queued;
    ghost var es;
    done, translated, work, queued, t, es := Drain(data, universe);
    if done.Err? {
      return Err(ValueError), t;
    }
    Finish(work, done.value, data, queued, t, universe, es);
    r := Ok(translated);
  }

  lemma Started(data: PyDict, translated: PyDict, universe: set<PyDict>)
    requires data in universe && translated !in universe
    ensures Between(data, [(data, translated)], {data},
                    Trace([data], map[data := translated], map[data := 0], map[translated := data]), universe, [], [])
  {
  }

  /** The translations are stored in the output dicts, which completes every copy. */
  method Finish(work: seq<(PyDict, PyDict)>, outs: seq<PyEntries>,
                ghost data: PyDict, ghost queued: set<PyDict>, ghost t: Trace, ghost universe: set<PyDict>,
                ghost es: seq<PyEntries>)
    requires Between(data, work, queued, t, universe, es, outs) && |es| == |t.order|
    modifies set n | 0 <= n < |work| :: work[n].1
    ensures t.order == [data] + Queued(EntriesOf(t.order)) && Distinct(t.order) && Injective(t.pair)
    ensures forall x :: x in t.pair ==> x in t.order
    ensures forall n :: 0 <= n < |t.order| ==> Done(t.order[n], t.pair)
  {
    Outputs(data, work, queued, t, universe);
    Store(work, outs);
    AllDone(data, work, queued, t, universe, es, outs);
  }

  /** The output dicts are outside `universe`, belong to the trace and differ from one another. */
  lemma Outputs(data: PyDict, work: seq<(PyDict, PyDict)>, queued: set<PyDict>, t: Trace, universe: set<PyDict>)
    requires Tracked(data, work, queued, t, universe)
    ensures forall n :: 0 <= n < |work| ==> work[n].1 !in universe && work[n].1 in t.owner
    ensures forall m, n :: 0 <= m < n < |work| ==> work[m].1 != work[n].1
  {
    forall m, n | 0 <= m < n < |work|
      ensures work[m].1 != work[n].1
    {
      OthersDiffer(data, work, queued, t, universe, n);
    }
  }

  /** Each output dict receives its translated entries. */
  method Store(work: seq<(PyDict, PyDict)>, outs: seq<PyEntries>)
    requires |outs| == |work|
    requires forall m, n :: 0 <= m < n < |work| ==> work[m].1 != work[n].1
    modifies set n | 0 <= n < |work| :: work[n].1
    ensures forall n :: 0 <= n < |work| ==> work[n].1.entries == outs[n]
  {
    var n := 0;
    while n < |work|
      invariant 0 <= n <= |work|
      invariant forall m :: 0 <= m < n ==> work[m].1.entries == outs[m]
    {
      work[n].1.entries := outs[n];
      n := n + 1;
    }
  }

  lemma PrefixTrans<T>(a: seq<T>, b: seq<T>, c: seq<T>)
    requires a <= b && b <= c
    ensures a <= c
  {
    assert c[..|a|] == c[..|b|][..|a|];
  }

  lemma PrefixIndices<T>(a: seq<T>, b: seq<T>)
    requires a <= b
    ensures forall n :: 0 <= n < |a| ==> b[n] == a[n]
  {
    assert forall n :: 0 <= n < |a| ==> b[..|a|][n] == b[n];
  }

  /** Distinct queued dicts have distinct output dicts. */
  lemma OthersDiffer(data: PyDict, work: seq<(PyDict, PyDict)>, queued: set<PyDict>, t: Trace, universe: set<PyDict>, i: nat)
    requires Tracked(data, work, queued, t, universe) && i < |t.order|
    ensures forall n :: 0 <= n < |t.order| && n != i ==> t.pair[t.order[n]] != t.pair[t.order[i]]
  {
    forall n | 0 <= n < |t.order| && n != i
      ensures t.pair[t.order[n]] != t.pair[t.order[i]]
    {
      assert t.pos[t.order[n]] != t.pos[t.order[i]];
      assert t.owner[t.pair[t.order[n]]] == t.order[n];
    }
  }

  lemma OrderBounded(data: PyDict, work: seq<(PyDict, PyDict)>, queued: set<PyDict>, t: Trace, universe: set<PyDict>)
    requires Tracked(data, work, queued, t, universe)
    ensures |t.order| <= |universe|
  {
    TrackedFacts(data, work, queued, t, universe);
  }

  /** The dicts an entry of a dict in `universe` leads to are in `universe`. */
  lemma EntryWithin(universe: set<PyDict>, d: PyDict, j: nat)
    requires Closed(universe) && d in universe && j < |d.entries|
    ensures Within(EntryRefs(d.entries[j].0, d.entries[j].1), universe)
  {
    RefsStep(d.entries, j);
    RefsPrefix(d.entries, j + 1);
    forall y | y in EntryRefs(d.entries[j].0, d.entries[j].1)
      ensures y in universe
    {
      assert y in Refs(d.entries[..j + 1]);
      assert y in Refs(d.entries);
    }
  }

  lemma EntryStep(entries: PyEntries, j: nat, pair: map<PyDict, PyDict>)
    requires j < |entries|
    ensures Refs(entries[..j + 1]) == Refs(entries[..j]) + EntryRefs(entries[j].0, entries[j].1)
    ensures Translate(entries[..j + 1], pair)
      == Put(Translate(entries[..j], pair), TranslatedKey(entries[j].0), TranslateValue(entries[j].0, entries[j].1, pair))
    ensures NoListOfLists(entries[..j + 1]) <==> NoListOfLists(entries[..j]) && !ListOfLists(entries[j].1)
  {
    RefsStep(entries, j);
    TranslateStep(entries, j, pair);
    NoListStep(entries, j);
  }

  lemma RefsStep(entries: PyEntries, j: nat)
    requires j < |entries|
    ensures Refs(entries[..j + 1]) == Refs(entries[..j]) + EntryRefs(entries[j].0, entries[j].1)
  {
    assert entries[..j + 1][..j] == entries[..j];
  }

  lemma TranslateStep(entries: PyEntries, j: nat, pair: map<PyDict, PyDict>)
    requires j < |entries|
    ensures Translate(entries[..j + 1], pair)
      == Put(Translate(entries[..j], pair), TranslatedKey(entries[j].0), TranslateValue(entries[j].0, entries[j].1, pair))
  {
    assert entries[..j + 1][..j] == entries[..j];
  }

  lemma NoListStep(entries: PyEntries, j: nat)
    requires j < |entries|
    ensures NoListOfLists(entries[..j + 1]) <==> NoListOfLists(entries[..j]) && !ListOfLists(entries[j].1)
  {
    var longer := entries[..j + 1];
    assert longer[j] == entries[j];
    assert forall n :: 0 <= n < j ==> longer[n] == entries[..j][n];
  }

  /** Everything the dicts processed so far lead to is already paired. */
  lemma KnownRefs(data: PyDict, work: seq<(PyDict, PyDict)>, queued: set<PyDict>, t: Trace, universe: set<PyDict>,
                  es: seq<PyEntries>, cur: PyEntries, j: nat)
    requires Tracked(data, work, queued, t, universe)
    requires j <= |cur| && t.order == [data] + Queued(es) + Refs(cur[..j])
    ensures forall n :: 0 <= n < |es| ==> Within(Refs(es[n]), t.pair.Keys)
    ensures Within(Refs(cur[..j]), t.pair.Keys)
  {
    OrderIsKeys(data, work, queued, t, universe);
    forall n | 0 <= n < |es|
      ensures Within(Refs(es[n]), t.pair.Keys)
    {
      QueuedHolds(es, n);
    }
  }

  /** Copying one more entry of the dict being processed extends its queue order and its translation. */
  lemma EntryAdvance(data: PyDict, es: seq<PyEntries>, cur: PyEntries, j: nat, prior: seq<PyDict>, later: seq<PyDict>,
                     pair: map<PyDict, PyDict>, bigger: map<PyDict, PyDict>, value: PyValue)
    requires j < |cur| && prior == [data] + Queued(es) + Refs(cur[..j])
    requires later == prior + EntryRefs(cur[j].0, cur[j].1)
    requires Extends(bigger, pair)
    requires forall n :: 0 <= n < |es| ==> Within(Refs(es[n]), pair.Keys)
    requires Within(Refs(cur[..j]), pair.Keys)
    requires value == TranslateValue(cur[j].0, cur[j].1, bigger)
    requires NoListOfLists(cur[..j]) && !ListOfLists(cur[j].1)
    ensures later == [data] + Queued(es) + Refs(cur[..j + 1])
    ensures Put(Translate(cur[..j], pair), TranslatedKey(cur[j].0), value) == Translate(cur[..j + 1], bigger)
    ensures NoListOfLists(cur[..j + 1])
    ensures forall n :: 0 <= n < |es| ==> Translate(es[n], bigger) == Translate(es[n], pair)
  {
    CopiesStable(es, pair, bigger);
    TranslateStable(cur[..j], pair, bigger);
    EntryStep(cur, j, bigger);
    AppendAssoc([data] + Queued(es), Refs(cur[..j]), EntryRefs(cur[j].0, cur[j].1));
  }

  /** Pairing more dicts leaves the translations of the dicts processed so far as they were. */
  lemma CopiesStable(es: seq<PyEntries>, pair: map<PyDict, PyDict>, bigger: map<PyDict, PyDict>)
    requires Extends(bigger, pair)
    requires forall n :: 0 <= n < |es| ==> Within(Refs(es[n]), pair.Keys)
    ensures forall n :: 0 <= n < |es| ==> Translate(es[n], bigger) == Translate(es[n], pair)
  {
    forall n | 0 <= n < |es|
      ensures Translate(es[n], bigger) == Translate(es[n], pair)
    {
      TranslateStable(es[n], pair, bigger);
    }
  }

  /** The dicts queued after `before` are new to the pairing. */
  lemma NewTail(data: PyDict, w: seq<(PyDict, PyDict)>, q: set<PyDict>, before: Trace,
                w': seq<(PyDict, PyDict)>, q': set<PyDict>, after: Trace, universe: set<PyDict>)
    requires Tracked(data, w, q, before, universe) && Tracked(data, w', q', after, universe)
    requires before.order <= after.order
    ensures forall n :: |before.order| <= n < |after.order| ==> after.order[n] !in before.pair
  {
    forall n | |before.order| <= n < |after.order|
      ensures after.order[n] !in before.pair
    {
      assert after.pos[after.order[n]] == n;
    }
  }

  /** Where an entry was refused, the dicts met so far repeat one, or the dict holds a list of lists. */
  lemma ErrWitness(data: PyDict, es: seq<PyEntries>, cur: PyEntries, j: nat, prior: seq<PyDict>)
    requires j < |cur| && prior == [data] + Queued(es) + Refs(cur[..j])
    requires !Distinct(prior + EntryRefs(cur[j].0, cur[j].1)) || ListOfLists(cur[j].1)
    ensures !Distinct([data] + Queued(es + [cur])) || !NoListOfLists(cur)
  {
    if !ListOfLists(cur[j].1) {
      var head := [data] + Queued(es);
      RefsStep(cur, j);
      AppendAssoc(head, Refs(cur[..j]), EntryRefs(cur[j].0, cur[j].1));
      RefsPrefix(cur, j + 1);
      PrefixOfAppend(head, Refs(cur[..j + 1]), Refs(cur));
      DistinctPrefix(head + Refs(cur[..j + 1]), head + Refs(cur));
      QueuedStep(es, cur);
      AppendAssoc([data], Queued(es), Refs(cur));
    }
  }

  /** ... and then the whole queue order repeats a dict, or some queued dict holds a list of lists. */
  lemma ErrLift(data: PyDict, es: seq<PyEntries>, cur: PyEntries, order: seq<PyDict>)
    requires |es| < |order| && (forall n :: 0 <= n < |es| ==> es[n] == order[n].entries)
    requires cur == order[|es|].entries
    requires !Distinct([data] + Queued(es + [cur])) || !NoListOfLists(cur)
    ensures !Distinct([data] + Queued(EntriesOf(order)))
            || exists n :: 0 <= n < |order| && !NoListOfLists(order[n].entries)
  {
    if NoListOfLists(cur) {
      var all := EntriesOf(order);
      assert all[..|es| + 1] == es + [cur];
      QueuedPrefix(es + [cur], all);
      PrefixOfAppend([data], Queued(es + [cur]), Queued(all));
      DistinctPrefix([data] + Queued(es + [cur]), [data] + Queued(all));
    }
  }

}
