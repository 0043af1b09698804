// Python's `str.split(sep)` and `sep.join(parts)` for a one-character
// separator, with the round trips between them.

module PyStrings {

  /** `sep.join(parts)` */
  function Join(parts: seq<string>, sep: char): string
  {
    if parts == [] then ""
    else if |parts| == 1 then parts[0]
    else parts[0] + [sep] + Join(parts[1..], sep)
  }

  /** `text.split(sep)`: the pieces between separators, always at least one. */
  function Split(text: string, sep: char): (parts: seq<string>)
    ensures |parts| >= 1
    ensures forall i :: 0 <= i < |parts| ==> sep !in parts[i]
    decreases |text|
  {
    if sep !in text then [text]
    else
      var i := FirstIndex(text, sep);
      [text[..i]] + Split(text[i + 1..], sep)
  }

  function FirstIndex(text: string, sep: char): (i: nat)
    requires sep in text
    ensures i < |text| && text[i] == sep && sep !in text[..i]
  {
    if text[0] == sep then 0
    else
      var j := FirstIndex(text[1..], sep);
      assert text[1..][..j] == text[1..j + 1];
      assert text[..j + 1] == [text[0]] + text[1..j + 1];
      j + 1
  }

  predicate NoneContains(parts: seq<string>, sep: char)
  {
    forall i :: 0 <= i < |parts| ==> sep !in parts[i]
  }

  lemma {:induction false} FirstIndexAfter(a: string, b: string, sep: char)
    requires sep !in a
    ensures sep in a + [sep] + b && FirstIndex(a + [sep] + b, sep) == |a|
  {
    var text := a + [sep] + b;
    assert text[|a|] == sep;
    if a != [] {
      assert text[1..] == a[1..] + [sep] + b;
      FirstIndexAfter(a[1..], b, sep);
    }
  }

  /** Splitting undoes joining, as long as no part holds the separator. */
  lemma {:induction false} SplitJoin(parts: seq<string>, sep: char)
    requires parts != [] && NoneContains(parts, sep)
    ensures Split(Join(parts, sep), sep) == parts
  {
    if |parts| > 1 {
      var rest := Join(parts[1..], sep);
      var text := parts[0] + [sep] + rest;
      FirstIndexAfter(parts[0], rest, sep);
      var i := FirstIndex(text, sep);
      assert text[..i] == parts[0];
      assert text[i + 1..] == rest;
      assert Split(text, sep) == [parts[0]] + Split(rest, sep);
      assert NoneContains(parts[1..], sep) by {
        forall j | 0 <= j < |parts| - 1 ensures sep !in parts[1..][j] {
          assert parts[1..][j] == parts[j + 1];
        }
      }
      SplitJoin(parts[1..], sep);
      assert Join(parts, sep) == text;
      assert parts == [parts[0]] + parts[1..];
    } else {
      assert sep !in parts[0];
    }
  }

  lemma JoinCons(parts: seq<string>, sep: char)
    requires parts != []
    ensures Join(parts, sep) == parts[0] + (if |parts| == 1 then "" else [sep] + Join(parts[1..], sep))
  {
    if |parts| > 1 {
      Assoc(parts[0], [sep], Join(parts[1..], sep));
    }
  }

  lemma Assoc(a: string, b: string, c: string)
    ensures (a + b) + c == a + (b + c)
  {
  }

  /** `"".join(parts)` */
  function Concat(parts: seq<string>): (text: string)
  {
    if parts == [] then "" else Concat(parts[..|parts| - 1]) + parts[|parts| - 1]
  }
}
