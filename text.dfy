/**
 * The string primitives the storefront uses: `toLowerCase`, `includes` and `split`
 * on a one-character separator. `toLowerCase` is modelled on ASCII letters only.
 */
module Text {

  import opened Wrappers

  /** A string property that JavaScript treats as true: present and non-empty. */
  predicate Truthy(s: Option<string>)
  {
    s.Some? && s.value != ""
  }

  /** ASCII case folding of one character; every other character is kept. */
  function LowerChar(c: char): (d: char)
    ensures 'A' <= c <= 'Z' ==> 'a' <= d <= 'z' && d as int == c as int + 32
    ensures !('A' <= c <= 'Z') ==> d == c
  {
    if 'A' <= c <= 'Z' then (c as int + 32) as char else c
  }

  /** `s.toLowerCase()`, character by character. */
  function Lower(s: string): (r: string)
    ensures |r| == |s|
    ensures forall i :: 0 <= i < |s| ==> r[i] == LowerChar(s[i])
  {
    seq(|s|, i requires 0 <= i < |s| => LowerChar(s[i]))
  }

  /** Lower-casing twice is lower-casing once. */
  lemma LowerIdempotent(s: string)
    ensures Lower(Lower(s)) == Lower(s)
  {
  }

  /** Lower-casing a string first changes no case-insensitive search in it. */
  lemma ContainsIgnoringCaseOfLower(text: string, term: string)
    ensures ContainsIgnoringCase(Lower(text), term) == ContainsIgnoringCase(text, term)
  {
    LowerIdempotent(text);
  }

  /** `needle` occurs in `hay` starting at position `i`. */
  ghost predicate OccursAt(hay: string, needle: string, i: int)
  {
    0 <= i && i + |needle| <= |hay| && hay[i..i + |needle|] == needle
  }

  /** An occurrence in `hay` that is not at position 0 is an occurrence in `hay[1..]`. */
  lemma OccursShift(hay: string, needle: string)
    requires |hay| > 0
    ensures (exists i :: OccursAt(hay[1..], needle, i)) ==> (exists j :: OccursAt(hay, needle, j))
    ensures (exists j :: OccursAt(hay, needle, j) && j != 0) ==> (exists i :: OccursAt(hay[1..], needle, i))
  {
    if i :| OccursAt(hay[1..], needle, i) {
      assert hay[i + 1..i + 1 + |needle|] == hay[1..][i..i + |needle|];
      assert OccursAt(hay, needle, i + 1);
    }
    if j :| OccursAt(hay, needle, j) && j != 0 {
      assert hay[1..][j - 1..j - 1 + |needle|] == hay[j..j + |needle|];
      assert OccursAt(hay[1..], needle, j - 1);
    }
  }

  /** `hay.includes(needle)`: some window of `hay` equals `needle` (always so for ""). */
  function Includes(hay: string, needle: string): (b: bool)
    ensures b <==> exists i :: OccursAt(hay, needle, i)
    decreases |hay|
  {
    if |needle| > |hay| then false
    else if needle <= hay then
      assert OccursAt(hay, needle, 0);
      true
    else
      assert !OccursAt(hay, needle, 0);
      OccursShift(hay, needle);
      Includes(hay[1..], needle)
  }

  /** Whether `term` occurs in `text` when both are lower-cased. */
  predicate ContainsIgnoringCase(text: string, term: string)
  {
    Includes(Lower(text), Lower(term))
  }

  /** Every text contains the empty search term. */
  lemma ContainsEmptyTerm(text: string)
    ensures ContainsIgnoringCase(text, "")
  {
    assert OccursAt(Lower(text), Lower(""), 0);
  }

  /** `s.split(sep)`: the fields between separators, so `k` separators give `k + 1` fields. */
  function Split(s: string, sep: char): (parts: seq<string>)
    ensures |parts| >= 1
    ensures forall k :: 0 <= k < |parts| ==> sep !in parts[k]
  {
    if s == [] then [""]
    else
      var rest := Split(s[1..], sep);
      if s[0] == sep then [""] + rest
      else [[s[0]] + rest[0]] + rest[1..]
  }

  /** `parts.join(sep)`: the inverse of `Split`. */
  function Join(parts: seq<string>, sep: char): string
    requires |parts| >= 1
  {
    if |parts| == 1 then parts[0] else parts[0] + [sep] + Join(parts[1..], sep)
  }

  /** A field free of separators followed by a separator splits off as one field. */
  lemma {:induction false} SplitField(a: string, t: string, sep: char)
    requires sep !in a
    ensures Split(a + [sep] + t, sep) == [a] + Split(t, sep)
  {
    var s := a + [sep] + t;
    if a == [] {
      assert s[1..] == t;
    } else {
      assert s[1..] == a[1..] + [sep] + t;
      SplitField(a[1..], t, sep);
      assert [a[0]] + a[1..] == a;
    }
  }

  /** A string without separators is a single field. */
  lemma {:induction false} SplitNoSeparator(a: string, sep: char)
    requires sep !in a
    ensures Split(a, sep) == [a]
  {
    if a != [] {
      SplitNoSeparator(a[1..], sep);
      assert [a[0]] + a[1..] == a;
    }
  }

  /** Joining the fields of a split gives back the original string. */
  lemma {:induction false} JoinSplit(s: string, sep: char)
    ensures Join(Split(s, sep), sep) == s
  {
    if s != [] {
      JoinSplit(s[1..], sep);
      var rest := Split(s[1..], sep);
      if s[0] != sep {
        var parts := Split(s, sep);
        assert parts[0] == [s[0]] + rest[0];
        if |rest| > 1 {
          assert parts[1..] == rest[1..];
        }
      }
    }
  }

  /** Splitting a join of separator-free fields gives back those fields. */
  lemma {:induction false} SplitJoin(parts: seq<string>, sep: char)
    requires |parts| >= 1
    requires forall k :: 0 <= k < |parts| ==> sep !in parts[k]
    ensures Split(Join(parts, sep), sep) == parts
  {
    if |parts| == 1 {
      SplitNoSeparator(parts[0], sep);
    } else {
      SplitJoin(parts[1..], sep);
      SplitField(parts[0], Join(parts[1..], sep), sep);
      assert [parts[0]] + parts[1..] == parts;
    }
  }
}
