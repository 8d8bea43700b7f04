/** The search-pattern helper of app/internal/db.py (`filterize`, also
    duplicated in app/auth.py) and the SQL `LOWER`/`LIKE` tests that the
    filter queries apply to it. Case mapping covers ASCII letters only. */
module Text {

  predicate IsUpper(c: char) {
    'A' <= c <= 'Z'
  }

  /** Lower-case one character: ASCII capitals map to their small letter,
      every other character is kept. */
  function LowerChar(c: char): (r: char)
    ensures !IsUpper(r)
    ensures !IsUpper(c) ==> r == c
    ensures IsUpper(c) ==> 'a' <= r <= 'z' && r as int - c as int == 'a' as int - 'A' as int
  {
    if IsUpper(c) then (c as int + ('a' as int - 'A' as int)) as char else c
  }

  /** `str.lower()` restricted to ASCII case: same length, each character
      lowered on its own, no capital left. */
  function Lower(s: string): (r: string)
    ensures |r| == |s|
    ensures forall i :: 0 <= i < |s| ==> r[i] == LowerChar(s[i])
    ensures forall i :: 0 <= i < |r| ==> !IsUpper(r[i])
  {
    if s == [] then [] else [LowerChar(s[0])] + Lower(s[1..])
  }

  /** Two strings that differ only in the case of ASCII letters. */
  predicate EqualIgnoringCase(a: string, b: string) {
    |a| == |b| && forall i :: 0 <= i < |a| ==> LowerChar(a[i]) == LowerChar(b[i])
  }

  /** `needle` starts at position `i` of `hay`. */
  predicate OccursAt(hay: string, needle: string, i: int) {
    0 <= i && i + |needle| <= |hay| && hay[i..i + |needle|] == needle
  }

  /** `needle` occurs somewhere in `hay` as a contiguous piece. */
  predicate Contains(hay: string, needle: string) {
    exists i :: 0 <= i <= |hay| && OccursAt(hay, needle, i)
  }

  /** `filterize`: wrap the lowered filter text in `%` wildcards so that
      SQL `LIKE` finds it anywhere in a column. */
  function Filterize(s: string): (r: string)
    ensures |r| == |s| + 2
    ensures r[0] == '%' && r[|r| - 1] == '%'
    ensures forall i :: 0 <= i < |r| ==> !IsUpper(r[i])
  {
    "%" + Lower(s) + "%"
  }

  /** `value LIKE pattern` for the patterns that `Filterize` builds: the text
      between the two `%` must occur in `value`. Characters inside that text
      are compared literally. */
  predicate Like(value: string, pattern: string)
    requires |pattern| >= 2
  {
    Contains(value, pattern[1..|pattern| - 1])
  }

  /** Filter strings that differ only in letter case give the same pattern. */
  lemma {:induction false} FilterizeIgnoresCase(a: string, b: string)
    requires EqualIgnoringCase(a, b)
    ensures Filterize(a) == Filterize(b)
  {
    assert Lower(a) == Lower(b) by {
      forall i | 0 <= i < |a| ensures Lower(a)[i] == Lower(b)[i] {}
    }
  }

  /** A pattern matches exactly the values that contain the lowered filter. */
  lemma LikeFilterize(value: string, filter: string)
    ensures Like(value, Filterize(filter)) <==> Contains(value, Lower(filter))
  {
    assert Filterize(filter)[1..|filter| + 1] == Lower(filter);
  }

  /** The default filter of the list endpoints is the empty string; its
      pattern `%%` matches every value. */
  lemma EmptyFilterMatchesAll(value: string)
    ensures Filterize("") == "%%"
    ensures Like(value, Filterize(""))
  {
    LikeFilterize(value, "");
    assert OccursAt(value, Lower(""), 0);
  }

  /** A column value with a capital letter is not matched by a filter equal
      to that value unless the column is lowered first: the pattern holds
      only small letters, and it is as long as the value itself. */
  lemma CapitalColumnMissed(value: string, k: int)
    requires 0 <= k < |value| && IsUpper(value[k])
    ensures !Like(value, Filterize(value))
    ensures Like(Lower(value), Filterize(value))
  {
    LikeFilterize(value, value);
    forall i | 0 <= i <= |value|
      ensures !OccursAt(value, Lower(value), i)
    {
      if i == 0 {
        assert value[0..|value|][k] != Lower(value)[k];
      }
    }
    LikeFilterize(Lower(value), value);
    assert OccursAt(Lower(value), Lower(value), 0);
  }
}
