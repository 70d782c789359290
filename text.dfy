/** String operations the server and the client rely on: ASCII case folding
    (standing in for `icontains`), substring search, Python's `str.strip()`,
    `str.startswith` and the slice `s[a:-b]`. */
module Text {
  import opened Wrappers

  /** JavaScript and Python truthiness of an optional string: present and
      not empty. */
  predicate Truthy(o: Option<string>) {
    o.Some? && o.value != ""
  }

  predicate IsUpper(c: char) {
    'A' <= c <= 'Z'
  }

  function LowerChar(c: char): (r: char)
    ensures !IsUpper(r)
    ensures IsUpper(c) ==> r as int == c as int + 32
    ensures !IsUpper(c) ==> r == c
  {
    if IsUpper(c) then (c as int + 32) as char else c
  }

  /** ASCII lower-casing, character by character. */
  function Lower(s: string): (r: string)
    ensures |r| == |s|
    ensures forall i :: 0 <= i < |s| ==> r[i] == LowerChar(s[i])
  {
    seq(|s|, i requires 0 <= i < |s| => LowerChar(s[i]))
  }

  lemma LowerSlice(s: string, i: nat, j: nat)
    requires i <= j <= |s|
    ensures Lower(s)[i..j] == Lower(s[i..j])
  {
  }

  predicate StartsWith(s: string, prefix: string) {
    |prefix| <= |s| && s[..|prefix|] == prefix
  }

  /** `needle` occurs in `hay` starting at position `i`. */
  predicate OccursAt(needle: string, hay: string, i: int) {
    0 <= i <= |hay| - |needle| && hay[i..i + |needle|] == needle
  }

  /** `needle` occurs in `hay` at some position. */
  predicate IsSubstring(needle: string, hay: string) {
    exists i | 0 <= i <= |hay| - |needle| :: OccursAt(needle, hay, i)
  }

  /** Case-insensitive containment, the ASCII reading of Django's `icontains`:
      the empty term is found everywhere, and no term longer than the text is
      found in it. */
  predicate ContainsIgnoreCase(hay: string, needle: string)
    ensures needle == "" ==> ContainsIgnoreCase(hay, needle)
    ensures ContainsIgnoreCase(hay, needle) ==> |needle| <= |hay|
  {
    assert needle == "" ==> OccursAt(Lower(needle), Lower(hay), 0);
    IsSubstring(Lower(needle), Lower(hay))
  }

  /** An exact occurrence is also a case-insensitive one. */
  lemma ExactImpliesIgnoreCase(hay: string, needle: string, i: nat)
    requires i + |needle| <= |hay| && hay[i..i + |needle|] == needle
    ensures ContainsIgnoreCase(hay, needle)
  {
    LowerSlice(hay, i, i + |needle|);
    assert OccursAt(Lower(needle), Lower(hay), i);
  }

  /** Case-insensitivity: folding the haystack first changes nothing. */
  lemma {:induction false} ContainsIgnoreCaseFolded(hay: string, needle: string)
    ensures ContainsIgnoreCase(Lower(hay), needle) == ContainsIgnoreCase(hay, needle)
  {
    assert Lower(Lower(hay)) == Lower(hay) by {
      forall i | 0 <= i < |hay| ensures Lower(Lower(hay))[i] == Lower(hay)[i] {
      }
    }
  }

  /** Case-insensitivity: folding the search term first changes nothing. */
  lemma ContainsIgnoreCaseFoldedTerm(hay: string, needle: string)
    ensures ContainsIgnoreCase(hay, Lower(needle)) == ContainsIgnoreCase(hay, needle)
  {
    assert Lower(Lower(needle)) == Lower(needle);
  }

  /** The characters Python's `str.isspace()` accepts: tab, line feed,
      vertical tab, form feed, carriage return, the four information
      separators, space, next line, no-break space, and the Unicode space
      separators, line separator and paragraph separator. */
  predicate IsSpace(c: char) {
    var n := c as int;
    || (9 <= n <= 13) || (28 <= n <= 32) || n == 0x85 || n == 0xA0 || n == 0x1680
    || (0x2000 <= n <= 0x200A) || n == 0x2028 || n == 0x2029 || n == 0x202F
    || n == 0x205F || n == 0x3000
  }

  function TrimLeft(s: string): (r: string)
    ensures |r| <= |s| && r == s[|s| - |r|..]
    ensures forall k :: 0 <= k < |s| - |r| ==> IsSpace(s[k])
    ensures r == [] || !IsSpace(r[0])
  {
    if s != [] && IsSpace(s[0]) then TrimLeft(s[1..]) else s
  }

  function TrimRight(s: string): (r: string)
    ensures |r| <= |s| && r == s[..|r|]
    ensures forall k :: |r| <= k < |s| ==> IsSpace(s[k])
    ensures r == [] || !IsSpace(r[|r| - 1])
  {
    if s != [] && IsSpace(s[|s| - 1]) then TrimRight(s[..|s| - 1]) else s
  }

  /** Python's `str.strip()` with no argument. */
  function Strip(s: string): (r: string)
    ensures |r| <= |s|
  {
    TrimLeft(TrimRight(s))
  }

  /** `Strip` removes only whitespace, and only at the ends: the result is a
      slice of the input that neither starts nor ends with whitespace. */
  lemma StripIsTrimmedSlice(s: string)
    ensures exists i, j :: 0 <= i <= j <= |s| && Strip(s) == s[i..j]
    ensures Strip(s) == [] || (!IsSpace(Strip(s)[0]) && !IsSpace(Strip(s)[|Strip(s)| - 1]))
    ensures forall k :: 0 <= k < |s| && !IsSpace(s[k]) ==> Strip(s) != []
    ensures Strip(s) != [] ==> exists k :: 0 <= k < |s| && !IsSpace(s[k])
  {
    var t := TrimRight(s);
    var r := TrimLeft(t);
    assert r == s[|t| - |r|..|t|];
    if r != [] {
      assert r[|r| - 1] == t[|t| - 1];
      assert s[|t| - |r|] == r[0];
    }
  }

  lemma TrimLeftNoop(s: string)
    requires s == [] || !IsSpace(s[0])
    ensures TrimLeft(s) == s
  {
  }

  lemma TrimRightNoop(s: string)
    requires s == [] || !IsSpace(s[|s| - 1])
    ensures TrimRight(s) == s
  {
  }

  /** Stripping twice is stripping once. */
  lemma StripIdempotent(s: string)
    ensures Strip(Strip(s)) == Strip(s)
  {
    StripIsTrimmedSlice(s);
    var r := Strip(s);
    TrimRightNoop(r);
    TrimLeftNoop(r);
  }

  /** Python's slice `s[start:-dropLast]` for positive `dropLast`: both
      bounds are clamped into the string, and an empty string results when
      they cross. */
  function DropBoth(s: string, start: nat, dropLast: nat): (r: string)
    requires dropLast > 0
    ensures start + dropLast <= |s| ==> r == s[start..|s| - dropLast]
    ensures start + dropLast >= |s| ==> r == []
  {
    var begin := if start < |s| then start else |s|;
    var end := if dropLast < |s| then |s| - dropLast else 0;
    if begin < end then s[begin..end] else []
  }
}
