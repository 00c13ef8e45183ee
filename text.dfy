/** The string operations the pipeline relies on: Python's `str.strip()`,
    `str.startswith` and the substring test `part in text`. */
module Text {

  /** Python's `str.isspace` for one character: exactly the characters that
      `str.strip()` with no argument removes. */
  predicate IsSpace(c: char) {
    ('\t' <= c <= '\r') || ('\U{1C}' <= c <= ' ') || c == '\U{85}' || c == '\U{A0}'
    || c == '\U{1680}' || ('\U{2000}' <= c <= '\U{200A}') || c == '\U{2028}' || c == '\U{2029}'
    || c == '\U{202F}' || c == '\U{205F}' || c == '\U{3000}'
  }

  /** The index of the first non-space character of `s` at or after `i`, or `|s|`. */
  function SkipSpaces(s: string, i: nat): (j: nat)
    requires i <= |s|
    ensures i <= j <= |s|
    ensures forall k :: i <= k < j ==> IsSpace(s[k])
    ensures j == |s| || !IsSpace(s[j])
    decreases |s| - i
  {
    if i < |s| && IsSpace(s[i]) then SkipSpaces(s, i + 1) else i
  }

  /** The end of `s[lo..hi]` once its trailing whitespace is dropped. */
  function SkipSpacesBack(s: string, lo: nat, hi: nat): (j: nat)
    requires lo <= hi <= |s|
    ensures lo <= j <= hi
    ensures forall k :: j <= k < hi ==> IsSpace(s[k])
    ensures j == lo || !IsSpace(s[j - 1])
    decreases hi
  {
    if lo < hi && IsSpace(s[hi - 1]) then SkipSpacesBack(s, lo, hi - 1) else hi
  }

  /** Python's `str.strip()`: the slice `s[i..j]` obtained by dropping only
      whitespace on both sides, which neither starts nor ends with whitespace. */
  function Strip(s: string): (r: string)
    ensures exists i, j :: (0 <= i <= j <= |s| && r == s[i..j]
      && (forall k :: 0 <= k < i ==> IsSpace(s[k]))
      && (forall k :: j <= k < |s| ==> IsSpace(s[k])))
    ensures r == [] || (!IsSpace(r[0]) && !IsSpace(r[|r| - 1]))
  {
    var i := SkipSpaces(s, 0);
    var j := SkipSpacesBack(s, i, |s|);
    s[i..j]
  }

  /** A string with no surrounding whitespace is its own strip. */
  lemma StripUnpadded(s: string)
    requires s == [] || (!IsSpace(s[0]) && !IsSpace(s[|s| - 1]))
    ensures Strip(s) == s
  {
  }

  /** Python's `text.startswith(prefix)`. */
  predicate StartsWith(text: string, prefix: string) {
    |prefix| <= |text| && text[..|prefix|] == prefix
  }

  /** Python's `part in text`, scanning the start positions from left to right. */
  predicate Contains(text: string, part: string)
    decreases |text|
  {
    StartsWith(text, part) || (|part| < |text| && Contains(text[1..], part))
  }

  /** `part` occurs in `text` at position `i`. */
  predicate OccursAt(text: string, part: string, i: int) {
    0 <= i <= |text| - |part| && text[i..i + |part|] == part
  }

  /** The scan agrees with the definition of a substring: `part` occurs in `text`
      exactly when some slice of `text` equals it. */
  lemma {:induction false} ContainsIffOccurs(text: string, part: string)
    ensures Contains(text, part) <==>
      exists i :: OccursAt(text, part, i)
    decreases |text|
  {
    if StartsWith(text, part) {
      assert OccursAt(text, part, 0);
    } else if |part| < |text| {
      ContainsIffOccurs(text[1..], part);
      if exists i :: OccursAt(text, part, i) {
        var i :| OccursAt(text, part, i);
        assert i != 0;
        assert OccursAt(text[1..], part, i - 1);
      }
      if Contains(text[1..], part) {
        var i :| OccursAt(text[1..], part, i);
        assert OccursAt(text, part, i + 1);
      }
    }
  }

  /** A text that lacks the first character of `part` cannot contain `part`. */
  lemma {:induction false} MissingFirstCharNotContained(text: string, part: string)
    requires |part| > 0 && part[0] !in text
    ensures !Contains(text, part)
    decreases |text|
  {
    if |text| > 0 {
      assert text[0] != part[0];
      assert forall c :: c in text[1..] ==> c in text;
      MissingFirstCharNotContained(text[1..], part);
    }
  }
}
