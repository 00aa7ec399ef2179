/** Python's notion of whitespace and `str.strip()` with no argument. */
module PyStr {

  /** The characters for which Python's `str.isspace()` holds. */
  predicate IsSpace(c: char)
  {
    || c == ' '
    || ('\t' <= c <= '\r')
    || ('\U{1C}' <= c <= '\U{1F}')
    || c == '\U{85}' || c == '\U{A0}' || c == '\U{1680}'
    || ('\U{2000}' <= c <= '\U{200A}')
    || c == '\U{2028}' || c == '\U{2029}' || c == '\U{202F}' || c == '\U{205F}' || c == '\U{3000}'
  }

  /** Every character of `s` is whitespace (this includes the empty string). */
  predicate IsBlank(s: string)
  {
    forall i :: 0 <= i < |s| ==> IsSpace(s[i])
  }

  /** Where the run of whitespace that starts at `i` ends: the first position at or
      after `i` that does not hold whitespace, or `|s|`. */
  function SpaceRunEnd(s: string, i: nat): (j: nat)
    requires i <= |s|
    ensures i <= j <= |s|
    ensures forall k :: i <= k < j ==> IsSpace(s[k])
    ensures j < |s| ==> !IsSpace(s[j])
    decreases |s| - i
  {
    if i < |s| && IsSpace(s[i]) then SpaceRunEnd(s, i + 1) else i
  }

  /** Where the run of whitespace that ends at `j` starts: every position from the
      result up to `j` holds whitespace, and the one before it does not. */
  function SpaceRunStart(s: string, j: nat): (i: nat)
    requires j <= |s|
    ensures i <= j
    ensures forall k :: i <= k < j ==> IsSpace(s[k])
    ensures 0 < i ==> !IsSpace(s[i - 1])
  {
    if 0 < j && IsSpace(s[j - 1]) then SpaceRunStart(s, j - 1) else j
  }

  /** `s.strip()`: the text between the leading and the trailing whitespace. It is
      empty exactly when `s` is blank, and otherwise neither starts nor ends with
      whitespace. */
  function Strip(s: string): (r: string)
    ensures |r| <= |s|
    ensures r == [] <==> IsBlank(s)
    ensures r != [] ==> !IsSpace(r[0]) && !IsSpace(r[|r| - 1])
  {
    var start := SpaceRunEnd(s, 0);
    if start == |s| then []
    else
      var end := SpaceRunStart(s, |s|);
      assert start < end;
      s[start..end]
  }

  /** The stripped string is the part of `s` between a whitespace prefix and a
      whitespace suffix. */
  lemma StripIsCore(s: string)
    ensures var r := Strip(s);
      exists i :: 0 <= i <= i + |r| <= |s|
        && r == s[i..i + |r|] && IsBlank(s[..i]) && IsBlank(s[i + |r|..])
  {
    var start := SpaceRunEnd(s, 0);
    if start == |s| {
      assert s[..start] == s;
      assert IsBlank(s[..|s|]);
    } else {
      var end := SpaceRunStart(s, |s|);
      assert start < end;
      assert Strip(s) == s[start..end];
      assert IsBlank(s[..start]);
      assert IsBlank(s[end..]);
    }
  }
}
