/**
 * The few string operations of Python that the image action relies on:
 * `str.isspace`, `str.strip`, `in` on strings, `str.split(sep)[0]` and
 * the f-string rendering of an optional string.
 */
module Text {
  import opened Wrappers

  /** Python's `str.isspace` for one character; also what `\s` matches in a `str` pattern. */
  predicate IsSpace(c: char) {
    || ('\t' <= c <= '\r')
    || ('\U{1C}' <= c <= '\U{1F}')
    || c == ' '
    || c == '\U{85}'
    || c == '\U{A0}'
    || c == '\U{1680}'
    || ('\U{2000}' <= c <= '\U{200A}')
    || c == '\U{2028}'
    || c == '\U{2029}'
    || c == '\U{202F}'
    || c == '\U{205F}'
    || c == '\U{3000}'
  }

  /** The first index at or after `from` that holds `c`. */
  function FindChar(s: string, c: char, from: nat): (r: Option<nat>)
    requires from <= |s|
    decreases |s| - from
    ensures r.Some? ==> from <= r.value < |s| && s[r.value] == c
    ensures r.Some? ==> forall j :: from <= j < r.value ==> s[j] != c
    ensures r.None? <==> forall j :: from <= j < |s| ==> s[j] != c
  {
    if from == |s| then None
    else if s[from] == c then Some(from)
    else FindChar(s, c, from + 1)
  }

  lemma FindCharAtFirst(a: string, c: char, b: string)
    requires c !in a
    ensures FindChar(a + [c] + b, c, 0) == Some(|a|)
  {
    var s := a + [c] + b;
    assert s[|a|] == c;
  }

  /** Python's `s.split(c)[0]`: everything before the first `c`, or all of `s`. */
  function BeforeFirst(s: string, c: char): (r: string)
    ensures r <= s
    ensures c !in r
    ensures |r| < |s| ==> s[|r|] == c
  {
    match FindChar(s, c, 0)
    case Some(k) => s[..k]
    case None => s
  }

  lemma BeforeFirstStopsAt(a: string, c: char, b: string)
    requires c !in a
    ensures BeforeFirst(a + [c] + b, c) == a
  {
    FindCharAtFirst(a, c, b);
    assert (a + [c] + b)[..|a|] == a;
  }

  /** Python's `sub in s` for strings. */
  predicate Contains(s: string, sub: string)
    decreases |s|
  {
    |sub| <= |s| && (s[..|sub|] == sub || Contains(s[1..], sub))
  }

  /** A string lacking one of the letters of `sub` does not contain it. */
  lemma WithoutLetterNoContains(s: string, sub: string, k: nat)
    requires k < |sub| && sub[k] !in s
    ensures !Contains(s, sub)
  {
    if Contains(s, sub) {
      var i := ContainsSome(s, sub);
    }
  }

  /** An occurrence of `sub` at position `i` makes `Contains` hold. */
  lemma ContainsAt(s: string, sub: string, i: nat)
    requires i + |sub| <= |s| && s[i..i + |sub|] == sub
    ensures Contains(s, sub)
    decreases i
  {
    if i > 0 {
      assert s[1..][i - 1..i - 1 + |sub|] == sub;
      ContainsAt(s[1..], sub, i - 1);
    }
  }

  /** Conversely, `Contains` holds only with an occurrence, whose position is returned. */
  lemma ContainsSome(s: string, sub: string) returns (i: nat)
    requires Contains(s, sub)
    ensures i + |sub| <= |s| && s[i..i + |sub|] == sub
    decreases |s|
  {
    if s[..|sub|] == sub {
      i := 0;
    } else {
      var j := ContainsSome(s[1..], sub);
      i := j + 1;
      assert s[i..i + |sub|] == s[1..][j..j + |sub|];
    }
  }

  /** An f-string or `str()` of an `Optional[str]`: the text, or the literal "None". */
  function OptionText(o: Option<string>): (r: string)
    ensures o.None? ==> r == "None"
    ensures o.Some? ==> r == o.value
  {
    match o
    case None => "None"
    case Some(t) => t
  }

  /** The first index at or after `i` that does not hold whitespace, or `|s|`. */
  function SkipSpaces(s: string, i: nat): (j: nat)
    requires i <= |s|
    decreases |s| - i
    ensures i <= j <= |s|
    ensures forall k :: i <= k < j ==> IsSpace(s[k])
    ensures j < |s| ==> !IsSpace(s[j])
  {
    if i == |s| || !IsSpace(s[i]) then i else SkipSpaces(s, i + 1)
  }

  /** Walking back from `j` to no lower than `lo`, the end of the last non-whitespace character. */
  function TrailingStart(s: string, lo: nat, j: nat): (r: nat)
    requires lo <= j <= |s|
    decreases j
    ensures lo <= r <= j
    ensures forall k :: r <= k < j ==> IsSpace(s[k])
    ensures r > lo ==> !IsSpace(s[r - 1])
  {
    if j == lo || !IsSpace(s[j - 1]) then j else TrailingStart(s, lo, j - 1)
  }

  /** `s[i..j]` is `s` with all leading and all trailing whitespace removed. */
  ghost predicate TrimmedAt(s: string, i: nat, j: nat) {
    && i <= j <= |s|
    && (forall k :: 0 <= k < i ==> IsSpace(s[k]))
    && (forall k :: j <= k < |s| ==> IsSpace(s[k]))
    && (i < j ==> !IsSpace(s[i]) && !IsSpace(s[j - 1]))
  }

  /** Python's `str.strip()` with no argument. */
  function Strip(s: string): (r: string)
    ensures exists i: nat, j: nat :: TrimmedAt(s, i, j) && r == s[i..j]
  {
    var i := SkipSpaces(s, 0);
    var j := TrailingStart(s, i, |s|);
    assert TrimmedAt(s, i, j);
    s[i..j]
  }

  /** Only one slice of `s` is its stripped form. */
  lemma TrimmedAtUnique(s: string, i: nat, j: nat, i': nat, j': nat)
    requires TrimmedAt(s, i, j) && TrimmedAt(s, i', j')
    ensures s[i..j] == s[i'..j']
  {
  }

  /** A string with nothing to strip at either end is its own stripped form. */
  lemma StripTrimmed(s: string)
    requires s == [] || (!IsSpace(s[0]) && !IsSpace(s[|s| - 1]))
    ensures Strip(s) == s
  {
    assert TrimmedAt(s, 0, |s|);
    var i: nat, j: nat :| TrimmedAt(s, i, j) && Strip(s) == s[i..j];
    TrimmedAtUnique(s, i, j, 0, |s|);
  }

  /** The stripped form is a slice: it holds no character the string lacks, and it neither starts nor ends with whitespace. */
  lemma StripShape(s: string, c: char)
    ensures c !in s ==> c !in Strip(s)
    ensures Strip(s) != [] ==> !IsSpace(Strip(s)[0]) && !IsSpace(Strip(s)[|Strip(s)| - 1])
  {
    var r := Strip(s);
    var i: nat, j: nat :| TrimmedAt(s, i, j) && r == s[i..j];
    assert forall k :: 0 <= k < j - i ==> r[k] == s[i + k];
  }
}
