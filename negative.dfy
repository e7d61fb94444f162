/**
 * Negative-prompt extraction: the action searches the prompt with the
 * case-insensitive pattern `negative:?\s*(.*)` and strips the captured group.
 * The search is written out here as the first case-insensitive occurrence
 * of "negative", an optional colon, a greedy run of whitespace and the rest
 * of that line (`.` does not match a newline).
 */
module NegativePrompt {
  import opened Wrappers
  import opened Text

  const Marker := "negative"

  /**
   * `c` matches the lower-case ASCII letter `lower` under Python's
   * IGNORECASE for `str` patterns: either case, and for `i` also the dotless
   * small i (U+0131) and the capital I with dot above (U+0130).
   */
  predicate FoldsTo(c: char, lower: char)
    requires 'a' <= lower <= 'z'
  {
    || c == lower
    || c as int == lower as int - 32
    || (lower == 'i' && (c == '\U{130}' || c == '\U{131}'))
  }

  /** "negative", in any case, starts at index `k` of `s`. */
  predicate MarkerAt(s: string, k: nat) {
    k + |Marker| <= |s| && forall j :: 0 <= j < |Marker| ==> FoldsTo(s[k + j], Marker[j])
  }

  /** The first occurrence of the marker at or after `from`. */
  function FirstMarker(s: string, from: nat): (r: Option<nat>)
    decreases |s| - from
    ensures r.Some? ==> from <= r.value && MarkerAt(s, r.value)
    ensures r.Some? ==> forall j :: from <= j < r.value ==> !MarkerAt(s, j)
    ensures r.None? <==> forall j: nat :: from <= j ==> !MarkerAt(s, j)
  {
    if from + |Marker| > |s| then None
    else if MarkerAt(s, from) then Some(from)
    else FirstMarker(s, from + 1)
  }

  /** Where `:?` leaves the match after a marker at `k`: past one colon, if there is one. */
  function AfterColon(s: string, k: nat): (i: nat)
    requires MarkerAt(s, k)
    ensures k + |Marker| <= i <= |s|
    ensures i == k + |Marker| + 1 <==> (k + |Marker| < |s| && s[k + |Marker|] == ':')
  {
    var m := k + |Marker|;
    if m < |s| && s[m] == ':' then m + 1 else m
  }

  /** The first index at or after `i` that holds a newline, or `|s|`. */
  function LineEnd(s: string, i: nat): (j: nat)
    requires i <= |s|
    decreases |s| - i
    ensures i <= j <= |s|
    ensures forall k :: i <= k < j ==> s[k] != '\n'
    ensures j < |s| ==> s[j] == '\n'
  {
    if i == |s| || s[i] == '\n' then i else LineEnd(s, i + 1)
  }

  /**
   * The search succeeds with its match starting at `k` and its group
   * spanning `s[start..end]`: `k` is the first occurrence of the marker, the
   * whitespace after the optional colon is taken greedily (so the group
   * starts at a non-whitespace character or at the end), and the group runs
   * to the next newline or the end.
   */
  ghost predicate NegativeClause(s: string, k: nat, start: nat, end: nat) {
    && MarkerAt(s, k)
    && (forall j :: 0 <= j < k ==> !MarkerAt(s, j))
    && AfterColon(s, k) <= start <= end <= |s|
    && (forall j :: AfterColon(s, k) <= j < start ==> IsSpace(s[j]))
    && (start < |s| ==> !IsSpace(s[start]))
    && (forall j :: start <= j < end ==> s[j] != '\n')
    && (end < |s| ==> s[end] == '\n')
  }

  /** The value the action holds in `negmatch_string`: the stripped group, or None. */
  function ExtractNegative(prompt: string): (r: Option<string>)
    ensures r.None? <==> forall k: nat :: !MarkerAt(prompt, k)
    ensures r.Some? ==> exists k: nat, start: nat, end: nat ::
      NegativeClause(prompt, k, start, end) && r.value == Strip(prompt[start..end])
  {
    match FirstMarker(prompt, 0)
    case None => None
    case Some(k) =>
      var start := SkipSpaces(prompt, AfterColon(prompt, k));
      var end := LineEnd(prompt, start);
      assert NegativeClause(prompt, k, start, end);
      Some(Strip(prompt[start..end]))
  }

  /** The extracted text is one line, with no whitespace at either end. */
  lemma ExtractedTextShape(prompt: string)
    ensures var r := ExtractNegative(prompt);
      r.Some? ==> '\n' !in r.value && (r.value != [] ==> !IsSpace(r.value[0]) && !IsSpace(r.value[|r.value| - 1]))
  {
    var m := FirstMarker(prompt, 0);
    if m.Some? {
      var start := SkipSpaces(prompt, AfterColon(prompt, m.value));
      var end := LineEnd(prompt, start);
      assert '\n' !in prompt[start..end];
      StripShape(prompt[start..end], '\n');
    }
  }

  /** Conversely, the clause the pattern matches determines the extracted text. */
  lemma NegativeClauseDeterminesResult(s: string, k: nat, start: nat, end: nat)
    requires NegativeClause(s, k, start, end)
    ensures ExtractNegative(s) == Some(Strip(s[start..end]))
  {
    assert FirstMarker(s, 0) == Some(k);
    assert SkipSpaces(s, AfterColon(s, k)) == start;
    assert LineEnd(s, start) == end;
  }

  /** The clause the pattern matches in `pre + "Negative: " + clause`. */
  lemma TrailingClauseMatches(pre: string, clause: string)
    requires forall k :: 0 <= k < |pre| ==> pre[k] != 'n' && pre[k] != 'N'
    requires '\n' !in clause
    requires clause == [] || !IsSpace(clause[0])
    ensures NegativeClause(pre + "Negative: " + clause, |pre|, |pre| + 10, |pre| + 10 + |clause|)
  {
    var s := pre + "Negative: " + clause;
    var k := |pre|;
    assert s[k..k + 10] == "Negative: ";
    assert MarkerAt(s, k);
    forall j | 0 <= j < k ensures !MarkerAt(s, j) {
      assert s[j] == pre[j];
      assert !FoldsTo(s[j], Marker[0]);
    }
    assert s[k + 10..] == clause;
    assert AfterColon(s, k) == k + 9;
  }

  /**
   * A prompt that ends in "Negative: " and a one-line clause, with no "n"
   * before it, yields that clause.
   */
  lemma ExtractTrailingClause(pre: string, clause: string)
    requires forall k :: 0 <= k < |pre| ==> pre[k] != 'n' && pre[k] != 'N'
    requires '\n' !in clause
    requires clause == [] || (!IsSpace(clause[0]) && !IsSpace(clause[|clause| - 1]))
    ensures ExtractNegative(pre + "Negative: " + clause) == Some(clause)
  {
    var s := pre + "Negative: " + clause;
    var k := |pre|;
    TrailingClauseMatches(pre, clause);
    NegativeClauseDeterminesResult(s, k, k + 10, |s|);
    assert s[k + 10..|s|] == clause;
    StripTrimmed(clause);
  }

  /** The prompt "A cat. Negative: blurry", whose clause comes last, yields "blurry". */
  lemma ExtractExamplePrompt()
    ensures ExtractNegative("A cat. Negative: blurry") == Some("blurry")
  {
    assert "A cat. Negative: blurry" == "A cat. " + "Negative: " + "blurry";
    ExtractTrailingClause("A cat. ", "blurry");
  }

  /** Without the word "negative" in any case, nothing is extracted. */
  lemma ExtractWithoutMarker(s: string)
    requires forall k :: 0 <= k < |s| ==> s[k] != 'n' && s[k] != 'N'
    ensures ExtractNegative(s) == None
  {
    forall k: nat ensures !MarkerAt(s, k) {
      if k + |Marker| <= |s| { assert !FoldsTo(s[k], Marker[0]); }
    }
  }
}
