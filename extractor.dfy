/**
 * The payload extraction of `_fetch_json_data`: the search
 *   re.search(r"var ALLOCATION_STATUS = (\{.*\});", text, re.DOTALL)
 * and its first group.  With DOTALL, `.` matches every character, so a match
 * is the anchor `var ALLOCATION_STATUS = {`, any text, then `};`.  `re.search`
 * takes the leftmost start at which the pattern matches, and the greedy `.*`
 * there takes the longest match, i.e. the last `};` after the brace.
 */
module Extractor {
  import opened Wrappers

  /** The literal text in front of the captured object. */
  const Prefix: string := "var ALLOCATION_STATUS = "

  /** The prefix and the `\{` that opens the capture. */
  const Anchor: string := Prefix + "{"

  predicate OccursAt(text: string, pat: string, k: nat) {
    k + |pat| <= |text| && text[k..k + |pat|] == pat
  }

  /** `\};` matches at `j`: a closing brace immediately followed by a semicolon. */
  predicate ClosesAt(text: string, j: nat) {
    j + 1 < |text| && text[j] == '}' && text[j + 1] == ';'
  }

  /**
   * The pattern matches `text[start..close + 2]`: the anchor at `start`, `.*`
   * over `text[start + |Anchor|..close]`, and `};` at `close`.
   */
  predicate MatchSpan(text: string, start: nat, close: nat) {
    OccursAt(text, Anchor, start) && start + |Anchor| <= close && ClosesAt(text, close)
  }

  /** The first occurrence of `pat` in `text` at or after `from`. */
  function FindFrom(text: string, pat: string, from: nat): (r: Option<nat>)
    decreases |text| - from
    ensures r.Some? ==> from <= r.value && OccursAt(text, pat, r.value)
    ensures r.Some? ==> forall k :: from <= k < r.value ==> !OccursAt(text, pat, k)
    ensures r.None? ==> forall k :: from <= k ==> !OccursAt(text, pat, k)
  {
    if from + |pat| > |text| then None
    else if text[from..from + |pat|] == pat then Some(from)
    else FindFrom(text, pat, from + 1)
  }

  /** The last position `j` in `[lo, hi)` at which `};` matches. */
  function LastCloseBelow(text: string, lo: nat, hi: nat): (r: Option<nat>)
    decreases hi
    ensures r.Some? ==> lo <= r.value < hi && ClosesAt(text, r.value)
    ensures r.Some? ==> forall j :: r.value < j < hi ==> !ClosesAt(text, j)
    ensures r.None? ==> forall j :: lo <= j < hi ==> !ClosesAt(text, j)
  {
    if hi <= lo then None
    else if ClosesAt(text, hi - 1) then Some(hi - 1)
    else LastCloseBelow(text, lo, hi - 1)
  }

  /** Where a match starts and where its closing `};` stands. */
  datatype Span = Span(start: nat, close: nat)

  /**
   * `re.search`: the leftmost start at which the pattern matches, and at that
   * start the longest match.  None exactly when the pattern matches nowhere.
   */
  function Search(text: string): (r: Option<Span>)
    ensures r.None? <==> forall i: nat, j: nat :: !MatchSpan(text, i, j)
    ensures r.Some? ==> MatchSpan(text, r.value.start, r.value.close)
    ensures r.Some? ==> forall i: nat, j: nat :: i < r.value.start ==> !MatchSpan(text, i, j)
    ensures r.Some? ==> forall j: nat :: r.value.close < j ==> !MatchSpan(text, r.value.start, j)
  {
    match FindFrom(text, Anchor, 0)
    case None => None
    case Some(i) =>
      match LastCloseBelow(text, i + |Anchor|, |text|)
      case None => None
      case Some(j) =>
        assert MatchSpan(text, i, j);
        Some(Span(i, j))
  }

  /**
   * `match.group(1)`: from the anchor's brace through the closing brace of the
   * match, or None when there is no match.
   */
  function ExtractPayload(text: string): (r: Option<string>)
    ensures r.None? <==> forall i: nat, j: nat :: !MatchSpan(text, i, j)
    ensures r.Some? ==> |r.value| >= 2 && r.value[0] == '{' && r.value[|r.value| - 1] == '}'
    ensures r.Some? ==>
      var m := Search(text).value;
      && m.start + |Prefix| < m.close < |text| - 1
      && r.value == text[m.start + |Prefix|..m.close + 1]
      && text[m.close + 1] == ';'
  {
    match Search(text)
    case None => None
    case Some(m) =>
      assert text[m.start..m.start + |Anchor|] == Anchor;
      assert text[m.start + |Prefix|] == Anchor[|Prefix|];
      Some(text[m.start + |Prefix|..m.close + 1])
  }

  /**
   * A match that nothing before starts and that no later `};` extends is the
   * one `ExtractPayload` captures.
   */
  lemma PayloadOfMatch(text: string, start: nat, close: nat)
    requires MatchSpan(text, start, close)
    requires forall k: nat :: k < start ==> !OccursAt(text, Anchor, k)
    requires forall j: nat :: close < j ==> !ClosesAt(text, j)
    ensures ExtractPayload(text) == Some(text[start + |Prefix|..close + 1])
  {
    assert Search(text).Some?;
    var m := Search(text).value;
    assert MatchSpan(text, m.start, m.close);
    assert !(start < m.start);
    assert !(m.start < start);
    assert !(close < m.close);
    assert !(m.close < close);
  }

  /** The embedded assignment is a match, and its capture is the literal. */
  lemma EmbeddedMatch(pre: string, lit: string, post: string)
    requires |lit| >= 1 && lit[0] == '{' && lit[|lit| - 1] == '}'
    ensures
      var text := pre + Prefix + lit + ";" + post;
      var close := |pre| + |Prefix| + |lit| - 1;
      && MatchSpan(text, |pre|, close)
      && text[|pre| + |Prefix|..close + 1] == lit
  {
    var text := pre + Prefix + lit + ";" + post;
    var start := |pre|;
    var close := |pre| + |Prefix| + |lit| - 1;
    var tail := lit + ";" + post;
    assert text == pre + Prefix + tail;
    assert lit[0] != lit[|lit| - 1];
    assert text[start..start + |Prefix|] == Prefix;
    assert text[start + |Prefix|] == tail[0] == '{';
    assert text[start..start + |Anchor|] == Anchor;
    assert text[close] == tail[|lit| - 1] == '}';
    assert text[close + 1] == tail[|lit|] == ';';
    assert text[start + |Prefix|..close + 1] == tail[..|lit|] == lit;
  }

  /** After the embedded assignment's `};` no other `};` follows when `post` has none. */
  lemma NoCloseAfterEmbedded(pre: string, lit: string, post: string)
    requires forall k :: 0 <= k < |post| - 1 ==> !(post[k] == '}' && post[k + 1] == ';')
    ensures
      var text := pre + Prefix + lit + ";" + post;
      forall j: nat :: |pre| + |Prefix| + |lit| - 1 < j ==> !ClosesAt(text, j)
  {
    var text := pre + Prefix + lit + ";" + post;
    var semi := |pre| + |Prefix| + |lit|;
    assert text == (pre + Prefix + lit + ";") + post;
    forall j: nat | semi - 1 < j
      ensures !ClosesAt(text, j)
    {
      if j == semi {
        assert text[j] == ';';
      } else if j + 1 < |text| {
        var k := j - (semi + 1);
        assert text[j] == post[k] && text[j + 1] == post[k + 1];
      }
    }
  }

  /**
   * An assignment `var ALLOCATION_STATUS = <lit>;` embedded in the text yields
   * exactly `lit`, provided nothing before it already starts a match and no
   * `};` follows it.
   */
  lemma EmbeddedPayloadExtracted(pre: string, lit: string, post: string)
    requires |lit| >= 1 && lit[0] == '{' && lit[|lit| - 1] == '}'
    requires forall k: nat :: k < |pre| ==> !OccursAt(pre + Prefix + lit + ";" + post, Anchor, k)
    requires forall k :: 0 <= k < |post| - 1 ==> !(post[k] == '}' && post[k + 1] == ';')
    ensures ExtractPayload(pre + Prefix + lit + ";" + post) == Some(lit)
  {
    EmbeddedMatch(pre, lit, post);
    NoCloseAfterEmbedded(pre, lit, post);
    PayloadOfMatch(pre + Prefix + lit + ";" + post, |pre|, |pre| + |Prefix| + |lit| - 1);
  }
}
