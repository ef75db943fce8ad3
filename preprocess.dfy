/**
 * Classification of one input line before it reaches the motion engine.
 *
 * The line is stripped of trailing whitespace (`raw`, the text echoed to the
 * output) and paired with the text the motion-code search looks at
 * (`code`). The program finds `code` with a search for the regular expression
 * `(\s*);\s*` and keeps its first group, the whitespace just before the
 * first comment marker, when that group is not empty; otherwise `code` is the
 * whole of `raw`.
 */
module Preprocess {

  /** Whitespace as the program's byte-string operations see it: space, tab, LF, VT, FF, CR. */
  predicate IsSpace(c: char) {
    c == ' ' || '\t' <= c <= '\r'
  }

  /** `s` without its trailing whitespace. */
  function RStrip(s: string): (r: string)
    ensures |r| <= |s| && r == s[..|r|]
    ensures forall i :: |r| <= i < |s| ==> IsSpace(s[i])
    ensures r == [] || !IsSpace(r[|r| - 1])
    decreases |s|
  {
    if s != [] && IsSpace(s[|s| - 1]) then RStrip(s[..|s| - 1]) else s
  }

  /** The index of the first `c` in `s`, or `|s|` when `s` holds none. */
  function Find(s: string, c: char): (k: nat)
    ensures k <= |s|
    ensures k < |s| ==> s[k] == c
    ensures forall j :: 0 <= j < k ==> s[j] != c
  {
    if s == [] then 0
    else if s[0] == c then 0
    else 1 + Find(s[1..], c)
  }

  /** Where the run of whitespace that ends just before index `k` starts. */
  function RunStart(s: string, k: nat): (i: nat)
    requires k <= |s|
    ensures i <= k
    ensures forall j :: i <= j < k ==> IsSpace(s[j])
    ensures i == 0 || !IsSpace(s[i - 1])
  {
    if k > 0 && IsSpace(s[k - 1]) then RunStart(s, k - 1) else k
  }

  /**
   * The regular expression `(\s*);\s*` matches `s` starting at index `i`
   * with group `s[i..k]`: the greedy whitespace run from `i` ends at `k`,
   * where a ';' follows. (Backing off to a shorter run cannot help, since it
   * would end on whitespace instead of ';'.)
   */
  ghost predicate MatchesAt(s: string, i: int, k: int) {
    0 <= i <= k < |s| && (forall j :: i <= j < k ==> IsSpace(s[j])) && s[k] == ';'
  }

  /** `i` is where a regular-expression search finds its match: the leftmost start that matches. */
  ghost predicate FirstMatch(s: string, i: int, k: int) {
    MatchesAt(s, i, k) && forall i', k' :: i' < i ==> !MatchesAt(s, i', k')
  }

  datatype Classified = Classified(raw: string, code: string)

  /**
   * Splits `line` into the text to echo and the text to classify. The
   * captured group is the whitespace before the marker, not the text before
   * it, so a line with a comment is classified by that whitespace alone.
   */
  function Preprocess(line: string): (r: Classified)
    ensures r.raw == RStrip(line)
    ensures (forall i, k :: !MatchesAt(r.raw, i, k)) ==> r.code == r.raw
    ensures forall i, k :: FirstMatch(r.raw, i, k) ==>
      r.code == if i < k then r.raw[i..k] else r.raw
  {
    var raw := RStrip(line);
    var k := Find(raw, ';');
    if k < |raw| then
      var i := RunStart(raw, k);
      SearchFinds(raw, i, k);
      if i < k then Classified(raw, raw[i..k]) else Classified(raw, raw)
    else
      Classified(raw, raw)
  }

  /**
   * The search for `(\s*);\s*` finds exactly one match: the one whose group
   * is the whitespace run ending at the first ';'.
   */
  lemma SearchFinds(s: string, i: nat, k: nat)
    requires k == Find(s, ';') && k < |s|
    requires i == RunStart(s, k)
    ensures FirstMatch(s, i, k)
    ensures forall i', k' :: FirstMatch(s, i', k') ==> i' == i && k' == k
  {
    assert !IsSpace(';');
    forall i', k' | i' < i
      ensures !MatchesAt(s, i', k')
    {
      if 0 <= i' <= k' < |s| {
        assert k' < k ==> s[k'] != ';';
        assert k' == k ==> i' <= i - 1 < k' && !IsSpace(s[i - 1]);
        assert k < k' ==> i' <= k < k' && !IsSpace(s[k]);
      }
    }
    forall i', k' | FirstMatch(s, i', k')
      ensures i' == i && k' == k
    {
      assert MatchesAt(s, i, k);
    }
  }

  /** A line without a comment marker is classified by all of it. */
  lemma PreprocessWithoutComment(line: string)
    requires ';' !in RStrip(line)
    ensures Preprocess(line) == Classified(RStrip(line), RStrip(line))
  {
    var raw := RStrip(line);
    forall i, k ensures !MatchesAt(raw, i, k) {
      if 0 <= k < |raw| {
        assert raw[k] in raw;
      }
    }
  }

  /**
   * A commented line is classified by the blank before its marker: for
   * "G0 ; up" the code is " ", in which no motion command can be found.
   */
  lemma PreprocessCommented()
    ensures Preprocess("G0 ; up\n") == Classified("G0 ; up", " ")
  {
    var raw := "G0 ; up";
    assert "G0 ; up\n"[..7] == raw;
    assert RStrip(raw) == raw;
    assert raw[1..][1..][1..] == "; up";
    assert Find(raw[1..][1..][1..], ';') == 0;
    assert Find(raw, ';') == 3;
    assert RunStart(raw, 2) == 2;
    assert raw[2..3] == " ";
  }
}
