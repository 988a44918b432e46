/**
 * Python's `re.findall` for the one pattern shape the skill scanners use:
 * `\b(w1|w2|...|wn)\b`, a word boundary, one of several literal alternatives, a word boundary.
 * The scan runs left to right; at each position the alternatives are tried in order and the
 * first one whose both ends sit on a word boundary wins; the scan resumes after the match.
 * Word characters are the ASCII letters, digits and `_`.
 */
module WordPatterns {
  import opened Wrappers
  import opened Text

  predicate IsWordChar(c: char) {
    IsLetter(c) || IsDigit(c) || c == '_'
  }

  /** `\b` at position `p`: exactly one of the characters around `p` is a word character. */
  predicate Boundary(s: string, p: int) {
    0 <= p <= |s| && ((p > 0 && IsWordChar(s[p - 1])) != (p < |s| && IsWordChar(s[p])))
  }

  /** `w` occurs at `p` with a word boundary on either side. */
  predicate WholeWordAt(s: string, w: string, p: int) {
    OccursAt(s, w, p) && Boundary(s, p) && Boundary(s, p + |w|)
  }

  /** Every alternative is non-empty, as in every pattern of the source. */
  predicate NonEmptyAlternatives(alts: seq<string>) {
    forall k :: 0 <= k < |alts| ==> |alts[k]| > 0
  }

  /** No alternative stands as a whole word anywhere at or after `p`. */
  predicate NoWholeWordFrom(s: string, alts: seq<string>, p: int) {
    forall q, k :: p <= q <= |s| && 0 <= k < |alts| ==> !WholeWordAt(s, alts[k], q)
  }

  /** Every alternative of every pattern is non-empty. */
  predicate AllNonEmpty(patterns: seq<seq<string>>) {
    forall i :: 0 <= i < |patterns| ==> NonEmptyAlternatives(patterns[i])
  }

  /** No alternative of any of the patterns stands as a whole word in `s`. */
  predicate NoWholeWord(s: string, patterns: seq<seq<string>>) {
    forall i :: 0 <= i < |patterns| ==> NoWholeWordFrom(s, patterns[i], 0)
  }

  lemma NoWholeWordSnoc(s: string, patterns: seq<seq<string>>)
    requires |patterns| > 0
    ensures NoWholeWord(s, patterns) <==>
      NoWholeWord(s, patterns[..|patterns| - 1]) && NoWholeWordFrom(s, patterns[|patterns| - 1], 0)
  {
    var init := patterns[..|patterns| - 1];
    assert forall i :: 0 <= i < |init| ==> init[i] == patterns[i];
  }

  /** The first alternative, in pattern order, that matches as a whole word at `p`. */
  function FirstAlternative(s: string, alts: seq<string>, p: int): (r: Option<string>)
    ensures r.Some? ==> r.value in alts && WholeWordAt(s, r.value, p)
    ensures r.None? ==> forall k :: 0 <= k < |alts| ==> !WholeWordAt(s, alts[k], p)
  {
    if |alts| == 0 then None
    else if WholeWordAt(s, alts[0], p) then Some(alts[0])
    else
      var r := FirstAlternative(s, alts[1..], p);
      assert forall k :: 1 <= k < |alts| ==> alts[k] == alts[1..][k - 1];
      r
  }

  /**
   * `re.findall(r'\b(alts)\b', s[p..])` with positions counted in `s`. A whole word that
   * overlaps an earlier match is skipped, as the scan resumes after each match.
   */
  function FindAll(s: string, alts: seq<string>, p: nat): (hits: seq<string>)
    requires NonEmptyAlternatives(alts)
    ensures forall k :: 0 <= k < |hits| ==> hits[k] in alts
    decreases |s| + 1 - p
  {
    if p > |s| then []
    else match FirstAlternative(s, alts, p)
      case Some(w) =>
        assert |w| > 0;
        [w] + FindAll(s, alts, p + |w|)
      case None => FindAll(s, alts, p + 1)
  }

  /** The scan finds nothing exactly when no alternative stands as a whole word at or after `p`. */
  lemma {:induction false} FindAllNone(s: string, alts: seq<string>, p: nat)
    requires NonEmptyAlternatives(alts)
    ensures |FindAll(s, alts, p)| == 0 <==> NoWholeWordFrom(s, alts, p)
    decreases |s| + 1 - p
  {
    if p <= |s| {
      match FirstAlternative(s, alts, p)
      case Some(w) =>
        var k :| 0 <= k < |alts| && alts[k] == w;
        assert WholeWordAt(s, alts[k], p);
      case None =>
        FindAllNone(s, alts, p + 1);
        if NoWholeWordFrom(s, alts, p + 1) {
          forall q, k | p <= q <= |s| && 0 <= k < |alts|
            ensures !WholeWordAt(s, alts[k], q)
          {
            if q == p {
              assert FirstAlternative(s, alts, p).None?;
            }
          }
        }
    }
  }

  /**
   * The first hit is the first alternative, in pattern order, at the leftmost position at or
   * after `p` where some alternative stands as a whole word.
   */
  lemma {:induction false} FindAllFirstHit(s: string, alts: seq<string>, p: nat, q: nat)
    requires NonEmptyAlternatives(alts) && p <= q
    requires forall r :: p <= r < q ==> FirstAlternative(s, alts, r).None?
    requires FirstAlternative(s, alts, q).Some?
    ensures |FindAll(s, alts, p)| > 0 && FindAll(s, alts, p)[0] == FirstAlternative(s, alts, q).value
    decreases q - p
  {
    var w := FirstAlternative(s, alts, q).value;
    assert OccursAt(s, w, q);
    if p < q {
      assert FirstAlternative(s, alts, p).None?;
      assert FindAll(s, alts, p) == FindAll(s, alts, p + 1);
      FindAllFirstHit(s, alts, p + 1, q);
    }
  }

  /** Every reported word occurs in the text as a whole word, at or after the starting position. */
  lemma {:induction false} FindAllSound(s: string, alts: seq<string>, p: nat, k: nat)
    requires NonEmptyAlternatives(alts)
    requires k < |FindAll(s, alts, p)|
    ensures exists q :: p <= q && WholeWordAt(s, FindAll(s, alts, p)[k], q)
    decreases |s| + 1 - p
  {
    var hits := FindAll(s, alts, p);
    match FirstAlternative(s, alts, p)
    case Some(w) =>
      assert |w| > 0;
      assert hits == [w] + FindAll(s, alts, p + |w|);
      if k > 0 {
        FindAllSound(s, alts, p + |w|, k - 1);
        assert hits[k] == FindAll(s, alts, p + |w|)[k - 1];
      } else {
        assert WholeWordAt(s, hits[k], p);
      }
    case None =>
      assert hits == FindAll(s, alts, p + 1);
      FindAllSound(s, alts, p + 1, k);
  }

  /** A word followed directly by a word character is not a whole-word match there. */
  lemma NoMatchBeforeWordChar(s: string, w: string, p: int)
    requires |w| > 0 && IsWordChar(w[|w| - 1]) && OccursAt(s, w, p)
    requires p + |w| < |s| && IsWordChar(s[p + |w|])
    ensures !WholeWordAt(s, w, p)
  {
    assert s[p + |w| - 1] == w[|w| - 1];
  }

  /** "java" never stands as a whole word inside "javascript". */
  lemma NoJavaWordInJavascript(q: int)
    ensures !WholeWordAt("javascript", "java", q)
  {
    var s := "javascript";
    if OccursAt(s, "java", q) {
      assert s[q] == s[q..q + 4][0] == 'j';
      assert q == 0;
      NoMatchBeforeWordChar(s, "java", 0);
    }
  }

  /**
   * `\b` around "c++": the last '+' is not a word character, so a match needs a word character
   * right after it ("c++ " and a final "c++" are never matched).
   */
  lemma CppNeedsWordCharAfter(s: string, p: int)
    requires WholeWordAt(s, "c++", p)
    ensures p + 3 < |s| && IsWordChar(s[p + 3])
  {
    assert s[p + 2] == '+';
  }
}
