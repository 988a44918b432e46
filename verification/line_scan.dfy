/**
 * The loop the resume heuristics share: go through the lines of a text and keep, in order, a
 * rendering of every line whose probed form (lower-cased, stripped, ...) mentions one of a list
 * of keywords as a substring — Python's `if any(k in probe(line) for k in keywords): out.append(render(line))`.
 */
module LineScan {
  import opened Wrappers
  import opened Text

  /** `any(k in text for k in keywords)` */
  predicate MentionsAny(text: string, keywords: seq<string>) {
    exists k :: 0 <= k < |keywords| && Contains(text, keywords[k])
  }

  /** The renderings of the lines whose probe mentions a keyword, in line order. */
  function SelectLines<T>(lines: seq<string>, keywords: seq<string>, probe: string -> string, render: string -> T)
    : (selected: seq<T>)
    ensures |selected| <= |lines|
  {
    if |lines| == 0 then []
    else
      var last := lines[|lines| - 1];
      SelectLines(lines[..|lines| - 1], keywords, probe, render)
        + (if MentionsAny(probe(last), keywords) then [render(last)] else [])
  }

  /** Selecting from one more line adds that line's rendering when its probe mentions a keyword. */
  lemma SelectLinesSnoc<T>(lines: seq<string>, i: nat, keywords: seq<string>, probe: string -> string, render: string -> T)
    requires i < |lines|
    ensures SelectLines(lines[..i + 1], keywords, probe, render)
      == SelectLines(lines[..i], keywords, probe, render) + (if MentionsAny(probe(lines[i]), keywords) then [render(lines[i])] else [])
  {
    assert lines[..i + 1][..i] == lines[..i];
  }

  /** The loop itself. */
  method CollectLines<T>(lines: seq<string>, keywords: seq<string>, probe: string -> string, render: string -> T)
    returns (selected: seq<T>)
    ensures selected == SelectLines(lines, keywords, probe, render)
  {
    selected := [];
    for i := 0 to |lines|
      invariant selected == SelectLines(lines[..i], keywords, probe, render)
    {
      assert lines[..i + 1][..i] == lines[..i];
      if MentionsAny(probe(lines[i]), keywords) {
        selected := selected + [render(lines[i])];
      }
    }
    assert lines[..|lines|] == lines;
  }

  /** A rendering is selected exactly when it comes from a line whose probe mentions a keyword. */
  lemma {:induction false} SelectLinesMembers<T>(lines: seq<string>, keywords: seq<string>, probe: string -> string, render: string -> T)
    ensures forall x :: x in SelectLines(lines, keywords, probe, render) <==>
      exists k :: 0 <= k < |lines| && MentionsAny(probe(lines[k]), keywords) && x == render(lines[k])
  {
    if |lines| > 0 {
      var init := lines[..|lines| - 1];
      SelectLinesMembers(init, keywords, probe, render);
      assert forall k :: 0 <= k < |init| ==> init[k] == lines[k];
    }
  }

  /** One entry per selected line: a text whose every line mentions a keyword gives one entry per line. */
  lemma {:induction false} SelectAllLines<T>(lines: seq<string>, keywords: seq<string>, probe: string -> string, render: string -> T)
    requires forall k :: 0 <= k < |lines| ==> MentionsAny(probe(lines[k]), keywords)
    ensures |SelectLines(lines, keywords, probe, render)| == |lines|
  {
    if |lines| > 0 {
      SelectAllLines(lines[..|lines| - 1], keywords, probe, render);
    }
  }

  /** The lines themselves whose probe mentions a keyword. */
  function KeywordLines(lines: seq<string>, keywords: seq<string>, probe: string -> string): (picked: seq<string>)
    ensures |picked| <= |lines|
  {
    SelectLines(lines, keywords, probe, (l: string) => l)
  }

  /**
   * Selecting renders the keyword lines one by one, in order: the i-th entry is the rendering of
   * the i-th keyword line, and the keyword lines are a subsequence of the text's lines.
   */
  lemma {:induction false} SelectLinesRenders<T>(lines: seq<string>, keywords: seq<string>, probe: string -> string, render: string -> T)
    ensures var picked := KeywordLines(lines, keywords, probe);
      && |SelectLines(lines, keywords, probe, render)| == |picked|
      && (forall i :: 0 <= i < |picked| ==> SelectLines(lines, keywords, probe, render)[i] == render(picked[i]))
      && IsSubsequence(picked, lines)
  {
    if |lines| > 0 {
      var init := lines[..|lines| - 1];
      var last := lines[|lines| - 1];
      SelectLinesRenders(init, keywords, probe, render);
      assert lines == init + [last];
      SubsequenceSnoc(KeywordLines(init, keywords, probe), init, last, MentionsAny(probe(last), keywords));
    }
  }
}
