/**
 * What the client displays of a research result: the query, the number of
 * search results found, one numbered card per source with its cleaned
 * bullets, and the report verbatim.
 */
module Presenter {
  import opened Text
  import opened ResearchTypes

  /**
   * The key-point cleanup regex (a dash at the start, then any whitespace):
   * one leading dash and the whitespace right after it are removed; a bullet
   * not starting with a dash is unchanged.
   */
  function CleanBullet(bullet: string): (cleaned: string)
    ensures !StartsWithDash(bullet) ==> cleaned == bullet
    ensures StartsWithDash(bullet) ==>
              && |cleaned| < |bullet|
              && cleaned == bullet[|bullet| - |cleaned|..]
              && (forall i :: 1 <= i < |bullet| - |cleaned| ==> IsSpace(bullet[i], Js))
              && (cleaned != [] ==> !IsSpace(cleaned[0], Js))
  {
    if StartsWithDash(bullet) then TrimStart(bullet[1..], Js) else bullet
  }

  /**
   * Cleaning is not idempotent: cleaning twice gives the same as cleaning once
   * exactly when the once-cleaned bullet does not start with a dash.
   */
  lemma CleanTwiceIff(bullet: string)
    ensures CleanBullet(CleanBullet(bullet)) == CleanBullet(bullet) <==> !StartsWithDash(CleanBullet(bullet))
  {
  }

  /** `"--x"` cleans to `"-x"` and then to `"x"`. */
  lemma CleanTwiceDiffers()
    ensures CleanBullet("--x") == "-x"
    ensures CleanBullet(CleanBullet("--x")) == "x"
  {
    assert "--x"[1..] == "-x";
    assert LeadingSpaces("-x", Js) == 0;
    assert "-x"[1..] == "x";
    assert LeadingSpaces("x", Js) == 0;
  }

  /** A list marker `"- "` before text that starts with no whitespace is removed exactly. */
  lemma CleanMarker(text: string)
    requires text != [] ==> !IsSpace(text[0], Js)
    ensures CleanBullet("- " + text) == text
  {
    var b := "- " + text;
    assert b[1..] == " " + text;
    assert (" " + text)[1..] == text;
    assert LeadingSpaces(" " + text, Js) == 1;
  }

  /** `summary.map(...)`: every bullet cleaned, in order. */
  function CleanAll(bullets: seq<string>): (cleaned: seq<string>)
    ensures |cleaned| == |bullets|
    ensures forall j :: 0 <= j < |bullets| ==> cleaned[j] == CleanBullet(bullets[j])
    decreases |bullets|
  {
    if bullets == [] then [] else [CleanBullet(bullets[0])] + CleanAll(bullets[1..])
  }

  /** One source card: its number, title, link and cleaned key points. */
  datatype Card = Card(number: nat, title: string, url: string, keyPoints: seq<string>)

  /** The rendered result panels. */
  datatype View = View(query: string, found: nat, cards: seq<Card>, report: string)

  /** `sources.map((source, idx) => ...)`, with `idx + 1` shown as the number. */
  function Cards(sources: seq<Source>, first: nat): (cards: seq<Card>)
    ensures |cards| == |sources|
    ensures forall i :: 0 <= i < |sources| ==>
              cards[i] == Card(first + i, sources[i].title, sources[i].url, CleanAll(sources[i].summary))
    decreases |sources|
  {
    if sources == [] then []
    else [Card(first, sources[0].title, sources[0].url, CleanAll(sources[0].summary))] + Cards(sources[1..], first + 1)
  }

  /**
   * The results panels: the query, "Found {search_results.length} sources",
   * the source cards numbered from 1 in order, and the report verbatim.
   */
  function Present(result: ResearchResult): (view: View)
    ensures view.query == result.query && view.report == result.report
    ensures view.found == |result.searchResults|
    ensures |view.cards| == |result.sources|
    ensures forall i :: 0 <= i < |result.sources| ==>
              && view.cards[i].number == i + 1
              && view.cards[i].title == result.sources[i].title
              && view.cards[i].url == result.sources[i].url
              && |view.cards[i].keyPoints| == |result.sources[i].summary|
    ensures forall i, j :: 0 <= i < |result.sources| && 0 <= j < |result.sources[i].summary| ==>
              view.cards[i].keyPoints[j] == CleanBullet(result.sources[i].summary[j])
  {
    View(result.query, |result.searchResults|, Cards(result.sources, 1), result.report)
  }

  /** A result with one source shows exactly one card, numbered 1. */
  lemma OneSourceOneCard(result: ResearchResult)
    requires |result.sources| == 1
    ensures Present(result).cards
              == [Card(1, result.sources[0].title, result.sources[0].url, CleanAll(result.sources[0].summary))]
  {
  }

  /**
   * A source whose bullets are a marked point `"- " + point` and an unmarked
   * one: the view shows one card numbered 1, with the marker removed from the
   * first bullet only, beside the count of all search results.
   */
  lemma MarkedAndPlainBullets(result: ResearchResult, point: string, plain: string)
    requires |result.sources| == 1 && result.sources[0].summary == ["- " + point, plain]
    requires point != [] ==> !IsSpace(point[0], Js)
    requires !StartsWithDash(plain)
    ensures Present(result)
              == View(result.query, |result.searchResults|,
                      [Card(1, result.sources[0].title, result.sources[0].url, [point, plain])], result.report)
  {
    CleanMarker(point);
    var cleaned := CleanAll(result.sources[0].summary);
    assert cleaned == [point, plain];
    OneSourceOneCard(result);
  }
}
