/**
 * `DeepResearchAgent`: search, then for each hit either reuse the cached
 * summary or read the page and summarise it, then write the report.
 * The page reader, the two language-model calls and the search client are
 * parameters (oracles); the summary cache is a `Context7Cache` object.
 */
module Agent {
  import opened Wrappers
  import opened Text
  import opened ResearchTypes
  import opened SummaryCache

  /** `self.max_sources` */
  const MaxSources := 5
  /** `bullets[:7]` */
  const MaxBullets := 7
  /** `str(e)[:50]` */
  const MaxErrorChars := 50
  const ErrorBulletPrefix := "- Error summarizing content: "
  const ReportErrorPrefix := "Error generating report: "
  const NoResultsReport := "No search results found."

  // ---------------------------------------------------------------------
  // Bullet extraction (`_summarize_source`)
  // ---------------------------------------------------------------------

  /** `line.strip().startswith('-')` */
  predicate IsBulletLine(line: string)
  {
    StartsWithDash(Trim(line, Py))
  }

  /** What a kept bullet looks like: a single line that starts with `-` and does not end in whitespace. */
  predicate IsBullet(b: string)
  {
    StartsWithDash(b) && '\n' !in b && !IsSpace(b[|b| - 1], Py)
  }

  /** `line.strip()` for every line. */
  function StripAll(lines: seq<string>): (stripped: seq<string>)
    ensures |stripped| == |lines|
    ensures forall i :: 0 <= i < |lines| ==> stripped[i] == Trim(lines[i], Py)
  {
    seq(|lines|, i requires 0 <= i < |lines| => Trim(lines[i], Py))
  }

  /** The stripped lines that start with `-`, in order. */
  function DashLines(stripped: seq<string>): (kept: seq<string>)
    ensures |kept| <= |stripped|
    ensures forall j :: 0 <= j < |kept| ==> StartsWithDash(kept[j])
    decreases |stripped|
  {
    if stripped == [] then []
    else (if StartsWithDash(stripped[0]) then [stripped[0]] else []) + DashLines(stripped[1..])
  }

  /** `[line.strip() for line in lines if line.strip().startswith('-')]` */
  function KeptLines(lines: seq<string>): (kept: seq<string>)
    ensures |kept| <= |lines|
    ensures forall j :: 0 <= j < |kept| ==> StartsWithDash(kept[j])
  {
    DashLines(StripAll(lines))
  }

  lemma {:induction false} DashLinesAppend(a: seq<string>, b: seq<string>)
    ensures DashLines(a + b) == DashLines(a) + DashLines(b)
    decreases |a|
  {
    if a != [] {
      DashLinesAppend(a[1..], b);
      assert (a + b)[0] == a[0];
      assert (a + b)[1..] == a[1..] + b;
    } else {
      assert a + b == b;
    }
  }

  lemma {:induction false} DashLinesMembers(stripped: seq<string>, b: string)
    ensures b in DashLines(stripped) <==> b in stripped && StartsWithDash(b)
    decreases |stripped|
  {
    if stripped != [] {
      DashLinesMembers(stripped[1..], b);
      assert stripped == [stripped[0]] + stripped[1..];
    }
  }

  /** The comprehension keeps line order: it distributes over concatenation. */
  lemma KeptLinesAppend(a: seq<string>, b: seq<string>)
    ensures KeptLines(a + b) == KeptLines(a) + KeptLines(b)
  {
    var whole, parts := StripAll(a + b), StripAll(a) + StripAll(b);
    forall i | 0 <= i < |a + b| ensures whole[i] == parts[i] {
      if i < |a| {
        assert (a + b)[i] == a[i];
      } else {
        assert (a + b)[i] == b[i - |a|];
      }
    }
    assert whole == parts;
    DashLinesAppend(StripAll(a), StripAll(b));
  }

  /** A string is kept exactly when it is the stripped form of some bullet line. */
  lemma KeptLinesMembers(lines: seq<string>, b: string)
    ensures b in KeptLines(lines) <==>
              exists i :: 0 <= i < |lines| && IsBulletLine(lines[i]) && Trim(lines[i], Py) == b
  {
    DashLinesMembers(StripAll(lines), b);
    if b in StripAll(lines) {
      var i :| 0 <= i < |lines| && StripAll(lines)[i] == b;
      assert Trim(lines[i], Py) == b;
    }
    if exists i :: 0 <= i < |lines| && IsBulletLine(lines[i]) && Trim(lines[i], Py) == b {
      var i :| 0 <= i < |lines| && IsBulletLine(lines[i]) && Trim(lines[i], Py) == b;
      assert StripAll(lines)[i] == b;
    }
  }

  /** Each kept line is a bullet: stripped, starting with `-`, and newline-free when the lines are. */
  lemma KeptLinesAreBullets(lines: seq<string>)
    requires forall i :: 0 <= i < |lines| ==> '\n' !in lines[i]
    ensures forall j :: 0 <= j < |KeptLines(lines)| ==> IsBullet(KeptLines(lines)[j])
  {
    var kept := KeptLines(lines);
    forall j | 0 <= j < |kept| ensures IsBullet(kept[j]) {
      var b := kept[j];
      DashLinesMembers(StripAll(lines), b);
      var i :| 0 <= i < |lines| && StripAll(lines)[i] == b;
      assert b == Trim(lines[i], Py);
    }
  }

  /**
   * The successful path of `_summarize_source`: the stripped lines of the
   * model's text that start with `-`, in order, at most seven.
   */
  function ExtractBullets(text: string): (bullets: seq<string>)
    ensures |bullets| <= MaxBullets
    ensures bullets <= KeptLines(SplitLines(text))
    ensures |bullets| == if |KeptLines(SplitLines(text))| < MaxBullets then |KeptLines(SplitLines(text))| else MaxBullets
    ensures forall j :: 0 <= j < |bullets| ==> IsBullet(bullets[j])
  {
    var kept := KeptLines(SplitLines(text));
    KeptLinesAreBullets(SplitLines(text));
    if |kept| <= MaxBullets then kept else kept[..MaxBullets]
  }

  /** The single bullet returned when summarising raises: a fixed prefix, then at most 50 characters of the error. */
  function ErrorBullet(error: string): (b: string)
    ensures ErrorBulletPrefix <= b
    ensures b[|ErrorBulletPrefix|..] <= error
    ensures |b| <= |ErrorBulletPrefix| + MaxErrorChars
    ensures |error| <= MaxErrorChars ==> b == ErrorBulletPrefix + error
    ensures |error| > MaxErrorChars ==> |b| == |ErrorBulletPrefix| + MaxErrorChars
  {
    ErrorBulletPrefix + SliceTo(error, MaxErrorChars)
  }

  /** `_summarize_source`, with the model call as its outcome `reply`. */
  function SummarizeSource(reply: LlmReply): (bullets: seq<string>)
    ensures 1 <= |bullets| || reply.Reply?
    ensures |bullets| <= MaxBullets
    ensures reply.Failed? ==> bullets == [ErrorBullet(reply.error)]
    ensures reply.Reply? ==> forall j :: 0 <= j < |bullets| ==> IsBullet(bullets[j])
    ensures reply.Reply? ==> bullets == ExtractBullets(reply.text)
  {
    match reply
    case Reply(text) => ExtractBullets(text)
    case Failed(error) => [ErrorBullet(error)]
  }

  // ---------------------------------------------------------------------
  // Source text for the report prompt (`_generate_report`)
  // ---------------------------------------------------------------------

  /** Each bullet on a line of its own. */
  function BulletLines(bullets: seq<string>): string
    decreases |bullets|
  {
    if bullets == [] then "" else bullets[0] + "\n" + BulletLines(bullets[1..])
  }

  /** `f"\n\n**Source {i}: {source['title']}**\n"` */
  function Header(n: nat, title: string): string
  {
    "\n\n**Source " + NatToString(n) + ": " + title + "**\n"
  }

  /** `f"URL: {source['url']}\n"` */
  function UrlLine(url: string): string
  {
    "URL: " + url + "\n"
  }

  /** The block for source number `n`: header, URL line, bullet lines. */
  function Block(n: nat, source: Source): string
  {
    Header(n, source.title) + UrlLine(source.url) + BulletLines(source.summary)
  }

  /** The blocks of `sources`, numbered from `first` on. */
  function SourcesTextFrom(sources: seq<Source>, first: nat): string
    decreases |sources|
  {
    if sources == [] then "" else Block(first, sources[0]) + SourcesTextFrom(sources[1..], first + 1)
  }

  /** `sources_text`: one block per source, numbered from 1. */
  function SourcesText(sources: seq<Source>): string
  {
    SourcesTextFrom(sources, 1)
  }

  lemma {:induction false} BulletLinesSnoc(bullets: seq<string>, b: string)
    ensures BulletLines(bullets + [b]) == BulletLines(bullets) + b + "\n"
    decreases |bullets|
  {
    if bullets == [] {
      assert BulletLines([b]) == b + "\n" + BulletLines([]);
    } else {
      BulletLinesSnoc(bullets[1..], b);
      assert (bullets + [b])[1..] == bullets[1..] + [b];
    }
  }

  /** The bullet lines are the bullets joined by newlines, plus a final newline. */
  lemma {:induction false} BulletLinesJoin(bullets: seq<string>)
    ensures BulletLines(bullets) == Join(bullets + [""])
    decreases |bullets|
  {
    if bullets != [] {
      BulletLinesJoin(bullets[1..]);
      assert (bullets + [""])[1..] == bullets[1..] + [""];
    }
  }

  /** Splitting the bullet lines at newlines gives back the bullets (and the empty tail). */
  lemma SplitBulletLines(bullets: seq<string>)
    requires forall j :: 0 <= j < |bullets| ==> '\n' !in bullets[j]
    ensures SplitLines(BulletLines(bullets)) == bullets + [""]
  {
    BulletLinesJoin(bullets);
    SplitLinesJoin(bullets + [""]);
  }

  /** Numbering continues across a concatenation of source lists. */
  lemma {:induction false} SourcesTextAppend(a: seq<Source>, b: seq<Source>, first: nat)
    ensures SourcesTextFrom(a + b, first) == SourcesTextFrom(a, first) + SourcesTextFrom(b, first + |a|)
    decreases |a|
  {
    if a != [] {
      SourcesTextAppend(a[1..], b, first + 1);
      assert (a + b)[0] == a[0];
      assert (a + b)[1..] == a[1..] + b;
      var head := Block(first, a[0]);
      calc {
        SourcesTextFrom(a + b, first);
        head + SourcesTextFrom(a[1..] + b, first + 1);
        head + (SourcesTextFrom(a[1..], first + 1) + SourcesTextFrom(b, first + |a|));
        (head + SourcesTextFrom(a[1..], first + 1)) + SourcesTextFrom(b, first + |a|);
      }
    } else {
      assert a + b == b;
    }
  }

  /** Appending a source appends its block, numbered one past the others. */
  lemma SourcesTextSnoc(sources: seq<Source>, source: Source)
    ensures SourcesText(sources + [source]) == SourcesText(sources) + Block(|sources| + 1, source)
  {
    SourcesTextAppend(sources, [source], 1);
    assert SourcesTextFrom([source], |sources| + 1) == Block(|sources| + 1, source) + "";
  }

  /** Block `k + 1` holds source `k` and comes right after the blocks of the sources before it. */
  lemma BlockInOrder(sources: seq<Source>, k: nat)
    requires k < |sources|
    ensures SourcesText(sources[..k]) + Block(k + 1, sources[k]) <= SourcesText(sources)
  {
    assert sources == sources[..k] + ([sources[k]] + sources[k + 1..]);
    SourcesTextAppend(sources[..k], [sources[k]] + sources[k + 1..], 1);
  }

  /** `sources_text` as the nested loops of `_generate_report` accumulate it. */
  method BuildSourcesText(sources: seq<Source>) returns (text: string)
    ensures text == SourcesText(sources)
  {
    text := "";
    for i := 0 to |sources|
      invariant text == SourcesText(sources[..i])
    {
      var source := sources[i];
      ghost var before := text;
      text := text + Header(i + 1, source.title);
      text := text + UrlLine(source.url);
      ghost var header := text;
      for j := 0 to |source.summary|
        invariant text == header + BulletLines(source.summary[..j])
      {
        BulletLinesSnoc(source.summary[..j], source.summary[j]);
        assert source.summary[..j + 1] == source.summary[..j] + [source.summary[j]];
        text := text + source.summary[j] + "\n";
      }
      assert source.summary[..|source.summary|] == source.summary;
      assert text == before + Block(i + 1, source) by {
        var h, u, b := Header(i + 1, source.title), UrlLine(source.url), BulletLines(source.summary);
        assert text == before + h + u + b;
        assert before + h + u + b == before + (h + u + b);
      }
      SourcesTextSnoc(sources[..i], source);
      assert sources[..i + 1] == sources[..i] + [source];
    }
    assert sources[..|sources|] == sources;
  }

  /** The report: the model's text, or the error text when the call raised. */
  function ReportText(reply: LlmReply): (report: string)
    ensures reply.Failed? ==> report == ReportErrorPrefix + reply.error
    ensures reply.Reply? ==> report == reply.text
  {
    match reply
    case Reply(text) => text
    case Failed(error) => ReportErrorPrefix + error
  }

  /** `_generate_report`, with the model call as the oracle `writer(query, sources_text)`. */
  method GenerateReport(query: string, sources: seq<Source>, writer: (string, string) -> LlmReply)
    returns (report: string)
    ensures report == ReportText(writer(query, SourcesText(sources)))
  {
    var sourcesText := BuildSourcesText(sources);
    report := ReportText(writer(query, sourcesText));
  }

  // ---------------------------------------------------------------------
  // The research loop (`research`), as a specification over values
  // ---------------------------------------------------------------------

  /**
   * The state of the loop after some hits: the sources appended so far, the
   * cache, and, in order, the URLs the page reader and the summariser were
   * asked about.
   */
  datatype Progress = Progress(
    sources: seq<Source>,
    cache: map<string, CacheEntry>,
    read: seq<string>,
    summarised: seq<string>)

  /**
   * One iteration of the loop on `hit`: at most one source is appended,
   * existing cache entries are kept, and the page reader and the summariser
   * are asked about this hit's URL only when it is not cached.
   */
  function Visit(p: Progress, hit: SearchHit,
                 reader: string -> Option<string>, summariser: (string, string) -> LlmReply): (v: Progress)
    ensures p.sources <= v.sources && |v.sources| <= |p.sources| + 1
    ensures |v.sources| == |p.sources| + 1 ==> FromHit(v.sources[|p.sources|], hit)
    ensures forall k :: k in p.cache ==> k in v.cache && v.cache[k] == p.cache[k]
    ensures v.read == p.read || (hit.url !in p.cache && v.read == p.read + [hit.url])
    ensures v.summarised == p.summarised || (hit.url !in p.cache && v.summarised == p.summarised + [hit.url])
  {
    if hit.url in p.cache then
      p.(sources := p.sources + [Source(hit.title, hit.url, hit.snippet, p.cache[hit.url].summary)])
    else
      var content := reader(hit.url);
      if content.None? || content.value == "" then
        p.(read := p.read + [hit.url])
      else
        var summary := SummarizeSource(summariser(content.value, hit.title));
        Progress(p.sources + [Source(hit.title, hit.url, hit.snippet, summary)],
                 p.cache[hit.url := CacheEntry(hit.title, summary)],
                 p.read + [hit.url],
                 p.summarised + [hit.url])
  }

  /** The loop over all of `hits`, starting from `cache`. */
  function Pipeline(hits: seq<SearchHit>, cache: map<string, CacheEntry>,
                    reader: string -> Option<string>, summariser: (string, string) -> LlmReply): (p: Progress)
    ensures |p.sources| <= |hits| && |p.read| <= |hits| && |p.summarised| <= |hits|
    decreases |hits|
  {
    if hits == [] then Progress([], cache, [], [])
    else Visit(Pipeline(hits[..|hits| - 1], cache, reader, summariser), hits[|hits| - 1], reader, summariser)
  }

  /** A source's title, URL and snippet are copied from the hit. */
  predicate FromHit(source: Source, hit: SearchHit)
  {
    source.title == hit.title && source.url == hit.url && source.snippet == hit.snippet
  }

  /** `sources` is an in-order selection of `hits`, each source copied from its hit. */
  predicate Drawn(sources: seq<Source>, hits: seq<SearchHit>)
    decreases |hits|
  {
    if sources == [] then true
    else if hits == [] then false
    else Drawn(sources, hits[..|hits| - 1])
         || (FromHit(sources[|sources| - 1], hits[|hits| - 1])
             && Drawn(sources[..|sources| - 1], hits[..|hits| - 1]))
  }

  lemma {:induction false} DrawnLength(sources: seq<Source>, hits: seq<SearchHit>)
    requires Drawn(sources, hits)
    ensures |sources| <= |hits|
    decreases |hits|
  {
    if sources != [] {
      if Drawn(sources, hits[..|hits| - 1]) {
        DrawnLength(sources, hits[..|hits| - 1]);
      } else {
        DrawnLength(sources[..|sources| - 1], hits[..|hits| - 1]);
      }
    }
  }

  /** A selection from the hits but the last is a selection from all of them. */
  lemma DrawnExtend(sources: seq<Source>, hits: seq<SearchHit>)
    requires hits != [] && Drawn(sources, hits[..|hits| - 1])
    ensures Drawn(sources, hits)
  {
  }

  /** A selection from the hits but the last, followed by a source copied from the last hit. */
  lemma DrawnSnoc(sources: seq<Source>, hits: seq<SearchHit>)
    requires hits != [] && sources != []
    requires Drawn(sources[..|sources| - 1], hits[..|hits| - 1])
    requires FromHit(sources[|sources| - 1], hits[|hits| - 1])
    ensures Drawn(sources, hits)
  {
  }

  /** The sources are an in-order selection of the hits, so there are no more sources than hits. */
  lemma {:induction false} SourcesDrawnFromHits(hits: seq<SearchHit>, cache: map<string, CacheEntry>,
                                                reader: string -> Option<string>,
                                                summariser: (string, string) -> LlmReply)
    ensures Drawn(Pipeline(hits, cache, reader, summariser).sources, hits)
    ensures |Pipeline(hits, cache, reader, summariser).sources| <= |hits|
    decreases |hits|
  {
    var p := Pipeline(hits, cache, reader, summariser);
    if hits != [] {
      var init, last := hits[..|hits| - 1], hits[|hits| - 1];
      var q := Pipeline(init, cache, reader, summariser);
      SourcesDrawnFromHits(init, cache, reader, summariser);
      assert p == Visit(q, last, reader, summariser);
      if |p.sources| == |q.sources| {
        assert p.sources == q.sources;
        DrawnExtend(p.sources, hits);
      } else {
        assert p.sources[..|p.sources| - 1] == q.sources;
        DrawnSnoc(p.sources, hits);
      }
    }
    DrawnLength(p.sources, hits);
  }

  /** Entries present at the start are never replaced or removed. */
  lemma {:induction false} CacheKeepsEntries(hits: seq<SearchHit>, cache: map<string, CacheEntry>,
                                             reader: string -> Option<string>,
                                             summariser: (string, string) -> LlmReply)
    ensures forall k :: k in cache ==>
              k in Pipeline(hits, cache, reader, summariser).cache
              && Pipeline(hits, cache, reader, summariser).cache[k] == cache[k]
    decreases |hits|
  {
    if hits != [] {
      CacheKeepsEntries(hits[..|hits| - 1], cache, reader, summariser);
    }
  }

  /** Each source's URL is cached with the summary the source carries. */
  predicate SourcesCached(p: Progress)
  {
    forall j :: 0 <= j < |p.sources| ==>
      p.sources[j].url in p.cache && p.cache[p.sources[j].url].summary == p.sources[j].summary
  }

  /** Every source is cached afterwards, under its URL, with the summary it carries. */
  lemma {:induction false} SourcesAreCached(hits: seq<SearchHit>, cache: map<string, CacheEntry>,
                                            reader: string -> Option<string>,
                                            summariser: (string, string) -> LlmReply)
    ensures SourcesCached(Pipeline(hits, cache, reader, summariser))
    decreases |hits|
  {
    if hits != [] {
      var init := hits[..|hits| - 1];
      SourcesAreCached(init, cache, reader, summariser);
      var q := Pipeline(init, cache, reader, summariser);
      var p := Pipeline(hits, cache, reader, summariser);
      assert p == Visit(q, hits[|hits| - 1], reader, summariser);
      forall j | 0 <= j < |p.sources|
        ensures p.sources[j].url in p.cache && p.cache[p.sources[j].url].summary == p.sources[j].summary
      {
        if j < |q.sources| {
          assert p.sources[j] == q.sources[j];
        }
      }
    }
  }

  /**
   * Every entry added by the loop belongs to a hit's URL, carries that hit's
   * title, and holds the summariser's answer for the page the reader returned
   * (a failed summary is stored like any other).
   */
  lemma {:induction false} NewEntriesAreSummaries(hits: seq<SearchHit>, cache: map<string, CacheEntry>,
                                                  reader: string -> Option<string>,
                                                  summariser: (string, string) -> LlmReply)
    ensures var p := Pipeline(hits, cache, reader, summariser);
            forall u :: u in p.cache && u !in cache ==>
              && u in p.summarised
              && (exists i :: 0 <= i < |hits| && hits[i].url == u && hits[i].title == p.cache[u].title)
              && reader(u).Some? && reader(u).value != ""
              && p.cache[u].summary == SummarizeSource(summariser(reader(u).value, p.cache[u].title))
    decreases |hits|
  {
    if hits != [] {
      var init := hits[..|hits| - 1];
      NewEntriesAreSummaries(init, cache, reader, summariser);
      var p := Pipeline(hits, cache, reader, summariser);
      var q := Pipeline(init, cache, reader, summariser);
      forall u | u in p.cache && u !in cache
        ensures exists i :: 0 <= i < |hits| && hits[i].url == u && hits[i].title == p.cache[u].title
      {
        if u in q.cache {
          var i :| 0 <= i < |init| && init[i].url == u && init[i].title == q.cache[u].title;
          assert hits[i] == init[i];
        } else {
          assert hits[|hits| - 1].url == u;
        }
      }
    }
  }

  /** The reader is only asked about URLs absent from the starting cache, and the summariser only about pages read. */
  lemma {:induction false} OraclesOnlyOnMisses(hits: seq<SearchHit>, cache: map<string, CacheEntry>,
                                               reader: string -> Option<string>,
                                               summariser: (string, string) -> LlmReply)
    ensures var p := Pipeline(hits, cache, reader, summariser);
            && (forall u :: u in p.read ==> u !in cache)
            && (forall u :: u in p.summarised ==> u in p.read)
            && |p.sources| + |p.read| == |hits| + |p.summarised|
    decreases |hits|
  {
    if hits != [] {
      OraclesOnlyOnMisses(hits[..|hits| - 1], cache, reader, summariser);
      CacheKeepsEntries(hits[..|hits| - 1], cache, reader, summariser);
    }
  }

  /**
   * When every hit's URL is cached, nothing is read or summarised, the cache
   * is unchanged, and each hit becomes a source carrying its cached summary.
   */
  lemma {:induction false} AllCachedShortCircuits(hits: seq<SearchHit>, cache: map<string, CacheEntry>,
                                                  reader: string -> Option<string>,
                                                  summariser: (string, string) -> LlmReply)
    requires forall i :: 0 <= i < |hits| ==> hits[i].url in cache
    ensures var p := Pipeline(hits, cache, reader, summariser);
            && p.read == [] && p.summarised == [] && p.cache == cache
            && |p.sources| == |hits|
            && forall j :: 0 <= j < |hits| ==>
                 p.sources[j] == Source(hits[j].title, hits[j].url, hits[j].snippet, cache[hits[j].url].summary)
    decreases |hits|
  {
    if hits != [] {
      AllCachedShortCircuits(hits[..|hits| - 1], cache, reader, summariser);
    }
  }

  /**
   * One visit to an uncached hit whose page reads as `None` or empty only
   * records the read: no source, no cache entry, no summary.
   */
  lemma UnreadableVisitSkipped(p: Progress, hit: SearchHit,
                               reader: string -> Option<string>, summariser: (string, string) -> LlmReply)
    requires hit.url !in p.cache
    requires reader(hit.url).None? || reader(hit.url) == Some("")
    ensures Visit(p, hit, reader, summariser) == p.(read := p.read + [hit.url])
  {
  }

  /** One visit to a cached hit appends a source with the cached summary and changes nothing else. */
  lemma VisitCached(p: Progress, hit: SearchHit,
                    reader: string -> Option<string>, summariser: (string, string) -> LlmReply)
    requires hit.url in p.cache
    ensures Visit(p, hit, reader, summariser)
              == p.(sources := p.sources + [Source(hit.title, hit.url, hit.snippet, p.cache[hit.url].summary)])
  {
  }

  /**
   * One visit to an uncached hit whose page has content appends a source
   * with the summariser's bullets, caches them with the hit's title, and logs
   * the URL as read and summarised.
   */
  lemma VisitSummarised(p: Progress, hit: SearchHit,
                        reader: string -> Option<string>, summariser: (string, string) -> LlmReply)
    requires hit.url !in p.cache
    requires reader(hit.url).Some? && reader(hit.url).value != ""
    ensures var summary := SummarizeSource(summariser(reader(hit.url).value, hit.title));
            Visit(p, hit, reader, summariser)
              == Progress(p.sources + [Source(hit.title, hit.url, hit.snippet, summary)],
                          p.cache[hit.url := CacheEntry(hit.title, summary)],
                          p.read + [hit.url],
                          p.summarised + [hit.url])
  {
  }

  /** A URL that is not cached and whose page cannot be read yields no source and no cache entry. */
  lemma {:induction false} UnreadablePageSkipped(hits: seq<SearchHit>, cache: map<string, CacheEntry>,
                                                 reader: string -> Option<string>,
                                                 summariser: (string, string) -> LlmReply, url: string)
    requires url !in cache
    requires reader(url).None? || reader(url) == Some("")
    ensures var p := Pipeline(hits, cache, reader, summariser);
            url !in p.cache && forall j :: 0 <= j < |p.sources| ==> p.sources[j].url != url
    decreases |hits|
  {
    if hits != [] {
      UnreadablePageSkipped(hits[..|hits| - 1], cache, reader, summariser, url);
    }
  }

  /** If the starting cache holds at most seven bullets per entry, so does every source and every entry afterwards. */
  lemma SummariesStayBounded(hits: seq<SearchHit>, cache: map<string, CacheEntry>,
                             reader: string -> Option<string>,
                             summariser: (string, string) -> LlmReply)
    requires forall k :: k in cache ==> |cache[k].summary| <= MaxBullets
    ensures var p := Pipeline(hits, cache, reader, summariser);
            && (forall k :: k in p.cache ==> |p.cache[k].summary| <= MaxBullets)
            && (forall j :: 0 <= j < |p.sources| ==> |p.sources[j].summary| <= MaxBullets)
  {
    var p := Pipeline(hits, cache, reader, summariser);
    CacheKeepsEntries(hits, cache, reader, summariser);
    NewEntriesAreSummaries(hits, cache, reader, summariser);
    SourcesAreCached(hits, cache, reader, summariser);
    forall k | k in p.cache ensures |p.cache[k].summary| <= MaxBullets {
      if k !in cache {
        var e := p.cache[k];
        assert e.summary == SummarizeSource(summariser(reader(k).value, e.title));
      }
    }
  }

  // ---------------------------------------------------------------------
  // The agent object
  // ---------------------------------------------------------------------

  /**
   * The page reader (`JinaAIReader.read_url`): `pages` gives its answer for a
   * URL (`None` on error), and `log` records the URLs it was asked for.
   */
  class PageReader {
    const pages: string -> Option<string>
    var log: seq<string>

    constructor (pages: string -> Option<string>)
      ensures this.pages == pages && log == []
    {
      this.pages := pages;
      log := [];
    }

    method ReadUrl(url: string) returns (content: Option<string>)
      modifies this
      ensures content == pages(url)
      ensures log == old(log) + [url]
    {
      content := pages(url);
      log := log + [url];
    }
  }

  /**
   * `_summarize_source(content, title, url)`: `model` is the summarising model
   * call on (content, title), and `log` records the URL of each call.
   */
  class Summariser {
    const model: (string, string) -> LlmReply
    var log: seq<string>

    constructor (model: (string, string) -> LlmReply)
      ensures this.model == model && log == []
    {
      this.model := model;
      log := [];
    }

    method Summarize(content: string, title: string, url: string) returns (bullets: seq<string>)
      modifies this
      ensures bullets == SummarizeSource(model(content, title))
      ensures log == old(log) + [url]
    {
      bullets := SummarizeSource(model(content, title));
      log := log + [url];
    }
  }

  class DeepResearchAgent {
    const cache: Context7Cache
    const maxSources: int

    /** `__init__`: a cache loaded from `stored` (see `Context7Cache`), and `max_sources = 5`. */
    constructor (stored: Option<map<string, CacheEntry>>)
      ensures fresh(cache) && maxSources == MaxSources
      ensures stored.None? ==> cache.entries == map[]
      ensures stored.Some? ==> cache.entries == stored.value
    {
      cache := new Context7Cache(stored);
      maxSources := MaxSources;
    }

    /**
     * `research(query)`. `search` is the search client, `reader` the page
     * reader, `summariser` the summarising step, and `writer` the report model
     * call on (query, sources text). The calls made to the reader and the
     * summariser are exactly those `Pipeline` logs, in order.
     */
    method Research(query: string,
                    search: (string, int) -> seq<SearchHit>,
                    reader: PageReader,
                    summariser: Summariser,
                    writer: (string, string) -> LlmReply)
      returns (r: ResearchResult)
      modifies cache, reader, summariser
      ensures r.query == query
      ensures search(query, maxSources) == [] ==>
                && r == ResearchResult(query, [], [], NoResultsReport)
                && cache.entries == old(cache.entries)
                && reader.log == old(reader.log) && summariser.log == old(summariser.log)
      ensures search(query, maxSources) != [] ==>
                var p := Pipeline(search(query, maxSources), old(cache.entries), reader.pages, summariser.model);
                && r.searchResults == search(query, maxSources)
                && r.sources == p.sources
                && r.report == ReportText(writer(query, SourcesText(p.sources)))
                && cache.entries == p.cache
                && reader.log == old(reader.log) + p.read
                && summariser.log == old(summariser.log) + p.summarised
    {
      var hits := search(query, maxSources);
      if hits == [] {
        return ResearchResult(query, [], [], NoResultsReport);
      }
      var sources: seq<Source> := [];
      ghost var pages, model := reader.pages, summariser.model;
      ghost var readBefore, summarisedBefore := reader.log, summariser.log;
      ghost var p := Progress([], cache.entries, [], []);
      for i := 0 to |hits|
        invariant reader.pages == pages && summariser.model == model
        invariant p == Pipeline(hits[..i], old(cache.entries), pages, model)
        invariant sources == p.sources && cache.entries == p.cache
        invariant reader.log == readBefore + p.read && summariser.log == summarisedBefore + p.summarised
      {
        assert hits[..i + 1][..i] == hits[..i];
        var hit := hits[i];
        var url := hit.url;
        var title := hit.title;
        ghost var before := p;
        p := Visit(p, hit, pages, model);
        if cache.Exists(url) {
          var cached := cache.Get(url);
          VisitCached(before, hit, pages, model);
          sources := sources + [Source(title, url, hit.snippet, cached.value.summary)];
          continue;
        }
        var content := reader.ReadUrl(url);
        if content.None? || content.value == "" {
          UnreadableVisitSkipped(before, hit, pages, model);
          continue;
        }
        var summary := summariser.Summarize(content.value, title, url);
        VisitSummarised(before, hit, pages, model);
        cache.Set(url, summary, title);
        sources := sources + [Source(title, url, hit.snippet, summary)];
      }
      assert hits[..|hits|] == hits;
      var report := GenerateReport(query, sources, writer);
      r := ResearchResult(query, hits, sources, report);
    }
  }
}
