/**
 * The web-search plugin: a classifier reply at or above 0.50 makes it ask for a search query,
 * search the web, scrape each hit and hand the router a user turn with the results and the
 * confidence.
 */
module WebPlugin {
  import opened Wrappers
  import opened TextUtil
  import opened Confidence
  import opened Chat
  import opened PluginBase

  /** The threshold of `should_search_web`, in hundredths. */
  const Threshold: nat := 50

  /** The text the classifier sees: the raw message lower-cased, stripped, leading `;` removed. */
  function ClassifierText(raw: string): (t: string)
    ensures |t| <= |raw|
    ensures |t| == 0 || t[0] != ';'
  {
    LStripChar(Strip(Lower(raw)), ';')
  }

  /** What `should_search_web` gives back: an exception, a bare `False`, or a decision pair. */
  datatype Check = CheckRaised(fault: Fault) | BareFalse | Checked(decision: Decision)

  /** `should_search_web`; `classify` stands for the classifier completion (`None` means it raised). */
  function ShouldSearch(msg: Message, classify: string -> Option<string>): (c: Check)
    ensures c.BareFalse? <==> |msg.attachments| > 0 && msg.attachments[0].contentType.Some? &&
                              StartsWith(msg.attachments[0].contentType.value, "image/")
    ensures c == CheckRaised(MissingContentType) <==>
              (|msg.attachments| > 0 && msg.attachments[0].contentType.None?)
    ensures c.Checked? ==>
      classify(ClassifierText(msg.content)).Some? &&
      c.decision == Decide(Strip(classify(ClassifierText(msg.content)).value), Threshold)
    ensures c.Checked? ==>
      var n := FirstNumeral(Strip(classify(ClassifierText(msg.content)).value));
      (c.decision.accept <==> n.Some? && AtLeast(n.value, Threshold))
  {
    if |msg.attachments| > 0 && msg.attachments[0].contentType.None? then CheckRaised(MissingContentType)
    else if |msg.attachments| > 0 && StartsWith(msg.attachments[0].contentType.value, "image/") then BareFalse
    else
      match classify(ClassifierText(msg.content))
      case None => CheckRaised(External)
      case Some(reply) => Checked(Decide(Strip(reply), Threshold))
  }

  /** The contents of the assistant entries of `ctx`, in order. */
  function AssistantContents(ctx: seq<Entry>): seq<Content>
    decreases |ctx|
  {
    if |ctx| == 0 then []
    else (if ctx[0].role == Assistant then [ctx[0].content] else []) + AssistantContents(ctx[1..])
  }

  lemma {:induction false} AssistantContentsAppend(a: seq<Entry>, b: seq<Entry>)
    ensures AssistantContents(a + b) == AssistantContents(a) + AssistantContents(b)
    decreases |a|
  {
    if |a| == 0 {
      assert a + b == b;
    } else {
      var head := if a[0].role == Assistant then [a[0].content] else [];
      assert (a + b)[0] == a[0];
      assert (a + b)[1..] == a[1..] + b;
      assert AssistantContents(a + b) == head + AssistantContents(a[1..] + b);
      assert AssistantContents(a) == head + AssistantContents(a[1..]);
      AssistantContentsAppend(a[1..], b);
      assert head + (AssistantContents(a[1..]) + AssistantContents(b)) == head + AssistantContents(a[1..]) + AssistantContents(b);
    }
  }

  /** Dropping the first exchange of a paired context leaves a paired context. */
  lemma PairedTail(ctx: seq<Entry>)
    requires Paired(ctx) && |ctx| >= 2
    ensures Paired(ctx[2..])
  {
    var rest := ctx[2..];
    forall i | 0 <= i < |rest| ensures rest[i].role == (if i % 2 == 0 then User else Assistant) {
      assert rest[i] == ctx[i + 2];
    }
  }

  /** A leading user entry is dropped by the filter and the reply after it is kept. */
  lemma AssistantContentsOfExchange(ctx: seq<Entry>)
    requires |ctx| >= 2 && ctx[0].role == User && ctx[1].role == Assistant
    ensures AssistantContents(ctx) == [ctx[1].content] + AssistantContents(ctx[2..])
  {
    assert ctx == [ctx[0], ctx[1]] + ctx[2..];
    AssistantContentsAppend([ctx[0], ctx[1]], ctx[2..]);
    assert [ctx[0], ctx[1]][1..] == [ctx[1]];
    assert [ctx[1]][1..] == [];
  }

  /** The first reply, then the replies of the rest, are the replies at the odd indices. */
  lemma RepliesShifted(ctx: seq<Entry>, tail: seq<Content>)
    requires |ctx| >= 2 && |tail| == (|ctx| - 2) / 2
    requires forall k :: 0 <= k < |tail| ==> tail[k] == ctx[2..][2 * k + 1].content
    ensures |[ctx[1].content] + tail| == |ctx| / 2
    ensures forall k :: 0 <= k < |ctx| / 2 ==> ([ctx[1].content] + tail)[k] == ctx[2 * k + 1].content
  {
    forall k | 0 <= k < |ctx| / 2
      ensures ([ctx[1].content] + tail)[k] == ctx[2 * k + 1].content
    {
      if k > 0 {
        assert ([ctx[1].content] + tail)[k] == tail[k - 1];
        assert ctx[2..][2 * (k - 1) + 1] == ctx[2 * k + 1];
      }
    }
  }

  /** On a paired context the filter keeps exactly the odd-indexed entries, the replies. */
  lemma {:induction false} AssistantContentsOfPaired(ctx: seq<Entry>)
    requires Paired(ctx)
    ensures |AssistantContents(ctx)| == |ctx| / 2
    ensures forall k :: 0 <= k < |ctx| / 2 ==> AssistantContents(ctx)[k] == ctx[2 * k + 1].content
    decreases |ctx|
  {
    if |ctx| > 0 {
      var rest := ctx[2..];
      PairedTail(ctx);
      AssistantContentsOfPaired(rest);
      assert ctx[0].role == User && ctx[1].role == Assistant;
      AssistantContentsOfExchange(ctx);
      RepliesShifted(ctx, AssistantContents(rest));
    }
  }

  /** The string actually searched: the text after the first `"` up to the next one, or the whole query. */
  function SearchString(query: string): (r: string)
    ensures '"' !in query ==> r == query
    ensures '"' in query ==> '"' !in r
  {
    if '"' in query then
      var pieces := Split(query, "\"");
      assert |pieces| >= 2 by {
        JoinSplit(query, "\"");
        var i :| 0 <= i < |query| && query[i] == '"';
        assert OccursAt(query, "\"", i);
      }
      var r := pieces[1];
      assert '"' !in r by {
        forall i | 0 <= i < |r| ensures r[i] != '"' {
          assert !OccursAt(r, "\"", i);
          assert r[i..i + 1] == [r[i]];
        }
      }
      r
    else query
  }

  /** With the first quote at `i`, the search string is what follows it up to the next quote or the end. */
  lemma SearchStringBetweenQuotes(query: string, i: nat)
    requires i < |query| && query[i] == '"' && '"' !in query[..i]
    ensures var rest := query[i + 1..];
      var j := Find(rest, "\"");
      SearchString(query) == if j.Some? then rest[..j.value] else rest
  {
    assert Find(query, "\"") == Some(i) by {
      assert OccursAt(query, "\"", i);
      forall j: nat | j < i ensures !OccursAt(query, "\"", j) {
        assert query[j] == query[..i][j];
      }
    }
    var rest := query[i + 1..];
    assert Split(query, "\"") == [query[..i]] + Split(rest, "\"");
    match Find(rest, "\"")
    case None =>
      assert Split(rest, "\"") == [rest];
    case Some(j) =>
      assert Split(rest, "\"")[0] == rest[..j];
  }

  /** One search hit: link, title and the engine's preview. */
  datatype Hit = Hit(href: string, title: string, body: string)

  /** A fetched page: HTTP status, the visible text of its main part and the texts of its comment blocks. */
  datatype Page = Page(status: int, text: string, comments: seq<string>)

  const NoContent := "No content available"
  const NoResults := "No results found."
  const PageLimit: nat := 2000

  /** The pieces of the page text: each line stripped, split on double spaces, each piece stripped. */
  function Phrases(lines: seq<string>): seq<string>
    decreases |lines|
  {
    if |lines| == 0 then []
    else StripAll(Split(Strip(lines[0]), "  ")) + Phrases(lines[1..])
  }

  function StripAll(ps: seq<string>): (r: seq<string>)
    ensures |r| == |ps| && forall k :: 0 <= k < |ps| ==> r[k] == Strip(ps[k])
  {
    seq(|ps|, k requires 0 <= k < |ps| => Strip(ps[k]))
  }

  function NonEmpty(ps: seq<string>): (r: seq<string>)
    ensures forall k :: 0 <= k < |r| ==> |r[k]| > 0
    ensures forall k :: 0 <= k < |r| ==> exists j :: 0 <= j < |ps| && r[k] == ps[j]
    decreases |ps|
  {
    if |ps| == 0 then []
    else if ps[0] == "" then NonEmpty(ps[1..])
    else [ps[0]] + NonEmpty(ps[1..])
  }

  /** The scraped text before the comments are added and the cut is made. */
  function NormalizeText(t: string): string {
    Join(NonEmpty(Phrases(Lines(t))), " ")
  }

  predicate NotLineBreak(c: char) {
    !IsLineBreak(c)
  }

  /** Every phrase is stripped, has no double space and no line break. */
  lemma {:induction false} PhrasesClean(lines: seq<string>)
    requires forall k :: 0 <= k < |lines| ==> NoLineBreak(lines[k])
    ensures forall k :: 0 <= k < |Phrases(lines)| ==>
      var p := Phrases(lines)[k]; Stripped(p) && NoDoubleSpace(p) && NoLineBreak(p)
    decreases |lines|
  {
    if |lines| > 0 {
      PhrasesClean(lines[1..]);
      var l := Strip(lines[0]);
      assert AllChars(lines[0], NotLineBreak);
      StripKeepsChars(lines[0], NotLineBreak);
      var pieces := Split(l, "  ");
      SplitKeepsChars(l, "  ", NotLineBreak);
      forall k | 0 <= k < |pieces|
        ensures var p := Strip(pieces[k]); Stripped(p) && NoDoubleSpace(p) && NoLineBreak(p)
      {
        StripNotContains(pieces[k], "  ");
        NoDoubleSpaceOf(Strip(pieces[k]));
        StripKeepsChars(pieces[k], NotLineBreak);
      }
    }
  }

  /** The normalised page text is one line, trimmed, with no two spaces in a row. */
  lemma NormalizeTextClean(t: string)
    ensures NoLineBreak(NormalizeText(t)) && NoDoubleSpace(NormalizeText(t)) && Stripped(NormalizeText(t))
  {
    var ps := NonEmpty(Phrases(Lines(t)));
    PhrasesClean(Lines(t));
    JoinNoDoubleSpace(ps);
    JoinKeepsChars(ps, " ", NotLineBreak);
  }

  /** `scrape_website`; `page` is `None` when the request or the parse raised. */
  function ScrapeText(page: Option<Page>): (r: string)
    ensures |r| <= PageLimit
    ensures page.None? || page.value.status != 200 ==> r == NoContent
  {
    match page
    case None => NoContent
    case Some(p) =>
      if p.status != 200 then NoContent
      else
        var text := NormalizeText(p.text);
        var full := if |p.comments| > 0
          then text + "\n\nTop comments:\n" + Join(p.comments[..Min(|p.comments|, 5)], "\n")
          else text;
        full[..Min(|full|, PageLimit)]
  }

  /** A page without comment blocks reads as its normalised text cut to 2000 characters. */
  lemma ScrapeWithoutComments(p: Page)
    requires p.status == 200 && |p.comments| == 0
    ensures ScrapeText(Some(p)) == NormalizeText(p.text)[..Min(|NormalizeText(p.text)|, PageLimit)]
    ensures NoLineBreak(ScrapeText(Some(p)))
  {
    NormalizeTextClean(p.text);
  }

  /** The text one hit contributes. */
  function HitBlock(h: Hit, content: string): string {
    HitPrefix(h) + h.body + "\nPage Content: " + content
  }

  function HitPrefix(h: Hit): string {
    "Title: " + h.title + "\nSearch Engine Preview: "
  }

  /** `scrape_website` as a function of the link, with `fetch` standing for the page GET. */
  function Scraper(fetch: string -> Option<Page>): string -> string {
    url => ScrapeText(fetch(url))
  }

  /** The blocks of `hits`, where `scrape` gives the page text of a link. */
  function HitBlocks(hits: seq<Hit>, scrape: string -> string): (r: seq<string>)
    ensures |r| == |hits|
    ensures forall k :: 0 <= k < |hits| ==> r[k] == HitBlock(hits[k], scrape(hits[k].href))
  {
    seq(|hits|, k requires 0 <= k < |hits| => HitBlock(hits[k], scrape(hits[k].href)))
  }

  /** What `search_web` returns for the engine's `hits`; `scrape` stands for the page GET and its text. */
  function SearchText(hits: seq<Hit>, scrape: string -> string): string {
    if |hits| == 0 then NoResults else Join(HitBlocks(hits, scrape), "\n\n")
  }

  lemma HitBlockPrefix(h: Hit, content: string)
    ensures StartsWith(HitBlock(h, content), HitPrefix(h))
  {
    var p := HitPrefix(h);
    assert HitBlock(h, content) == p + (h.body + "\nPage Content: " + content);
  }

  /** A non-empty result list reads as its first hit's block first. */
  lemma {:induction false} SearchTextStartsWithFirstHit(hits: seq<Hit>, scrape: string -> string)
    requires |hits| > 0
    ensures StartsWith(SearchText(hits, scrape), HitPrefix(hits[0]))
  {
    HitBlockPrefix(hits[0], scrape(hits[0].href));
    JoinStartsWithFirst(HitBlocks(hits, scrape), "\n\n", HitPrefix(hits[0]));
  }

  /** A single hit reads as exactly its block, with no separator. */
  lemma SearchTextSingleHit(hits: seq<Hit>, scrape: string -> string)
    requires |hits| == 1
    ensures SearchText(hits, scrape) == HitBlock(hits[0], scrape(hits[0].href))
  {
    assert |HitBlocks(hits, scrape)| == 1;
  }

  /** `search_web`'s loop: one block per hit, in order, joined by a blank line. */
  method SearchWeb(hits: seq<Hit>, scrape: string -> string) returns (text: string)
    ensures text == SearchText(hits, scrape)
  {
    if |hits| == 0 {
      return NoResults;
    }
    var scraped: seq<string> := [];
    var i := 0;
    while i < |hits|
      invariant 0 <= i <= |hits| && |scraped| == i
      invariant forall k :: 0 <= k < i ==> scraped[k] == HitBlock(hits[k], scrape(hits[k].href))
    {
      var content := scrape(hits[i].href);
      scraped := scraped + [HitBlock(hits[i], content)];
      i := i + 1;
    }
    assert scraped == HitBlocks(hits, scrape);
    text := Join(scraped, "\n\n");
  }

  const WebInstruction: string := "\n\nPlease provide a response based on this information. "
    + "Usage of the web information may not be necessary."

  /** The user turn that carries the results. */
  function WebPrompt(content: string, query: string, results: string): string {
    "User query: " + content + "\n\nAI given search query: '" + query + "'\n\nRelevant web results:\n" + results + WebInstruction
  }

  /** The remote calls of one request; each `None` means the call raised. */
  datatype Remote = Remote(
    classify: string -> Option<string>,
    generateQuery: (string, seq<Content>) -> Option<string>,
    search: string -> Option<seq<Hit>>,
    fetch: string -> Option<Page>)

  /**
   * `process`: the check comes first; a bare `False` cannot be unpacked into two names; an
   * accepted request yields the results turn together with the confidence.
   */
  function Process(msg: Message, content: string, recent: seq<Entry>, remote: Remote): (r: PluginResult)
    ensures ShouldSearch(msg, remote.classify).BareFalse? ==> r == Raised(UnpackBool)
    ensures r == Raised(UnpackBool) ==> ShouldSearch(msg, remote.classify).BareFalse?
    ensures r.NoneResult? <==> ShouldSearch(msg, remote.classify).Checked? && !ShouldSearch(msg, remote.classify).decision.accept
    ensures r.AugmentWithConfidence? ==>
      ShouldSearch(msg, remote.classify).Checked? &&
      r.confidence == ShouldSearch(msg, remote.classify).decision.confidence &&
      AtLeast(r.confidence, Threshold) && r.entry.role == User && r.entry.content.Text?
    ensures r.AugmentWithConfidence? ==>
      var reply := remote.generateQuery(content, AssistantContents(recent));
      reply.Some? && remote.search(SearchString(Strip(reply.value))).Some? &&
      r.entry == Entry(User, Text(WebPrompt(content, Strip(reply.value),
                                            SearchText(remote.search(SearchString(Strip(reply.value))).value, Scraper(remote.fetch)))))
    ensures !r.Taken? && !r.Augment?
  {
    match ShouldSearch(msg, remote.classify)
    case CheckRaised(f) => Raised(f)
    case BareFalse => Raised(UnpackBool)
    case Checked(d) =>
      if !d.accept then NoneResult
      else
        match remote.generateQuery(content, AssistantContents(recent))
        case None => Raised(External)
        case Some(reply) =>
          var query := Strip(reply);
          match remote.search(SearchString(query))
          case None => Raised(External)
          case Some(hits) =>
            AugmentWithConfidence(Entry(User, Text(WebPrompt(content, query, SearchText(hits, Scraper(remote.fetch))))), d.confidence)
  }
}
