// The `SearchAndEmbeddingTool` of tools/search_and_emb.py: a web search whose result
// pages are added to the RAG knowledge base, then a YouTube search whose videos are
// transcribed into one topic file, which is added to the knowledge base as text.

module SearchAndEmbed {
  import opened Wrappers
  import opened Text
  import VideoSearch
  import Transcript

  /** `not key` on an environment variable: absent or empty. */
  predicate Truthy(s: Option<string>) {
    s.Some? && s.value != ""
  }

  datatype Keys = Keys(tavily: string, youtube: string)

  const TavilyMissing: string := "TAVILY_API_KEY missing"
  const YouTubeMissing: string := "YOUTUBE_API_KEY missing"

  /** The key checks of the constructor: the Tavily key is checked first. */
  function Configure(tavilyKey: Option<string>, youtubeKey: Option<string>): (r: Result<Keys, string>)
    ensures r.Success? <==> Truthy(tavilyKey) && Truthy(youtubeKey)
    ensures r.Success? ==> r.value.tavily == tavilyKey.value && r.value.youtube == youtubeKey.value
    ensures !Truthy(tavilyKey) ==> r == Failure(TavilyMissing)
    ensures Truthy(tavilyKey) && !Truthy(youtubeKey) ==> r == Failure(YouTubeMissing)
  {
    if !Truthy(tavilyKey) then Failure(TavilyMissing)
    else if !Truthy(youtubeKey) then Failure(YouTubeMissing)
    else Success(Keys(tavilyKey.value, youtubeKey.value))
  }

  // ---------------------------------------------------------------------------
  // The knowledge base
  // ---------------------------------------------------------------------------

  datatype DataType = WebPage | PlainText

  datatype Ingested = Ingested(source: string, dataType: DataType)

  /** The shared `rag_tool`: the sources it holds, and how many `add` calls it has seen.
      `outcome(n)` is the exception the n-th call raises, if any. */
  class KnowledgeBase {
    var sources: seq<Ingested>
    var calls: nat
    const outcome: nat -> Option<string>

    constructor (outcome: nat -> Option<string>)
      ensures sources == [] && calls == 0 && this.outcome == outcome
    {
      sources := [];
      calls := 0;
      this.outcome := outcome;
    }

    /** The exception the `n`-th call raises, if any, independent of the heap. */
    function Raises(n: nat): (e: Option<string>)
      ensures e == outcome(n)
    {
      outcome(n)
    }

    /** `rag_tool.add`: a source is kept exactly when the call does not raise. */
    method Add(source: string, dataType: DataType) returns (error: Option<string>)
      modifies this
      ensures error == outcome(old(calls))
      ensures calls == old(calls) + 1
      ensures sources == old(sources) + (if error.None? then [Ingested(source, dataType)] else [])
    {
      error := outcome(calls);
      calls := calls + 1;
      if error.None? {
        sources := sources + [Ingested(source, dataType)];
      }
    }
  }

  // ---------------------------------------------------------------------------
  // The web branch
  // ---------------------------------------------------------------------------

  /** One entry of Tavily's `results`. */
  datatype WebItem = WebItem(url: Option<string>, title: Option<string>)

  /** Tavily's reply: the results, or the exception raised by the call or the JSON decoding. */
  datatype WebReply = Results(items: seq<WebItem>) | SearchFailed(error: string)

  datatype Embedded = Embedded(url: string, title: string)

  datatype FailedUrl = FailedUrl(url: string, title: string, error: string)

  datatype WebSplit = WebSplit(embedded: seq<Embedded>, failed: seq<FailedUrl>)

  datatype WebOutcome = WebOutcome(error: Option<string>, embedded: seq<Embedded>, failed: seq<FailedUrl>)

  const Untitled: string := "Untitled"

  function TitleOf(item: WebItem): string {
    item.title.GetOr(Untitled)
  }

  /** The number of results carrying a URL: those are the ones the loop tries to add. */
  function UrlCount(items: seq<WebItem>): (n: nat)
    ensures n <= |items|
  {
    if items == [] then 0
    else UrlCount(items[..|items| - 1]) + (if Truthy(items[|items| - 1].url) then 1 else 0)
  }

  /** Where the results go when `add` calls are numbered from `start`: a result with a URL
      is embedded when its call returns and failed when it raises. */
  function Split(items: seq<WebItem>, outcome: nat -> Option<string>, start: nat): (r: WebSplit)
    ensures forall e :: e in r.embedded ==> e.url != ""
    ensures forall f :: f in r.failed ==> f.url != ""
  {
    if items == [] then WebSplit([], [])
    else
      var prev := Split(items[..|items| - 1], outcome, start);
      var item := items[|items| - 1];
      if !Truthy(item.url) then prev
      else match outcome(start + UrlCount(items[..|items| - 1]))
        case None => WebSplit(prev.embedded + [Embedded(item.url.value, TitleOf(item))], prev.failed)
        case Some(e) => WebSplit(prev.embedded, prev.failed + [FailedUrl(item.url.value, TitleOf(item), e)])
  }

  /** The number of the `n` calls from `start` that raise. */
  function FaultCount(outcome: nat -> Option<string>, start: nat, n: nat): (k: nat)
    ensures k <= n
  {
    if n == 0 then 0
    else FaultCount(outcome, start, n - 1) + (if outcome(start + n - 1).Some? then 1 else 0)
  }

  /** Every result with a URL lands in exactly one of the two lists. */
  lemma {:induction false} SplitCounts(items: seq<WebItem>, outcome: nat -> Option<string>, start: nat)
    ensures var r := Split(items, outcome, start);
      |r.embedded| + |r.failed| == UrlCount(items)
      && |r.failed| == FaultCount(outcome, start, UrlCount(items))
  {
    if items != [] {
      SplitCounts(items[..|items| - 1], outcome, start);
    }
  }

  /** With a knowledge base that never raises, every result with a URL is embedded. */
  lemma {:induction false} SplitAllEmbedded(items: seq<WebItem>, outcome: nat -> Option<string>, start: nat)
    requires forall n :: outcome(n).None?
    ensures Split(items, outcome, start).failed == []
    ensures |Split(items, outcome, start).embedded| == UrlCount(items)
  {
    if items != [] {
      SplitAllEmbedded(items[..|items| - 1], outcome, start);
    }
  }

  /** The sources a run of embedded pages adds to the knowledge base. */
  function Pages(embedded: seq<Embedded>): (r: seq<Ingested>)
    ensures |r| == |embedded|
    ensures forall i :: 0 <= i < |r| ==> r[i] == Ingested(embedded[i].url, WebPage)
  {
    if embedded == [] then []
    else Pages(embedded[..|embedded| - 1]) + [Ingested(embedded[|embedded| - 1].url, WebPage)]
  }

  lemma PagesSnoc(embedded: seq<Embedded>, e: Embedded)
    ensures Pages(embedded + [e]) == Pages(embedded) + [Ingested(e.url, WebPage)]
  {
    assert (embedded + [e])[..|embedded|] == embedded;
  }

  /** How one more result extends the split and the call count. */
  lemma SplitStep(items: seq<WebItem>, i: nat, outcome: nat -> Option<string>, start: nat)
    requires i < |items|
    ensures var prev, item, n := Split(items[..i], outcome, start), items[i], UrlCount(items[..i]);
      && UrlCount(items[..i + 1]) == n + (if Truthy(item.url) then 1 else 0)
      && Split(items[..i + 1], outcome, start) ==
        if !Truthy(item.url) then prev
        else if outcome(start + n).None? then WebSplit(prev.embedded + [Embedded(item.url.value, TitleOf(item))], prev.failed)
        else WebSplit(prev.embedded, prev.failed + [FailedUrl(item.url.value, TitleOf(item), outcome(start + n).value)])
  {
    assert items[..i + 1][..i] == items[..i];
  }

  /** `_search_web_and_embed`. */
  method SearchWebAndEmbed(kb: KnowledgeBase, reply: WebReply) returns (out: WebOutcome)
    modifies kb
    ensures reply.SearchFailed? ==>
      out == WebOutcome(Some(reply.error), [], []) && kb.sources == old(kb.sources) && kb.calls == old(kb.calls)
    ensures reply.Results? ==>
      && out.error.None?
      && WebSplit(out.embedded, out.failed) == Split(reply.items, kb.outcome, old(kb.calls))
      && kb.calls == old(kb.calls) + UrlCount(reply.items)
      && kb.sources == old(kb.sources) + Pages(out.embedded)
  {
    if reply.SearchFailed? {
      return WebOutcome(Some(reply.error), [], []);
    }
    var items := reply.items;
    var embedded: seq<Embedded> := [];
    var failed: seq<FailedUrl> := [];
    var i := 0;
    while i < |items|
      invariant 0 <= i <= |items|
      invariant WebSplit(embedded, failed) == Split(items[..i], kb.outcome, old(kb.calls))
      invariant kb.calls == old(kb.calls) + UrlCount(items[..i])
      invariant kb.sources == old(kb.sources) + Pages(embedded)
    {
      var item := items[i];
      SplitStep(items, i, kb.outcome, old(kb.calls));
      ghost var call := kb.calls;
      assert call == old(kb.calls) + UrlCount(items[..i]);
      if Truthy(item.url) {
        var error := kb.Add(item.url.value, WebPage);
        assert error == kb.outcome(call);
        if error.None? {
          var e := Embedded(item.url.value, TitleOf(item));
          PagesSnoc(embedded, e);
          Assoc(old(kb.sources), Pages(embedded), [Ingested(e.url, WebPage)]);
          embedded := embedded + [e];
        } else {
          failed := failed + [FailedUrl(item.url.value, TitleOf(item), error.value)];
        }
        assert WebSplit(embedded, failed) == Split(items[..i + 1], kb.outcome, old(kb.calls));
      }
      i := i + 1;
    }
    assert items[..i] == items;
    out := WebOutcome(None, embedded, failed);
  }

  // ---------------------------------------------------------------------------
  // The YouTube branch
  // ---------------------------------------------------------------------------

  const MaxVideos: int := 5
  const DaysBack: int := 90
  const Language: string := "en"

  /** The transcript service as seen from this tool: a backend per video id; for the
      i-th video of the loop, the faults of the regular and of the error-fallback save,
      the clock reading inside the save that writes and the one in the status. */
  datatype TranscriptWorld = TranscriptWorld(
    backendFor: string -> Transcript.TranscriptBackend,
    firstSave: nat -> Option<string>,
    secondSave: nat -> Option<string>,
    savedAt: nat -> string,
    reportedAt: nat -> string)

  /** One entry of `transcripts`: the fields read back from the transcript tool's JSON, or
      the exception it raised. */
  datatype TranscriptEntry =
    | Reported(videoId: string, status: string, source: string, wordCount: nat)
    | Raised(videoId: string, error: string)
  {
    function Status(): string {
      if Reported? then status else "error"
    }
  }

  /** `data.get("videos", [])`: an error reply has no `videos` key. */
  function Found(r: VideoSearch.SearchResult): seq<VideoSearch.VideoRecord> {
    if r.Listing? then r.videos else []
  }

  /** The entry the loop records for a transcript tool result; the error JSON carries no
      word count, and its source is the error fallback. */
  function EntryFor(videoId: string, r: Result<Transcript.TranscriptStatus, string>): (e: TranscriptEntry)
    ensures e.videoId == videoId
    ensures e.Status() == "success" <==> r.Success? && r.value.Saved?
    ensures e.Raised? <==> r.Failure?
  {
    match r
    case Failure(error) => Raised(videoId, error)
    case Success(s) =>
      match s
      case Saved(_, source, _, wordCount, _, _) => Reported(videoId, "success", Transcript.SourceName(source), wordCount)
      case Errored(_, _, _, _) => Reported(videoId, "error", Transcript.SourceName(Transcript.ErrorFallback), 0)
  }

  function Entry(world: TranscriptWorld, query: string, videos: seq<VideoSearch.VideoRecord>, i: nat)
    : (e: TranscriptEntry)
    requires i < |videos|
    ensures e.videoId == videos[i].videoId
    ensures e.Status() == "success" <==> world.firstSave(i).None?
    ensures e.Raised? <==> world.firstSave(i).Some? && world.secondSave(i).Some?
  {
    var v := videos[i];
    EntryFor(v.videoId, Transcript.ExtractResult(world.backendFor(v.videoId), v.videoId, v.description,
                                                  Language, query, world.reportedAt(i), world.firstSave(i), world.secondSave(i)))
  }

  /** One entry per video found, in the order of the listing. */
  function Entries(world: TranscriptWorld, query: string, videos: seq<VideoSearch.VideoRecord>)
    : (es: seq<TranscriptEntry>)
    ensures |es| == |videos|
    ensures forall i :: 0 <= i < |es| ==> es[i].videoId == videos[i].videoId
  {
    seq(|videos|, i requires 0 <= i < |videos| => Entry(world, query, videos, i))
  }

  /** The file every transcript of the run is appended to, and which is then ingested. */
  function TranscriptFile(query: string): (path: string)
    ensures path == Transcript.TranscriptPath(query)
  {
    "output/transcriptions/transcript_" + query + ".txt"
  }

  /** What the transcript tool appends to the topic's file for the i-th video. */
  function VideoAppend(world: TranscriptWorld, videos: seq<VideoSearch.VideoRecord>, i: nat): string
    requires i < |videos|
  {
    var v := videos[i];
    Transcript.ExtractAppend(world.backendFor(v.videoId), v.videoId, v.description, Language,
                             world.savedAt(i), world.firstSave(i), world.secondSave(i))
  }

  /** What the loop appends to the topic's file over the first `n` videos, in order. */
  function Appended(world: TranscriptWorld, videos: seq<VideoSearch.VideoRecord>, n: nat): string
    requires n <= |videos|
  {
    if n == 0 then [] else Appended(world, videos, n - 1) + VideoAppend(world, videos, n - 1)
  }

  lemma AppendedStep(world: TranscriptWorld, videos: seq<VideoSearch.VideoRecord>, i: nat)
    requires i < |videos|
    ensures Appended(world, videos, i + 1) == Appended(world, videos, i) + VideoAppend(world, videos, i)
  {
  }

  /** The topic's file gains nothing exactly when every video's transcript tool raised,
      that is, when both saves failed for each of them. */
  lemma {:induction false} AppendedEmpty(world: TranscriptWorld, videos: seq<VideoSearch.VideoRecord>, n: nat)
    requires n <= |videos|
    ensures Appended(world, videos, n) == []
        <==> forall i :: 0 <= i < n ==> world.firstSave(i).Some? && world.secondSave(i).Some?
  {
    if n > 0 {
      AppendedEmpty(world, videos, n - 1);
    }
  }

  datatype YouTubeOutcome = YouTubeOutcome(videos: seq<VideoSearch.VideoRecord>, transcripts: seq<TranscriptEntry>)

  /** `_search_youtube_and_transcribe`. The final `add` of the transcript file is outside
      any `try`: when it raises, the exception escapes, after the transcripts were written. */
  method SearchYouTubeAndTranscribe(kb: KnowledgeBase, store: Transcript.TranscriptStore, api: VideoSearch.YouTubeApi,
                                    world: TranscriptWorld, query: string, now: string)
    returns (r: Result<YouTubeOutcome, string>)
    modifies kb, store
    ensures var videos := Found(VideoSearch.Outcome(api, query, MaxVideos, DaysBack, now));
      r.Success? ==> r.value == YouTubeOutcome(videos, Entries(world, query, videos))
    ensures r.Failure? <==> kb.Raises(old(kb.calls)).Some?
    ensures r.Failure? ==> r.error == kb.Raises(old(kb.calls)).value
    ensures kb.calls == old(kb.calls) + 1
    ensures kb.sources == old(kb.sources) + (if r.Success? then [Ingested(TranscriptFile(query), PlainText)] else [])
    ensures var videos := Found(VideoSearch.Outcome(api, query, MaxVideos, DaysBack, now));
      store.Contents(TranscriptFile(query)) == old(store.Contents(TranscriptFile(query))) + Appended(world, videos, |videos|)
    ensures forall p :: p != TranscriptFile(query) ==> store.Contents(p) == old(store.Contents(p))
  {
    var listing := VideoSearch.Search(api, query, MaxVideos, DaysBack, now);
    var videos := Found(listing);
    var transcripts := TranscribeAll(store, world, query, videos);
    var error := kb.Add(TranscriptFile(query), PlainText);
    if error.Some? {
      return Failure(error.value);
    }
    r := Success(YouTubeOutcome(videos, transcripts));
  }

  /** The loop over the videos found: one transcript tool call and one entry per video. */
  method TranscribeAll(store: Transcript.TranscriptStore, world: TranscriptWorld, query: string,
                       videos: seq<VideoSearch.VideoRecord>)
    returns (transcripts: seq<TranscriptEntry>)
    modifies store
    ensures transcripts == Entries(world, query, videos)
    ensures store.Contents(TranscriptFile(query)) == old(store.Contents(TranscriptFile(query))) + Appended(world, videos, |videos|)
    ensures forall p :: p != TranscriptFile(query) ==> store.Contents(p) == old(store.Contents(p))
  {
    var path := TranscriptFile(query);
    transcripts := [];
    var i := 0;
    while i < |videos|
      invariant 0 <= i <= |videos|
      invariant transcripts == Entries(world, query, videos)[..i]
      invariant store.Contents(path) == old(store.Contents(path)) + Appended(world, videos, i)
      invariant forall p :: p != path ==> store.Contents(p) == old(store.Contents(p))
    {
      var entry := TranscribeVideo(store, world, query, videos, i);
      AppendedStep(world, videos, i);
      Assoc(old(store.Contents(path)), Appended(world, videos, i), VideoAppend(world, videos, i));
      PrefixSnoc(Entries(world, query, videos), i);
      transcripts := transcripts + [entry];
      i := i + 1;
    }
    FullPrefix(Entries(world, query, videos));
  }

  /** One pass of the loop: the transcript tool on the i-th video, and the entry recorded. */
  method TranscribeVideo(store: Transcript.TranscriptStore, world: TranscriptWorld, query: string,
                         videos: seq<VideoSearch.VideoRecord>, i: nat)
    returns (e: TranscriptEntry)
    requires i < |videos|
    modifies store
    ensures e == Entry(world, query, videos, i)
    ensures store.Contents(TranscriptFile(query)) == old(store.Contents(TranscriptFile(query))) + VideoAppend(world, videos, i)
    ensures forall p :: p != TranscriptFile(query) ==> store.Contents(p) == old(store.Contents(p))
  {
    var v := videos[i];
    var t := Transcript.Extract(store, world.backendFor(v.videoId), v.videoId, v.description, Language, query,
                                world.savedAt(i), world.reportedAt(i), world.firstSave(i), world.secondSave(i));
    e := EntryFor(v.videoId, t);
  }

  // ---------------------------------------------------------------------------
  // The run and its summary
  // ---------------------------------------------------------------------------

  /** The number of entries whose status is `success`. */
  function Transcribed(entries: seq<TranscriptEntry>): (n: nat)
    ensures n <= |entries|
  {
    if entries == [] then 0
    else Transcribed(entries[..|entries| - 1]) + (if entries[|entries| - 1].Status() == "success" then 1 else 0)
  }

  /** The number of the first `n` videos whose regular transcript save works. */
  function SavedCount(firstSave: nat -> Option<string>, n: nat): (k: nat)
    ensures k <= n
  {
    if n == 0 then 0 else SavedCount(firstSave, n - 1) + (if firstSave(n - 1).None? then 1 else 0)
  }

  /** A video counts as transcribed exactly when its transcript was saved normally, whatever
      source (manual, generated or the description) the text came from. */
  lemma {:induction false} TranscribedCountsSaves(world: TranscriptWorld, query: string,
                                                  videos: seq<VideoSearch.VideoRecord>, n: nat)
    requires n <= |videos|
    ensures Transcribed(Entries(world, query, videos)[..n]) == SavedCount(world.firstSave, n)
  {
    if n > 0 {
      var es := Entries(world, query, videos);
      assert es[..n][..n - 1] == es[..n - 1];
      TranscribedCountsSaves(world, query, videos, n - 1);
    }
  }

  /** Over the whole listing: the transcribed count is the count of normal saves. */
  lemma TranscribedEntries(world: TranscriptWorld, query: string, videos: seq<VideoSearch.VideoRecord>)
    ensures Transcribed(Entries(world, query, videos)) == SavedCount(world.firstSave, |videos|)
  {
    var es := Entries(world, query, videos);
    TranscribedCountsSaves(world, query, videos, |videos|);
    assert es[..|videos|] == es;
  }

  datatype Summary = Summary(webEmbedded: nat, webFailed: nat, ytFound: nat, ytTranscribed: nat)

  datatype Report = Report(query: string, web: WebOutcome, youtube: YouTubeOutcome, summary: Summary)

  /** The `summary` dictionary of `_run`. */
  function Summarize(web: WebOutcome, youtube: YouTubeOutcome): (s: Summary)
    ensures s.webEmbedded == |web.embedded| && s.webFailed == |web.failed|
    ensures s.ytFound == |youtube.videos| && s.ytTranscribed == Transcribed(youtube.transcripts)
    ensures |youtube.transcripts| == |youtube.videos| ==> s.ytTranscribed <= s.ytFound
  {
    Summary(|web.embedded|, |web.failed|, |youtube.videos|, Transcribed(youtube.transcripts))
  }

  /** The number of `add` calls the web branch makes for a reply. */
  function WebCalls(reply: WebReply): (n: nat)
    ensures reply.SearchFailed? ==> n == 0
  {
    if reply.Results? then UrlCount(reply.items) else 0
  }

  /** What `_search_web_and_embed` returns when its `add` calls are numbered from `start`. */
  function WebResult(reply: WebReply, outcome: nat -> Option<string>, start: nat): (w: WebOutcome)
    ensures reply.SearchFailed? ==> w == WebOutcome(Some(reply.error), [], [])
    ensures reply.Results? ==> w.error.None?
  {
    if reply.SearchFailed? then WebOutcome(Some(reply.error), [], [])
    else
      var split := Split(reply.items, outcome, start);
      WebOutcome(None, split.embedded, split.failed)
  }

  /** The summary of a run in terms of what it met: the results with a URL less the `add`
      calls that raised, those calls, the videos listed, and the regular saves that
      worked. */
  lemma SummaryCounts(reply: WebReply, outcome: nat -> Option<string>, start: nat, world: TranscriptWorld,
                      query: string, videos: seq<VideoSearch.VideoRecord>)
    ensures var faults := FaultCount(outcome, start, WebCalls(reply));
      Summarize(WebResult(reply, outcome, start), YouTubeOutcome(videos, Entries(world, query, videos)))
        == Summary(WebCalls(reply) - faults, faults, |videos|, SavedCount(world.firstSave, |videos|))
  {
    if reply.Results? {
      SplitCounts(reply.items, outcome, start);
    }
    TranscribedEntries(world, query, videos);
  }

  /** The web branch as the run sees it. */
  method WebBranch(kb: KnowledgeBase, reply: WebReply) returns (web: WebOutcome)
    modifies kb
    ensures web == WebResult(reply, kb.outcome, old(kb.calls))
    ensures kb.calls == old(kb.calls) + WebCalls(reply)
    ensures kb.sources == old(kb.sources) + Pages(web.embedded)
  {
    web := SearchWebAndEmbed(kb, reply);
  }

  lemma SameCall(kb: KnowledgeBase, m: nat, n: nat)
    requires m == n
    ensures kb.Raises(m) == kb.Raises(n)
  {
  }

  /** `_run`: the web branch, then the YouTube branch; an exception from the latter's final
      ingestion escapes the whole run. */
  method Run(kb: KnowledgeBase, store: Transcript.TranscriptStore, webReply: WebReply, api: VideoSearch.YouTubeApi,
             world: TranscriptWorld, query: string, now: string)
    returns (r: Result<Report, string>)
    modifies kb, store
    ensures r.Failure? <==> kb.Raises(old(kb.calls) + WebCalls(webReply)).Some?
    ensures r.Failure? ==> r.error == kb.Raises(old(kb.calls) + WebCalls(webReply)).value
    ensures r.Failure? ==> kb.sources == old(kb.sources) + Pages(WebResult(webReply, kb.outcome, old(kb.calls)).embedded)
    ensures kb.calls == old(kb.calls) + WebCalls(webReply) + 1
    ensures r.Success? ==>
      var videos := Found(VideoSearch.Outcome(api, query, MaxVideos, DaysBack, now));
      var web := WebResult(webReply, kb.outcome, old(kb.calls));
      && r.value.query == query
      && r.value.web == web
      && r.value.youtube == YouTubeOutcome(videos, Entries(world, query, videos))
      && r.value.summary == Summarize(r.value.web, r.value.youtube)
      && kb.sources == old(kb.sources) + Pages(web.embedded) + [Ingested(TranscriptFile(query), PlainText)]
    ensures r.Success? ==>
      var videos := Found(VideoSearch.Outcome(api, query, MaxVideos, DaysBack, now));
      var faults := FaultCount(kb.outcome, old(kb.calls), WebCalls(webReply));
      r.value.summary == Summary(WebCalls(webReply) - faults, faults, |videos|, SavedCount(world.firstSave, |videos|))
    ensures var videos := Found(VideoSearch.Outcome(api, query, MaxVideos, DaysBack, now));
      store.Contents(TranscriptFile(query)) == old(store.Contents(TranscriptFile(query))) + Appended(world, videos, |videos|)
    ensures forall p :: p != TranscriptFile(query) ==> store.Contents(p) == old(store.Contents(p))
  {
    var web := WebBranch(kb, webReply);
    ghost var mid := kb.calls;
    var yt := SearchYouTubeAndTranscribe(kb, store, api, world, query, now);
    SameCall(kb, mid, old(kb.calls) + WebCalls(webReply));
    if yt.Failure? {
      return Failure(yt.error);
    }
    SummaryCounts(webReply, kb.outcome, old(kb.calls), world, query, yt.value.videos);
    r := Success(Report(query, web, yt.value, Summarize(web, yt.value)));
  }
}
