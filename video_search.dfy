/** `YouTubeSearchTool`: one search for a topic, long videos only, each turned into a
    record with its relevance score, ranked by score. The two YouTube Data API calls
    are oracle functions; the clock is a parameter (`now`, and each video's age). */
module VideoSearch {
  import opened Text
  import opened Wrappers
  import Duration
  import Relevance

  /** One entry of the `videos().list` reply. Counts are `None` when the API omits them;
      `daysOld` is the video's age in whole days at the time of the search. */
  datatype VideoItem = VideoItem(
    id: string, title: string, description: Option<string>, publishedAt: string,
    channelTitle: string, channelId: string, durationCode: string,
    viewCount: Option<nat>, likeCount: Option<nat>, commentCount: Option<nat>,
    thumbnailHighUrl: Option<string>, daysOld: int)

  /** One video of the search result. */
  datatype VideoRecord = VideoRecord(
    videoId: string, title: string, description: string, descriptionPreview: string,
    publishedAt: string, channelTitle: string, channelId: string,
    durationSeconds: nat, durationFormatted: string,
    viewCount: nat, likeCount: nat, commentCount: nat,
    thumbnailUrl: string, videoUrl: string, relevanceScore: real)

  /** The parameters of the `search().list` request. */
  datatype SearchRequest = SearchRequest(
    query: string, maxResults: int, daysBack: int, order: string,
    videoDuration: string, videoDefinition: string, safeSearch: string)

  /** What an API call gives back: a value, or the message of the exception it raised. */
  datatype Reply<T> = Ok(value: T) | Raised(message: string)

  /** The two calls the tool makes: the search (video ids) and the details of those ids. */
  datatype YouTubeApi = YouTubeApi(
    search: SearchRequest -> Reply<seq<string>>,
    videos: seq<string> -> Reply<seq<VideoItem>>)

  /** The JSON the tool returns: the listing, or `{error, search_query}`. */
  datatype SearchResult =
    | Listing(query: string, totalFound: nat, searchDate: string, videos: seq<VideoRecord>, message: Option<string>)
    | SearchError(error: string, query: string)

  const WatchPrefix: string := "https://www.youtube.com/watch?v="
  const MinSeconds: nat := 300
  const PreviewLength: nat := 500

  /** The request cap `min(max_results, 50)`. */
  function RequestCap(maxResults: int): (cap: int)
    ensures cap <= 50 && cap <= maxResults
    ensures cap == maxResults || cap == 50
  {
    if maxResults < 50 then maxResults else 50
  }

  function RequestFor(topic: string, maxResults: int, daysBack: int): (req: SearchRequest)
    ensures req.query == topic && req.maxResults <= 50
  {
    SearchRequest(topic, RequestCap(maxResults), daysBack, "relevance", "medium", "high", "moderate")
  }

  /** The description preview: the description itself up to 500 characters, otherwise
      its first 500 characters and an ellipsis. */
  function Preview(description: string): (p: string)
    ensures |description| <= PreviewLength ==> p == description
    ensures |description| > PreviewLength ==>
      |p| == PreviewLength + 3 && p[..PreviewLength] == description[..PreviewLength] && p[PreviewLength..] == "..."
  {
    if |description| > PreviewLength then description[..PreviewLength] + "..." else description
  }

  /** The record of one video that passed the duration filter, `None` when its score
      cannot be computed (a topic without words). */
  function BuildRecord(item: VideoItem, topic: string): (r: Option<VideoRecord>)
    ensures r.None? <==> Words(Lower(topic)) == []
    ensures r.Some? ==> var v := r.value;
      && v.videoId == item.id && v.title == item.title
      && v.description == item.description.GetOr("")
      && v.descriptionPreview == Preview(v.description)
      && v.publishedAt == item.publishedAt
      && v.channelTitle == item.channelTitle && v.channelId == item.channelId
      && v.durationSeconds == Duration.ParseDuration(item.durationCode)
      && v.durationFormatted == Duration.FormatDuration(v.durationSeconds)
      && v.viewCount == item.viewCount.GetOr(0)
      && v.likeCount == item.likeCount.GetOr(0)
      && v.commentCount == item.commentCount.GetOr(0)
      && v.thumbnailUrl == item.thumbnailHighUrl.GetOr("")
      && v.videoUrl == WatchPrefix + item.id
      && Relevance.Score(topic, item.title, v.viewCount, v.likeCount, v.commentCount, item.durationCode, item.daysOld)
         == Some(v.relevanceScore)
      && 0.0 <= v.relevanceScore <= 100.0
  {
    var views, likes, comments := item.viewCount.GetOr(0), item.likeCount.GetOr(0), item.commentCount.GetOr(0);
    match Relevance.Score(topic, item.title, views, likes, comments, item.durationCode, item.daysOld)
    case None => None
    case Some(score) =>
      var duration := Duration.ParseDuration(item.durationCode);
      var description := item.description.GetOr("");
      Some(VideoRecord(
        item.id, item.title, description, Preview(description), item.publishedAt,
        item.channelTitle, item.channelId, duration, Duration.FormatDuration(duration),
        views, likes, comments, item.thumbnailHighUrl.GetOr(""), WatchPrefix + item.id, score))
  }

  predicate IsLong(item: VideoItem) {
    Duration.ParseDuration(item.durationCode) >= MinSeconds
  }

  /** The videos that survive the duration filter, in API order. */
  function LongItems(items: seq<VideoItem>): (r: seq<VideoItem>)
    ensures |r| <= |items|
    ensures forall j :: 0 <= j < |r| ==> IsLong(r[j])
  {
    if items == [] then []
    else LongItems(items[..|items| - 1]) + (if IsLong(items[|items| - 1]) then [items[|items| - 1]] else [])
  }

  /** The records the loop of `Search` collects, `None` if building one of them fails. */
  function Collect(items: seq<VideoItem>, topic: string): (r: Option<seq<VideoRecord>>)
    ensures r.Some? ==> |r.value| == |LongItems(items)|
    ensures r.Some? ==> forall j :: 0 <= j < |r.value| ==>
      r.value[j].durationSeconds >= MinSeconds && r.value[j].videoId == LongItems(items)[j].id
  {
    if items == [] then Some([])
    else
      var item := items[|items| - 1];
      match Collect(items[..|items| - 1], topic)
      case None => None
      case Some(vs) =>
        if !IsLong(item) then Some(vs)
        else
          match BuildRecord(item, topic)
          case None => None
          case Some(rec) => Some(vs + [rec])
  }

  /** Collecting fails exactly when the topic has no words and some video is long
      enough to be scored: the division by zero of the title term. */
  lemma {:induction false} CollectFails(items: seq<VideoItem>, topic: string)
    ensures Collect(items, topic).None? <==> Words(Lower(topic)) == [] && LongItems(items) != []
  {
    if items != [] {
      CollectFails(items[..|items| - 1], topic);
    }
  }

  predicate SortedByScore(vs: seq<VideoRecord>) {
    forall i, j :: 0 <= i < j < |vs| ==> vs[i].relevanceScore >= vs[j].relevanceScore
  }

  /** Inserts `x` before the first record that does not outscore it. */
  function Insert(x: VideoRecord, vs: seq<VideoRecord>): (r: seq<VideoRecord>)
    ensures |r| == |vs| + 1
  {
    if vs == [] || x.relevanceScore >= vs[0].relevanceScore then [x] + vs
    else [vs[0]] + Insert(x, vs[1..])
  }

  lemma {:induction false} InsertPermutes(x: VideoRecord, vs: seq<VideoRecord>)
    ensures multiset(Insert(x, vs)) == multiset(vs) + multiset{x}
  {
    if vs != [] && x.relevanceScore < vs[0].relevanceScore {
      InsertPermutes(x, vs[1..]);
      assert vs == [vs[0]] + vs[1..];
    }
  }

  /** Inserting into a ranked list keeps it ranked. */
  lemma {:induction false} InsertSorted(x: VideoRecord, vs: seq<VideoRecord>)
    requires SortedByScore(vs)
    ensures SortedByScore(Insert(x, vs))
    ensures Insert(x, vs)[0] == x || (|vs| > 0 && Insert(x, vs)[0] == vs[0])
  {
    if vs != [] && x.relevanceScore < vs[0].relevanceScore {
      InsertSorted(x, vs[1..]);
      var rest := Insert(x, vs[1..]);
      var r := [vs[0]] + rest;
      forall i, j | 0 <= i < j < |r|
        ensures r[i].relevanceScore >= r[j].relevanceScore
      {
        if i == 0 {
          assert r[j] == rest[j - 1];
          if j > 1 {
            assert rest[0].relevanceScore >= rest[j - 1].relevanceScore;
          }
        }
      }
    }
  }

  /** `videos.sort(key=relevance_score, reverse=True)`: a stable sort, highest score
      first; it is a library call in the tool, modelled here as an insertion sort. */
  function SortByScore(vs: seq<VideoRecord>): (r: seq<VideoRecord>)
    ensures |r| == |vs|
  {
    if vs == [] then [] else Insert(vs[0], SortByScore(vs[1..]))
  }

  /** The ranking is a permutation of the records, highest score first. */
  lemma {:induction false} SortByScoreRanks(vs: seq<VideoRecord>)
    ensures multiset(SortByScore(vs)) == multiset(vs)
    ensures SortedByScore(SortByScore(vs))
  {
    if vs != [] {
      SortByScoreRanks(vs[1..]);
      InsertPermutes(vs[0], SortByScore(vs[1..]));
      InsertSorted(vs[0], SortByScore(vs[1..]));
      assert vs == [vs[0]] + vs[1..];
    }
  }

  /** The records with score `v`, in order. */
  function WithScore(vs: seq<VideoRecord>, v: real): seq<VideoRecord> {
    if vs == [] then []
    else (if vs[0].relevanceScore == v then [vs[0]] else []) + WithScore(vs[1..], v)
  }

  lemma {:induction false} InsertWithScore(x: VideoRecord, vs: seq<VideoRecord>, v: real)
    ensures WithScore(Insert(x, vs), v) == (if x.relevanceScore == v then [x] else []) + WithScore(vs, v)
  {
    if vs == [] || x.relevanceScore >= vs[0].relevanceScore {
      assert ([x] + vs)[1..] == vs;
    } else {
      var rest := Insert(x, vs[1..]);
      assert ([vs[0]] + rest)[1..] == rest;
      InsertWithScore(x, vs[1..], v);
    }
  }

  /** The sort is stable: records of equal score keep their API order. */
  lemma {:induction false} SortByScoreStable(vs: seq<VideoRecord>, v: real)
    ensures WithScore(SortByScore(vs), v) == WithScore(vs, v)
  {
    if vs != [] {
      SortByScoreStable(vs[1..], v);
      InsertWithScore(vs[0], SortByScore(vs[1..]), v);
    }
  }

  const ErrorPrefix: string := "Error searching YouTube: "
  const NoVideosMessage: string := "No videos found for this topic"

  /** What `_run` returns for the given API replies: an error for an exception of either
      call or for a topic without words (whose message is Python's `division by zero`),
      the empty listing with a message when the search finds no ids, otherwise the long
      videos ranked by score. */
  function Outcome(api: YouTubeApi, topic: string, maxResults: int, daysBack: int, now: string): (r: SearchResult)
    ensures r.query == topic
    ensures r.Listing? ==> r.totalFound == |r.videos| && r.searchDate == now
    ensures r.Listing? && r.message.Some? ==> r.videos == []
    ensures r.SearchError? ==> StartsWith(r.error, ErrorPrefix)
  {
    match api.search(RequestFor(topic, maxResults, daysBack))
    case Raised(e) => SearchError(ErrorPrefix + e, topic)
    case Ok(ids) =>
      if ids == [] then Listing(topic, 0, now, [], Some(NoVideosMessage))
      else
        match api.videos(ids)
        case Raised(e) => SearchError(ErrorPrefix + e, topic)
        case Ok(items) =>
          match Collect(items, topic)
          case None => SearchError(ErrorPrefix + "division by zero", topic)
          case Some(videos) =>
            var ranked := SortByScore(videos);
            Listing(topic, |ranked|, now, ranked, None)
  }

  /** The search fails exactly when one of the two API calls raises, or when the topic
      has no words and at least one returned video is long enough to be scored. */
  lemma OutcomeFails(api: YouTubeApi, topic: string, maxResults: int, daysBack: int, now: string)
    ensures var reply := api.search(RequestFor(topic, maxResults, daysBack));
      Outcome(api, topic, maxResults, daysBack, now).SearchError? <==>
        || reply.Raised?
        || (reply.value != [] && api.videos(reply.value).Raised?)
        || (reply.value != [] && api.videos(reply.value).Ok?
            && Words(Lower(topic)) == [] && LongItems(api.videos(reply.value).value) != [])
  {
    var reply := api.search(RequestFor(topic, maxResults, daysBack));
    if reply.Ok? && reply.value != [] && api.videos(reply.value).Ok? {
      CollectFails(api.videos(reply.value).value, topic);
    }
  }

  /** A successful listing holds one record per long video, ranked, each record's
      videos of equal score staying in API order. */
  lemma OutcomeListsLongVideos(api: YouTubeApi, topic: string, maxResults: int, daysBack: int, now: string, v: real)
    requires Outcome(api, topic, maxResults, daysBack, now).Listing?
    requires Outcome(api, topic, maxResults, daysBack, now).message.None?
    ensures var reply := api.search(RequestFor(topic, maxResults, daysBack));
      && reply.Ok? && api.videos(reply.value).Ok?
      && var items := api.videos(reply.value).value;
      && Collect(items, topic).Some?
      && |Outcome(api, topic, maxResults, daysBack, now).videos| == |LongItems(items)|
      && WithScore(Outcome(api, topic, maxResults, daysBack, now).videos, v) == WithScore(Collect(items, topic).value, v)
  {
    var reply := api.search(RequestFor(topic, maxResults, daysBack));
    var items := api.videos(reply.value).value;
    SortByScoreStable(Collect(items, topic).value, v);
  }

  /** A listing is ranked highest score first and holds only videos of at least
      five minutes. */
  lemma OutcomeRanked(api: YouTubeApi, topic: string, maxResults: int, daysBack: int, now: string)
    ensures var r := Outcome(api, topic, maxResults, daysBack, now);
      r.Listing? ==> (SortedByScore(r.videos) &&
        forall j :: 0 <= j < |r.videos| ==> r.videos[j].durationSeconds >= MinSeconds)
  {
    var r := Outcome(api, topic, maxResults, daysBack, now);
    if r.Listing? && r.message.None? {
      var items := api.videos(api.search(RequestFor(topic, maxResults, daysBack)).value).value;
      var videos := Collect(items, topic).value;
      SortByScoreRanks(videos);
      forall j | 0 <= j < |r.videos|
        ensures r.videos[j].durationSeconds >= MinSeconds
      {
        assert r.videos[j] in multiset(videos);
        var k :| 0 <= k < |videos| && videos[k] == r.videos[j];
      }
    }
  }

  /** `YouTubeSearchTool._run`: the loop over the detail items builds the records of the
      long videos, then ranks them. */
  method Search(api: YouTubeApi, topic: string, maxResults: int, daysBack: int, now: string)
    returns (r: SearchResult)
    ensures r == Outcome(api, topic, maxResults, daysBack, now)
  {
    var request := RequestFor(topic, maxResults, daysBack);
    var searchReply := api.search(request);
    if searchReply.Raised? {
      return SearchError(ErrorPrefix + searchReply.message, topic);
    }
    var ids := searchReply.value;
    if ids == [] {
      return Listing(topic, 0, now, [], Some(NoVideosMessage));
    }
    var detailsReply := api.videos(ids);
    if detailsReply.Raised? {
      return SearchError(ErrorPrefix + detailsReply.message, topic);
    }
    var collected := CollectLong(detailsReply.value, topic);
    if collected.None? {
      return SearchError(ErrorPrefix + "division by zero", topic);
    }
    var ranked := SortByScore(collected.value);
    return Listing(topic, |ranked|, now, ranked, None);
  }

  /** The loop of `Search` over the details: short videos skipped, a record built for each
      long one; `None` stands for the division by zero that leaves the loop. */
  method CollectLong(items: seq<VideoItem>, topic: string) returns (r: Option<seq<VideoRecord>>)
    ensures r == Collect(items, topic)
  {
    var videos: seq<VideoRecord> := [];
    var i := 0;
    while i < |items|
      invariant 0 <= i <= |items|
      invariant Collect(items[..i], topic) == Some(videos)
    {
      CollectStep(items, i, topic);
      var item := items[i];
      var duration := Duration.ParseDuration(item.durationCode);
      if duration < MinSeconds {
        i := i + 1;
        continue;
      }
      var record := BuildRecord(item, topic);
      if record.None? {
        CollectNonePersists(items, i + 1, topic);
        return None;
      }
      videos := videos + [record.value];
      i := i + 1;
    }
    assert items[..i] == items;
    return Some(videos);
  }

  /** How one more item extends a collected prefix. */
  lemma CollectStep(items: seq<VideoItem>, i: nat, topic: string)
    requires i < |items|
    ensures var prev, item := Collect(items[..i], topic), items[i];
      Collect(items[..i + 1], topic) ==
        if prev.None? then None
        else if !IsLong(item) then prev
        else if BuildRecord(item, topic).None? then None
        else Some(prev.value + [BuildRecord(item, topic).value])
  {
    assert items[..i + 1][..i] == items[..i];
  }

  /** Once a prefix fails to collect, so does the whole list. */
  lemma {:induction false} CollectNonePersists(items: seq<VideoItem>, k: nat, topic: string)
    requires k <= |items| && Collect(items[..k], topic).None?
    ensures Collect(items, topic).None?
    decreases |items| - k
  {
    if k < |items| {
      assert items[..k + 1][..k] == items[..k];
      CollectNonePersists(items, k + 1, topic);
    } else {
      assert items[..k] == items;
    }
  }
}
