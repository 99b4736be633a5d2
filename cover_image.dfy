// The `PexelsCoverImageTool` of tools/image_search_tool.py: the size and aspect-ratio gate
// a photo must pass to become a cover image, the Google DeepMind photographer filter, the
// two searches with their candidate caps, and the three-level priority chain of `_run`.
// Every `random.shuffle` is an arbitrary permutation, every `random.choice` and
// `random.randint` an arbitrary value in range, and the clock a parameter.

module CoverImage {
  import opened Wrappers
  import opened Text

  const KeyMissing: string := "PEXELS_API_KEY environment variable is required"

  /** The key check of the constructor. */
  function Configure(apiKey: Option<string>): (r: Result<string, string>)
    ensures r.Success? <==> apiKey.Some? && apiKey.value != []
    ensures r.Success? ==> r.value == apiKey.value
    ensures r.Failure? ==> r.error == KeyMissing
  {
    if apiKey.None? || apiKey.value == [] then Failure(KeyMissing) else Success(apiKey.value)
  }

  const DeepMindQueries: seq<string> := [
    "Google DeepMind", "artificial intelligence research", "machine learning technology",
    "neural networks", "AI research", "deep learning"]

  const FallbackQueries: seq<string> := [
    "technology innovation", "computer science", "robotics technology", "data science",
    "software development"]

  // ---------------------------------------------------------------------------
  // Photos and the suitability gate
  // ---------------------------------------------------------------------------

  /** A Pexels photo; `photographer` and `alt` are `None` when the key is absent. */
  datatype Photo = Photo(
    id: int, width: int, height: int, large2x: string, alt: Option<string>,
    photographer: Option<string>, photographerUrl: string, url: string)

  /** The record `_check_image_suitability` builds. */
  datatype Cover = Cover(
    id: int, coverUrl: string, altText: string, width: int, height: int, aspectRatio: real,
    photographer: string, photographerUrl: string, pexelsUrl: string, attribution: string,
    searchQuery: string, source: string, isGoogleDeepMind: bool, devToOptimized: bool,
    selectionTime: int)

  /** The outcome of checking one photo: a cover, a photo that fails the gate, or the
      `KeyError` of a photo that passes the gate but has no photographer. */
  datatype Check = Suitable(cover: Cover) | Unsuitable | MissingPhotographer

  const MinWidth: int := 600
  const MinHeight: int := 300

  /** `width >= 600 and height >= 300` and then `1.5 <= width / height <= 4.0`. */
  predicate Fits(width: int, height: int) {
    width >= MinWidth && height >= MinHeight && 1.5 <= (width as real) / (height as real) <= 4.0
  }

  /** The ratio test is the integer cross-multiplication `3h <= 2w <= 8h`. */
  lemma FitsCrossMultiplied(width: int, height: int)
    ensures Fits(width, height) <==>
      width >= MinWidth && height >= MinHeight && 3 * height <= 2 * width && width <= 4 * height
  {
    if width >= MinWidth && height >= MinHeight {
      var w, h := width as real, height as real;
      BelowRatio(w, h, 1.5);
      AboveRatio(w, h, 4.0);
    }
  }

  lemma BelowRatio(w: real, h: real, c: real)
    requires h > 0.0
    ensures c <= w / h <==> c * h <= w
  {
    var ratio := w / h;
    assert ratio * h == w;
    if c <= ratio {
      MulMono(c, ratio, h);
    } else {
      MulMono(ratio, c, h);
    }
  }

  lemma AboveRatio(w: real, h: real, c: real)
    requires h > 0.0
    ensures w / h <= c <==> w <= c * h
  {
    var ratio := w / h;
    assert ratio * h == w;
    if ratio <= c {
      MulMono(ratio, c, h);
    } else {
      MulMono(c, ratio, h);
    }
  }

  lemma MulMono(a: real, b: real, h: real)
    requires h > 0.0
    ensures a <= b ==> a * h <= b * h
    ensures a < b ==> a * h < b * h
  {
  }

  /** `width >= 1000 and 400 <= height <= 450` */
  predicate DevToOptimized(width: int, height: int) {
    width >= 1000 && 400 <= height <= 450
  }

  const PexelsSource: string := "pexels"

  function AltText(photo: Photo, query: string): (alt: string)
    ensures alt != []
  {
    if photo.alt.Some? && photo.alt.value != [] then photo.alt.value else "Cover image for " + query
  }

  function Attribution(photographer: string): string {
    "Photo by " + photographer + " from Pexels"
  }

  /** `_check_image_suitability`. */
  function CheckSuitability(photo: Photo, query: string, isDeepMind: bool, now: int): (r: Check)
    ensures r.Unsuitable? <==> !Fits(photo.width, photo.height)
    ensures r.MissingPhotographer? <==> Fits(photo.width, photo.height) && photo.photographer.None?
    ensures r.Suitable? ==>
      var c := r.cover;
      && c.id == photo.id && c.coverUrl == photo.large2x && c.pexelsUrl == photo.url
      && c.width == photo.width && c.height == photo.height
      && c.aspectRatio == (photo.width as real) / (photo.height as real)
      && c.photographer == photo.photographer.value && c.photographerUrl == photo.photographerUrl
      && c.attribution == Attribution(c.photographer)
      && c.altText == AltText(photo, query) && c.searchQuery == query && c.source == PexelsSource
      && c.isGoogleDeepMind == isDeepMind
      && (c.devToOptimized <==> DevToOptimized(photo.width, photo.height))
      && c.selectionTime == now
  {
    if !Fits(photo.width, photo.height) then Unsuitable
    else if photo.photographer.None? then MissingPhotographer
    else
      var name := photo.photographer.value;
      Suitable(Cover(photo.id, photo.large2x, AltText(photo, query), photo.width, photo.height,
                     (photo.width as real) / (photo.height as real), name, photo.photographerUrl, photo.url,
                     Attribution(name), query, PexelsSource, isDeepMind,
                     DevToOptimized(photo.width, photo.height), now))
  }

  /** A cover meets the gate, and an optimized one is at least 1000 by 400 with a ratio
      of at most 4.5:1 cut down to 4:1 by the gate. */
  lemma SuitableFits(photo: Photo, query: string, isDeepMind: bool, now: int)
    requires CheckSuitability(photo, query, isDeepMind, now).Suitable?
    ensures var c := CheckSuitability(photo, query, isDeepMind, now).cover;
      && c.width >= MinWidth && c.height >= MinHeight && 3 * c.height <= 2 * c.width && c.width <= 4 * c.height
      && (c.devToOptimized ==> 1000 <= c.width <= 1800)
  {
    FitsCrossMultiplied(photo.width, photo.height);
  }

  // ---------------------------------------------------------------------------
  // The DeepMind photographer filter
  // ---------------------------------------------------------------------------

  const GoogleDeepMind: string := "google deepmind"
  const DeepMindName: string := "deepmind"

  /** `photo.get('photographer', '').lower()` */
  function PhotographerKey(photo: Photo): string {
    Lower(photo.photographer.GetOr([]))
  }

  /** The filter's condition, both disjuncts as written. */
  predicate IsDeepMind(photo: Photo) {
    Contains(PhotographerKey(photo), GoogleDeepMind) || Contains(PhotographerKey(photo), DeepMindName)
  }

  /** The first disjunct implies the second: the filter is `'deepmind' in name`. */
  lemma IsDeepMindByName(photo: Photo)
    ensures IsDeepMind(photo) <==> Contains(PhotographerKey(photo), DeepMindName)
  {
    if Contains(PhotographerKey(photo), GoogleDeepMind) {
      assert GoogleDeepMind[7..15] == DeepMindName;
      ContainsAt(GoogleDeepMind, DeepMindName, 7);
      ContainsTransitive(PhotographerKey(photo), GoogleDeepMind, DeepMindName);
    }
  }

  /** A DeepMind photo has a photographer: its name contains a non-empty text. */
  lemma DeepMindHasPhotographer(photo: Photo)
    requires IsDeepMind(photo)
    ensures photo.photographer.Some?
  {
    IsDeepMindByName(photo);
    if photo.photographer.None? {
      assert PhotographerKey(photo) == [];
      var k := ContainsIndex(PhotographerKey(photo), DeepMindName);
    }
  }

  /** The list comprehension keeping the DeepMind photos, in order. */
  function DeepMindPhotos(photos: seq<Photo>): (r: seq<Photo>)
    ensures |r| <= |photos|
    ensures forall p :: p in r <==> p in photos && IsDeepMind(p)
  {
    if photos == [] then []
    else (if IsDeepMind(photos[0]) then [photos[0]] else []) + DeepMindPhotos(photos[1..])
  }

  /** The filter keeps every DeepMind photo as many times as it occurs, and nothing else. */
  lemma {:induction false} DeepMindPhotosCount(photos: seq<Photo>, p: Photo)
    ensures multiset(DeepMindPhotos(photos))[p] == if IsDeepMind(p) then multiset(photos)[p] else 0
  {
    if photos != [] {
      DeepMindPhotosCount(photos[1..], p);
      assert photos == [photos[0]] + photos[1..];
    }
  }

  // ---------------------------------------------------------------------------
  // Checking candidates
  // ---------------------------------------------------------------------------

  /** The outcome of the `for photo in candidates: ... if result: return result` loop:
      the first check that is not `Unsuitable`. */
  function FirstCheck(photos: seq<Photo>, query: string, isDeepMind: bool, now: int): Check {
    if photos == [] then Unsuitable
    else
      var c := CheckSuitability(photos[0], query, isDeepMind, now);
      if !c.Unsuitable? then c
      else FirstCheck(photos[1..], query, isDeepMind, now)
  }

  /** The loop finds nothing exactly when no candidate passes the size and ratio gate. */
  lemma {:induction false} FirstCheckUnsuitable(photos: seq<Photo>, query: string, isDeepMind: bool, now: int)
    ensures FirstCheck(photos, query, isDeepMind, now).Unsuitable? <==>
      forall i :: 0 <= i < |photos| ==> !Fits(photos[i].width, photos[i].height)
  {
    if photos != [] {
      FirstCheckUnsuitable(photos[1..], query, isDeepMind, now);
      assert forall i :: 1 <= i < |photos| ==> photos[i] == photos[1..][i - 1];
    }
  }

  /** The first fitting candidate decides: every candidate before it fails the gate. */
  lemma {:induction false} FirstCheckIsFirst(photos: seq<Photo>, query: string, isDeepMind: bool, now: int) returns (i: nat)
    requires !FirstCheck(photos, query, isDeepMind, now).Unsuitable?
    ensures i < |photos| && FirstCheck(photos, query, isDeepMind, now) == CheckSuitability(photos[i], query, isDeepMind, now)
    ensures forall j :: 0 <= j < i ==> !Fits(photos[j].width, photos[j].height)
  {
    if CheckSuitability(photos[0], query, isDeepMind, now).Unsuitable? {
      var k := FirstCheckIsFirst(photos[1..], query, isDeepMind, now);
      i := k + 1;
    } else {
      i := 0;
    }
  }

  /** No candidate of a DeepMind list lacks a photographer. */
  lemma {:induction false} FirstCheckOfDeepMind(photos: seq<Photo>, query: string, now: int)
    requires forall p :: p in photos ==> IsDeepMind(p)
    ensures !FirstCheck(photos, query, true, now).MissingPhotographer?
  {
    if photos != [] {
      DeepMindHasPhotographer(photos[0]);
      FirstCheckOfDeepMind(photos[1..], query, now);
    }
  }

  /** The loop checking candidates with a fixed `is_deepmind`. */
  method FirstSuitable(photos: seq<Photo>, query: string, isDeepMind: bool, now: int) returns (r: Check)
    ensures r == FirstCheck(photos, query, isDeepMind, now)
  {
    var i := 0;
    while i < |photos|
      invariant 0 <= i <= |photos|
      invariant FirstCheck(photos[i..], query, isDeepMind, now) == FirstCheck(photos, query, isDeepMind, now)
    {
      var result := CheckSuitability(photos[i], query, isDeepMind, now);
      if !result.Unsuitable? {
        return result;
      }
      assert photos[i..][1..] == photos[i + 1..];
      i := i + 1;
    }
    return Unsuitable;
  }

  // ---------------------------------------------------------------------------
  // The Pexels searches
  // ---------------------------------------------------------------------------

  datatype SearchParams = SearchParams(query: string, perPage: nat, page: Option<nat>)

  /** The photos of a reply, or the exception raised by the request, `raise_for_status`
      or the JSON decoding. */
  datatype PhotoReply = Photos(photos: seq<Photo>) | Failed(error: string)

  datatype PexelsApi = PexelsApi(search: SearchParams -> PhotoReply)

  /** `random.shuffle`: the k-th shuffle of a run applied to a list. */
  type Shuffler = (nat, seq<Photo>) -> seq<Photo>

  ghost predicate Permutes(shuffle: Shuffler) {
    forall k, s :: multiset(shuffle(k, s)) == multiset(s)
  }

  const DeepMindPerPage: nat := 50
  const QueriesTried: nat := 3
  const DeepMindChecked: nat := 10
  const GeneralPerPage: nat := 40
  const GeneralChecked: nat := 8

  /** `_search_deepmind_photos` over the queries from `k` on; query `k` uses shuffle `k`. */
  function DeepMindSearch(api: PexelsApi, queries: seq<string>, shuffle: Shuffler, k: nat, now: int): (r: Option<Cover>)
    decreases |queries| - k
  {
    if k >= |queries| then None
    else
      var query := queries[k];
      var next := DeepMindSearch(api, queries, shuffle, k + 1, now);
      match api.search(SearchParams(query, DeepMindPerPage, None))
      case Failed(_) => next
      case Photos(photos) =>
        var deepMind := DeepMindPhotos(photos);
        if deepMind == [] then next
        else match FirstCheck(Take(shuffle(k, deepMind), DeepMindChecked), query, true, now)
          case Suitable(c) => Some(c)
          case _ => next
  }

  /** What the DeepMind search returns is a fitting photo by a DeepMind photographer, found
      by one of the queries tried. */
  lemma {:induction false} DeepMindSearchFinds(api: PexelsApi, queries: seq<string>, shuffle: Shuffler, k: nat, now: int)
    requires Permutes(shuffle)
    requires DeepMindSearch(api, queries, shuffle, k, now).Some?
    ensures var c := DeepMindSearch(api, queries, shuffle, k, now).value;
      && c.isGoogleDeepMind
      && Contains(Lower(c.photographer), DeepMindName)
      && c.width >= MinWidth && c.height >= MinHeight && 3 * c.height <= 2 * c.width && c.width <= 4 * c.height
      && c.searchQuery in queries[k..]
    decreases |queries| - k
  {
    var query := queries[k];
    var next := DeepMindSearch(api, queries, shuffle, k + 1, now);
    var reply := api.search(SearchParams(query, DeepMindPerPage, None));
    if reply.Photos? && DeepMindPhotos(reply.photos) != [] {
      var deepMind := DeepMindPhotos(reply.photos);
      var candidates := Take(shuffle(k, deepMind), DeepMindChecked);
      var check := FirstCheck(candidates, query, true, now);
      if check.Suitable? {
        var i := FirstCheckIsFirst(candidates, query, true, now);
        var p := candidates[i];
        SuitableFits(p, query, true, now);
        assert p in shuffle(k, deepMind);
        assert p in multiset(shuffle(k, deepMind));
        assert p in deepMind;
        IsDeepMindByName(p);
        return;
      }
    }
    DeepMindSearchFinds(api, queries, shuffle, k + 1, now);
    InLaterSuffix(queries, k, DeepMindSearch(api, queries, shuffle, k, now).value.searchQuery);
  }

  /** `_search_deepmind_photos`: the first three of the shuffled queries, each with its
      own shuffle of the DeepMind photos it finds, of which ten at most are checked. */
  method SearchDeepMindPhotos(api: PexelsApi, shuffledQueries: seq<string>, shuffle: Shuffler, now: int)
    returns (r: Option<Cover>)
    requires multiset(shuffledQueries) == multiset(DeepMindQueries)
    ensures r == DeepMindSearch(api, Take(shuffledQueries, QueriesTried), shuffle, 0, now)
  {
    var queries := Take(shuffledQueries, QueriesTried);
    var k := 0;
    while k < |queries|
      invariant 0 <= k <= |queries|
      invariant DeepMindSearch(api, queries, shuffle, k, now) == DeepMindSearch(api, queries, shuffle, 0, now)
    {
      var query := queries[k];
      var reply := api.search(SearchParams(query, DeepMindPerPage, None));
      if reply.Photos? {
        var deepMind := DeepMindPhotos(reply.photos);
        if deepMind != [] {
          var candidates := shuffle(k, deepMind);
          var result := FirstSuitable(Take(candidates, DeepMindChecked), query, true, now);
          if result.Suitable? {
            return Some(result.cover);
          }
        }
      }
      k := k + 1;
    }
    return None;
  }

  /** `_search_with_deepmind_filter`: prefer the DeepMind photos of one page, else all of
      them; check at most eight after shuffling. A photo without a photographer that passes
      the gate raises, and the exception ends the search with nothing. */
  function GeneralSearch(reply: PhotoReply, query: string, shuffle: Shuffler, k: nat, now: int): (r: Option<Cover>)
  {
    match reply
    case Failed(_) => None
    case Photos(photos) =>
      if photos == [] then None
      else
        var deepMind := DeepMindPhotos(photos);
        var candidates := shuffle(k, if deepMind != [] then deepMind else photos);
        match FirstCheck(Take(candidates, GeneralChecked), query, deepMind != [], now)
        case Suitable(c) => Some(c)
        case _ => None
  }

  /** What the general search returns fits, is marked DeepMind exactly when the page had
      DeepMind photos, and is then a DeepMind photo. */
  lemma GeneralSearchFinds(reply: PhotoReply, query: string, shuffle: Shuffler, k: nat, now: int)
    requires Permutes(shuffle)
    requires GeneralSearch(reply, query, shuffle, k, now).Some?
    ensures var c := GeneralSearch(reply, query, shuffle, k, now).value;
      && reply.Photos?
      && c.width >= MinWidth && c.height >= MinHeight && 3 * c.height <= 2 * c.width && c.width <= 4 * c.height
      && (c.isGoogleDeepMind <==> DeepMindPhotos(reply.photos) != [])
      && (c.isGoogleDeepMind ==> Contains(Lower(c.photographer), DeepMindName))
      && c.searchQuery == query
  {
    var photos := reply.photos;
    var deepMind := DeepMindPhotos(photos);
    var isDeepMind := deepMind != [];
    var pool := if isDeepMind then deepMind else photos;
    var candidates := Take(shuffle(k, pool), GeneralChecked);
    var i := FirstCheckIsFirst(candidates, query, isDeepMind, now);
    var p := candidates[i];
    SuitableFits(p, query, isDeepMind, now);
    if isDeepMind {
      assert p in shuffle(k, pool);
      assert p in multiset(shuffle(k, pool));
      assert p in deepMind;
      IsDeepMindByName(p);
    }
  }

  /** `_search_with_deepmind_filter`; `page` is the `random.randint(1, 3)` page. */
  method SearchWithDeepMindFilter(api: PexelsApi, query: string, page: nat, shuffle: Shuffler, k: nat, now: int)
    returns (r: Option<Cover>)
    requires 1 <= page <= 3
    requires Permutes(shuffle)
    ensures r == GeneralSearch(api.search(SearchParams(query, GeneralPerPage, Some(page))), query, shuffle, k, now)
  {
    var reply := api.search(SearchParams(query, GeneralPerPage, Some(page)));
    if reply.Failed? {
      return None;
    }
    var photos := reply.photos;
    if photos == [] {
      return None;
    }
    var deepMind := DeepMindPhotos(photos);
    var candidates := shuffle(k, if deepMind != [] then deepMind else photos);
    var checked := Take(candidates, GeneralChecked);
    ghost var isDeepMind := deepMind != [];
    var i := 0;
    while i < |checked|
      invariant 0 <= i <= |checked|
      invariant FirstCheck(checked[i..], query, isDeepMind, now) == FirstCheck(checked, query, isDeepMind, now)
    {
      var photo := checked[i];
      assert photo in multiset(candidates);
      var photoIsDeepMind := if deepMind != [] then photo in deepMind else false;
      assert photoIsDeepMind == isDeepMind;
      var result := CheckSuitability(photo, query, photoIsDeepMind, now);
      if result.Suitable? {
        return Some(result.cover);
      }
      if result.MissingPhotographer? {
        return None;
      }
      assert checked[i..][1..] == checked[i + 1..];
      i := i + 1;
    }
    return None;
  }

  // ---------------------------------------------------------------------------
  // The priority chain
  // ---------------------------------------------------------------------------

  datatype Outcome =
    | Found(cover: Cover, message: string)
    | NotFound(error: string, topic: string)

  function Quoted(s: string): string {
    "'" + s + "'"
  }

  function DeepMindMessage(topic: string): string { "Found Google DeepMind cover image for " + Quoted(topic) }
  function TechMessage(topic: string): string { "Found tech cover image for " + Quoted(topic) }
  function FallbackMessage(query: string): string { "Found fallback tech cover image: " + Quoted(query) }
  function NotFoundError(attempts: int): string {
    "No suitable cover image found after " + IntToString(attempts) + " attempts"
  }

  /** The random draws of one `_run`: the query order, the photo shuffles (0 to 2 for the
      DeepMind queries, 3 for the topic search, 4 for the fallback search), the two pages
      and the fallback query's index. */
  datatype Draws = Draws(shuffledQueries: seq<string>, shuffle: Shuffler, topicPage: nat, fallbackPage: nat,
                         fallbackPick: nat)

  ghost predicate Valid(d: Draws) {
    && multiset(d.shuffledQueries) == multiset(DeepMindQueries)
    && Permutes(d.shuffle)
    && 1 <= d.topicPage <= 3 && 1 <= d.fallbackPage <= 3
    && d.fallbackPick < |FallbackQueries|
  }

  const TopicShuffle: nat := 3
  const FallbackShuffle: nat := 4

  /** `_run`: the DeepMind search, then the topic search, then, when `attempts >= 2`, one
      fallback query. */
  method Run(api: PexelsApi, topic: string, attempts: int, d: Draws, now: int) returns (r: Outcome)
    requires Valid(d)
    ensures var first := DeepMindSearch(api, Take(d.shuffledQueries, QueriesTried), d.shuffle, 0, now);
      first.Some? ==> r == Found(first.value, DeepMindMessage(topic))
    ensures var first := DeepMindSearch(api, Take(d.shuffledQueries, QueriesTried), d.shuffle, 0, now);
      var second := GeneralSearch(api.search(SearchParams(topic, GeneralPerPage, Some(d.topicPage))), topic, d.shuffle, TopicShuffle, now);
      first.None? && second.Some? ==> r == Found(second.value, TechMessage(topic))
    ensures var first := DeepMindSearch(api, Take(d.shuffledQueries, QueriesTried), d.shuffle, 0, now);
      var second := GeneralSearch(api.search(SearchParams(topic, GeneralPerPage, Some(d.topicPage))), topic, d.shuffle, TopicShuffle, now);
      var query := FallbackQueries[d.fallbackPick];
      var third := GeneralSearch(api.search(SearchParams(query, GeneralPerPage, Some(d.fallbackPage))), query, d.shuffle, FallbackShuffle, now);
      first.None? && second.None? ==>
        if attempts >= 2 && third.Some? then r == Found(third.value, FallbackMessage(query))
        else r == NotFound(NotFoundError(attempts), topic)
  {
    var first := SearchDeepMindPhotos(api, d.shuffledQueries, d.shuffle, now);
    if first.Some? {
      return Found(first.value, DeepMindMessage(topic));
    }
    var second := SearchWithDeepMindFilter(api, topic, d.topicPage, d.shuffle, TopicShuffle, now);
    if second.Some? {
      return Found(second.value, TechMessage(topic));
    }
    if attempts >= 2 {
      var query := FallbackQueries[d.fallbackPick];
      var third := SearchWithDeepMindFilter(api, query, d.fallbackPage, d.shuffle, FallbackShuffle, now);
      if third.Some? {
        return Found(third.value, FallbackMessage(query));
      }
    }
    return NotFound(NotFoundError(attempts), topic);
  }
}
