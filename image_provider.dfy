/**
 * PoiskKinoImageProvider.cs: the remote images (a poster and a backdrop) of a movie, a series
 * or a season. The title is found by its stored PoiskKino id, else (not for seasons) by a
 * search whose best-ranked result is looked up in detail; the list is then filtered of TMDB
 * URLs when the plugin is set to ignore them.
 */
module ImageProvider {
  import opened Wrappers
  import opened Text
  import opened Models
  import opened Host
  import opened ImageUrl
  import opened ApiClient
  import opened TitleProviders

  /** Supports: movies, series and seasons; episodes and anything else are not served. */
  function Supports(item: BaseItem): (r: bool)
    ensures r <==> item.kind == MovieItem || item.kind == SeriesItem || item.kind == SeasonItem
    ensures item.kind == EpisodeItem ==> !r
  {
    item.kind.SeriesItem? || item.kind.SeasonItem? || item.kind.MovieItem?
  }

  /** GetSupportedImages: a poster and a backdrop, whatever the item. */
  function GetSupportedImages(item: BaseItem): (r: seq<ImageType>)
    ensures |r| == 2 && Primary in r && Backdrop in r
  {
    [Primary, Backdrop]
  }

  // ================================================================ the search candidate

  /** The search's kind filter: series for a Series item, non-series for a movie or anything else. */
  function KindFor(item: BaseItem): MediaKind
  {
    if item.kind == SeriesItem then SeriesKind else MovieKind
  }

  /** `r.Year == item.ProductionYear`, C#'s lifted equality: two missing years are equal. */
  predicate YearMatches(item: BaseItem, r: Item)
  {
    r.year == item.productionYear
  }

  /** The lower-cased item name equals the lower-cased result name (Russian, else English). */
  predicate NameMatches(item: BaseItem, r: Item)
  {
    ToLower(item.name.GetOr("")) == ToLower(r.name.OrElse(r.enName).GetOr(""))
  }

  /** OrderByDescending(year match).ThenByDescending(name match) as one number. */
  function Score(item: BaseItem, r: Item): int
  {
    (if YearMatches(item, r) then 2 else 0) + (if NameMatches(item, r) then 1 else 0)
  }

  /** One score orders results exactly as the two sort keys do: the year first, the name second. */
  lemma ScoreIsLexicographic(item: BaseItem, a: Item, b: Item)
    ensures Score(item, a) > Score(item, b) <==>
      (YearMatches(item, a) && !YearMatches(item, b))
      || (YearMatches(item, a) == YearMatches(item, b) && NameMatches(item, a) && !NameMatches(item, b))
  {
  }

  /**
   * Where a stable descending sort puts its first element: the first position holding the
   * highest score.
   */
  function BestIndex(item: BaseItem, items: seq<Item>): (k: nat)
    requires items != []
    ensures k < |items|
    ensures forall j | 0 <= j < |items| :: Score(item, items[j]) <= Score(item, items[k])
    ensures forall j | 0 <= j < k :: Score(item, items[j]) < Score(item, items[k])
  {
    if |items| == 1 then 0
    else
      var k := BestIndex(item, items[1..]) + 1;
      if Score(item, items[0]) >= Score(item, items[k]) then 0 else k
  }

  /** The candidate: the first best-scored result of the item's kind, if any is left. */
  function Candidate(item: BaseItem, results: seq<Item>): (r: Option<Item>)
    ensures r.None? <==> Kept(KindFor(item), results) == []
    ensures r.Some? ==> r.value in results && Keeps(KindFor(item), r.value)
    ensures r.Some? ==> forall x | x in Kept(KindFor(item), results) :: Score(item, x) <= Score(item, r.value)
  {
    var kept := Kept(KindFor(item), results);
    if kept == [] then None else Some(kept[BestIndex(item, kept)])
  }

  /**
   * A result of the right kind matching both year and name always beats one that does not:
   * the candidate then matches both too.
   */
  lemma ExactMatchIsChosen(item: BaseItem, results: seq<Item>, r: Item)
    requires r in results && Keeps(KindFor(item), r)
    requires YearMatches(item, r) && NameMatches(item, r)
    ensures Candidate(item, results).Some?
    ensures YearMatches(item, Candidate(item, results).value) && NameMatches(item, Candidate(item, results).value)
  {
    var kept := Kept(KindFor(item), results);
    assert r in kept;
    var i :| 0 <= i < |kept| && kept[i] == r;
    assert Score(item, kept[i]) == 3;
  }

  // ================================================================ image lists

  /** One RemoteImageInfo for a non-empty URL, none otherwise. */
  function ImageIfPresent(url: Option<string>, kind: ImageType): seq<RemoteImageInfo>
  {
    if IsNullOrEmpty(url) then [] else [RemoteImageInfo(url.value, kind, ProviderName)]
  }

  /**
   * The images of a title: its poster as Primary, then its backdrop as Backdrop, each only
   * when its URL is non-empty, all stamped with the provider's name.
   */
  function PosterAndBackdrop(poster: Option<Image>, backdrop: Option<Image>): (r: seq<RemoteImageInfo>)
    ensures |r| <= 2
    ensures forall i | 0 <= i < |r| :: r[i].url != "" && r[i].providerName == ProviderName
    ensures (|r| > 0 && r[0].kind == Primary) <==> !IsNullOrEmpty(UrlOf(poster))
    ensures |r| > 0 && r[0].kind == Primary ==> Some(r[0].url) == UrlOf(poster)
    ensures (|r| > 0 && r[|r| - 1].kind == Backdrop) <==> !IsNullOrEmpty(UrlOf(backdrop))
    ensures |r| > 0 && r[|r| - 1].kind == Backdrop ==> Some(r[|r| - 1].url) == UrlOf(backdrop)
  {
    ImageIfPresent(UrlOf(poster), Primary) + ImageIfPresent(UrlOf(backdrop), Backdrop)
  }

  /** `images.Where(img => !IsTmdbUrl(img.Url))`: the non-TMDB images, in order. */
  function WithoutTmdb(images: seq<RemoteImageInfo>): (r: seq<RemoteImageInfo>)
    ensures |r| <= |images|
    ensures forall i | 0 <= i < |r| :: !IsTmdbUrl(Some(r[i].url)) && r[i] in images
    ensures forall x | x in images && !IsTmdbUrl(Some(x.url)) :: x in r
  {
    if images == [] then []
    else if !IsTmdbUrl(Some(images[0].url)) then [images[0]] + WithoutTmdb(images[1..])
    else WithoutTmdb(images[1..])
  }

  /** The filter keeps the order: filtering a concatenation filters each part. */
  lemma {:induction false} WithoutTmdbDistributes(xs: seq<RemoteImageInfo>, ys: seq<RemoteImageInfo>)
    ensures WithoutTmdb(xs + ys) == WithoutTmdb(xs) + WithoutTmdb(ys)
    decreases |xs|
  {
    if xs == [] {
      assert xs + ys == ys;
    } else {
      assert (xs + ys)[0] == xs[0] && (xs + ys)[1..] == xs[1..] + ys;
      WithoutTmdbDistributes(xs[1..], ys);
    }
  }

  /** The post-filter, applied only when the plugin is set to ignore TMDB images. */
  function PostFilter(instance: Option<Plugin>, images: seq<RemoteImageInfo>): seq<RemoteImageInfo>
  {
    if ShouldIgnoreTmdbImages(instance) then WithoutTmdb(images) else images
  }

  // ================================================================ GetImages

  /** How the try block of GetImages ends. */
  datatype Exit =
    | EarlyReturn(images: seq<RemoteImageInfo>)  // a `return images` inside the try
    | Completed(images: seq<RemoteImageInfo>)    // the end of the try block
    | Caught                                     // an exception, caught before any image was added

  /** The search's candidate, when the search answered with a result list. */
  function SearchCandidate(item: BaseItem, response: Option<SearchResponse>): Option<Item>
  {
    if response.Some? && response.value.results.Some? then Candidate(item, response.value.results.value) else None
  }

  /** The lookups of the search branch: the search, then the details of a candidate with a positive id. */
  function SearchBranchRequests(item: BaseItem, search: Fetch<SearchResponse>): seq<Request>
    requires item.name.Some?
  {
    var candidate := SearchCandidate(item, search.OrNull());
    [TitleSearch(item.name.value, item.productionYear)]
    + (if candidate.Some? && candidate.value.id > 0 then [MovieById(candidate.value.id)] else [])
  }

  /** Where the search branch ends: the details' images, the candidate's own images, or nothing. */
  function SearchBranchOutcome(item: BaseItem, search: Fetch<SearchResponse>, byFoundId: Fetch<MovieDto>): Exit
  {
    if search.Threw? then Caught
    else
      var candidate := SearchCandidate(item, search.value);
      if candidate.None? then EarlyReturn([])
      else
        var c := candidate.value;
        if c.id > 0 && byFoundId.Threw? then Caught
        else if c.id > 0 && byFoundId.value.Some? then
          Completed(PosterAndBackdrop(byFoundId.value.value.poster, byFoundId.value.value.backdrop))
        else EarlyReturn(PosterAndBackdrop(c.poster, c.backdrop))
  }

  /** The lookups GetImages issues, in order. */
  function ImageRequests(item: BaseItem, instance: Option<Plugin>,
                         byStoredId: Fetch<MovieDto>, search: Fetch<SearchResponse>): seq<Request>
  {
    var stored := StoredId(item.providerIds);
    var first := if stored.Some? then [MovieById(stored.value)] else [];
    if IsBlank(ApiKey(instance)) then []
    else if stored.Some? && (byStoredId.Threw? || byStoredId.value.Some?) then first
    else if item.kind == SeasonItem || IsNullOrWhiteSpace(item.name) then first
    else first + SearchBranchRequests(item, search)
  }

  /** Where the try block of GetImages ends, and with which images. */
  function Outcome(item: BaseItem, instance: Option<Plugin>,
                   byStoredId: Fetch<MovieDto>, search: Fetch<SearchResponse>, byFoundId: Fetch<MovieDto>): Exit
  {
    var stored := StoredId(item.providerIds);
    if IsBlank(ApiKey(instance)) then EarlyReturn([])
    else if stored.Some? && byStoredId.Threw? then Caught
    else if stored.Some? && byStoredId.value.Some? then
      Completed(PosterAndBackdrop(byStoredId.value.value.poster, byStoredId.value.value.backdrop))
    else if item.kind == SeasonItem || IsNullOrWhiteSpace(item.name) then EarlyReturn([])
    else SearchBranchOutcome(item, search, byFoundId)
  }

  /** What GetImages returns: an early return skips the post-filter; the other two ends pass it. */
  function ImagesAsWritten(item: BaseItem, instance: Option<Plugin>,
                           byStoredId: Fetch<MovieDto>, search: Fetch<SearchResponse>, byFoundId: Fetch<MovieDto>): seq<RemoteImageInfo>
  {
    match Outcome(item, instance, byStoredId, search, byFoundId)
    case EarlyReturn(images) => images
    case Completed(images) => PostFilter(instance, images)
    case Caught => PostFilter(instance, [])
  }

  /** The list the post-filter evidently means to produce: every end passes the filter. */
  function IntendedImages(item: BaseItem, instance: Option<Plugin>,
                          byStoredId: Fetch<MovieDto>, search: Fetch<SearchResponse>, byFoundId: Fetch<MovieDto>): (r: seq<RemoteImageInfo>)
    ensures ShouldIgnoreTmdbImages(instance) ==> forall i | 0 <= i < |r| :: !IsTmdbUrl(Some(r[i].url))
    ensures !ShouldIgnoreTmdbImages(instance) ==> r == ImagesAsWritten(item, instance, byStoredId, search, byFoundId)
  {
    match Outcome(item, instance, byStoredId, search, byFoundId)
    case EarlyReturn(images) => PostFilter(instance, images)
    case Completed(images) => PostFilter(instance, images)
    case Caught => PostFilter(instance, [])
  }

  /**
   * The try block of GetImages. Each lookup's exception ends it as Caught; the
   * `return images` statements end it as EarlyReturn.
   */
  method Collect(item: BaseItem, instance: Option<Plugin>,
                 byStoredId: Fetch<MovieDto>, search: Fetch<SearchResponse>, byFoundId: Fetch<MovieDto>)
    returns (exit: Exit, requests: seq<Request>)
    ensures exit == Outcome(item, instance, byStoredId, search, byFoundId)
    ensures requests == ImageRequests(item, instance, byStoredId, search)
  {
    requests := [];
    if IsBlank(ApiKey(instance)) {
      return EarlyReturn([]), requests;
    }
    var data: Option<MovieDto> := None;
    var stored := StoredId(item.providerIds);
    if stored.Some? {
      requests := [MovieById(stored.value)];
      if byStoredId.Threw? {
        return Caught, requests;
      }
      data := byStoredId.value;
    }
    if data.None? && item.kind != SeasonItem {
      if IsNullOrWhiteSpace(item.name) {
        return EarlyReturn([]), requests;
      }
      var more;
      exit, more := SearchBranch(item, search, byFoundId);
      requests := requests + more;
      return;
    }
    if data.None? {
      return EarlyReturn([]), requests;
    }
    var images := AddImages(data.value.poster, data.value.backdrop);
    exit := Completed(images);
  }

  /** The search branch of GetImages: search, rank, look the candidate up, fall back to its own images. */
  method SearchBranch(item: BaseItem, search: Fetch<SearchResponse>, byFoundId: Fetch<MovieDto>)
    returns (exit: Exit, requests: seq<Request>)
    requires item.name.Some?
    ensures exit == SearchBranchOutcome(item, search, byFoundId)
    ensures search.Returned? ==> requests == SearchBranchRequests(item, search)
    ensures search.Threw? ==> requests == [TitleSearch(item.name.value, item.productionYear)]
  {
    requests := [TitleSearch(item.name.value, item.productionYear)];
    if search.Threw? {
      return Caught, requests;
    }
    var response := search.value;
    if response.None? || response.value.results.None? || |response.value.results.value| == 0 {
      return EarlyReturn([]), requests;
    }
    var candidate := Candidate(item, response.value.results.value);
    if candidate.None? {
      return EarlyReturn([]), requests;
    }
    var c := candidate.value;
    var data: Option<MovieDto> := None;
    if c.id > 0 {
      requests := requests + [MovieById(c.id)];
      if byFoundId.Threw? {
        return Caught, requests;
      }
      data := byFoundId.value;
    }
    if data.None? {
      var images := AddImages(c.poster, c.backdrop);
      return EarlyReturn(images), requests;
    }
    var images := AddImages(data.value.poster, data.value.backdrop);
    exit := Completed(images);
  }

  /** The two `images.Add` steps: the poster, then the backdrop, each only for a non-empty URL. */
  method AddImages(poster: Option<Image>, backdrop: Option<Image>) returns (images: seq<RemoteImageInfo>)
    ensures images == PosterAndBackdrop(poster, backdrop)
  {
    images := [];
    if poster.Some? && !IsNullOrEmpty(poster.value.url) {
      images := images + [RemoteImageInfo(poster.value.url.value, Primary, ProviderName)];
    }
    if backdrop.Some? && !IsNullOrEmpty(backdrop.value.url) {
      images := images + [RemoteImageInfo(backdrop.value.url.value, Backdrop, ProviderName)];
    }
  }

  /** GetImages as written: the post-filter runs after the try block, so early returns skip it. */
  method GetImages(item: BaseItem, instance: Option<Plugin>,
                   byStoredId: Fetch<MovieDto>, search: Fetch<SearchResponse>, byFoundId: Fetch<MovieDto>)
    returns (images: seq<RemoteImageInfo>, requests: seq<Request>)
    ensures images == ImagesAsWritten(item, instance, byStoredId, search, byFoundId)
    ensures requests == ImageRequests(item, instance, byStoredId, search)
  {
    var exit;
    exit, requests := Collect(item, instance, byStoredId, search, byFoundId);
    if exit.EarlyReturn? {
      return exit.images, requests;
    }
    images := if exit.Completed? then exit.images else [];
    if ShouldIgnoreTmdbImages(instance) {
      images := WithoutTmdb(images);
    }
  }

  /** GetImages with the post-filter on every path: no TMDB URL survives while the setting is on. */
  method GetImagesFiltered(item: BaseItem, instance: Option<Plugin>,
                           byStoredId: Fetch<MovieDto>, search: Fetch<SearchResponse>, byFoundId: Fetch<MovieDto>)
    returns (images: seq<RemoteImageInfo>, requests: seq<Request>)
    ensures images == IntendedImages(item, instance, byStoredId, search, byFoundId)
    ensures ShouldIgnoreTmdbImages(instance) ==> forall i | 0 <= i < |images| :: !IsTmdbUrl(Some(images[i].url))
    ensures requests == ImageRequests(item, instance, byStoredId, search)
  {
    var exit;
    exit, requests := Collect(item, instance, byStoredId, search, byFoundId);
    images := if exit.Caught? then [] else exit.images;
    if ShouldIgnoreTmdbImages(instance) {
      images := WithoutTmdb(images);
    }
  }

  // ================================================================ properties

  /** Every early return but the search candidate's own images returns nothing, so only that path escapes the filter. */
  lemma OnlyCandidateImagesEscapeFilter(item: BaseItem, instance: Option<Plugin>,
                                        byStoredId: Fetch<MovieDto>, search: Fetch<SearchResponse>, byFoundId: Fetch<MovieDto>)
    ensures var exit := Outcome(item, instance, byStoredId, search, byFoundId);
      ImagesAsWritten(item, instance, byStoredId, search, byFoundId) != IntendedImages(item, instance, byStoredId, search, byFoundId)
      ==> exit.EarlyReturn? && exit.images != [] && ShouldIgnoreTmdbImages(instance)
  {
  }

  const LeakedUrl: string := "tmdb.org"

  /** The leaked URL is a TMDB URL. */
  lemma LeakedUrlIsTmdb()
    ensures IsTmdbUrl(Some(LeakedUrl))
  {
    assert !IsBlank(LeakedUrl) by {
      assert !IsWhiteSpace(LeakedUrl[0]);
    }
    assert ToLower(LeakedUrl) == LeakedUrl;
    assert Contains(LeakedUrl, TmdbDomain) by {
      assert TmdbDomain <= LeakedUrl[0..];
    }
  }

  /**
   * The try block on the leaking input: a configured key, a movie named "A" with no stored id,
   * and a search whose one result has Id 0 and a TMDB poster ends in an early return of that poster.
   */
  lemma LeakOutcome(instance: Option<Plugin>, item: BaseItem, found: Item)
    requires instance == Some(Plugin(Some(Configuration("key", true))))
    requires item == BaseItem(MovieItem, Some("A"), None, None)
    requires found == Item(0, Some("A"), None, None, None, None, Some(Image(Some(LeakedUrl))), None, None)
    ensures Outcome(item, instance, Returned(None), Returned(Some(SearchResponse(Some([found])))), Returned(None))
      == EarlyReturn([RemoteImageInfo(LeakedUrl, Primary, ProviderName)])
  {
    var search := Returned(Some(SearchResponse(Some([found]))));
    assert !IsBlank(ApiKey(instance)) by {
      assert !IsWhiteSpace("key"[0]);
    }
    assert StoredId(item.providerIds) == None;
    assert !IsNullOrWhiteSpace(item.name) by {
      assert !IsWhiteSpace("A"[0]);
    }
    assert Kept(MovieKind, [found]) == [found];
    assert SearchCandidate(item, search.value) == Some(found);
    assert !IsNullOrEmpty(UrlOf(found.poster)) && IsNullOrEmpty(UrlOf(found.backdrop));
    assert PosterAndBackdrop(found.poster, found.backdrop) == [RemoteImageInfo(LeakedUrl, Primary, ProviderName)];
    assert SearchBranchOutcome(item, search, Returned(None)) == EarlyReturn([RemoteImageInfo(LeakedUrl, Primary, ProviderName)]);
  }

  /**
   * The search candidate's own poster passes through with the setting on: a movie found by
   * search whose result has no positive id keeps a TMDB poster.
   */
  method CandidateImagesEscapeFilter() returns (instance: Option<Plugin>, images: seq<RemoteImageInfo>)
    ensures ShouldIgnoreTmdbImages(instance)
    ensures images == [RemoteImageInfo(LeakedUrl, Primary, ProviderName)]
    ensures IsTmdbUrl(Some(images[0].url))
  {
    instance := Some(Plugin(Some(Configuration("key", true))));
    var item := BaseItem(MovieItem, Some("A"), None, None);
    var found := Item(0, Some("A"), None, None, None, None, Some(Image(Some(LeakedUrl))), None, None);
    var search := Returned(Some(SearchResponse(Some([found]))));
    LeakOutcome(instance, item, found);
    var requests;
    images, requests := GetImages(item, instance, Returned(None), search, Returned(None));
    LeakedUrlIsTmdb();
  }

  /** A stored id whose lookup answers wins: no search, and the detailed images pass the filter. */
  lemma StoredIdSkipsSearch(item: BaseItem, instance: Option<Plugin>, d: MovieDto,
                            search: Fetch<SearchResponse>, byFoundId: Fetch<MovieDto>)
    requires !IsBlank(ApiKey(instance)) && StoredId(item.providerIds).Some?
    ensures ImageRequests(item, instance, Returned(Some(d)), search) == [MovieById(StoredId(item.providerIds).value)]
    ensures ImagesAsWritten(item, instance, Returned(Some(d)), search, byFoundId)
      == PostFilter(instance, PosterAndBackdrop(d.poster, d.backdrop))
  {
  }

  /** A season is never searched for by name: its only possible lookup is by its stored id. */
  lemma SeasonsAreNeverSearched(item: BaseItem, instance: Option<Plugin>,
                                byStoredId: Fetch<MovieDto>, search: Fetch<SearchResponse>)
    requires item.kind == SeasonItem
    ensures ImageRequests(item, instance, byStoredId, search) == []
      || ImageRequests(item, instance, byStoredId, search) == [MovieById(StoredId(item.providerIds).value)]
  {
  }

  /** Details are fetched for the stored id, or for a search candidate with a positive id. */
  lemma DetailsOnlyForKnownIds(item: BaseItem, instance: Option<Plugin>,
                               byStoredId: Fetch<MovieDto>, search: Fetch<SearchResponse>)
    ensures forall q | q in ImageRequests(item, instance, byStoredId, search) && q.MovieById? ::
      Some(q.id) == StoredId(item.providerIds) || q.id > 0
  {
  }
}
