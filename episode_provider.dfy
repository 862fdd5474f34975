/**
 * PoiskKinoEpisodeProvider.cs: the metadata of one episode, picked out of its season, which
 * is fetched by the series' PoiskKino id and the season number. Episodes are never searched for.
 */
module EpisodeProvider {
  import opened Wrappers
  import opened Text
  import opened Models
  import opened Host
  import opened ImageUrl
  import opened ApiClient
  import opened SeasonProvider

  /** GetSearchResults: always the empty collection, with no lookup. */
  function GetSearchResults(info: EpisodeInfo): (r: seq<RemoteSearchResult>)
    ensures |r| == 0
  {
    []
  }

  /** `ParentIndexNumber ?? 1`: the season the episode belongs to. */
  function SeasonNumberOf(info: EpisodeInfo): Int32
  {
    info.parentIndexNumber.GetOr(DefaultNumber)
  }

  /** `IndexNumber ?? 1`: the episode within its season. */
  function EpisodeNumberOf(info: EpisodeInfo): Int32
  {
    info.indexNumber.GetOr(DefaultNumber)
  }

  /**
   * `Episodes.FirstOrDefault(e => e.Number == number)`: the first episode carrying the
   * number, or none when no episode does.
   */
  function FirstEpisode(episodes: seq<Episode>, number: Int32): (r: Option<Episode>)
    ensures r.None? <==> forall i | 0 <= i < |episodes| :: episodes[i].number != number
    ensures r.Some? ==> exists k | 0 <= k < |episodes| :: episodes[k] == r.value
                          && forall j | 0 <= j < k :: episodes[j].number != number
    ensures r.Some? ==> r.value.number == number
  {
    if |episodes| == 0 then None
    else if episodes[0].number == number then
      Some(episodes[0])
    else
      var rest := FirstEpisode(episodes[1..], number);
      assert forall i | 1 <= i < |episodes| :: episodes[i] == episodes[1..][i - 1];
      if rest.Some? then
        var k :| 0 <= k < |episodes[1..]| && episodes[1..][k] == rest.value
                 && forall j | 0 <= j < k :: episodes[1..][j].number != number;
        assert episodes[k + 1] == rest.value;
        assert forall j | 0 <= j < k + 1 :: episodes[j].number != number by {
          forall j | 0 <= j < k + 1 ensures episodes[j].number != number {
            if j > 0 {
              assert episodes[j] == episodes[1..][j - 1];
            }
          }
        }
        rest
      else
        rest
  }

  /** The lookup GetMetadataInternal issues: the season, unless the key is blank or the series id unknown. */
  function EpisodeRequests(info: EpisodeInfo, instance: Option<Plugin>): seq<Request>
  {
    var seriesId := SeriesId(info.seriesProviderIds);
    if IsBlank(ApiKey(instance)) || seriesId.None? then []
    else [SeasonOf(seriesId.value, SeasonNumberOf(info))]
  }

  /** The episode the season answer yields: none for no season, no episode list, or no match. */
  function ChosenEpisode(info: EpisodeInfo, answer: Fetch<Season>): Option<Episode>
  {
    var season := answer.OrNull();
    if season.None? || season.value.episodes.None? || |season.value.episodes.value| == 0 then None
    else FirstEpisode(season.value.episodes.value, EpisodeNumberOf(info))
  }

  /**
   * The Episode entity: its name falls back from the Russian name to the English one to
   * "Episode N" for the requested N; it sits in the requested season.
   */
  function EpisodeEntityOf(info: EpisodeInfo, episode: Episode): (r: EpisodeEntity)
    ensures episode.name.Some? ==> r.name == episode.name.value
    ensures episode.name.None? && episode.enName.Some? ==> r.name == episode.enName.value
    ensures episode.name.None? && episode.enName.None? ==> r.name == "Episode " + Show(EpisodeNumberOf(info))
    ensures r.overview == episode.description.OrElse(episode.enDescription)
    ensures r.indexNumber == episode.number && r.parentIndexNumber == SeasonNumberOf(info)
    ensures r.providerIds == CopyIds(info.providerIds)
    ensures r.images == []
  {
    EpisodeEntity(
      episode.name.OrElse(episode.enName).GetOr("Episode " + Show(EpisodeNumberOf(info))),
      episode.description.OrElse(episode.enDescription),
      episode.number,
      SeasonNumberOf(info),
      CopyIds(info.providerIds),
      [])
  }

  /** The result of GetMetadataInternal, given what the season lookup delivered. */
  function EpisodeMetadata(info: EpisodeInfo, instance: Option<Plugin>, answer: Fetch<Season>): MetadataResult<EpisodeEntity>
  {
    var episode := ChosenEpisode(info, answer);
    if EpisodeRequests(info, instance) == [] || episode.None? then EmptyResult()
    else
      var entity := EpisodeEntityOf(info, episode.value);
      MetadataResult(Some(entity.(images := PrimaryImages(episode.value.still, instance))), true, [])
  }

  /**
   * GetMetadataInternal: the result is filled step by step, the entity first, then its
   * still, then HasMetadata. A lookup exception is caught before the entity exists.
   */
  method GetMetadata(info: EpisodeInfo, instance: Option<Plugin>, answer: Fetch<Season>)
    returns (result: MetadataResult<EpisodeEntity>, requests: seq<Request>)
    ensures requests == EpisodeRequests(info, instance)
    ensures result == EpisodeMetadata(info, instance, answer)
  {
    result, requests := EmptyResult(), [];
    if IsBlank(ApiKey(instance)) {
      return;
    }
    var seriesId := SeriesId(info.seriesProviderIds);
    if seriesId.None? {
      return;
    }
    var seasonNumber := info.parentIndexNumber.GetOr(DefaultNumber);
    var episodeNumber := info.indexNumber.GetOr(DefaultNumber);
    requests := [SeasonOf(seriesId.value, seasonNumber)];
    if answer.Threw? {
      return;
    }
    var season := answer.value;
    if season.None? || season.value.episodes.None? || |season.value.episodes.value| == 0 {
      return;
    }
    var episode := FirstEpisode(season.value.episodes.value, episodeNumber);
    if episode.None? {
      return;
    }
    var built := EpisodeEntityOf(info, episode.value);
    result := result.(item := Some(built));
    var still := episode.value.still;
    if still.Some? && !IsNullOrEmpty(still.value.url) && !ShouldFilterUrl(instance, still.value.url) {
      var entity := result.item.value;
      assert entity.images + [ItemImage(still.value.url.value, Primary)] == PrimaryImages(still, instance);
      result := result.(item := Some(entity.(images := entity.images + [ItemImage(still.value.url.value, Primary)])));
    } else {
      assert PrimaryImages(still, instance) == [];
    }
    assert result.item == Some(built.(images := PrimaryImages(still, instance)));
    result := result.(hasMetadata := true);
  }

  /** HasMetadata is set exactly when an entity was built; no people are ever added. */
  lemma EpisodeHasMetadataExactlyWithItem(info: EpisodeInfo, instance: Option<Plugin>, answer: Fetch<Season>)
    ensures var r := EpisodeMetadata(info, instance, answer);
      && (r.hasMetadata <==> r.item.Some?)
      && (r.item.Some? <==> !IsBlank(ApiKey(instance)) && SeriesId(info.seriesProviderIds).Some?
                            && ChosenEpisode(info, answer).Some?)
      && r.people == []
  {
  }

  /**
   * The built episode is the first one of the returned season whose number is the requested
   * one (1 when the host gives none), and it is placed in the requested season.
   */
  lemma EpisodeIsFirstWithRequestedNumber(info: EpisodeInfo, instance: Option<Plugin>, season: Season)
    requires EpisodeMetadata(info, instance, Returned(Some(season))).item.Some?
    ensures season.episodes.Some?
    ensures var e := EpisodeMetadata(info, instance, Returned(Some(season))).item.value;
      var eps := season.episodes.value;
      && e.indexNumber == info.indexNumber.GetOr(1)
      && e.parentIndexNumber == info.parentIndexNumber.GetOr(1)
      && exists k | 0 <= k < |eps| :: e.(images := []) == EpisodeEntityOf(info, eps[k])
                                      && forall j | 0 <= j < k :: eps[j].number != e.indexNumber
  {
    var eps := season.episodes.value;
    var chosen := FirstEpisode(eps, EpisodeNumberOf(info));
    var k :| 0 <= k < |eps| && eps[k] == chosen.value
             && forall j | 0 <= j < k :: eps[j].number != EpisodeNumberOf(info);
    assert EpisodeMetadata(info, instance, Returned(Some(season))).item.value.(images := []) == EpisodeEntityOf(info, eps[k]);
  }

  /** A season without an episode of the requested number yields the empty result, not a guess. */
  lemma MissingEpisodeGivesNothing(info: EpisodeInfo, instance: Option<Plugin>, season: Season)
    requires season.episodes.Some?
    requires forall i | 0 <= i < |season.episodes.value| :: season.episodes.value[i].number != EpisodeNumberOf(info)
    ensures EpisodeMetadata(info, instance, Returned(Some(season))) == EmptyResult()
  {
  }

  /** A failed season lookup (an exception caught by the provider) yields the empty result. */
  lemma FailedLookupGivesNothing(info: EpisodeInfo, instance: Option<Plugin>)
    ensures EpisodeMetadata(info, instance, Threw) == EmptyResult()
  {
  }

  /** The built episode carries at most the still, never an empty or filtered URL. */
  lemma EpisodeImagesAreStills(info: EpisodeInfo, instance: Option<Plugin>, answer: Fetch<Season>)
    requires EpisodeMetadata(info, instance, answer).item.Some?
    ensures var e := EpisodeMetadata(info, instance, answer).item.value;
      && |e.images| <= 1
      && (forall i | 0 <= i < |e.images| :: e.images[i].kind == Primary && e.images[i].path != "")
      && (ShouldIgnoreTmdbImages(instance) ==> forall i | 0 <= i < |e.images| :: !IsTmdbUrl(Some(e.images[i].path)))
  {
  }
}
