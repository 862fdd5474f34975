/**
 * PoiskKinoSeasonProvider.cs: the metadata of one season, fetched by the series' PoiskKino id
 * and the season number. Seasons are never searched for.
 */
module SeasonProvider {
  import opened Wrappers
  import opened Text
  import opened Models
  import opened Host
  import opened ImageUrl
  import opened ApiClient
  import opened TitleProviders

  /** A missing season or episode number counts as 1. */
  const DefaultNumber: Int32 := 1

  /** GetSearchResults: always the empty collection, with no lookup. */
  function GetSearchResults(info: SeasonInfo): (r: seq<RemoteSearchResult>)
    ensures |r| == 0
  {
    []
  }

  /**
   * The series' PoiskKino id: `TryGetValue` then `int.TryParse`. Unlike StoredId it has no
   * emptiness test, and it needs none: an empty string never parses.
   */
  function SeriesId(seriesIds: Option<ProviderIds>): (r: Option<Int32>)
    ensures r == StoredId(seriesIds)
  {
    var s := GetProviderId(seriesIds, PoiskKinoKey);
    assert IsNullOrEmpty(s) ==> TryParseNullable(s).None? by {
      if s.Some? && s.value == "" {
        assert SkipTrailingWhite(SkipLeadingWhite(s.value)) == "";
      }
    }
    TryParseNullable(s)
  }

  /** The lookup GetMetadataInternal issues: the season, unless the key is blank or the series id unknown. */
  function SeasonRequests(info: SeasonInfo, instance: Option<Plugin>): seq<Request>
  {
    var seriesId := SeriesId(info.seriesProviderIds);
    if IsBlank(ApiKey(instance)) || seriesId.None? then []
    else [SeasonOf(seriesId.value, info.indexNumber.GetOr(DefaultNumber))]
  }

  /**
   * An image of the entity (a season's poster, an episode's still) as a Primary ItemImage,
   * when its URL is non-empty and not filtered away.
   */
  function PrimaryImages(image: Option<Image>, instance: Option<Plugin>): (r: seq<ItemImage>)
    ensures |r| <= 1
    ensures |r| == 1 <==> !IsNullOrEmpty(UrlOf(image)) && !ShouldFilterUrl(instance, UrlOf(image))
    ensures |r| == 1 ==> r[0] == ItemImage(UrlOf(image).value, Primary)
    ensures ShouldIgnoreTmdbImages(instance) ==> forall i | 0 <= i < |r| :: !IsTmdbUrl(Some(r[i].path))
  {
    var url := UrlOf(image);
    if !IsNullOrEmpty(url) && !ShouldFilterUrl(instance, url) then [ItemImage(url.value, Primary)] else []
  }

  /**
   * The Season entity: its name falls back from the Russian name to the English one to
   * "Season N" for the requested N; its index is the returned season's own number.
   */
  function SeasonEntityOf(info: SeasonInfo, season: Season, seasonNumber: Int32): (r: SeasonEntity)
    ensures season.name.Some? ==> r.name == season.name.value
    ensures season.name.None? && season.enName.Some? ==> r.name == season.enName.value
    ensures season.name.None? && season.enName.None? ==> r.name == "Season " + Show(seasonNumber)
    ensures r.overview == season.description.OrElse(season.enDescription)
    ensures r.indexNumber == season.number
    ensures r.providerIds == CopyIds(info.providerIds)
    ensures r.images == []
  {
    SeasonEntity(
      season.name.OrElse(season.enName).GetOr("Season " + Show(seasonNumber)),
      season.description.OrElse(season.enDescription),
      season.number,
      CopyIds(info.providerIds),
      [])
  }

  /** The result of GetMetadataInternal, given what the season lookup delivered. */
  function SeasonMetadata(info: SeasonInfo, instance: Option<Plugin>, answer: Fetch<Season>): MetadataResult<SeasonEntity>
  {
    var season := answer.OrNull();
    if SeasonRequests(info, instance) == [] || season.None? then EmptyResult()
    else
      var entity := SeasonEntityOf(info, season.value, info.indexNumber.GetOr(DefaultNumber));
      MetadataResult(Some(entity.(images := PrimaryImages(season.value.poster, instance))), true, [])
  }

  /**
   * GetMetadataInternal: the result is filled step by step, the entity first, then its
   * poster, then HasMetadata. A lookup exception is caught before the entity exists.
   */
  method GetMetadata(info: SeasonInfo, instance: Option<Plugin>, answer: Fetch<Season>)
    returns (result: MetadataResult<SeasonEntity>, requests: seq<Request>)
    ensures requests == SeasonRequests(info, instance)
    ensures result == SeasonMetadata(info, instance, answer)
  {
    result, requests := EmptyResult(), [];
    if IsBlank(ApiKey(instance)) {
      return;
    }
    var seriesId := SeriesId(info.seriesProviderIds);
    if seriesId.None? {
      return;
    }
    var seasonNumber := info.indexNumber.GetOr(DefaultNumber);
    requests := [SeasonOf(seriesId.value, seasonNumber)];
    if answer.Threw? {
      return;
    }
    var season := answer.value;
    if season.None? {
      return;
    }
    var built := SeasonEntityOf(info, season.value, seasonNumber);
    result := result.(item := Some(built));
    var poster := season.value.poster;
    if poster.Some? && !IsNullOrEmpty(poster.value.url) && !ShouldFilterUrl(instance, poster.value.url) {
      var entity := result.item.value;
      assert entity.images + [ItemImage(poster.value.url.value, Primary)] == PrimaryImages(poster, instance);
      result := result.(item := Some(entity.(images := entity.images + [ItemImage(poster.value.url.value, Primary)])));
    } else {
      assert PrimaryImages(poster, instance) == [];
    }
    assert result.item == Some(built.(images := PrimaryImages(poster, instance)));
    result := result.(hasMetadata := true);
  }

  /**
   * HasMetadata is set exactly when an entity was built, and that happens exactly when the
   * key is set, the series id parses and the lookup answered with a season.
   */
  lemma SeasonHasMetadataExactlyWithItem(info: SeasonInfo, instance: Option<Plugin>, answer: Fetch<Season>)
    ensures var r := SeasonMetadata(info, instance, answer);
      && (r.hasMetadata <==> r.item.Some?)
      && (r.item.Some? <==> !IsBlank(ApiKey(instance)) && SeriesId(info.seriesProviderIds).Some? && answer.OrNull().Some?)
      && r.people == []
  {
  }

  /** The season asked for is the requested number, 1 when the host gives none. */
  lemma SeasonNumberDefaultsToOne(info: SeasonInfo, instance: Option<Plugin>)
    requires !IsBlank(ApiKey(instance)) && SeriesId(info.seriesProviderIds).Some?
    requires info.indexNumber.None?
    ensures SeasonRequests(info, instance) == [SeasonOf(SeriesId(info.seriesProviderIds).value, 1)]
  {
  }

  /** The built season carries at most the one poster, never an empty or filtered URL. */
  lemma SeasonImagesArePosters(info: SeasonInfo, instance: Option<Plugin>, answer: Fetch<Season>)
    requires SeasonMetadata(info, instance, answer).item.Some?
    ensures var e := SeasonMetadata(info, instance, answer).item.value;
      && |e.images| <= 1
      && (forall i | 0 <= i < |e.images| :: e.images[i].kind == Primary && e.images[i].path != "")
      && (ShouldIgnoreTmdbImages(instance) ==> forall i | 0 <= i < |e.images| :: !IsTmdbUrl(Some(e.images[i].path)))
  {
  }
}
