/**
 * PoiskKinoMovieProvider.cs and PoiskKinoSeriesProvider.cs. The two providers are the same
 * code apart from the `IsSeries` filter of their search, so one model serves both,
 * parameterised by a MediaKind.
 *
 * A provider does not see the client's cache: what each lookup delivered (a value, null, or
 * an exception) is an input, and each operation also reports the lookups it issued, in order.
 */
module TitleProviders {
  import opened Wrappers
  import opened Text
  import opened Models
  import opened Host
  import opened ImageUrl
  import opened ApiClient

  /** Which provider: the movie provider keeps non-series results, the series provider series. */
  datatype MediaKind = MovieKind | SeriesKind

  /** The `IsSeries` filter: `!= true` for movies (a missing flag counts as a movie), `== true` for series. */
  predicate Keeps(kind: MediaKind, item: Item)
  {
    if kind == MovieKind then item.isSeries != Some(true) else item.isSeries == Some(true)
  }

  /** `Results.Where(...)`: the kept items, in the API's order. */
  function Kept(kind: MediaKind, items: seq<Item>): (r: seq<Item>)
    ensures |r| <= |items|
    ensures forall i | 0 <= i < |r| :: Keeps(kind, r[i]) && r[i] in items
    ensures forall x | x in items && Keeps(kind, x) :: x in r
  {
    if items == [] then []
    else if Keeps(kind, items[0]) then [items[0]] + Kept(kind, items[1..])
    else Kept(kind, items[1..])
  }

  /** The filter keeps the API's order: filtering a concatenation filters each part. */
  lemma {:induction false} KeptDistributes(kind: MediaKind, xs: seq<Item>, ys: seq<Item>)
    ensures Kept(kind, xs + ys) == Kept(kind, xs) + Kept(kind, ys)
    decreases |xs|
  {
    if xs == [] {
      assert xs + ys == ys;
    } else {
      assert xs + ys == [xs[0]] + (xs[1..] + ys);
      assert (xs + ys)[0] == xs[0] && (xs + ys)[1..] == xs[1..] + ys;
      KeptDistributes(kind, xs[1..], ys);
      if Keeps(kind, xs[0]) {
        calc {
          Kept(kind, xs + ys);
          [xs[0]] + Kept(kind, xs[1..] + ys);
          [xs[0]] + (Kept(kind, xs[1..]) + Kept(kind, ys));
          ([xs[0]] + Kept(kind, xs[1..])) + Kept(kind, ys);
        }
      }
    }
  }

  /** Every result goes to exactly one of the two providers. */
  lemma {:induction false} KindsPartitionResults(items: seq<Item>)
    ensures |Kept(MovieKind, items)| + |Kept(SeriesKind, items)| == |items|
    ensures multiset(Kept(MovieKind, items)) + multiset(Kept(SeriesKind, items)) == multiset(items)
    decreases |items|
  {
    if items != [] {
      KindsPartitionResults(items[1..]);
      assert items == [items[0]] + items[1..];
    }
  }

  // ================================================================ provider ids

  function ImdbOf(e: Option<ExternalId>): Option<string>
  {
    if e.Some? then e.value.imdb else None
  }

  function KpHdOf(e: Option<ExternalId>): Option<string>
  {
    if e.Some? then e.value.kpHd else None
  }

  function TmdbOf(e: Option<ExternalId>): Option<Int32>
  {
    if e.Some? then e.value.tmdb else None
  }

  /** The ProviderIds keys the title's data writes: its own id always, the others when present. */
  function WrittenKeys(e: Option<ExternalId>): set<string>
  {
    {PoiskKinoKey}
    + (if !IsNullOrEmpty(KpHdOf(e)) then {KinopoiskKey} else {})
    + (if !IsNullOrEmpty(ImdbOf(e)) then {ImdbKey} else {})
    + (if TmdbOf(e).Some? then {TmdbKey} else {})
  }

  /** The four ProviderIds keys the providers write are distinct. */
  lemma WrittenKeysDistinct()
    ensures PoiskKinoKey != KinopoiskKey && PoiskKinoKey != ImdbKey && PoiskKinoKey != TmdbKey
    ensures KinopoiskKey != ImdbKey && KinopoiskKey != TmdbKey && ImdbKey != TmdbKey
  {
    assert PoiskKinoKey[0] == 'P' && KinopoiskKey[0] == 'K' && ImdbKey[0] == 'I' && TmdbKey[0] == 'T';
  }

  /**
   * The ids GetMetadataInternal writes over a copy of the item's own: the PoiskKino id always;
   * the Kinopoisk (kpHD) and IMDb ids when non-empty; the TMDB id when it has a value. Every
   * other id of the item is kept as it was.
   */
  function MergedIds(start: ProviderIds, id: Int32, e: Option<ExternalId>): (ids: ProviderIds)
    ensures ids.Keys == start.Keys + WrittenKeys(e)
    ensures forall k | k in start && k !in WrittenKeys(e) :: ids[k] == start[k]
    ensures ids[PoiskKinoKey] == Show(id)
    ensures KinopoiskKey in WrittenKeys(e) ==> Some(ids[KinopoiskKey]) == KpHdOf(e)
    ensures ImdbKey in WrittenKeys(e) ==> Some(ids[ImdbKey]) == ImdbOf(e)
    ensures TmdbKey in WrittenKeys(e) ==> ids[TmdbKey] == Show(TmdbOf(e).value)
  {
    WrittenKeysDistinct();
    var ids := start[PoiskKinoKey := Show(id)];
    var ids := if !IsNullOrEmpty(KpHdOf(e)) then ids[KinopoiskKey := KpHdOf(e).value] else ids;
    var ids := if !IsNullOrEmpty(ImdbOf(e)) then ids[ImdbKey := ImdbOf(e).value] else ids;
    var ids := if TmdbOf(e).Some? then ids[TmdbKey := Show(TmdbOf(e).value)] else ids;
    ids
  }

  /** `item.ExternalId?.Tmdb.ToString()`: null without an external id, "" for a missing TMDB id. */
  function TmdbText(e: Option<ExternalId>): Option<string>
  {
    if e.None? then None
    else if e.value.tmdb.None? then Some("")
    else Some(Show(e.value.tmdb.value))
  }

  /**
   * The ids of one search result. The TMDB test goes through the nullable's text, which is
   * empty exactly when the id is missing, so a search result carries the very ids the
   * metadata of the same title would write over an empty dictionary.
   */
  function SearchResultIds(item: Item): (ids: ProviderIds)
    ensures ids == MergedIds(map[], item.id, item.externalId)
  {
    var e := item.externalId;
    var ids := map[PoiskKinoKey := Show(item.id)];
    var ids := if !IsNullOrEmpty(ImdbOf(e)) then ids[ImdbKey := ImdbOf(e).value] else ids;
    var ids := if !IsNullOrEmpty(KpHdOf(e)) then ids[KinopoiskKey := KpHdOf(e).value] else ids;
    assert !IsNullOrEmpty(TmdbText(e)) <==> TmdbOf(e).Some? by {
      if TmdbOf(e).Some? {
        ShowNotEmpty(TmdbOf(e).value);
      }
    }
    var t := TmdbText(e);
    if !IsNullOrEmpty(t) then ids[TmdbKey := t.value] else ids
  }

  /** `!string.IsNullOrEmpty(s) && int.TryParse(s, out id)` on the PoiskKino entry of some ids. */
  function StoredId(ids: Option<ProviderIds>): (r: Option<Int32>)
    ensures IsNullOrEmpty(GetProviderId(ids, PoiskKinoKey)) ==> r.None?
    ensures r.Some? ==> TryParseInt(GetProviderId(ids, PoiskKinoKey).value) == r
  {
    var s := GetProviderId(ids, PoiskKinoKey);
    if IsNullOrEmpty(s) then None else TryParseNullable(s)
  }

  /** The id the providers write under the PoiskKino key is the id they read back from it. */
  lemma StoredIdReadsWrittenId(ids: ProviderIds, id: Int32)
    ensures StoredId(Some(ids[PoiskKinoKey := Show(id)])) == Some(id)
  {
    ShowNotEmpty(id);
    ParseShowRoundTrip(id);
  }

  // ================================================================ search

  /**
   * The RemoteSearchResult of one kept item: its name (or English name), year, description
   * and ids, and its poster unless the poster is empty or filtered away.
   */
  function SearchResultOf(item: Item, instance: Option<Plugin>): (r: RemoteSearchResult)
    ensures item.name.Some? ==> r.name == item.name
    ensures item.name.None? ==> r.name == item.enName
    ensures r.providerIds == MergedIds(map[], item.id, item.externalId)
    ensures r.imageUrl.Some? ==> r.imageUrl == UrlOf(item.poster) && r.imageUrl.value != ""
    ensures r.imageUrl.None? ==> IsNullOrEmpty(UrlOf(item.poster)) || ShouldFilterUrl(instance, UrlOf(item.poster))
    ensures ShouldIgnoreTmdbImages(instance) ==> !IsTmdbUrl(r.imageUrl)
  {
    var poster := UrlOf(item.poster);
    RemoteSearchResult(
      item.name.OrElse(item.enName),
      item.year,
      item.description,
      SearchResultIds(item),
      if !IsNullOrEmpty(poster) && !ShouldFilterUrl(instance, poster) then poster else None)
  }

  /** The search lookup GetSearchResultsInternal issues: none for a blank title or a blank key. */
  function SearchRequests(info: ItemLookupInfo, instance: Option<Plugin>): seq<Request>
  {
    if IsNullOrWhiteSpace(info.name) || IsBlank(ApiKey(instance)) then []
    else [TitleSearch(info.name.value, info.year)]
  }

  /** The items the search maps: none without a request, a response or a result list. */
  function KeptItems(kind: MediaKind, info: ItemLookupInfo, instance: Option<Plugin>, answer: Fetch<SearchResponse>): seq<Item>
  {
    var response := answer.OrNull();
    if SearchRequests(info, instance) == [] || response.None? || response.value.results.None? then []
    else Kept(kind, response.value.results.value)
  }

  /** One search result per kept item, in order. */
  function SearchResults(kind: MediaKind, info: ItemLookupInfo, instance: Option<Plugin>, answer: Fetch<SearchResponse>): seq<RemoteSearchResult>
  {
    var items := KeptItems(kind, info, instance, answer);
    seq(|items|, i requires 0 <= i < |items| => SearchResultOf(items[i], instance))
  }

  /**
   * GetSearchResultsInternal. An exception from the lookup is caught and leaves the list
   * empty, which is what a null response gives.
   */
  method GetSearchResults(kind: MediaKind, info: ItemLookupInfo, instance: Option<Plugin>, answer: Fetch<SearchResponse>)
    returns (results: seq<RemoteSearchResult>, requests: seq<Request>)
    ensures requests == SearchRequests(info, instance)
    ensures results == SearchResults(kind, info, instance, answer)
  {
    results, requests := [], [];
    if IsNullOrWhiteSpace(info.name) {
      return;
    }
    if IsBlank(ApiKey(instance)) {
      return;
    }
    requests := [TitleSearch(info.name.value, info.year)];
    var response := answer.OrNull();
    if response.None? || response.value.results.None? {
      return;
    }
    var kept := Kept(kind, response.value.results.value);
    assert kept == KeptItems(kind, info, instance, answer);
    results := AddResults(kept, instance);
  }

  /** The `foreach` of GetSearchResultsInternal: one search result per kept item, added in order. */
  method AddResults(items: seq<Item>, instance: Option<Plugin>) returns (results: seq<RemoteSearchResult>)
    ensures |results| == |items|
    ensures forall j | 0 <= j < |items| :: results[j] == SearchResultOf(items[j], instance)
  {
    results := [];
    var i := 0;
    while i < |items|
      invariant 0 <= i <= |items|
      invariant |results| == i
      invariant forall j | 0 <= j < i :: results[j] == SearchResultOf(items[j], instance)
    {
      results := results + [SearchResultOf(items[i], instance)];
      i := i + 1;
    }
  }

  /** The first search result names the first kept item: its PoiskKino id parses back to that item's id. */
  lemma FirstResultNamesFirstItem(kind: MediaKind, info: ItemLookupInfo, instance: Option<Plugin>, answer: Fetch<SearchResponse>)
    requires SearchResults(kind, info, instance, answer) != []
    ensures var items := KeptItems(kind, info, instance, answer);
      StoredId(Some(SearchResults(kind, info, instance, answer)[0].providerIds)) == Some(items[0].id)
  {
    var items := KeptItems(kind, info, instance, answer);
    var ids := SearchResults(kind, info, instance, answer)[0].providerIds;
    assert ids == MergedIds(map[], items[0].id, items[0].externalId);
    ShowNotEmpty(items[0].id);
    ParseShowRoundTrip(items[0].id);
  }

  // ================================================================ people

  const DirectorWords: seq<string> := ["режиссер", "director"]
  const ActorWords: seq<string> := ["актер", "актриса", "actor", "actress"]
  const ProducerWords: seq<string> := ["продюсер", "producer"]
  const WriterWords: seq<string> := ["сценарист", "writer", "screenplay"]
  const ComposerWords: seq<string> := ["композитор", "composer"]

  function WordsOf(kind: PersonKind): seq<string>
  {
    match kind
    case Director => DirectorWords
    case Actor => ActorWords
    case Producer => ProducerWords
    case Writer => WriterWords
    case Composer => ComposerWords
  }

  /** The order in which the kinds are tested. */
  function Priority(kind: PersonKind): nat
  {
    match kind
    case Director => 0
    case Actor => 1
    case Producer => 2
    case Writer => 3
    case Composer => 4
  }

  /** The lower-cased profession contains one of the kind's words. */
  predicate Mentions(lowered: string, kind: PersonKind)
  {
    exists i | 0 <= i < |WordsOf(kind)| :: Contains(lowered, WordsOf(kind)[i])
  }

  /**
   * GetPersonKind: the first kind, in the order Director, Actor, Producer, Writer, Composer,
   * one of whose words the lower-cased profession contains; Actor when none matches and for
   * a null or empty profession.
   */
  function GetPersonKind(profession: Option<string>): (r: PersonKind)
    ensures IsNullOrEmpty(profession) ==> r == Actor
    ensures !IsNullOrEmpty(profession) ==>
      var lowered := ToLower(profession.value);
      && (r == Actor || Mentions(lowered, r))
      && (forall k | Priority(k) < Priority(r) :: !Mentions(lowered, k))
      && (r == Actor && !Mentions(lowered, Actor) ==> forall k :: !Mentions(lowered, k))
  {
    if IsNullOrEmpty(profession) then Actor
    else
      var lowered := ToLower(profession.value);
      if Mentions(lowered, Director) then Director
      else if Mentions(lowered, Actor) then Actor
      else if Mentions(lowered, Producer) then Producer
      else if Mentions(lowered, Writer) then Writer
      else if Mentions(lowered, Composer) then Composer
      else Actor
  }

  /** The classification reads the profession only through its lower-cased form. */
  lemma PersonKindIgnoresCase(a: string, b: string)
    requires ToLower(a) == ToLower(b)
    ensures GetPersonKind(Some(a)) == GetPersonKind(Some(b))
  {
    assert |a| == |ToLower(a)| == |b|;
  }

  /** The PersonInfo of one credited person. */
  function PersonOf(person: Person, instance: Option<Plugin>): (r: PersonInfo)
    ensures person.name.Some? ==> r.name == person.name.value
    ensures person.name.None? && person.enName.Some? ==> r.name == person.enName.value
    ensures person.name.None? && person.enName.None? ==> r.name == ""
    ensures r.kind == GetPersonKind(person.profession.OrElse(person.enProfession))
    ensures r.imageUrl.Some? ==> r.imageUrl == person.photo && r.imageUrl.value != ""
    ensures r.imageUrl.None? ==> IsNullOrEmpty(person.photo) || ShouldFilterUrl(instance, person.photo)
    ensures ShouldIgnoreTmdbImages(instance) ==> !IsTmdbUrl(r.imageUrl)
  {
    PersonInfo(
      person.name.OrElse(person.enName).GetOr(""),
      GetPersonKind(person.profession.OrElse(person.enProfession)),
      if !IsNullOrEmpty(person.photo) && !ShouldFilterUrl(instance, person.photo) then person.photo else None)
  }

  /** The PersonInfo of each credited person, in order. */
  function PersonInfos(persons: seq<Person>, instance: Option<Plugin>): seq<PersonInfo>
  {
    seq(|persons|, i requires 0 <= i < |persons| => PersonOf(persons[i], instance))
  }

  /** The people of the data, one per credited person, in order (none without data). */
  function PeopleOf(data: Option<MovieDto>, instance: Option<Plugin>): seq<PersonInfo>
  {
    PersonInfos(if data.Some? && data.value.persons.Some? then data.value.persons.value else [], instance)
  }

  /**
   * How many people `AddPerson` takes before it throws: the position of the first person the
   * host refuses, or all of them when it refuses none.
   */
  function FirstRefused(people: seq<PersonInfo>): (n: nat)
    ensures n <= |people|
    ensures forall j | 0 <= j < n :: AddPersonAccepts(people[j])
    ensures n < |people| ==> !AddPersonAccepts(people[n])
  {
    if people == [] || !AddPersonAccepts(people[0]) then 0
    else
      var n := FirstRefused(people[1..]);
      assert forall j | 1 <= j < n + 1 :: people[j] == people[1..][j - 1];
      n + 1
  }

  /** The position FirstRefused gives is the only one with its two properties. */
  lemma FirstRefusedUnique(people: seq<PersonInfo>, i: nat)
    requires i <= |people|
    requires forall j | 0 <= j < i :: AddPersonAccepts(people[j])
    requires i < |people| ==> !AddPersonAccepts(people[i])
    ensures FirstRefused(people) == i
  {
  }

  /**
   * The outcome of GetMetadataInternal once the data is chosen. The entity is set before the
   * people are added; a person the host refuses throws out of the loop into the outer catch,
   * which returns the entity and the people added so far without HasMetadata.
   */
  function TitleResult(info: ItemLookupInfo, data: Option<MovieDto>, instance: Option<Plugin>): MetadataResult<Title>
  {
    var all := PeopleOf(data, instance);
    var n := FirstRefused(all);
    MetadataResult(Some(TitleOf(info, data)), n == |all|, all[..n])
  }

  // ================================================================ metadata

  /** The non-empty genre names, in order. */
  function GenreNames(genres: seq<Genre>): (r: seq<string>)
    ensures |r| <= |genres|
    ensures forall i | 0 <= i < |r| :: r[i] != "" && Genre(Some(r[i])) in genres
    ensures forall g | g in genres && !IsNullOrEmpty(g.name) :: g.name.value in r
  {
    if genres == [] then []
    else if !IsNullOrEmpty(genres[0].name) then [genres[0].name.value] + GenreNames(genres[1..])
    else GenreNames(genres[1..])
  }

  /** One genre gives its name when non-empty and nothing otherwise. */
  lemma GenreNamesSingle(g: Genre)
    ensures GenreNames([g]) == if IsNullOrEmpty(g.name) then [] else [g.name.value]
  {
    assert [g][1..] == [];
  }

  /**
   * The names keep the data's order and its duplicates: the names of a concatenation are the
   * names of each part, one after the other.
   */
  lemma {:induction false} GenreNamesDistributes(xs: seq<Genre>, ys: seq<Genre>)
    ensures GenreNames(xs + ys) == GenreNames(xs) + GenreNames(ys)
    decreases |xs|
  {
    if xs == [] {
      assert xs + ys == ys;
    } else {
      assert (xs + ys)[0] == xs[0] && (xs + ys)[1..] == xs[1..] + ys;
      GenreNamesDistributes(xs[1..], ys);
      if !IsNullOrEmpty(xs[0].name) {
        calc {
          GenreNames(xs + ys);
          [xs[0].name.value] + GenreNames(xs[1..] + ys);
          [xs[0].name.value] + (GenreNames(xs[1..]) + GenreNames(ys));
          ([xs[0].name.value] + GenreNames(xs[1..])) + GenreNames(ys);
        }
      }
    }
  }

  /** The lookups GetMetadataInternal issues, in order. */
  function MetadataRequests(kind: MediaKind, info: ItemLookupInfo, instance: Option<Plugin>,
                            byStoredId: Fetch<MovieDto>, search: Fetch<SearchResponse>): seq<Request>
  {
    var stored := StoredId(info.providerIds);
    var first := if stored.Some? then [MovieById(stored.value)] else [];
    if IsBlank(ApiKey(instance)) then []
    else if stored.Some? && byStoredId.OrNull().Some? then first
    else
      var found := SearchResults(kind, info, instance, search);
      var foundId := if found == [] then None else StoredId(Some(found[0].providerIds));
      first + SearchRequests(info, instance) + (if foundId.Some? then [MovieById(foundId.value)] else [])
  }

  /** The data the metadata is built from: the stored id's answer, else the first search result's. */
  function ChosenData(kind: MediaKind, info: ItemLookupInfo, instance: Option<Plugin>,
                      byStoredId: Fetch<MovieDto>, search: Fetch<SearchResponse>, byFoundId: Fetch<MovieDto>): Option<MovieDto>
  {
    var stored := StoredId(info.providerIds);
    if stored.Some? && byStoredId.OrNull().Some? then byStoredId.OrNull()
    else
      var found := SearchResults(kind, info, instance, search);
      if found != [] && StoredId(Some(found[0].providerIds)).Some? then byFoundId.OrNull() else None
  }

  /**
   * The Movie or Series entity: with data, its name falls back from the Russian name to the
   * English one to the item's own; its year falls back to the item's; its ids are the item's
   * with the data's written over them; its genres are the data's non-empty genre names.
   * Without data it keeps only the item's name, year and ids.
   */
  function TitleOf(info: ItemLookupInfo, data: Option<MovieDto>): (t: Title)
    ensures data.None? ==> t == Title(info.name.GetOr(""), None, info.year, CopyIds(info.providerIds), [])
    ensures data.Some? && data.value.name.Some? ==> t.name == data.value.name.value
    ensures data.Some? && data.value.name.None? && data.value.enName.Some? ==> t.name == data.value.enName.value
    ensures data.Some? && data.value.name.None? && data.value.enName.None? ==> t.name == info.name.GetOr("")
    ensures data.Some? ==> t.overview == data.value.description.OrElse(data.value.shortDescription)
    ensures data.Some? && data.value.year.Some? ==> t.productionYear == data.value.year
    ensures data.Some? && data.value.year.None? ==> t.productionYear == info.year
    ensures data.Some? ==> t.providerIds == MergedIds(CopyIds(info.providerIds), data.value.id, data.value.externalId)
    ensures data.Some? ==> t.genres == GenreNames(data.value.genres.GetOr([]))
  {
    var fallback := info.name.GetOr("");
    if data.None? then Title(fallback, None, info.year, CopyIds(info.providerIds), [])
    else
      var d := data.value;
      Title(
        d.name.OrElse(d.enName).GetOr(fallback),
        d.description.OrElse(d.shortDescription),
        d.year.OrElse(info.year),
        MergedIds(CopyIds(info.providerIds), d.id, d.externalId),
        GenreNames(d.genres.GetOr([])))
  }

  /**
   * GetMetadataInternal. A blank key gives the empty result and no lookup. Otherwise a
   * parsable stored PoiskKino id is looked up first; when that gives nothing (null or an
   * exception, both caught), the search runs and the first result's id is looked up. The
   * entity is built whether or not data was found; HasMetadata is set unless the host
   * refused a person.
   */
  method GetMetadata(kind: MediaKind, info: ItemLookupInfo, instance: Option<Plugin>,
                     byStoredId: Fetch<MovieDto>, search: Fetch<SearchResponse>, byFoundId: Fetch<MovieDto>)
    returns (result: MetadataResult<Title>, requests: seq<Request>)
    ensures requests == MetadataRequests(kind, info, instance, byStoredId, search)
    ensures IsBlank(ApiKey(instance)) ==> result == EmptyResult()
    ensures !IsBlank(ApiKey(instance)) ==>
      var data := ChosenData(kind, info, instance, byStoredId, search, byFoundId);
      result == TitleResult(info, data, instance)
  {
    result, requests := EmptyResult(), [];
    if IsBlank(ApiKey(instance)) {
      return;
    }
    var data;
    data, requests := FindData(kind, info, instance, byStoredId, search, byFoundId);
    var title, people, thrown := BuildTitle(info, data, instance);
    result := MetadataResult(Some(title), !thrown, people);
  }

  /**
   * The mapping part of GetMetadataInternal: the entity's fields from the data (or the item
   * alone), the ids written over a copy, the genres and the people; `thrown` reports that
   * the host refused a person.
   */
  method BuildTitle(info: ItemLookupInfo, data: Option<MovieDto>, instance: Option<Plugin>)
    returns (title: Title, people: seq<PersonInfo>, thrown: bool)
    ensures title == TitleOf(info, data)
    ensures var all := PeopleOf(data, instance);
      people == all[..FirstRefused(all)] && (thrown <==> FirstRefused(all) < |all|)
  {
    var ids := CopyIds(info.providerIds);
    var genres: seq<string> := [];
    people, thrown := [], false;
    if data.Some? {
      var d := data.value;
      ids := WriteIds(ids, d.id, d.externalId);
      if d.genres.Some? && |d.genres.value| > 0 {
        genres := GenreNames(d.genres.value);
      }
      if d.persons.Some? && |d.persons.value| > 0 {
        people, thrown := AddPeople(people, d.persons.value, instance);
      }
    }
    assert people == [] + people;
    assert genres == TitleOf(info, data).genres;
    var fallback := info.name.GetOr("");
    var name := if data.Some? then data.value.name.OrElse(data.value.enName).GetOr(fallback) else fallback;
    var overview := if data.Some? then data.value.description.OrElse(data.value.shortDescription) else None;
    var year := if data.Some? then data.value.year.OrElse(info.year) else info.year;
    title := Title(name, overview, year, ids, genres);
  }

  /** The lookups of GetMetadataInternal: the stored id first, then the search and its first result. */
  method FindData(kind: MediaKind, info: ItemLookupInfo, instance: Option<Plugin>,
                  byStoredId: Fetch<MovieDto>, search: Fetch<SearchResponse>, byFoundId: Fetch<MovieDto>)
    returns (data: Option<MovieDto>, requests: seq<Request>)
    requires !IsBlank(ApiKey(instance))
    ensures data == ChosenData(kind, info, instance, byStoredId, search, byFoundId)
    ensures requests == MetadataRequests(kind, info, instance, byStoredId, search)
  {
    data, requests := None, [];
    var stored := StoredId(info.providerIds);
    if stored.Some? {
      requests := [MovieById(stored.value)];
      data := byStoredId.OrNull();
    }
    if data.None? {
      var found, searchRequests := GetSearchResults(kind, info, instance, search);
      requests := requests + searchRequests;
      if |found| > 0 {
        var foundId := StoredId(Some(found[0].providerIds));
        if foundId.Some? {
          requests := requests + [MovieById(foundId.value)];
          data := byFoundId.OrNull();
        }
      }
    }
  }

  /** The id writes of GetMetadataInternal, one dictionary assignment at a time. */
  method WriteIds(start: ProviderIds, id: Int32, externalId: Option<ExternalId>) returns (ids: ProviderIds)
    ensures ids == MergedIds(start, id, externalId)
  {
    ids := start[PoiskKinoKey := Show(id)];
    if externalId.Some? {
      var e := externalId.value;
      if !IsNullOrEmpty(e.kpHd) {
        ids := ids[KinopoiskKey := e.kpHd.value];
      }
      if !IsNullOrEmpty(e.imdb) {
        ids := ids[ImdbKey := e.imdb.value];
      }
      if e.tmdb.Some? {
        ids := ids[TmdbKey := Show(e.tmdb.value)];
      }
    }
  }

  /**
   * The `AddPerson` loop: one PersonInfo per credited person, appended in order, until the
   * host refuses one and the loop is left by its exception (`thrown`).
   */
  method AddPeople(start: seq<PersonInfo>, persons: seq<Person>, instance: Option<Plugin>)
    returns (people: seq<PersonInfo>, thrown: bool)
    ensures var all := PersonInfos(persons, instance);
      people == start + all[..FirstRefused(all)] && (thrown <==> FirstRefused(all) < |all|)
  {
    ghost var all := PersonInfos(persons, instance);
    people, thrown := start, false;
    var i := 0;
    while i < |persons|
      invariant 0 <= i <= |persons|
      invariant forall j | 0 <= j < i :: AddPersonAccepts(all[j])
      invariant people == start + all[..i]
    {
      var person := PersonOf(persons[i], instance);
      if !AddPersonAccepts(person) {
        FirstRefusedUnique(all, i);
        thrown := true;
        return;
      }
      assert all[..i + 1] == all[..i] + [person];
      people := people + [person];
      i := i + 1;
    }
    FirstRefusedUnique(all, i);
    assert all[..i] == all;
  }

  /** A stored id whose lookup answers wins: no search is made and its data is used. */
  lemma StoredIdTakesPrecedence(kind: MediaKind, info: ItemLookupInfo, instance: Option<Plugin>,
                                byStoredId: Fetch<MovieDto>, search: Fetch<SearchResponse>, byFoundId: Fetch<MovieDto>)
    requires !IsBlank(ApiKey(instance))
    requires StoredId(info.providerIds).Some? && byStoredId.OrNull().Some?
    ensures MetadataRequests(kind, info, instance, byStoredId, search) == [MovieById(StoredId(info.providerIds).value)]
    ensures ChosenData(kind, info, instance, byStoredId, search, byFoundId) == byStoredId.OrNull()
  {
  }

  /**
   * Without an answer for a stored id, the search runs, and when it keeps an item the title
   * is looked up by that first item's id, whose answer is then the data.
   */
  lemma SearchFallbackUsesFirstItem(kind: MediaKind, info: ItemLookupInfo, instance: Option<Plugin>,
                                    byStoredId: Fetch<MovieDto>, search: Fetch<SearchResponse>, byFoundId: Fetch<MovieDto>)
    requires !IsBlank(ApiKey(instance))
    requires StoredId(info.providerIds).None? || byStoredId.OrNull().None?
    requires KeptItems(kind, info, instance, search) != []
    ensures var first := KeptItems(kind, info, instance, search)[0];
      var requests := MetadataRequests(kind, info, instance, byStoredId, search);
      && TitleSearch(info.name.value, info.year) in requests
      && requests[|requests| - 1] == MovieById(first.id)
    ensures ChosenData(kind, info, instance, byStoredId, search, byFoundId) == byFoundId.OrNull()
  {
    FirstResultNamesFirstItem(kind, info, instance, search);
  }

  /** The metadata's ids never drop one of the item's: the item's ids are all still there. */
  lemma MetadataKeepsItemIds(info: ItemLookupInfo, data: Option<MovieDto>)
    ensures CopyIds(info.providerIds).Keys <= TitleOf(info, data).providerIds.Keys
    ensures data.Some? ==> TryParseInt(TitleOf(info, data).providerIds[PoiskKinoKey]) == Some(data.value.id)
  {
    if data.Some? {
      ParseShowRoundTrip(data.value.id);
    }
  }

  /**
   * When the host takes every credited person, HasMetadata is set and the people are all of
   * them, in order.
   */
  lemma NamedPeopleKeepMetadata(info: ItemLookupInfo, data: Option<MovieDto>, instance: Option<Plugin>)
    requires data.Some? && data.value.persons.Some? ==>
      forall p | p in data.value.persons.value :: PersonOf(p, instance).name != ""
    ensures TitleResult(info, data, instance) == MetadataResult(Some(TitleOf(info, data)), true, PeopleOf(data, instance))
  {
    var all := PeopleOf(data, instance);
    forall j | 0 <= j < |all| ensures AddPersonAccepts(all[j]) {
      assert data.value.persons.value[j] in data.value.persons.value;
    }
    FirstRefusedUnique(all, |all|);
    assert all[..|all|] == all;
  }

  /**
   * A credited person with neither a name nor an English name is refused by the host: the
   * outer catch returns the entity without HasMetadata, and nobody from that person on is added.
   */
  lemma UnnamedPersonLosesMetadata(info: ItemLookupInfo, data: Option<MovieDto>, instance: Option<Plugin>, k: nat)
    requires data.Some? && data.value.persons.Some? && k < |data.value.persons.value|
    requires data.value.persons.value[k].name.None? && data.value.persons.value[k].enName.None?
    ensures var r := TitleResult(info, data, instance);
      r.item == Some(TitleOf(info, data)) && !r.hasMetadata && |r.people| <= k
      && forall j | 0 <= j < |r.people| :: r.people[j] == PersonOf(data.value.persons.value[j], instance)
  {
    var all := PeopleOf(data, instance);
    assert !AddPersonAccepts(all[k]);
  }
}
