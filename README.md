# PoiskKino metadata plugin for Jellyfin — a Dafny model

This project models the core of the PoiskKino (poiskkino.dev) metadata plugin for Jellyfin.
It proves the rules that core follows.

## What is modelled

- **The caching lookup layer** (`PoiskKinoApiClient.cs`), in `api_client.dfy`.
  - The class `ApiClient.Client` owns the cache (a `map` from key to entry) and the request gate.
  - The gate is `ApiClient.Gate`, a counter that models `SemaphoreSlim(1, 1)`.
  - There are three lookups: `Search`, `GetMovieById` and `GetSeason`. Each one:
    - rejects a blank API key;
    - derives its cache key;
    - answers a fresh entry from the cache;
    - otherwise evicts the stale entry and enters the gate;
    - classifies the HTTP status;
    - writes a negative entry (404, one hour), a positive entry (2xx with a payload, 24 hours) or nothing;
    - releases the gate in `finally`.
  - The HTTP exchange is an input (`Transfer<T>`), and so are the clock (`now`) and whether the caller's token is already cancelled.
- **The TMDB image filter** (`ImageUrlHelper.cs`), in `image_url.dfy`.
- **The decision rules of the providers**:
  - movie and series, in `title_providers.dfy`. They share one model, parameterised by `MediaKind`; the two sources differ only in the `IsSeries` filter.
  - images, in `image_provider.dfy`;
  - seasons, in `season_provider.dfy`;
  - episodes, in `episode_provider.dfy`.

  A provider receives each lookup's answer as a `Fetch<T>`: a returned value (possibly null), or an exception that escaped the client. Each provider also returns the list of lookups it issued. That list is how precedence ("the stored id first, the search only as a fallback") is stated.
- **Supporting modules**:
  - `text.dfy` models the .NET string and integer primitives the code relies on: `IsNullOrWhiteSpace`, `Trim`, `ToLowerInvariant`, ordinal and ignore-case `Contains`, `int.ToString` and `int.TryParse`. It proves the round trip `TryParse(ToString(n)) == n`.
  - `models.dfy` holds the API's data records.
  - `host.dfy` holds the Jellyfin entities and the plugin configuration.

Search keys are not injective. A title `"a:1999"` with no year and the title `"a"` with year 1999 share the key `search:a:1999`. The lemma `ApiClient.SearchKeysCanCollide` shows this. The key properties are therefore stated as follows:
- equal inputs up to padding and case give equal keys;
- the prefixes separate the three kinds;
- movie and season keys are injective.

## Model

| member | source | states |
|---|---|---|
| ImageUrl.IsTmdbUrl | ImageUrlHelper.cs:13-21 | A URL is a TMDB URL exactly when it is present and contains "tmdb.org" in any letter case. A null or blank URL never is. |
| ImageUrl.TmdbDomainNotInBlank | ImageUrlHelper.cs:15-18 | No blank string contains the domain. The early exit for blank input therefore agrees with the containment test. |
| ImageUrl.ShouldIgnoreTmdbImages | ImageUrlHelper.cs:27-30 | True only when the plugin instance and its configuration exist. It is then exactly the configuration's IgnoreTmdbImages flag. |
| ImageUrl.ShouldFilterUrl | ImageUrlHelper.cs:37-45 | A URL is dropped exactly when the flag is on and the URL is a TMDB URL. It is never dropped when blank or when the flag is off. |
| ImageUrl.DefaultConfigurationFiltersTmdb | Configuration.cs:19 | With the shipped default (IgnoreTmdbImages = true), every TMDB URL is filtered. |
| ApiClient.SearchKey | PoiskKinoApiClient.cs:386-390 | GenerateCacheKey: the key starts with "search:" and, when there is a year, ends with ":" and the year's text. |
| ApiClient.MovieKey | PoiskKinoApiClient.cs:175 | The key starts with "movie:" and goes on with the id's text, which is never empty. |
| ApiClient.SeasonKey | PoiskKinoApiClient.cs:286 | The key starts with "season:" and ends with ":" and the season number's text. |
| ApiClient.PrefixesExclusive | PoiskKinoApiClient.cs:386-390 | No key carries two of the prefixes "search:", "movie:" and "season:". |
| ApiClient.KeysOfDifferentKindsDiffer | PoiskKinoApiClient.cs:175 | Search, movie and season keys each carry their own prefix (lines 175, 286 and 389), so keys of different kinds never share a cache entry. |
| ApiClient.MovieKeyInjective | PoiskKinoApiClient.cs:175 | "movie:{id}" determines the id. |
| ApiClient.SeasonKeyInjective | PoiskKinoApiClient.cs:286 | "season:{movieId}:{seasonNumber}" determines both numbers. |
| ApiClient.SearchKeyIgnoresPadding | PoiskKinoApiClient.cs:388 | Titles that differ only in surrounding white space give the same search key. |
| ApiClient.SearchKeyIgnoresCase | PoiskKinoApiClient.cs:388 | Titles equal after lower-casing give the same search key. |
| ApiClient.SearchKeysCanCollide | PoiskKinoApiClient.cs:389 | A title containing ":year" with no year shares its key with the shorter title plus that year. |
| ApiClient.EscapeDataString | PoiskKinoApiClient.cs:81 | Uri.EscapeDataString never shortens the text, and text of unreserved characters only comes back unchanged. |
| ApiClient.RequestPath | PoiskKinoApiClient.cs:81-85 | The search goes to "/v1.4/movie/search?query=". The title lookup goes to "/v1.4/movie/" followed by text that int.TryParse reads back as the id (line 195). The season lookup goes to "/v1.4/season?movieId=" (line 307). |
| ApiClient.EscapedTitleStaysInQueryValue | PoiskKinoApiClient.cs:81 | The escaped title holds only unreserved characters and percent escapes. It cannot end the query value or add a parameter. |
| ApiClient.GetErrorMessage | PoiskKinoApiClient.cs:395-411 | Returns the body's "message" string. Otherwise it returns "Unknown error": for a missing or null field, a non-string value, a non-object body or an unparsable body. |
| ApiClient.Classify | PoiskKinoApiClient.cs:93-154 | A lookup yields data exactly when a response with a 2xx status arrived, and then the decoded body. Rate limiting carries the status and the body's message. A TaskCanceledException is a cancellation exactly when the caller's token fired, and otherwise the timeout. No network outcome is a cache hit. |
| ApiClient.ClassifyStatus | PoiskKinoApiClient.cs:93-113 | The status classes partition all statuses. 429 and 403 are rate limiting, 404 is not found, and other non-2xx codes are failures. Only a 2xx status yields the decoded value. |
| ApiClient.TryAddKeepsFirstWriter | PoiskKinoApiClient.cs:124 | TryAdd never replaces an existing entry. It only adds one for a new key. |
| ApiClient.EntryFor | PoiskKinoApiClient.cs:101-127 | A written entry always expires after now. An entry without data comes only from a 404, and one with data only from a fetch of that data. |
| ApiClient.Record | PoiskKinoApiClient.cs:105-124 | Recording an outcome adds the key exactly when the outcome writes an entry. It never changes an entry that is already there, and a new key gets that entry. |
| ApiClient.OnlyNotFoundAndPayloadsAreCached | PoiskKinoApiClient.cs:101-127 | An entry is written exactly for a 404 (null data, now + 1 h) or a 2xx with a payload (the payload, now + 24 h). Nothing is written otherwise. |
| ApiClient.Gate.constructor | PoiskKinoApiClient.cs:38 | The gate starts with the given count and maximum. |
| ApiClient.Gate.WaitAsync | PoiskKinoApiClient.cs:79 | A cancelled token acquires nothing. A free gate is entered and its count drops by one. A taken gate parks the caller. |
| ApiClient.Gate.Release | PoiskKinoApiClient.cs:151-154 | Release at the maximum count faults (SemaphoreFullException) and changes nothing. Otherwise the count grows by one. |
| ApiClient.CancelledWaitOverReleases | PoiskKinoApiClient.cs:151-154 | While one flow holds the gate, a cancelled flow's unconditional Release frees it. A third flow then enters beside the first. |
| ApiClient.Client.constructor | PoiskKinoApiClient.cs:29-39 | A new client has an empty cache and a free gate with maximum 1. |
| ApiClient.Client.TryGetFresh | PoiskKinoApiClient.cs:63-74 | A hit exactly when the entry exists with ExpiresAt > now; the cache is then unchanged. On a miss a stale entry is removed. |
| ApiClient.Client.Exchange | PoiskKinoApiClient.cs:77-154 | With the token cancelled: nothing is sent, the result is Cancelled and Release faults. Otherwise the request path is sent, the status is classified and the cache is updated by Record. |
| ApiClient.Client.Deliver | PoiskKinoApiClient.cs:93-127 | With the gate held, the outcome is Classify of the response, and the cache becomes Record of that outcome. Every stored payload still fits its key. |
| ApiClient.Client.Search | PoiskKinoApiClient.cs:49-155 | The three outcomes. A blank key gives null with the cache and gate untouched. A fresh entry returns its data unchanged, sends nothing and does not enter the gate. Otherwise the stale entry is evicted, the request is made and the entry is written by the status rules. |
| ApiClient.Client.GetMovieById | PoiskKinoApiClient.cs:164-264 | The same three outcomes under the key "movie:{id}". |
| ApiClient.Client.GetSeason | PoiskKinoApiClient.cs:274-381 | The same three outcomes under "season:{movieId}:{number}". The payload is the first season of docs. |
| ApiClient.NotFoundIsRememberedForAnHour | PoiskKinoApiClient.cs:210-216 | After a 404, the same lookup within the hour answers null from the cache without a request. From the hour on it asks again. |
| ApiClient.PayloadIsServedForADay | PoiskKinoApiClient.cs:230-234 | A fetched title is answered from the cache for 24 hours, whatever the server would say. |
| ApiClient.RateLimitIsNotRemembered | PoiskKinoApiClient.cs:93-99 | A 429 or 403 returns null with the server's message and caches nothing. The next lookup asks again. |
| ApiClient.CancelledLookupThrows | PoiskKinoApiClient.cs:302-380 | A lookup with an already-cancelled token sends nothing. The Release in finally faults on the free gate, so the caller sees an exception, not null. |
| Text.ParseShowRoundTrip | PoiskKinoMovieProvider.cs:172 | An id written with ToString parses back to the same id with int.TryParse. |
| TitleProviders.Kept | PoiskKinoMovieProvider.cs:86-88 | The kept results are exactly the results of the provider's kind (IsSeries != true for movies, == true for series). Nothing else is kept. |
| TitleProviders.StoredId | PoiskKinoMovieProvider.cs:149-150 | A null or empty PoiskKino entry gives no id. A given id is what int.TryParse reads from the entry. |
| TitleProviders.StoredIdReadsWrittenId | PoiskKinoMovieProvider.cs:207 | The id written under the PoiskKino key (`Id.ToString()`) is read back by the stored-id rule. |
| TitleProviders.KeptDistributes | PoiskKinoMovieProvider.cs:86-88 | The filter preserves order: filtering a concatenation filters each part. |
| TitleProviders.KindsPartitionResults | PoiskKinoSeriesProvider.cs:87 | The series filter is the complement of the movie filter: together they keep every result exactly once. |
| TitleProviders.MergedIds | PoiskKinoMovieProvider.cs:204-230 | The PoiskKino id is always written. Kinopoisk and IMDb ids are written only when non-empty, TMDB only when present. Every other key keeps its value. |
| TitleProviders.SearchResultIds | PoiskKinoMovieProvider.cs:100-115 | A search result's ids follow the same write rules, starting from an empty dictionary. |
| TitleProviders.SearchResultOf | PoiskKinoMovieProvider.cs:92-120 | Name is Name ?? EnName. The poster URL is set only when non-empty and not filtered, so it is never a TMDB URL when the flag is on. |
| TitleProviders.GetSearchResults | PoiskKinoMovieProvider.cs:55-131 | No search for a blank title or key. Otherwise one result per kept item, in order, with nothing for a null response or result list. A caught exception gives the empty list. |
| TitleProviders.AddResults | PoiskKinoMovieProvider.cs:90-123 | One search result per kept item, each mapped by SearchResultOf, added in order. |
| TitleProviders.FirstResultNamesFirstItem | PoiskKinoMovieProvider.cs:166-172 | The first search result's PoiskKino id parses back to the first kept item's id. |
| TitleProviders.GetPersonKind | PoiskKinoMovieProvider.cs:288-318 | A null or empty profession gives Actor. Otherwise the result is the first of Director, Actor, Producer, Writer, Composer whose word the lower-cased text contains. No earlier kind is mentioned, and Actor without an actor word means nothing matched. |
| TitleProviders.PersonKindIgnoresCase | PoiskKinoMovieProvider.cs:295 | Professions equal after lower-casing get the same kind. |
| TitleProviders.PersonOf | PoiskKinoMovieProvider.cs:259-268 | Name is Name ?? EnName ?? "". Kind comes from Profession ?? EnProfession. The photo is set only when non-empty and not filtered. |
| TitleProviders.GenreNames | PoiskKinoMovieProvider.cs:233-239 | Every name kept is non-empty and comes from the input, and every non-empty name is kept. Order and duplicates come from GenreNamesSingle and GenreNamesDistributes. |
| TitleProviders.GenreNamesSingle | PoiskKinoMovieProvider.cs:236-237 | One genre gives its name when it is non-empty, and nothing otherwise. |
| TitleProviders.GenreNamesDistributes | PoiskKinoMovieProvider.cs:235-238 | The names of a concatenation are the names of each part, one after the other. With GenreNamesSingle, this means the input order and its duplicates are kept. |
| TitleProviders.TitleOf | PoiskKinoMovieProvider.cs:187-239 | Name is Name ?? EnName ?? info.Name ?? "". Year is Year ?? info.Year. Overview is Description ?? ShortDescription. Ids are a copy of the item's with the data's written over them. Genres are the non-empty names. Without data, only the item's name, year and ids. |
| TitleProviders.GetMetadata | PoiskKinoMovieProvider.cs:133-282 | A blank key gives the empty result and no lookup. Otherwise the entity is built from the chosen data, or from the item alone when there is none. People are added up to the first one the host refuses. HasMetadata is set unless a person was refused. In that case the outer catch returns the entity and the people added so far. |
| TitleProviders.BuildTitle | PoiskKinoMovieProvider.cs:187-272 | The field-by-field construction produces exactly TitleOf. The people are those before the first refused person, and `thrown` reports that one was refused. Genres and people stay empty when the data's lists are null or empty. |
| TitleProviders.FindData | PoiskKinoMovieProvider.cs:146-185 | The stored id's answer is used when it is non-null. Otherwise the search runs and the first result's id is looked up. Exceptions count as null. |
| TitleProviders.WriteIds | PoiskKinoMovieProvider.cs:204-230 | The step-by-step dictionary writes produce MergedIds. |
| TitleProviders.AddPeople | PoiskKinoMovieProvider.cs:255-272 | One PersonInfo per credited person, appended in order, up to the first person the host refuses. The loop is left by an exception exactly when there is such a person. |
| TitleProviders.FirstRefused | PoiskKinoMovieProvider.cs:255-270 | The number of people AddPerson takes before it throws. Every person before that position is accepted, and the person at it is refused. |
| TitleProviders.StoredIdTakesPrecedence | PoiskKinoMovieProvider.cs:148-161 | A stored id whose lookup answers is the only lookup made, and its data is used. |
| TitleProviders.SearchFallbackUsesFirstItem | PoiskKinoMovieProvider.cs:163-185 | Without data for a stored id, the search is made. The last lookup is the first kept item's id, and its answer is the data. |
| TitleProviders.MetadataKeepsItemIds | PoiskKinoMovieProvider.cs:197-207 | The item's ids are all kept. With data, the PoiskKino entry parses back to the data's id. |
| TitleProviders.NamedPeopleKeepMetadata | PoiskKinoMovieProvider.cs:253-274 | When every credited person has a non-empty name, HasMetadata is set and all the people are added, in order. |
| TitleProviders.UnnamedPersonLosesMetadata | PoiskKinoMovieProvider.cs:259-277 | A credited person with neither Name nor EnName is refused by AddPerson. The catch then returns the entity without HasMetadata. The people added so far are the ones before that person, in order. |
| ImageProvider.Supports | PoiskKinoImageProvider.cs:40-43 | Exactly movies, series and seasons. |
| ImageProvider.GetSupportedImages | PoiskKinoImageProvider.cs:46-49 | Primary and Backdrop. |
| ImageProvider.ScoreIsLexicographic | PoiskKinoImageProvider.cs:106-113 | One score orders candidates as the two sort keys do: the year match first, then the case-insensitive name match. |
| ImageProvider.BestIndex | PoiskKinoImageProvider.cs:104-114 | The first position holding the highest score: where a stable descending sort puts its first element. |
| ImageProvider.ExactMatchIsChosen | PoiskKinoImageProvider.cs:102-114 | If a result of the right kind matches both year and name, the chosen candidate matches both too. |
| ImageProvider.Candidate | PoiskKinoImageProvider.cs:104-114 | There is a candidate exactly when a result of the item's kind exists. The candidate is such a result, and no result of that kind scores higher. |
| ImageProvider.PosterAndBackdrop | PoiskKinoImageProvider.cs:163-181 | At most a Primary (the poster) followed by a Backdrop, each only from a non-empty URL, all stamped with the provider's name. |
| ImageProvider.WithoutTmdb | PoiskKinoImageProvider.cs:191 | Exactly the images whose URL is not a TMDB URL. |
| ImageProvider.WithoutTmdbDistributes | PoiskKinoImageProvider.cs:191 | The filter preserves order. |
| ImageProvider.Collect | PoiskKinoImageProvider.cs:58-186 | The try block. The stored id is looked up first. The search runs only without data and not for a season. The candidate is looked up only with a positive id. The block ends in an early return, at its end, or in the catch. |
| ImageProvider.SearchBranch | PoiskKinoImageProvider.cs:83-154 | The search branch: search, rank, look up the candidate, and fall back to the candidate's own images. |
| ImageProvider.AddImages | PoiskKinoImageProvider.cs:162-181 | The two conditional Add steps produce PosterAndBackdrop. |
| ImageProvider.GetImages | PoiskKinoImageProvider.cs:52-200 | As written: the TMDB post-filter applies to the end of the try block and to the catch, but not to early returns. |
| ImageProvider.IntendedImages | PoiskKinoImageProvider.cs:188-199 | With the post-filter on every path, no TMDB URL remains while the flag is on. With the flag off, the result is what the code returns. |
| ImageProvider.GetImagesFiltered | PoiskKinoImageProvider.cs:188-199 | The corrected GetImages: the same lookups, and no TMDB URL while the flag is on. |
| ImageProvider.OnlyCandidateImagesEscapeFilter | PoiskKinoImageProvider.cs:128-153 | The code and the intended filter differ only on an early return with images and the flag on. That is the search candidate's own images. |
| ImageProvider.LeakOutcome | PoiskKinoImageProvider.cs:128-153 | On the leaking input, the try block ends in an early return of the candidate's TMDB poster. |
| ImageProvider.CandidateImagesEscapeFilter | PoiskKinoImageProvider.cs:128-153 | With the flag on, a movie found by search whose result has no positive id returns its TMDB poster. |
| ImageProvider.StoredIdSkipsSearch | PoiskKinoImageProvider.cs:65-79 | A stored id whose lookup answers is the only lookup made. Its images pass the post-filter. |
| ImageProvider.SeasonsAreNeverSearched | PoiskKinoImageProvider.cs:81-83 | A season's only possible lookup is by its stored id. |
| ImageProvider.DetailsOnlyForKnownIds | PoiskKinoImageProvider.cs:121-125 | Details are fetched only for the stored id or for a positive candidate id. |
| SeasonProvider.GetSearchResults | PoiskKinoSeasonProvider.cs:36-42 | Always empty. |
| SeasonProvider.SeriesId | PoiskKinoSeasonProvider.cs:65-70 | The series id (TryGetValue then TryParse, with no emptiness test) agrees with the guarded stored-id rule. |
| SeasonProvider.PrimaryImages | PoiskKinoSeasonProvider.cs:106-114 | The season's poster (and, at PoiskKinoEpisodeProvider.cs:118-125, the episode's still) becomes a Primary image exactly when its URL is non-empty and not filtered. |
| SeasonProvider.SeasonEntityOf | PoiskKinoSeasonProvider.cs:93-104 | Name is Name ?? EnName ?? "Season N" for the requested N. Overview is Description ?? EnDescription. IndexNumber is the returned season's number. Ids are copied. |
| SeasonProvider.GetMetadata | PoiskKinoSeasonProvider.cs:52-125 | One season lookup (the requested number, default 1) unless the key is blank or the series id is unknown. An empty result for null or an exception. Otherwise the entity, its poster and HasMetadata. |
| SeasonProvider.SeasonHasMetadataExactlyWithItem | PoiskKinoSeasonProvider.cs:56-117 | HasMetadata holds exactly when an entity is built. That happens exactly with a key, a parsable series id and a season returned. |
| SeasonProvider.SeasonNumberDefaultsToOne | PoiskKinoSeasonProvider.cs:79-86 | Without an index number, season 1 is requested. |
| SeasonProvider.SeasonImagesArePosters | PoiskKinoSeasonProvider.cs:106-114 | At most one Primary image with a non-empty path, never a TMDB URL while the flag is on. |
| EpisodeProvider.GetSearchResults | PoiskKinoEpisodeProvider.cs:36-42 | Always empty. |
| EpisodeProvider.FirstEpisode | PoiskKinoEpisodeProvider.cs:95-96 | The first episode with the requested number. None exactly when no episode has it. |
| EpisodeProvider.EpisodeEntityOf | PoiskKinoEpisodeProvider.cs:103-115 | Name is Name ?? EnName ?? "Episode N". IndexNumber is the episode's number. ParentIndexNumber is the requested season. Ids are copied. |
| EpisodeProvider.GetMetadata | PoiskKinoEpisodeProvider.cs:52-136 | One season lookup (ParentIndexNumber ?? 1) unless the key is blank or the series id is unknown. An empty result for no season, no episodes, no match or an exception. Otherwise the entity, its still and HasMetadata. |
| EpisodeProvider.EpisodeHasMetadataExactlyWithItem | PoiskKinoEpisodeProvider.cs:56-128 | HasMetadata holds exactly when an entity is built. That happens exactly with a key, a series id and a matching episode. No people are added. |
| EpisodeProvider.EpisodeIsFirstWithRequestedNumber | PoiskKinoEpisodeProvider.cs:79-101 | The built episode is the first one numbered IndexNumber ?? 1, placed in season ParentIndexNumber ?? 1. |
| EpisodeProvider.MissingEpisodeGivesNothing | PoiskKinoEpisodeProvider.cs:95-101 | A season without the requested number gives the empty result. |
| EpisodeProvider.FailedLookupGivesNothing | PoiskKinoEpisodeProvider.cs:129-133 | An exception from the season lookup is caught and gives the empty result. |
| EpisodeProvider.EpisodeImagesAreStills | PoiskKinoEpisodeProvider.cs:118-125 | At most one Primary image with a non-empty path, never a TMDB URL while the flag is on. |

## Left out

- HTTP transport is not modelled: HttpClient setup, headers, the 120-second timeout, SendAsync and body reads. The exchange is an input of type `Transfer<T>`: a status with a decoded body, a cancellation (by the caller or by the timeout), an HttpRequestException or another exception.
- JSON decoding is an input: the decoded payload option and the parsed shape of an error body.
- The `GetImageResponse` download methods are network I/O and are not modelled.
- Logging is not modelled.
- Concurrency is modelled sequentially. This covers async/await, ConcurrentDictionary's thread safety and SemaphoreSlim blocking. `Gate.WaitAsync` reports a taken gate as Parked, but no sequential caller reaches it.
- ApiClient.Client.Search: its invariant requires the gate to be free between calls. Interleaved lookups of concurrent flows are therefore not modelled. The same holds for `ApiClient.Client.GetMovieById` and `ApiClient.Client.GetSeason`.
- `DateTime.UtcNow` is one integer `now` (in seconds) per call.
- `DateTime.TryParse` of air dates is left out (culture-dependent parsing), so the premiere dates of episodes and seasons are not modelled.
- The double-to-float rating casts are floating point and are left out.
- `ToLowerInvariant` is modelled for ASCII and basic Cyrillic letters only.
- `Uri.EscapeDataString` is modelled on well-formed text. Lone UTF-16 surrogates are not modelled.
- `ProviderNames.PoiskKino` is not part of this model. Its value is taken to be "PoiskKino", distinct from "Kinopoisk", "Imdb" and "Tmdb".
- TitleProviders.AddPeople: the host's `MetadataResult.AddPerson` is modelled as an append after its argument check. Its merging of duplicate names is host code and is not modelled.
- The host's `AddImage` is modelled as an append to the entity's image list.
- Each provider builds its own client. The providers therefore receive the client's answers (`Fetch<T>`) as inputs rather than calling one shared `Client` instance.
- `MaxRequestsPerDay` is declared but never read, so it has no request counter.
- The host's `MetadataResult.AddPerson` is not part of this model. The model assumes it throws an ArgumentException for a person with a null or empty name (`Host.AddPersonAccepts`) and accepts every other person. That exception is the only way the model reaches the outer `catch` of the movie and series GetMetadataInternal, because every lookup there has its own catch.
- The plugin lifecycle, the static plugin instance, the configuration page and the external-id glue (`PoiskKinoMetadataPlugin.cs`, `PoiskKinoExternalId.cs`) are not part of this model.
- The fields of the API's records that the rules do not read are omitted: ratings, votes, videos, countries and paging.

## Findings

| source | as written | input that shows it | evidently intended | confidence | as-written member | corrected member |
|---|---|---|---|---|---|---|
| PoiskKinoImageProvider.cs:128-153 | The search candidate's own poster and backdrop are returned from inside the try block. This skips the TMDB post-filter at lines 188-199. | IgnoreTmdbImages = true. A movie with no stored id. A search whose one result has Id 0 and poster URL "tmdb.org". The result: one Primary image with the TMDB URL. | Every returned list passes the post-filter, so no TMDB URL is returned while the flag is on. | medium, not executed | ImageProvider.CandidateImagesEscapeFilter | ImageProvider.GetImagesFiltered |
