/**
 * PoiskKinoApiClient.cs: the three lookups against the PoiskKino API (search by title and
 * year, title by id, season of a title), each behind an in-memory cache with a 24-hour
 * lifetime for answers and a 1-hour lifetime for "not found", and each passing its HTTP
 * exchange through a one-slot gate (a SemaphoreSlim(1, 1)).
 *
 * The clock, the caller's cancellation token and the HTTP exchange are inputs of each
 * lookup: `now` (seconds), `cancelled` (the token was already cancelled when the lookup
 * reached the gate) and a Transfer (how the exchange ended).
 */
module ApiClient {
  import opened Wrappers
  import opened Text
  import opened Models

  const ApiBaseUrl: string := "https://api.poiskkino.dev"
  const CacheExpirationHours: int := 24
  const NotFoundExpirationHours: int := 1
  /** Declared by the client and consulted nowhere: no lookup counts its requests. */
  const MaxRequestsPerDay: int := 200
  const SecondsPerHour: int := 3600
  const UnknownError: string := "Unknown error"

  const StatusForbidden: int := 403
  const StatusNotFound: int := 404
  const StatusTooManyRequests: int := 429

  /** HttpResponseMessage.IsSuccessStatusCode. */
  predicate IsSuccessStatusCode(status: int)
  {
    200 <= status <= 299
  }

  // ================================================================ requests and cache keys

  /** The three lookups, with the parameters that identify what they ask for. */
  datatype Request =
    | TitleSearch(title: string, year: Option<Int32>)
    | MovieById(id: Int32)
    | SeasonOf(movieId: Int32, seasonNumber: Int32)

  /** GenerateCacheKey: the trimmed, lower-cased title, then the year when there is one. */
  function SearchKey(title: string, year: Option<Int32>): (key: string)
    ensures IsSearchKey(key)
    ensures year.Some? ==> |key| > |Show(year.value)| && key[|key| - |Show(year.value)| - 1..] == ":" + Show(year.value)
  {
    var normalized := ToLower(Trim(title));
    if year.Some? then
      var key := "search:" + normalized + ":" + Show(year.value);
      assert key == ("search:" + normalized) + (":" + Show(year.value));
      key
    else "search:" + normalized
  }

  /** The key of a title lookup: "movie:" and the id's text, which is never empty. */
  function MovieKey(id: Int32): (key: string)
    ensures IsMovieKey(key) && |key| > |"movie:"|
  {
    ShowNotEmpty(id);
    "movie:" + Show(id)
  }

  /** The key of a season lookup: "season:", the title id, a colon and the season number. */
  function SeasonKey(movieId: Int32, seasonNumber: Int32): (key: string)
    ensures IsSeasonKey(key)
    ensures |key| > |Show(seasonNumber)| && key[|key| - |Show(seasonNumber)| - 1..] == ":" + Show(seasonNumber)
  {
    var key := "season:" + Show(movieId) + ":" + Show(seasonNumber);
    assert key == ("season:" + Show(movieId)) + (":" + Show(seasonNumber));
    key
  }

  function CacheKey(q: Request): string
  {
    match q
    case TitleSearch(title, year) => SearchKey(title, year)
    case MovieById(id) => MovieKey(id)
    case SeasonOf(movieId, seasonNumber) => SeasonKey(movieId, seasonNumber)
  }

  predicate IsSearchKey(key: string) { "search:" <= key }
  predicate IsMovieKey(key: string) { "movie:" <= key }
  predicate IsSeasonKey(key: string) { "season:" <= key }

  /** No key carries two of the three prefixes. */
  lemma PrefixesExclusive(key: string)
    ensures !(IsSearchKey(key) && IsMovieKey(key))
    ensures !(IsSearchKey(key) && IsSeasonKey(key))
    ensures !(IsMovieKey(key) && IsSeasonKey(key))
  {
    if IsSearchKey(key) {
      assert key[0] == 's' && key[3] == 'r';
    }
    if IsMovieKey(key) {
      assert key[0] == 'm';
    }
    if IsSeasonKey(key) {
      assert key[0] == 's' && key[3] == 's';
    }
  }

  /** Each kind of lookup uses keys with its own prefix, so the kinds never share an entry. */
  lemma KeysOfDifferentKindsDiffer(title: string, year: Option<Int32>, id: Int32, movieId: Int32, seasonNumber: Int32)
    ensures IsSearchKey(SearchKey(title, year))
    ensures IsMovieKey(MovieKey(id))
    ensures IsSeasonKey(SeasonKey(movieId, seasonNumber))
    ensures SearchKey(title, year) != MovieKey(id)
    ensures SearchKey(title, year) != SeasonKey(movieId, seasonNumber)
    ensures MovieKey(id) != SeasonKey(movieId, seasonNumber)
  {
    var s, m, n := SearchKey(title, year), MovieKey(id), SeasonKey(movieId, seasonNumber);
    assert "search:" <= s;
    assert "movie:" <= m;
    assert "season:" <= n;
    PrefixesExclusive(s);
    PrefixesExclusive(m);
  }

  /** Title lookups for different ids never share an entry. */
  lemma MovieKeyInjective(a: Int32, b: Int32)
    requires MovieKey(a) == MovieKey(b)
    ensures a == b
  {
    assert Show(a) == MovieKey(a)[6..];
    assert Show(b) == MovieKey(b)[6..];
    ShowInjective(a, b);
  }

  /** `x + ":" + y` splits back into x and y when x holds no colon. */
  lemma {:induction false} SplitAtFirstColon(x1: string, y1: string, x2: string, y2: string)
    requires forall i | 0 <= i < |x1| :: x1[i] != ':'
    requires forall i | 0 <= i < |x2| :: x2[i] != ':'
    requires x1 + ":" + y1 == x2 + ":" + y2
    ensures x1 == x2 && y1 == y2
  {
    var s := x1 + ":" + y1;
    assert s[|x1|] == ':' && s[|x2|] == ':';
    assert |x1| <= |x2| by {
      assert |x1| < |s| ==> s[|x2|] == (x2 + ":" + y2)[|x2|];
    }
    assert |x1| == |x2|;
    assert x1 == s[..|x1|] == x2;
    assert y1 == s[|x1| + 1..] == y2;
  }

  /** Season lookups for different (title id, season number) pairs never share an entry. */
  lemma SeasonKeyInjective(m1: Int32, n1: Int32, m2: Int32, n2: Int32)
    requires SeasonKey(m1, n1) == SeasonKey(m2, n2)
    ensures m1 == m2 && n1 == n2
  {
    var k1, k2 := SeasonKey(m1, n1), SeasonKey(m2, n2);
    assert k1[7..] == Show(m1) + ":" + Show(n1);
    assert k2[7..] == Show(m2) + ":" + Show(n2);
    ShowHasNoColon(m1);
    ShowHasNoColon(m2);
    SplitAtFirstColon(Show(m1), Show(n1), Show(m2), Show(n2));
    ShowInjective(m1, m2);
    ShowInjective(n1, n2);
  }

  /** Titles that differ only by white space around them share a search key. */
  lemma SearchKeyIgnoresPadding(before: string, title: string, after: string, year: Option<Int32>)
    requires IsBlank(before) && IsBlank(after)
    ensures SearchKey(before + title + after, year) == SearchKey(title, year)
  {
    TrimIgnoresSurroundingBlanks(before, title, after);
  }

  /** Titles that differ only by letter case share a search key. */
  lemma SearchKeyIgnoresCase(title1: string, title2: string, year: Option<Int32>)
    requires ToLower(title1) == ToLower(title2)
    ensures SearchKey(title1, year) == SearchKey(title2, year)
  {
    TrimCommutesWithLower(title1);
    TrimCommutesWithLower(title2);
  }

  /**
   * Search keys are not injective: a title that itself ends in ":1999", searched without a
   * year, shares its key with the shorter title searched with the year 1999.
   */
  lemma SearchKeysCanCollide()
    ensures SearchKey("a:1999", None) == SearchKey("a", Some(1999))
  {
    assert Show(1999) == "1999" by {
      assert Digits(1) == "1";
      assert Digits(19) == Digits(1) + "9";
      assert Digits(199) == Digits(19) + "9";
      assert Digits(1999) == Digits(199) + "9";
    }
    assert Trim("a:1999") == "a:1999" by {
      assert TrimStart("a:1999") == "a:1999";
    }
    assert Trim("a") == "a";
    assert ToLower("a:1999") == "a:1999";
    assert ToLower("a") == "a";
  }

  // ================================================================ request paths

  /** The characters `Uri.EscapeDataString` leaves as they are (RFC 3986 "unreserved"). */
  predicate IsUnreserved(c: char)
  {
    'A' <= c <= 'Z' || 'a' <= c <= 'z' || '0' <= c <= '9' || c == '-' || c == '.' || c == '_' || c == '~'
  }

  function HexDigit(d: int): char
    requires 0 <= d < 16
  {
    if d < 10 then ('0' as int + d) as char else ('A' as int + d - 10) as char
  }

  /** The UTF-8 encoding of one character. */
  function Utf8(c: char): seq<int>
  {
    var n := c as int;
    if n < 0x80 then [n]
    else if n < 0x800 then [0xC0 + n / 0x40, 0x80 + n % 0x40]
    else if n < 0x1_0000 then [0xE0 + n / 0x1000, 0x80 + (n / 0x40) % 0x40, 0x80 + n % 0x40]
    else [0xF0 + n / 0x4_0000, 0x80 + (n / 0x1000) % 0x40, 0x80 + (n / 0x40) % 0x40, 0x80 + n % 0x40]
  }

  function PercentEncode(bytes: seq<int>): string
    requires forall i | 0 <= i < |bytes| :: 0 <= bytes[i] < 256
  {
    if bytes == [] then ""
    else ['%', HexDigit(bytes[0] / 16), HexDigit(bytes[0] % 16)] + PercentEncode(bytes[1..])
  }

  /** `Uri.EscapeDataString`: unreserved characters stay, every other one becomes %XX per UTF-8 byte. */
  function EscapeDataString(s: string): (r: string)
    ensures |r| >= |s|
    ensures (forall i | 0 <= i < |s| :: IsUnreserved(s[i])) ==> r == s
  {
    if s == [] then ""
    else
      (if IsUnreserved(s[0]) then [s[0]] else PercentEncode(Utf8(s[0]))) + EscapeDataString(s[1..])
  }

  predicate IsQueryValueChar(c: char)
  {
    IsUnreserved(c) || c == '%'
  }

  lemma {:induction false} PercentEncodeStaysInValue(bytes: seq<int>)
    requires forall i | 0 <= i < |bytes| :: 0 <= bytes[i] < 256
    ensures forall i | 0 <= i < |PercentEncode(bytes)| :: IsQueryValueChar(PercentEncode(bytes)[i])
    decreases |bytes|
  {
    if bytes != [] {
      PercentEncodeStaysInValue(bytes[1..]);
    }
  }

  /**
   * An escaped title holds only unreserved characters and '%': it cannot end the `query`
   * parameter or add one of its own (no '&', '=', '#' or '?').
   */
  lemma {:induction false} EscapedTitleStaysInQueryValue(title: string)
    ensures forall i | 0 <= i < |EscapeDataString(title)| :: IsQueryValueChar(EscapeDataString(title)[i])
    decreases |title|
  {
    if title != [] {
      EscapedTitleStaysInQueryValue(title[1..]);
      if !IsUnreserved(title[0]) {
        PercentEncodeStaysInValue(Utf8(title[0]));
      }
    }
  }

  /** The path and query each lookup sends, relative to ApiBaseUrl. */
  function RequestPath(q: Request): (path: string)
    ensures q.TitleSearch? ==> "/v1.4/movie/search?query=" <= path
    ensures q.MovieById? ==> "/v1.4/movie/" <= path && TryParseInt(path[|"/v1.4/movie/"|..]) == Some(q.id)
    ensures q.SeasonOf? ==> "/v1.4/season?movieId=" <= path
  {
    match q
    case TitleSearch(title, year) =>
      "/v1.4/movie/search?query=" + EscapeDataString(title) + "&limit=3"
      + (if year.Some? then "&year=" + Show(year.value) else "")
    case MovieById(id) =>
      ParseShowRoundTrip(id);
      "/v1.4/movie/" + Show(id)
    case SeasonOf(movieId, seasonNumber) =>
      "/v1.4/season?movieId=" + Show(movieId) + "&number=" + Show(seasonNumber)
  }

  // ================================================================ responses and outcomes

  /** The `message` property of an error body, as JsonDocument sees it. */
  datatype MessageField = Missing | NullValue | StringValue(text: string) | OtherValue

  /** What JsonDocument.Parse makes of an error body. */
  datatype ErrorBody = Unparsable | NotAnObject | JsonObject(message: MessageField)

  /**
   * GetErrorMessageAsync: the body's `message` string; a missing field, a null or
   * non-string value, a non-object body and a body that does not parse all give
   * "Unknown error" (every failure is swallowed).
   */
  function GetErrorMessage(body: ErrorBody): (m: string)
    ensures m == UnknownError || body == JsonObject(StringValue(m))
    ensures body.JsonObject? && body.message.StringValue? ==> m == body.message.text
    ensures body.Unparsable? || body.NotAnObject? ==> m == UnknownError
    ensures body == JsonObject(Missing) || body == JsonObject(NullValue) ==> m == UnknownError
  {
    match body
    case JsonObject(StringValue(text)) => text
    case _ => UnknownError
  }

  /** How the HTTP exchange of a lookup ended. */
  datatype Transfer<T> =
      /**
       * A response arrived. `decoded` is what JsonSerializer makes of a success body (null
       * for a literal `null`); `errorBody` is what JsonDocument makes of the body when the
       * status is 403 or 429.
       */
    | Received(status: int, decoded: Option<T>, errorBody: ErrorBody)
      /** TaskCanceledException: by the caller's token when `byCaller`, else the 120-second timeout. */
    | Canceled(byCaller: bool)
      /** HttpRequestException. */
    | HttpFailure
      /** Any other exception, a body that does not deserialize among them. */
    | OtherFailure
  {
    function MapDecoded<U>(f: Option<T> -> Option<U>): Transfer<U>
    {
      match this
      case Received(status, decoded, errorBody) => Received(status, f(decoded), errorBody)
      case Canceled(byCaller) => Canceled(byCaller)
      case HttpFailure => HttpFailure
      case OtherFailure => OtherFailure
    }
  }

  /** What a lookup ran into; the C# method returns Value() and logs the rest. */
  datatype Lookup<T> =
    | Unconfigured
    | CacheHit(cached: Option<T>)
    | Cancelled
    | TimedOut
    | RateLimited(status: int, message: string)
    | NotFound
    | Failed(status: int)
    | Fetched(data: Option<T>)
    | TransportFailure
    | UnexpectedFailure
  {
    /** The value the lookup returns: null for every outcome but a cache hit and a fetch. */
    function Value(): Option<T>
    {
      match this
      case CacheHit(cached) => cached
      case Fetched(data) => data
      case _ => None
    }

    function Map<U>(f: T -> U): Lookup<U>
    {
      match this
      case Unconfigured => Unconfigured
      case CacheHit(cached) => CacheHit(if cached.Some? then Some(f(cached.value)) else None)
      case Cancelled => Cancelled
      case TimedOut => TimedOut
      case RateLimited(status, message) => RateLimited(status, message)
      case NotFound => NotFound
      case Failed(status) => Failed(status)
      case Fetched(data) => Fetched(if data.Some? then Some(f(data.value)) else None)
      case TransportFailure => TransportFailure
      case UnexpectedFailure => UnexpectedFailure
    }
  }

  /**
   * The classification a lookup applies once it holds the gate: 429 and 403 are rate
   * limiting (with the body's message), 404 is "not found", any other status outside
   * 200-299 is a failure, and a 2xx status yields the decoded body.
   */
  function Classify<T>(t: Transfer<T>): (r: Lookup<T>)
    ensures r.Fetched? <==> t.Received? && IsSuccessStatusCode(t.status)
    ensures r.Fetched? ==> r.data == t.decoded
    ensures r.RateLimited? ==> t.Received? && r.status == t.status && r.message == GetErrorMessage(t.errorBody)
    ensures t.Canceled? ==> (r.Cancelled? <==> t.byCaller) && (r.TimedOut? <==> !t.byCaller)
    ensures !r.CacheHit? && !r.Unconfigured?
  {
    match t
    case Received(status, decoded, errorBody) =>
      if status == StatusTooManyRequests || status == StatusForbidden then
        RateLimited(status, GetErrorMessage(errorBody))
      else if status == StatusNotFound then NotFound
      else if !IsSuccessStatusCode(status) then Failed(status)
      else Fetched(decoded)
    case Canceled(byCaller) => if byCaller then Cancelled else TimedOut
    case HttpFailure => TransportFailure
    case OtherFailure => UnexpectedFailure
  }

  /** Every status falls in exactly one class, and only a 2xx status can return a value. */
  lemma ClassifyStatus<T>(status: int, decoded: Option<T>, body: ErrorBody)
    ensures var r := Classify(Received(status, decoded, body));
      && (r.RateLimited? <==> status == 429 || status == 403)
      && (r.NotFound? <==> status == 404)
      && (r.Failed? <==> !IsSuccessStatusCode(status) && status !in {403, 404, 429})
      && (r.Fetched? <==> IsSuccessStatusCode(status))
      && (r.Fetched? ==> r.Value() == decoded)
      && (!r.Fetched? ==> r.Value() == None)
  {
  }

  // ================================================================ the cache

  /** The shapes a cache entry can hold (the C# cache stores them as `object`). */
  datatype Payload =
    | SearchData(search: SearchResponse)
    | MovieData(movie: MovieDto)
    | SeasonData(season: Season)

  function WrapSearch(x: SearchResponse): Payload { SearchData(x) }
  function WrapMovie(x: MovieDto): Payload { MovieData(x) }
  function WrapSeason(x: Season): Payload { SeasonData(x) }

  /** CacheEntry<object>: a payload, or none for a remembered 404, and when it stops counting. */
  datatype CacheEntry = CacheEntry(data: Option<Payload>, expiresAt: int)

  type Cache = map<string, CacheEntry>

  /** An entry that is there and whose ExpiresAt lies after `now`. */
  predicate IsFresh(cache: Cache, key: string, now: int)
  {
    key in cache && cache[key].expiresAt > now
  }

  /** ConcurrentDictionary.TryAdd: the first writer of a key keeps it. */
  function TryAdd(cache: Cache, key: string, entry: CacheEntry): Cache
  {
    if key in cache then cache else cache[key := entry]
  }

  /** TryAdd never replaces an entry, and it adds nothing but the one key. */
  lemma TryAddKeepsFirstWriter(cache: Cache, key: string, entry: CacheEntry)
    ensures key in cache ==> TryAdd(cache, key, entry) == cache
    ensures key !in cache ==> TryAdd(cache, key, entry)[key] == entry
    ensures TryAdd(cache, key, entry).Keys == cache.Keys + {key}
  {
  }

  /** The entry an outcome writes: 404 for an hour, a non-null payload for a day, else none. */
  function EntryFor(r: Lookup<Payload>, now: int): (e: Option<CacheEntry>)
    ensures e.Some? ==> e.value.expiresAt > now
    ensures e.Some? && e.value.data.None? ==> r.NotFound?
    ensures e.Some? && e.value.data.Some? ==> r == Fetched(e.value.data)
  {
    match r
    case NotFound => Some(CacheEntry(None, now + NotFoundExpirationHours * SecondsPerHour))
    case Fetched(Some(p)) => Some(CacheEntry(Some(p), now + CacheExpirationHours * SecondsPerHour))
    case _ => None
  }

  /** The cache after an outcome has been recorded under `key`. */
  function Record(cache: Cache, key: string, r: Lookup<Payload>, now: int): (c: Cache)
    ensures c.Keys == cache.Keys + (if EntryFor(r, now).Some? then {key} else {})
    ensures forall k | k in cache :: c[k] == cache[k]
    ensures key !in cache && EntryFor(r, now).Some? ==> c[key] == EntryFor(r, now).value
  {
    var e := EntryFor(r, now);
    if e.Some? then TryAdd(cache, key, e.value) else cache
  }

  /**
   * Only "not found" and a non-null payload are remembered; a remembered 404 lapses strictly
   * before a payload stored at the same instant.
   */
  lemma OnlyNotFoundAndPayloadsAreCached(r: Lookup<Payload>, now: int)
    ensures EntryFor(r, now).Some? <==> r.NotFound? || (r.Fetched? && r.data.Some?)
    ensures r.NotFound? ==> EntryFor(r, now) == Some(CacheEntry(None, now + 3600))
    ensures r.Fetched? && r.data.Some? ==> EntryFor(r, now) == Some(CacheEntry(r.data, now + 86400))
  {
  }

  /** The payload shape each key prefix stands for. */
  predicate FitsKey(key: string, p: Payload)
  {
    match p
    case SearchData(_) => IsSearchKey(key)
    case MovieData(_) => IsMovieKey(key)
    case SeasonData(_) => IsSeasonKey(key)
  }

  /** Every stored payload has the shape its key's prefix announces. */
  predicate CacheWellTyped(cache: Cache)
  {
    forall key | key in cache && cache[key].data.Some? :: FitsKey(key, cache[key].data.value)
  }

  /** Recording a payload that fits its key keeps every stored payload fitting its key. */
  lemma RecordKeepsWellTyped(cache: Cache, key: string, r: Lookup<Payload>, now: int)
    requires CacheWellTyped(cache)
    requires r.Fetched? && r.data.Some? ==> FitsKey(key, r.data.value)
    ensures CacheWellTyped(Record(cache, key, r, now))
  {
  }

  /** `entry.Data as PoiskKinoSearchResponse` (and the other two casts): null on a shape mismatch. */
  function AsSearch(data: Option<Payload>): Option<SearchResponse>
  {
    if data.Some? && data.value.SearchData? then Some(data.value.search) else None
  }

  function AsMovie(data: Option<Payload>): Option<MovieDto>
  {
    if data.Some? && data.value.MovieData? then Some(data.value.movie) else None
  }

  function AsSeason(data: Option<Payload>): Option<Season>
  {
    if data.Some? && data.value.SeasonData? then Some(data.value.season) else None
  }

  /** `seasonResponse?.Docs?.FirstOrDefault()`. */
  function FirstSeason(response: Option<SeasonResponse>): Option<Season>
  {
    if response.Some? && response.value.docs.Some? && |response.value.docs.value| > 0
    then Some(response.value.docs.value[0])
    else None
  }

  /** What a provider sees of a lookup: the value returned, or an exception that escaped. */
  datatype Fetch<T> = Returned(value: Option<T>) | Threw
  {
    /** The value, with a caught exception read as null. */
    function OrNull(): Option<T>
    {
      if Returned? then value else None
    }
  }

  function Delivered<T>(r: Lookup<T>, releaseFault: bool): Fetch<T>
  {
    if releaseFault then Threw else Returned(r.Value())
  }

  // ================================================================ the gate

  /** How a WaitAsync call ends. */
  datatype WaitResult =
    | Entered       // a slot was free and is now taken
    | WaitCanceled  // the token was already cancelled: the wait throws, no slot is taken
    | Parked        // no slot is free: the flow waits for a Release

  /** SemaphoreSlim: a count of free slots, bounded by maxCount. */
  class Gate {
    var currentCount: int
    const maxCount: int

    ghost predicate Valid()
      reads this
    {
      0 <= currentCount <= maxCount
    }

    constructor (initialCount: int, maxCount: int)
      requires 0 <= initialCount <= maxCount
      ensures Valid()
      ensures currentCount == initialCount && this.maxCount == maxCount
    {
      currentCount := initialCount;
      this.maxCount := maxCount;
    }

    /** WaitAsync(token): a cancelled token wins before the count is looked at. */
    method WaitAsync(cancelled: bool) returns (w: WaitResult)
      requires Valid()
      modifies this
      ensures Valid()
      ensures w == (if cancelled then WaitCanceled else if old(currentCount) > 0 then Entered else Parked)
      ensures currentCount == (if w == Entered then old(currentCount) - 1 else old(currentCount))
    {
      if cancelled {
        w := WaitCanceled;
      } else if currentCount > 0 {
        currentCount := currentCount - 1;
        w := Entered;
      } else {
        w := Parked;
      }
    }

    /**
     * Release(): frees a slot, whoever calls it. At maxCount it throws
     * SemaphoreFullException instead (reported as `full`) and changes nothing.
     */
    method Release() returns (full: bool)
      requires Valid()
      modifies this
      ensures Valid()
      ensures full <==> old(currentCount) == maxCount
      ensures currentCount == if full then old(currentCount) else old(currentCount) + 1
    {
      full := currentCount == maxCount;
      if !full {
        currentCount := currentCount + 1;
      }
    }
  }

  /**
   * The lookups release the gate in `finally` whether or not their wait took a slot. While
   * one flow holds the gate, a second flow whose wait is cancelled still releases it, and a
   * third flow then enters: two flows hold the one-slot gate at once.
   */
  method CancelledWaitOverReleases() returns (first: WaitResult, second: WaitResult, third: WaitResult, fault: bool)
    ensures first == Entered && second == WaitCanceled && !fault && third == Entered
  {
    var gate := new Gate(1, 1);
    first := gate.WaitAsync(false);
    second := gate.WaitAsync(true);
    fault := gate.Release();
    third := gate.WaitAsync(false);
  }

  // ================================================================ the client

  /**
   * PoiskKinoApiClient: one instance per provider, owning its cache and its gate. Between
   * two lookups of this sequential model the gate is free.
   */
  class Client {
    var cache: Cache
    const gate: Gate

    ghost predicate Valid()
      reads this, gate
    {
      && gate.Valid()
      && gate.maxCount == 1
      && gate.currentCount == 1
      && CacheWellTyped(cache)
    }

    constructor ()
      ensures Valid()
      ensures cache == map[]
      ensures fresh(gate)
    {
      cache := map[];
      gate := new Gate(1, 1);
    }

    /** The cache probe: a fresh entry is returned untouched; a stale one is removed (TryRemove). */
    method TryGetFresh(key: string, now: int) returns (hit: Option<CacheEntry>)
      modifies this
      ensures hit.Some? <==> IsFresh(old(cache), key, now)
      ensures hit.Some? ==> hit.value == old(cache)[key] && cache == old(cache)
      ensures hit.None? ==> cache == old(cache) - {key}
    {
      if key in cache {
        var entry := cache[key];
        if entry.expiresAt > now {
          return Some(entry);
        }
        cache := cache - {key};
      } else {
        assert cache == cache - {key};
      }
      hit := None;
    }

    /** The classification and the cache write of one exchange, while the gate is held. */
    method Deliver<T>(key: string, now: int, transfer: Transfer<T>, wrap: T -> Payload) returns (r: Lookup<T>)
      requires CacheWellTyped(cache)
      requires transfer.Received? && transfer.decoded.Some? ==> FitsKey(key, wrap(transfer.decoded.value))
      modifies this
      ensures CacheWellTyped(cache)
      ensures r == Classify(transfer)
      ensures cache == Record(old(cache), key, r.Map(wrap), now)
    {
      r := Classify(transfer);
      var outcome := r.Map(wrap);
      assert outcome.Fetched? && outcome.data.Some? ==> FitsKey(key, outcome.data.value);
      RecordKeepsWellTyped(cache, key, outcome, now);
      var entry := EntryFor(outcome, now);
      if entry.Some? {
        cache := TryAdd(cache, key, entry.value);
      }
    }

    /**
     * The part of a lookup after a cache miss: take the gate, send the request, classify
     * the response, record the outcome, and release the gate in `finally`.
     */
    method Exchange<T>(q: Request, now: int, cancelled: bool, transfer: Transfer<T>, wrap: T -> Payload)
      returns (r: Lookup<T>, sent: Option<string>, releaseFault: bool)
      requires Valid()
      requires forall x :: FitsKey(CacheKey(q), wrap(x))
      modifies this, gate
      ensures Valid()
      ensures r == (if cancelled then Cancelled else Classify(transfer))
      ensures sent == (if cancelled then None else Some(RequestPath(q)))
      ensures cache == Record(old(cache), CacheKey(q), r.Map(wrap), now)
      ensures releaseFault == cancelled
    {
      var key := CacheKey(q);
      assert transfer.Received? && transfer.decoded.Some? ==> FitsKey(key, wrap(transfer.decoded.value));
      var w := gate.WaitAsync(cancelled);
      if w == WaitCanceled {
        r, sent := Cancelled, None;
      } else {
        sent := Some(RequestPath(q));
        r := Deliver(key, now, transfer, wrap);
      }
      releaseFault := gate.Release();
    }

    /**
     * SearchAsync. A blank API key answers Unconfigured and touches nothing; a fresh entry is
     * answered from the cache with no request and no gate; otherwise a stale entry is dropped
     * and the exchange decides the outcome and the entry written.
     */
    method Search(title: string, year: Option<Int32>, apiKey: string, now: int, cancelled: bool,
                  transfer: Transfer<SearchResponse>)
      returns (r: Lookup<SearchResponse>, sent: Option<string>, releaseFault: bool)
      requires Valid()
      modifies this, gate
      ensures Valid()
      ensures IsBlank(apiKey) ==> r == Unconfigured && sent == None && !releaseFault && cache == old(cache)
      ensures var key := SearchKey(title, year);
        !IsBlank(apiKey) && IsFresh(old(cache), key, now) ==>
          && r == CacheHit(AsSearch(old(cache)[key].data))
          && (old(cache)[key].data.Some? ==> r.Value().Some?)
          && sent == None && !releaseFault && cache == old(cache)
      ensures var key := SearchKey(title, year);
        !IsBlank(apiKey) && !IsFresh(old(cache), key, now) ==>
          && r == (if cancelled then Cancelled else Classify(transfer))
          && sent == (if cancelled then None else Some(RequestPath(TitleSearch(title, year))))
          && cache == Record(old(cache) - {key}, key, r.Map(WrapSearch), now)
          && releaseFault == cancelled
    {
      if IsBlank(apiKey) {
        return Unconfigured, None, false;
      }
      var q := TitleSearch(title, year);
      var hit := TryGetFresh(CacheKey(q), now);
      if hit.Some? {
        ghost var key := CacheKey(q);
        assert IsSearchKey(key) by { KeysOfDifferentKindsDiffer(title, year, 0, 0, 0); }
        PrefixesExclusive(key);
        return CacheHit(AsSearch(hit.value.data)), None, false;
      }
      assert forall x :: FitsKey(CacheKey(q), WrapSearch(x)) by {
        KeysOfDifferentKindsDiffer(title, year, 0, 0, 0);
      }
      r, sent, releaseFault := Exchange(q, now, cancelled, transfer, WrapSearch);
    }

    /** GetMovieByIdAsync: the same sequence under the key "movie:{id}". */
    method GetMovieById(id: Int32, apiKey: string, now: int, cancelled: bool, transfer: Transfer<MovieDto>)
      returns (r: Lookup<MovieDto>, sent: Option<string>, releaseFault: bool)
      requires Valid()
      modifies this, gate
      ensures Valid()
      ensures IsBlank(apiKey) ==> r == Unconfigured && sent == None && !releaseFault && cache == old(cache)
      ensures var key := MovieKey(id);
        !IsBlank(apiKey) && IsFresh(old(cache), key, now) ==>
          && r == CacheHit(AsMovie(old(cache)[key].data))
          && (old(cache)[key].data.Some? ==> r.Value().Some?)
          && sent == None && !releaseFault && cache == old(cache)
      ensures var key := MovieKey(id);
        !IsBlank(apiKey) && !IsFresh(old(cache), key, now) ==>
          && r == (if cancelled then Cancelled else Classify(transfer))
          && sent == (if cancelled then None else Some(RequestPath(MovieById(id))))
          && cache == Record(old(cache) - {key}, key, r.Map(WrapMovie), now)
          && releaseFault == cancelled
    {
      if IsBlank(apiKey) {
        return Unconfigured, None, false;
      }
      var q := MovieById(id);
      var hit := TryGetFresh(CacheKey(q), now);
      if hit.Some? {
        ghost var key := CacheKey(q);
        assert IsMovieKey(key) by { KeysOfDifferentKindsDiffer("", None, id, 0, 0); }
        PrefixesExclusive(key);
        return CacheHit(AsMovie(hit.value.data)), None, false;
      }
      assert forall x :: FitsKey(CacheKey(q), WrapMovie(x)) by {
        KeysOfDifferentKindsDiffer("", None, id, 0, 0);
      }
      r, sent, releaseFault := Exchange(q, now, cancelled, transfer, WrapMovie);
    }

    /**
     * GetSeasonAsync: the same sequence under "season:{movieId}:{seasonNumber}"; a success
     * body is a page of seasons and only its first season counts (an empty page is null).
     */
    method GetSeason(movieId: Int32, seasonNumber: Int32, apiKey: string, now: int, cancelled: bool,
                     transfer: Transfer<SeasonResponse>)
      returns (r: Lookup<Season>, sent: Option<string>, releaseFault: bool)
      requires Valid()
      modifies this, gate
      ensures Valid()
      ensures IsBlank(apiKey) ==> r == Unconfigured && sent == None && !releaseFault && cache == old(cache)
      ensures var key := SeasonKey(movieId, seasonNumber);
        !IsBlank(apiKey) && IsFresh(old(cache), key, now) ==>
          && r == CacheHit(AsSeason(old(cache)[key].data))
          && (old(cache)[key].data.Some? ==> r.Value().Some?)
          && sent == None && !releaseFault && cache == old(cache)
      ensures var key := SeasonKey(movieId, seasonNumber);
        !IsBlank(apiKey) && !IsFresh(old(cache), key, now) ==>
          && r == (if cancelled then Cancelled else Classify(transfer.MapDecoded(FirstSeason)))
          && sent == (if cancelled then None else Some(RequestPath(SeasonOf(movieId, seasonNumber))))
          && cache == Record(old(cache) - {key}, key, r.Map(WrapSeason), now)
          && releaseFault == cancelled
    {
      if IsBlank(apiKey) {
        return Unconfigured, None, false;
      }
      var q := SeasonOf(movieId, seasonNumber);
      var hit := TryGetFresh(CacheKey(q), now);
      if hit.Some? {
        ghost var key := CacheKey(q);
        assert IsSeasonKey(key) by { KeysOfDifferentKindsDiffer("", None, 0, movieId, seasonNumber); }
        PrefixesExclusive(key);
        return CacheHit(AsSeason(hit.value.data)), None, false;
      }
      assert forall x :: FitsKey(CacheKey(q), WrapSeason(x)) by {
        KeysOfDifferentKindsDiffer("", None, 0, movieId, seasonNumber);
      }
      r, sent, releaseFault := Exchange(q, now, cancelled, transfer.MapDecoded(FirstSeason), WrapSeason);
    }
  }

  // ================================================================ lookups in sequence

  /**
   * A 404 is remembered for one hour: the same lookup within the hour answers null from
   * the cache without a request; from the hour on, the entry is stale and the request is
   * sent again.
   */
  method NotFoundIsRememberedForAnHour(id: Int32, apiKey: string, now: int, later: int, next: Transfer<MovieDto>)
    returns (first: Lookup<MovieDto>, again: Lookup<MovieDto>, resent: Option<string>)
    requires !IsBlank(apiKey) && now <= later
    ensures first == NotFound
    ensures later < now + 3600 ==> again == CacheHit(None) && resent == None
    ensures later >= now + 3600 ==> resent == Some(RequestPath(MovieById(id))) && again == Classify(next)
  {
    var client := new Client();
    var sent, fault;
    first, sent, fault := client.GetMovieById(id, apiKey, now, false, Received(StatusNotFound, None, Unparsable));
    again, resent, fault := client.GetMovieById(id, apiKey, later, false, next);
  }

  /** A fetched title is served from the cache for a day, whatever the server would say now. */
  method PayloadIsServedForADay(movie: MovieDto, status: int, apiKey: string, now: int, later: int, next: Transfer<MovieDto>)
    returns (again: Lookup<MovieDto>, resent: Option<string>)
    requires !IsBlank(apiKey) && IsSuccessStatusCode(status)
    requires now <= later < now + 86400
    ensures again == CacheHit(Some(movie)) && resent == None
  {
    var client := new Client();
    var first, sent, fault := client.GetMovieById(movie.id, apiKey, now, false, Received(status, Some(movie), Unparsable));
    again, resent, fault := client.GetMovieById(movie.id, apiKey, later, false, next);
  }

  /** Rate limiting is logged with the server's message and not remembered: the next lookup asks again. */
  method RateLimitIsNotRemembered(title: string, year: Option<Int32>, apiKey: string, now: int,
                                  status: int, body: ErrorBody, next: Transfer<SearchResponse>)
    returns (first: Lookup<SearchResponse>, again: Lookup<SearchResponse>, resent: Option<string>)
    requires !IsBlank(apiKey) && (status == StatusTooManyRequests || status == StatusForbidden)
    ensures first == RateLimited(status, GetErrorMessage(body)) && first.Value() == None
    ensures resent == Some(RequestPath(TitleSearch(title, year))) && again == Classify(next)
  {
    var client := new Client();
    var sent, fault;
    first, sent, fault := client.Search(title, year, apiKey, now, false, Received(status, None, body));
    again, resent, fault := client.Search(title, year, apiKey, now, false, next);
  }

  /**
   * A lookup whose token is already cancelled sends nothing, but its `finally` releases the
   * free gate: the SemaphoreFullException escapes in place of the null the catch returned.
   */
  method CancelledLookupThrows(movieId: Int32, seasonNumber: Int32, apiKey: string, now: int, transfer: Transfer<SeasonResponse>)
    returns (delivered: Fetch<Season>, sent: Option<string>)
    requires !IsBlank(apiKey)
    ensures delivered == Threw && sent == None
  {
    var client := new Client();
    var r, fault;
    r, sent, fault := client.GetSeason(movieId, seasonNumber, apiKey, now, true, transfer);
    delivered := Delivered(r, fault);
  }
}
