/**
 * The host side the providers talk to: the plugin's configuration and the media-server
 * entities they fill in (search results, metadata results, people, images), limited to the
 * fields the providers set or read.
 */
module Host {
  import opened Wrappers
  import opened Text

  /** PluginConfiguration (Configuration.cs). */
  datatype Configuration = Configuration(apiKey: string, ignoreTmdbImages: bool)

  /** A fresh PluginConfiguration: no API key, and TMDB images ignored. */
  function DefaultConfiguration(): Configuration
  {
    Configuration("", true)
  }

  /** The loaded plugin, seen through `Plugin.Instance`; its configuration may be missing. */
  datatype Plugin = Plugin(configuration: Option<Configuration>)

  /** The providers' `ApiKey` property: `Plugin.Instance?.Configuration?.ApiKey ?? string.Empty`. */
  function ApiKey(instance: Option<Plugin>): string
  {
    if instance.Some? && instance.value.configuration.Some?
    then instance.value.configuration.value.apiKey
    else ""
  }

  /** A ProviderIds dictionary: provider name to that provider's id of the item. */
  type ProviderIds = map<string, string>

  /** The ProviderIds keys the providers write. */
  const PoiskKinoKey: string := "PoiskKino"
  const KinopoiskKey: string := "Kinopoisk"
  const ImdbKey: string := "Imdb"
  const TmdbKey: string := "Tmdb"

  /** The providers' display name, stamped on every RemoteImageInfo. */
  const ProviderName: string := "ПоискКино"

  /** `GetProviderId(name)` on an entity whose ProviderIds may be null. */
  function GetProviderId(ids: Option<ProviderIds>, name: string): Option<string>
  {
    if ids.Some? && name in ids.value then Some(ids.value[name]) else None
  }

  /** `ids != null ? new Dictionary<string, string>(ids) : new Dictionary<string, string>()`. */
  function CopyIds(ids: Option<ProviderIds>): ProviderIds
  {
    ids.GetOr(map[])
  }

  datatype PersonKind = Actor | Director | Producer | Writer | Composer

  datatype ImageType = Primary | Backdrop

  /** MovieInfo and SeriesInfo: what the host knows of the title it asks about. */
  datatype ItemLookupInfo = ItemLookupInfo(
    name: Option<string>,
    year: Option<Int32>,
    providerIds: Option<ProviderIds>)

  /** EpisodeInfo. */
  datatype EpisodeInfo = EpisodeInfo(
    seriesProviderIds: Option<ProviderIds>,
    parentIndexNumber: Option<Int32>,
    indexNumber: Option<Int32>,
    providerIds: Option<ProviderIds>)

  /** SeasonInfo. */
  datatype SeasonInfo = SeasonInfo(
    seriesProviderIds: Option<ProviderIds>,
    indexNumber: Option<Int32>,
    providerIds: Option<ProviderIds>)

  /** RemoteSearchResult. */
  datatype RemoteSearchResult = RemoteSearchResult(
    name: Option<string>,
    productionYear: Option<Int32>,
    overview: Option<string>,
    providerIds: ProviderIds,
    imageUrl: Option<string>)

  /** PersonInfo. */
  datatype PersonInfo = PersonInfo(name: string, kind: PersonKind, imageUrl: Option<string>)

  /**
   * The argument check of the host's `MetadataResult.AddPerson`: a person whose name is null
   * or empty is refused with an ArgumentException.
   */
  predicate AddPersonAccepts(p: PersonInfo)
  {
    p.name != ""
  }

  /** The fields a Movie or a Series entity receives. */
  datatype Title = Title(
    name: string,
    overview: Option<string>,
    productionYear: Option<Int32>,
    providerIds: ProviderIds,
    genres: seq<string>)

  /** ItemImageInfo. */
  datatype ItemImage = ItemImage(path: string, kind: ImageType)

  /** The fields an Episode entity receives. */
  datatype EpisodeEntity = EpisodeEntity(
    name: string,
    overview: Option<string>,
    indexNumber: Int32,
    parentIndexNumber: Int32,
    providerIds: ProviderIds,
    images: seq<ItemImage>)

  /** The fields a Season entity receives. */
  datatype SeasonEntity = SeasonEntity(
    name: string,
    overview: Option<string>,
    indexNumber: Int32,
    providerIds: ProviderIds,
    images: seq<ItemImage>)

  /** MetadataResult<T>. */
  datatype MetadataResult<T> = MetadataResult(item: Option<T>, hasMetadata: bool, people: seq<PersonInfo>)

  /** `new MetadataResult<T>()`. */
  function EmptyResult<T>(): MetadataResult<T>
  {
    MetadataResult(None, false, [])
  }

  /** RemoteImageInfo. */
  datatype RemoteImageInfo = RemoteImageInfo(url: string, kind: ImageType, providerName: string)

  /** The runtime class of the BaseItem handed to the image provider. */
  datatype ItemKind = MovieItem | SeriesItem | SeasonItem | EpisodeItem | OtherItem

  /** BaseItem. */
  datatype BaseItem = BaseItem(
    kind: ItemKind,
    name: Option<string>,
    productionYear: Option<Int32>,
    providerIds: Option<ProviderIds>)
}
