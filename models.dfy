/**
 * The PoiskKino API's JSON shapes (the classes under Models), limited to the fields the client and the
 * providers read. Every C# reference or `T?` field is an Option; a C# `int` is an Int32.
 */
module Models {
  import opened Wrappers
  import opened Text

  /** PoiskKinoExternalId: ids of the same title in other catalogues. */
  datatype ExternalId = ExternalId(imdb: Option<string>, tmdb: Option<Int32>, kpHd: Option<string>)

  /** PoiskKinoImage. */
  datatype Image = Image(url: Option<string>)

  /** PoiskKinoGenre. */
  datatype Genre = Genre(name: Option<string>)

  /** PoiskKinoPerson. */
  datatype Person = Person(
    name: Option<string>,
    enName: Option<string>,
    photo: Option<string>,
    profession: Option<string>,
    enProfession: Option<string>)

  /** PoiskKinoItem: one entry of a search response. */
  datatype Item = Item(
    id: Int32,
    name: Option<string>,
    enName: Option<string>,
    year: Option<Int32>,
    description: Option<string>,
    externalId: Option<ExternalId>,
    poster: Option<Image>,
    backdrop: Option<Image>,
    isSeries: Option<bool>)

  /** The body of `/v1.4/movie/search`. */
  datatype SearchResponse = SearchResponse(results: Option<seq<Item>>)

  /** PoiskKinoMovieDtoV1_4: the body of `/v1.4/movie/{id}`. */
  datatype MovieDto = MovieDto(
    id: Int32,
    name: Option<string>,
    enName: Option<string>,
    year: Option<Int32>,
    description: Option<string>,
    shortDescription: Option<string>,
    externalId: Option<ExternalId>,
    poster: Option<Image>,
    backdrop: Option<Image>,
    genres: Option<seq<Genre>>,
    persons: Option<seq<Person>>)

  /** PoiskKinoEpisode. */
  datatype Episode = Episode(
    number: Int32,
    name: Option<string>,
    enName: Option<string>,
    description: Option<string>,
    enDescription: Option<string>,
    still: Option<Image>)

  /** PoiskKinoSeason. */
  datatype Season = Season(
    movieId: Int32,
    number: Int32,
    episodes: Option<seq<Episode>>,
    poster: Option<Image>,
    name: Option<string>,
    enName: Option<string>,
    description: Option<string>,
    enDescription: Option<string>)

  /** PoiskKinoSeasonResponse: the body of `/v1.4/season`, a page of seasons. */
  datatype SeasonResponse = SeasonResponse(docs: Option<seq<Season>>)

  /** `image?.Url`. */
  function UrlOf(image: Option<Image>): Option<string>
  {
    if image.None? then None else image.value.url
  }
}
