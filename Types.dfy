/**
 * The records the tool handlers exchange: the caller-facing input and
 * output shapes of types.go, the upstream records the TMDB client hands
 * back, the upstream calls a handler can make, and the handler errors.
 *
 * Ratings are float32 in the source; here they are the exact real value
 * of that float32 and are only copied, compared with zero or formatted.
 */
module Types {

  type Rating = real

  // ---------------------------------------------------------------------
  // Caller-facing shapes (types.go)
  // ---------------------------------------------------------------------

  datatype SearchMoviesInput = SearchMoviesInput(query: string, year: int)

  datatype MovieResult = MovieResult(
    id: int,
    title: string,
    releaseDate: string,
    overview: string,
    rating: Rating,
    posterPath: string)

  datatype SearchMoviesOutput = SearchMoviesOutput(results: seq<MovieResult>, total: int)

  datatype GetMovieDetailsInput = GetMovieDetailsInput(movieId: int)

  datatype MovieDetails = MovieDetails(
    id: int,
    title: string,
    releaseDate: string,
    overview: string,
    rating: Rating,
    runtime: int,
    budget: int,
    revenue: int,
    genres: seq<string>,
    posterPath: string,
    tagline: string)

  datatype GetMovieDetailsOutput = GetMovieDetailsOutput(movie: MovieDetails)

  datatype GetTrendingInput = GetTrendingInput(timeWindow: string)

  datatype GetTrendingOutput = GetTrendingOutput(results: seq<MovieResult>, total: int)

  datatype GetRecommendationsInput = GetRecommendationsInput(movieId: int, limit: int)

  datatype GetRecommendationsOutput = GetRecommendationsOutput(results: seq<MovieResult>, total: int)

  datatype DiscoverMoviesInput = DiscoverMoviesInput(
    genre: string,
    year: int,
    minRating: Rating,
    sortBy: string,
    limit: int)

  datatype DiscoverMoviesOutput = DiscoverMoviesOutput(results: seq<MovieResult>, total: int)

  datatype SearchPersonInput = SearchPersonInput(query: string)

  datatype PersonResult = PersonResult(
    id: int,
    name: string,
    knownFor: string,
    profilePath: string)

  datatype SearchPersonOutput = SearchPersonOutput(results: seq<PersonResult>, total: int)

  datatype GetPersonDetailsInput = GetPersonDetailsInput(personId: int)

  /** A filmography entry: a cast credit fills `character`, a crew credit fills `job`. */
  datatype MovieCredit = MovieCredit(
    id: int,
    title: string,
    character: string,
    job: string,
    releaseDate: string)

  datatype PersonDetails = PersonDetails(
    id: int,
    name: string,
    biography: string,
    birthday: string,
    deathday: string,
    knownFor: string,
    placeOfBirth: string,
    profilePath: string,
    movies: seq<MovieCredit>)

  datatype GetPersonDetailsOutput = GetPersonDetailsOutput(person: PersonDetails)

  // Go's zero values of the output structs, returned beside an error.

  const ZeroSearchMoviesOutput := SearchMoviesOutput([], 0)
  const ZeroGetMovieDetailsOutput :=
    GetMovieDetailsOutput(MovieDetails(0, "", "", "", 0.0, 0, 0, 0, [], "", ""))
  const ZeroGetTrendingOutput := GetTrendingOutput([], 0)
  const ZeroGetRecommendationsOutput := GetRecommendationsOutput([], 0)
  const ZeroDiscoverMoviesOutput := DiscoverMoviesOutput([], 0)
  const ZeroSearchPersonOutput := SearchPersonOutput([], 0)
  const ZeroGetPersonDetailsOutput :=
    GetPersonDetailsOutput(PersonDetails(0, "", "", "", "", "", "", "", []))

  // ---------------------------------------------------------------------
  // Upstream records, as the TMDB client returns them (only the fields
  // the handlers read)
  // ---------------------------------------------------------------------

  datatype UpstreamMovie = UpstreamMovie(
    id: int,
    title: string,
    releaseDate: string,
    overview: string,
    voteAverage: Rating,
    posterPath: string)

  datatype SearchMoviesReply = SearchMoviesReply(results: seq<UpstreamMovie>, totalResults: int)

  datatype UpstreamGenre = UpstreamGenre(id: int, name: string)

  datatype UpstreamMovieDetails = UpstreamMovieDetails(
    id: int,
    title: string,
    releaseDate: string,
    overview: string,
    voteAverage: Rating,
    runtime: int,
    budget: int,
    revenue: int,
    genres: seq<UpstreamGenre>,
    posterPath: string,
    tagline: string)

  /** One "known for" work of a person: a movie carries a title, a TV show a name. */
  datatype KnownForItem = KnownForItem(title: string, name: string)

  datatype UpstreamPerson = UpstreamPerson(
    id: int,
    name: string,
    knownForDepartment: string,
    profilePath: string,
    knownFor: seq<KnownForItem>)

  datatype UpstreamPersonDetails = UpstreamPersonDetails(
    id: int,
    name: string,
    biography: string,
    birthday: string,
    deathday: string,
    knownForDepartment: string,
    placeOfBirth: string,
    profilePath: string)

  datatype CastCredit = CastCredit(id: int, title: string, character: string, releaseDate: string)

  datatype CrewCredit = CrewCredit(id: int, title: string, job: string, releaseDate: string)

  datatype UpstreamCredits = UpstreamCredits(cast: seq<CastCredit>, crew: seq<CrewCredit>)

  // ---------------------------------------------------------------------
  // Upstream calls and errors
  // ---------------------------------------------------------------------

  /** A request a handler makes to the TMDB client, with the arguments it passes. */
  datatype ClientCall =
    | SearchMoviesCall(query: string, options: map<string, string>)
    | MovieDetailsCall(movieId: int)
    | TrendingCall(mediaType: string, timeWindow: string)
    | MovieRecommendationsCall(movieId: int)
    | DiscoverMovieCall(options: map<string, string>)
    | SearchPeopleCall(query: string)
    | PersonDetailsCall(personId: int)
    | PersonMovieCreditsCall(personId: int)

  /** The error a client call reports (network, authentication, not found, ...). */
  datatype ClientError = ClientError(message: string)

  /** A handler's error: the client's error wrapped with the operation that failed. */
  datatype HandlerError = HandlerError(context: string, cause: ClientError) {
    /** The text `fmt.Errorf("<context>: %w", cause)` produces. */
    function Message(): string {
      context + ": " + cause.message
    }
  }
}
