/**
 * The movie tool handlers: search_movies, get_movie_details, get_trending,
 * get_recommendations and discover_movies.
 *
 * Each handler is a method that takes the tool input and the reply the
 * TMDB client gives to the handler's request (a value or a client error),
 * and returns the requests it made (`calls`), the output, and an error.
 * As in Go, a failed request yields an error beside the zero output.
 */
module Movies {
  import opened Wrappers
  import opened Types
  import opened Decimal

  function Min(a: int, b: int): int {
    if a <= b then a else b
  }

  /** The caller-facing summary of one upstream movie record (field for field). */
  function ToMovieResult(m: UpstreamMovie): MovieResult {
    MovieResult(m.id, m.title, m.releaseDate, m.overview, m.voteAverage, m.posterPath)
  }

  /** Summarises every upstream movie, in upstream order. */
  method ConvertMovies(results: seq<UpstreamMovie>) returns (movies: seq<MovieResult>)
    ensures |movies| == |results|
    ensures forall i :: 0 <= i < |results| ==> movies[i] == ToMovieResult(results[i])
  {
    movies := [];
    for i := 0 to |results|
      invariant |movies| == i
      invariant forall j :: 0 <= j < i ==> movies[j] == ToMovieResult(results[j])
    {
      movies := movies + [ToMovieResult(results[i])];
    }
  }

  /** Summarises the upstream movies, stopping once `limit` of them are done. */
  method ConvertMoviePrefix(results: seq<UpstreamMovie>, limit: nat) returns (movies: seq<MovieResult>)
    ensures |movies| == Min(limit, |results|)
    ensures forall i :: 0 <= i < |movies| ==> movies[i] == ToMovieResult(results[i])
  {
    movies := [];
    for i := 0 to |results|
      invariant i <= limit
      invariant |movies| == i
      invariant forall j :: 0 <= j < i ==> movies[j] == ToMovieResult(results[j])
    {
      if i >= limit {
        break;
      }
      movies := movies + [ToMovieResult(results[i])];
    }
  }

  /** search_movies: passes the query, and a year filter only for a positive year. */
  method SearchMovies(input: SearchMoviesInput, reply: Result<SearchMoviesReply, ClientError>)
    returns (calls: seq<ClientCall>, out: SearchMoviesOutput, err: Option<HandlerError>)
    ensures |calls| == 1 && calls[0].SearchMoviesCall? && calls[0].query == input.query
    ensures input.year > 0 ==> calls[0].options == map["year" := Itoa(input.year)]
    ensures input.year <= 0 ==> calls[0].options == map[]
    ensures reply.Failure? ==>
              err == Some(HandlerError("failed to search movies", reply.error)) && out == ZeroSearchMoviesOutput
    ensures reply.Success? ==>
              && err == None
              && |out.results| == |reply.value.results|
              && (forall i :: 0 <= i < |out.results| ==> out.results[i] == ToMovieResult(reply.value.results[i]))
              && out.total == reply.value.totalResults
  {
    var options: map<string, string> := map[];
    if input.year > 0 {
      options := options["year" := Itoa(input.year)];
    }

    calls := [SearchMoviesCall(input.query, options)];
    if reply.Failure? {
      return calls, ZeroSearchMoviesOutput, Some(HandlerError("failed to search movies", reply.error));
    }

    var movies := ConvertMovies(reply.value.results);
    out, err := SearchMoviesOutput(movies, reply.value.totalResults), None;
  }

  /** get_movie_details: copies the record and keeps only the names of its genres. */
  method GetMovieDetails(input: GetMovieDetailsInput, reply: Result<UpstreamMovieDetails, ClientError>)
    returns (calls: seq<ClientCall>, out: GetMovieDetailsOutput, err: Option<HandlerError>)
    ensures calls == [MovieDetailsCall(input.movieId)]
    ensures reply.Failure? ==>
              err == Some(HandlerError("failed to get movie details", reply.error)) && out == ZeroGetMovieDetailsOutput
    ensures reply.Success? ==>
              var m, d := reply.value, out.movie;
              && err == None
              && |d.genres| == |m.genres|
              && (forall i :: 0 <= i < |m.genres| ==> d.genres[i] == m.genres[i].name)
              && d.id == m.id && d.title == m.title && d.releaseDate == m.releaseDate
              && d.overview == m.overview && d.rating == m.voteAverage && d.runtime == m.runtime
              && d.budget == m.budget && d.revenue == m.revenue
              && d.posterPath == m.posterPath && d.tagline == m.tagline
  {
    calls := [MovieDetailsCall(input.movieId)];
    if reply.Failure? {
      return calls, ZeroGetMovieDetailsOutput, Some(HandlerError("failed to get movie details", reply.error));
    }
    var movie := reply.value;

    var genres: seq<string> := [];
    for i := 0 to |movie.genres|
      invariant |genres| == i
      invariant forall j :: 0 <= j < i ==> genres[j] == movie.genres[j].name
    {
      genres := genres + [movie.genres[i].name];
    }

    var details := MovieDetails(
      movie.id, movie.title, movie.releaseDate, movie.overview, movie.voteAverage,
      movie.runtime, movie.budget, movie.revenue, genres, movie.posterPath, movie.tagline);
    out, err := GetMovieDetailsOutput(details), None;
  }

  /** get_trending: the window sent upstream is "day" or "week", defaulting to "week". */
  method GetTrending(input: GetTrendingInput, reply: Result<seq<UpstreamMovie>, ClientError>)
    returns (calls: seq<ClientCall>, out: GetTrendingOutput, err: Option<HandlerError>)
    ensures |calls| == 1 && calls[0].TrendingCall? && calls[0].mediaType == "movie"
    ensures calls[0].timeWindow == "day" || calls[0].timeWindow == "week"
    ensures input.timeWindow == "day" || input.timeWindow == "week" ==> calls[0].timeWindow == input.timeWindow
    ensures input.timeWindow != "day" && input.timeWindow != "week" ==> calls[0].timeWindow == "week"
    ensures reply.Failure? ==>
              err == Some(HandlerError("failed to get trending movies", reply.error)) && out == ZeroGetTrendingOutput
    ensures reply.Success? ==>
              && err == None
              && |out.results| == |reply.value|
              && (forall i :: 0 <= i < |out.results| ==> out.results[i] == ToMovieResult(reply.value[i]))
              && out.total == |out.results|
  {
    var timeWindow := input.timeWindow;
    if timeWindow != "day" && timeWindow != "week" {
      timeWindow := "week";
    }

    calls := [TrendingCall("movie", timeWindow)];
    if reply.Failure? {
      return calls, ZeroGetTrendingOutput, Some(HandlerError("failed to get trending movies", reply.error));
    }

    var movies := ConvertMovies(reply.value);
    out, err := GetTrendingOutput(movies, |movies|), None;
  }

  /**
   * get_recommendations: at most `limit` recommendations in upstream order,
   * where a non-positive limit means 10 and a limit above 20 means 20.
   */
  method GetRecommendations(input: GetRecommendationsInput, reply: Result<seq<UpstreamMovie>, ClientError>)
    returns (calls: seq<ClientCall>, out: GetRecommendationsOutput, err: Option<HandlerError>)
    ensures calls == [MovieRecommendationsCall(input.movieId)]
    ensures reply.Failure? ==>
              err == Some(HandlerError("failed to get movie recommendations", reply.error))
              && out == ZeroGetRecommendationsOutput
    ensures reply.Success? ==>
              && err == None
              && (input.limit <= 0 ==> |out.results| == Min(10, |reply.value|))
              && (0 < input.limit <= 20 ==> |out.results| == Min(input.limit, |reply.value|))
              && (input.limit > 20 ==> |out.results| == Min(20, |reply.value|))
              && (forall i :: 0 <= i < |out.results| ==> out.results[i] == ToMovieResult(reply.value[i]))
              && out.total == |out.results| <= 20
  {
    var limit := input.limit;
    if limit <= 0 {
      limit := 10;
    }
    if limit > 20 {
      limit := 20;
    }

    calls := [MovieRecommendationsCall(input.movieId)];
    if reply.Failure? {
      return calls, ZeroGetRecommendationsOutput,
        Some(HandlerError("failed to get movie recommendations", reply.error));
    }

    var movies := ConvertMoviePrefix(reply.value, limit);
    out, err := GetRecommendationsOutput(movies, |movies|), None;
  }

  /** The provider's genre codes, keyed by lower-case genre name. */
  const GenreTable: map<string, string> := map[
    "action" := "28",
    "adventure" := "12",
    "animation" := "16",
    "comedy" := "35",
    "crime" := "80",
    "documentary" := "99",
    "drama" := "18",
    "family" := "10751",
    "fantasy" := "14",
    "history" := "36",
    "horror" := "27",
    "music" := "10402",
    "mystery" := "9648",
    "romance" := "10749",
    "science fiction" := "878",
    "sci-fi" := "878",
    "tv movie" := "10770",
    "thriller" := "53",
    "war" := "10752",
    "western" := "37"
  ]

  /**
   * The table has twenty names; "sci-fi" and "science fiction" share the code
   * 878; lookups are case-sensitive, and the empty name is not a key.
   */
  lemma GenreTableAliases()
    ensures GenreTable["sci-fi"] == GenreTable["science fiction"] == "878"
    ensures "Action" !in GenreTable && "Science Fiction" !in GenreTable && "" !in GenreTable
  {
  }

  /** The first ten names of the genre table. */
  function EarlierGenreNames(): set<string> {
    {"action", "adventure", "animation", "comedy", "crime",
     "documentary", "drama", "family", "fantasy", "history"}
  }

  lemma EarlierGenreNamesCount()
    ensures |EarlierGenreNames()| == 10
  {
  }

  /** The last ten names of the genre table. */
  function LaterGenreNames(): set<string> {
    {"horror", "music", "mystery", "romance", "science fiction",
     "sci-fi", "tv movie", "thriller", "war", "western"}
  }

  lemma LaterGenreNamesCount()
    ensures |LaterGenreNames()| == 10
  {
  }

  lemma GenreTableKeys()
    ensures GenreTable.Keys == EarlierGenreNames() + LaterGenreNames()
  {
  }

  lemma GenreHalvesDisjoint()
    ensures EarlierGenreNames() !! LaterGenreNames()
  {
  }

  /** The genre table has twenty distinct names. */
  lemma GenreTableSize()
    ensures |GenreTable| == 20
  {
    EarlierGenreNamesCount();
    LaterGenreNamesCount();
    GenreTableKeys();
    GenreHalvesDisjoint();
  }

  /** The only filter keys discover_movies ever sends. */
  const DiscoverKeys: set<string> :=
    {"sort_by", "with_genres", "primary_release_year", "vote_average.gte", "vote_count.gte"}

  /**
   * discover_movies: builds the filter map (default sort order, genre code or
   * raw genre, year, rating with its vote-count companion) and keeps at most
   * `limit` results, where a limit outside 1..20 means 20.
   */
  method DiscoverMovies(input: DiscoverMoviesInput, reply: Result<seq<UpstreamMovie>, ClientError>)
    returns (calls: seq<ClientCall>, out: DiscoverMoviesOutput, err: Option<HandlerError>)
    ensures |calls| == 1 && calls[0].DiscoverMovieCall?
    ensures var options := calls[0].options;
            && options.Keys <= DiscoverKeys
            && "sort_by" in options
            && options["sort_by"] == (if input.sortBy == "" then "popularity.desc" else input.sortBy)
            && ("with_genres" in options <==> input.genre != "")
            && (input.genre != "" && input.genre in GenreTable ==> options["with_genres"] == GenreTable[input.genre])
            && (input.genre != "" && input.genre !in GenreTable ==> options["with_genres"] == input.genre)
            && ("primary_release_year" in options <==> input.year > 0)
            && (input.year > 0 ==> options["primary_release_year"] == Itoa(input.year))
            && ("vote_average.gte" in options <==> input.minRating > 0.0)
            && ("vote_count.gte" in options <==> input.minRating > 0.0)
            && (input.minRating > 0.0 ==>
                  options["vote_average.gte"] == FormatTenths(input.minRating) && options["vote_count.gte"] == "100")
    ensures reply.Failure? ==>
              err == Some(HandlerError("failed to discover movies", reply.error)) && out == ZeroDiscoverMoviesOutput
    ensures reply.Success? ==>
              && err == None
              && (0 < input.limit <= 20 ==> |out.results| == Min(input.limit, |reply.value|))
              && (input.limit <= 0 || input.limit > 20 ==> |out.results| == Min(20, |reply.value|))
              && (forall i :: 0 <= i < |out.results| ==> out.results[i] == ToMovieResult(reply.value[i]))
              && out.total == |out.results| <= 20
  {
    var options: map<string, string> := map[];

    var sortBy := input.sortBy;
    if sortBy == "" {
      sortBy := "popularity.desc";
    }
    options := options["sort_by" := sortBy];

    if input.genre != "" {
      var genreName := input.genre;
      // Go ranges over the table in an unspecified order; any order will do.
      var unvisited := GenreTable.Keys;
      while unvisited != {}
        invariant unvisited <= GenreTable.Keys
        invariant genreName !in GenreTable.Keys - unvisited
        invariant options == map["sort_by" := sortBy]
        decreases unvisited
      {
        var key :| key in unvisited;
        var id := GenreTable[key];
        if key == genreName {
          options := options["with_genres" := id];
          break;
        }
        unvisited := unvisited - {key};
      }
      if "with_genres" !in options {
        options := options["with_genres" := genreName];
      }
    }

    if input.year > 0 {
      options := options["primary_release_year" := Itoa(input.year)];
    }

    if input.minRating > 0.0 {
      options := options["vote_average.gte" := FormatTenths(input.minRating)];
      options := options["vote_count.gte" := "100"];
    }

    calls := [DiscoverMovieCall(options)];
    if reply.Failure? {
      return calls, ZeroDiscoverMoviesOutput, Some(HandlerError("failed to discover movies", reply.error));
    }

    var limit := input.limit;
    if limit <= 0 {
      limit := 20;
    }
    if limit > 20 {
      limit := 20;
    }

    var movies := ConvertMoviePrefix(reply.value, limit);
    out, err := DiscoverMoviesOutput(movies, |movies|), None;
  }

  /**
   * A limit of 0 and a limit of 25 both give the same output as a limit of
   * 20 against the same upstream reply.
   */
  method DiscoverLimitDefaults(input: DiscoverMoviesInput, reply: Result<seq<UpstreamMovie>, ClientError>)
    returns (atZero: DiscoverMoviesOutput, atTwenty: DiscoverMoviesOutput, atTwentyFive: DiscoverMoviesOutput)
    ensures atZero == atTwenty == atTwentyFive
  {
    var _, o0, _ := DiscoverMovies(input.(limit := 0), reply);
    var _, o20, _ := DiscoverMovies(input.(limit := 20), reply);
    var _, o25, _ := DiscoverMovies(input.(limit := 25), reply);
    atZero, atTwenty, atTwentyFive := o0, o20, o25;
  }
}
