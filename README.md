# TMDB MCP gateway: tool handlers

This project models the handler layer of an MCP server that exposes the TMDB
movie database as seven tools: `search_movies`, `get_movie_details`,
`get_trending`, `get_recommendations`, `discover_movies`, `search_person` and
`get_person_details`. Each handler normalises its input (defaults, clamped
limits, a fixed time-window set, a genre-name table), sends one or two
requests to the TMDB client, and reshapes the reply into the caller-facing
records of `types.go`.

The handlers keep no state, so they are methods without a class. Each one
takes the tool input and the client's reply to its request. The reply is a
`Result` holding either the upstream record or a `ClientError`. Each method
returns three things:

- `calls`: the client requests it made, with their arguments (query, filter
  map, time window, ids);
- `out`: the output record;
- `err`: the wrapped error, if any.

As in Go, a failed request gives an error beside the zero-valued output.
The loops of the source stay loops: the filter maps are built key by key,
result lists grow by appending, and the genre lookup walks the table's keys
in an arbitrary order and stops at a match.

Modules:

- `Wrappers`: `Option` and `Result`.
- `Types`: the records of `types.go`, the upstream records the handlers
  read, the client requests (`ClientCall`) and the handler errors.
- `Decimal`: `strconv.Itoa`, used for year filters, and `%.1f`, used for the
  rating filter. Each one comes with its parser and a round-trip lemma.
- `Movies`: the handlers of `tools_movies.go` and the genre table.
- `People`: the handlers of `tools_people.go`, with the known-for summary
  and the filmography as specification functions.

## Model

| member | source | states |
|---|---|---|
| `Decimal.NatToDecimal` | tools_movies.go:18 | The year text is a non-empty string of digits with no leading zero. |
| `Decimal.DecimalRoundTrip` | tools_movies.go:18 | Reading the digits of a natural number back gives that number. |
| `Decimal.ItoaRoundTrip` | tools_movies.go:198 | `Itoa` can be read back, including the sign of negative numbers. |
| `Decimal.RoundHalfEven` | tools_movies.go:202 | The rounded value is within 1/2 of the input, and a tie goes to the even integer. |
| `Decimal.FormatTenths` | tools_movies.go:202 | The `%.1f` rating text is digits, a point, then one digit. |
| `Decimal.FormatTenthsValue` | tools_movies.go:202 | The formatted rating reads back as the input rounded to the nearest tenth. |
| `Decimal.FormatTenthsExamples` | tools_movies.go:202 | 7.5 is sent as "7.5"; the tie 0.25 becomes "0.2". |
| `Movies.ConvertMovies` | tools_movies.go:26-36 | One summary per upstream movie, in upstream order, each copying that movie's fields. |
| `Movies.ConvertMoviePrefix` | tools_movies.go:127-140 | Summaries of the first min(limit, n) upstream movies, in order. |
| `Movies.SearchMovies` | tools_movies.go:16-41 | The query is passed on. The option map is `{"year": Itoa(year)}` when year > 0 and empty otherwise. A client error gives the wrapped error and the zero output. On success there is one result per upstream movie, in order, and the total is the upstream total. |
| `Movies.GetMovieDetails` | tools_movies.go:49-73 | The movie id is requested. Genres are the upstream genre names, same length and order. Every scalar field is copied. A client error gives the wrapped error and the zero output. |
| `Movies.GetTrending` | tools_movies.go:81-106 | The window sent upstream is always "day" or "week": the input if it is one of them, else "week" (the empty string included). The media type is "movie". Total is the number of results returned. A client error gives the wrapped error and the zero output. |
| `Movies.GetRecommendations` | tools_movies.go:114-145 | The result is the mapped prefix of the upstream list. Its length is min(10, n) for a limit ≤ 0, min(limit, n) for a limit in 1..20, and min(20, n) for a limit > 20. It never exceeds 20. Total equals the length. A client error gives the wrapped error and the zero output. |
| `Movies.GenreTableAliases` | tools_movies.go:162-183 | "sci-fi" and "science fiction" both map to "878". "Action", "Science Fiction" and "" are not keys, so the lookup is case-sensitive. |
| `Movies.GenreTableSize` | tools_movies.go:162-183 | The genre table has 20 distinct names. |
| `Movies.DiscoverMovies` | tools_movies.go:153-237 | `sort_by` is always sent: "popularity.desc" for an empty input, else the input verbatim. `with_genres` is present iff the genre is non-empty; it is the table code on an exact key match and the raw genre otherwise. `primary_release_year` is present iff year > 0. `vote_average.gte` and `vote_count.gte` are present together iff the minimum rating is > 0, and the vote count is "100". No other key is sent. Results are the mapped prefix of length min(limit, n), where a limit outside 1..20 means 20, so there are at most 20. A client error gives the wrapped error and the zero output. |
| `Movies.DiscoverLimitDefaults` | tools_movies.go:211-217 | Limits 0, 20 and 25 give the same output for the same reply. |
| `People.Labels` | tools_people.go:24-33 | There are no more labels than known-for works, and no label is empty. |
| `People.LabelsAppend` | tools_people.go:24-33 | Labels of a concatenation are the concatenation of the labels, so relative order is kept. |
| `People.LabelsAreTitles` | tools_people.go:28-29 | When every work has a title, the labels are exactly those titles, in order. |
| `People.LabelsOfUnnamed` | tools_people.go:28-32 | Works with neither a title nor a name contribute nothing. |
| `People.KnownForIsDepartment` | tools_people.go:34-37 | The summary equals the department exactly iff no leading work has a label. |
| `People.KnownForFromFirstThree` | tools_people.go:23-27 | At most three labels are used, and works after the third never change the summary. |
| `People.DeriveKnownFor` | tools_people.go:23-37 | The loop computes the known-for summary: the department, or department + " (" + labels joined by ", " + ")". |
| `People.SearchPerson` | tools_people.go:16-50 | The query is passed on. There is one person result per upstream person, in order, with id, name and profile path copied and the derived summary. Total is the number of results. A client error gives the wrapped error and the zero output. |
| `People.ListedCrew` | tools_people.go:79-88 | Every kept crew entry has a listed job and no character, and there are no more entries than crew credits. |
| `People.ListedCrewMembership` | tools_people.go:79-88 | A crew credit appears iff it is upstream and its job is Director, Producer, Writer or Screenplay. |
| `People.FilmographyShape` | tools_people.go:68-88 | Cast entries come first, each with its character and an empty job. The listed crew follows. No entry has both a character and a job. |
| `People.GetPersonDetails` | tools_people.go:58-104 | If the profile request fails, only it is made and its wrapped error is returned. If the credits request fails, both requests are made and the credits error is returned with the zero output. Otherwise the profile fields are copied (known-for takes the department), and the movies are the first min(20, total) entries of cast followed by listed crew. |

## Left out

- Tool registration (`server.go`): `RegisterTools` only hands the seven
  handlers to the MCP SDK, which this model does not include. The source has
  no duplicate-name check and no name resolution of its own. The tool
  descriptions are prose.
- Process start-up (`main.go`): flag and environment parsing, the choice of
  transport and the listeners are I/O.
- The TMDB client: HTTP, authentication and JSON decoding. Each request is a
  `ClientCall` value, and its answer is a parameter of the handler.
- Input validation against the JSON schemas is done by the MCP SDK before a
  handler runs, so it is not modelled.
- The unused `context.Context` and `*mcp.CallToolRequest` parameters, and
  any concurrency.
- Ratings (`float32`) are the exact real value of the float32. NaN and
  infinities are not modelled; JSON input cannot carry them.
- Go's 64-bit integer widths and the `int(...)` conversions between `int`
  and `int64` are not modelled; all integers are unbounded.

Where the design description and the code disagree, the model follows the
code:

- The description says every filmography entry has exactly one of
  character or job non-empty. The code copies the upstream character
  unchanged, and it may be empty. So the model proves only that no entry has
  both (`People.FilmographyShape`).
- The description speaks of a not-found error and a rating bounded to
  [0, 10]. The code wraps every client error the same way and copies ratings
  unchanged.
