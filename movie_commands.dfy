/**
 * The decision logic of the `movies` slash command: the filter used by
 * `list` and `pick`, and the steps of `create`/`edit` (handleUpsert).
 */
module MovieCommands {
  import opened Basics
  import opened Text
  import opened MovieSchema

  // ---------------------------------------------------------------------
  // Filtering (list and pick)
  // ---------------------------------------------------------------------

  /**
   * The filter options of `list` and `pick`. Each option is only tested for
   * truthiness, so a left-out option is written as "", 0 or false.
   */
  datatype FilterInputs = FilterInputs(
    searchTerm: string,
    genre: string,
    movieLengthMax: int,
    actors: string,
    director: string,
    imdbRating: int,
    isFavorite: bool)

  /** `hay.toLowerCase().includes(needle.toLowerCase())`. */
  predicate IncludesIgnoringCase(hay: string, needle: string) {
    Includes(Lower(hay), Lower(needle))
  }

  /** A nullable text column that is set, non-empty and contains `needle` ignoring case. */
  predicate ColumnIncludes(column: Option<string>, needle: string) {
    column.Some? && column.value != "" && IncludesIgnoringCase(column.value, needle)
  }

  predicate SearchTermPasses(m: Movie, f: FilterInputs) {
    f.searchTerm == "" || IncludesIgnoringCase(m.title, f.searchTerm)
  }

  predicate GenrePasses(m: Movie, f: FilterInputs) {
    f.genre == "" || ColumnIncludes(m.genre, f.genre)
  }

  /** The length cap is inclusive; an unknown or zero length never passes it. */
  predicate LengthPasses(m: Movie, f: FilterInputs) {
    f.movieLengthMax == 0 || (m.length.Some? && m.length.value != 0 && m.length.value <= f.movieLengthMax)
  }

  predicate ActorsPasses(m: Movie, f: FilterInputs) {
    f.actors == "" || ColumnIncludes(m.actors, f.actors)
  }

  predicate DirectorPasses(m: Movie, f: FilterInputs) {
    f.director == "" || ColumnIncludes(m.director, f.director)
  }

  /** The rating threshold is strict; an unknown or zero rating never passes it. */
  predicate RatingPasses(m: Movie, f: FilterInputs) {
    f.imdbRating == 0 || (m.imdbRating.Some? && m.imdbRating.value != 0 && m.imdbRating.value > f.imdbRating)
  }

  predicate FavoritePasses(m: Movie, f: FilterInputs) {
    !f.isFavorite || m.isFavorite
  }

  /** A movie matches when it passes every criterion. */
  predicate Matches(m: Movie, f: FilterInputs) {
    && SearchTermPasses(m, f)
    && GenrePasses(m, f)
    && LengthPasses(m, f)
    && ActorsPasses(m, f)
    && DirectorPasses(m, f)
    && RatingPasses(m, f)
    && FavoritePasses(m, f)
  }

  /** filterMovie: one flag, cleared by each criterion the movie fails. */
  method FilterMovie(movie: Movie, inputs: FilterInputs) returns (isMatch: bool)
    ensures isMatch <==> Matches(movie, inputs)
  {
    isMatch := true;
    if inputs.searchTerm != "" {
      if !IncludesIgnoringCase(movie.title, inputs.searchTerm) {
        isMatch := false;
      }
    }
    if inputs.genre != "" {
      if movie.genre.None? || movie.genre.value == "" || !IncludesIgnoringCase(movie.genre.value, inputs.genre) {
        isMatch := false;
      }
    }
    if inputs.movieLengthMax != 0 {
      if movie.length.None? || movie.length.value == 0 || movie.length.value > inputs.movieLengthMax {
        isMatch := false;
      }
    }
    if inputs.actors != "" {
      if movie.actors.None? || movie.actors.value == "" || !IncludesIgnoringCase(movie.actors.value, inputs.actors) {
        isMatch := false;
      }
    }
    if inputs.director != "" {
      if movie.director.None? || movie.director.value == "" || !IncludesIgnoringCase(movie.director.value, inputs.director) {
        isMatch := false;
      }
    }
    if inputs.imdbRating != 0 {
      if movie.imdbRating.None? || movie.imdbRating.value == 0 || movie.imdbRating.value <= inputs.imdbRating {
        isMatch := false;
      }
    }
    if inputs.isFavorite {
      if !movie.isFavorite {
        isMatch := false;
      }
    }
  }

  /** No option given (or every option falsy). */
  predicate NoCriteria(f: FilterInputs) {
    f.searchTerm == "" && f.genre == "" && f.movieLengthMax == 0 && f.actors == ""
    && f.director == "" && f.imdbRating == 0 && !f.isFavorite
  }

  lemma NoCriteriaMatchesEverything(m: Movie, f: FilterInputs)
    requires NoCriteria(f)
    ensures Matches(m, f)
  {
  }

  /** `g` keeps every criterion `f` sets, with the same value, and may set more. */
  predicate Extends(g: FilterInputs, f: FilterInputs) {
    && (f.searchTerm != "" ==> g.searchTerm == f.searchTerm)
    && (f.genre != "" ==> g.genre == f.genre)
    && (f.movieLengthMax != 0 ==> g.movieLengthMax == f.movieLengthMax)
    && (f.actors != "" ==> g.actors == f.actors)
    && (f.director != "" ==> g.director == f.director)
    && (f.imdbRating != 0 ==> g.imdbRating == f.imdbRating)
    && (f.isFavorite ==> g.isFavorite)
  }

  /** Adding criteria never turns a non-match into a match. */
  lemma MoreCriteriaNarrow(m: Movie, f: FilterInputs, g: FilterInputs)
    requires Extends(g, f)
    ensures Matches(m, g) ==> Matches(m, f)
  {
  }

  /** The case-insensitive substring test sees only the lower-cased needle. */
  lemma IncludesIgnoringCaseOfLower(hay: string, n1: string, n2: string)
    requires Lower(n1) == Lower(n2)
    ensures IncludesIgnoringCase(hay, n1) <==> IncludesIgnoringCase(hay, n2)
  {
  }

  /**
   * The four text criteria (search term, genre, actors, director) ignore the
   * case of the option values: options that differ only there give the
   * same verdict on every movie.
   */
  lemma TextCriteriaIgnoreCase(m: Movie, f: FilterInputs, g: FilterInputs)
    requires Lower(f.searchTerm) == Lower(g.searchTerm)
    requires Lower(f.genre) == Lower(g.genre)
    requires Lower(f.actors) == Lower(g.actors)
    requires Lower(f.director) == Lower(g.director)
    requires g.movieLengthMax == f.movieLengthMax && g.imdbRating == f.imdbRating && g.isFavorite == f.isFavorite
    ensures Matches(m, f) <==> Matches(m, g)
  {
    IncludesIgnoringCaseOfLower(m.title, f.searchTerm, g.searchTerm);
    if m.genre.Some? { IncludesIgnoringCaseOfLower(m.genre.value, f.genre, g.genre); }
    if m.actors.Some? { IncludesIgnoringCaseOfLower(m.actors.value, f.actors, g.actors); }
    if m.director.Some? { IncludesIgnoringCaseOfLower(m.director.value, f.director, g.director); }
  }

  /** `movies.filter(movie => filterMovie(movie, inputs))`. */
  function FilterMovies(movies: seq<Movie>, f: FilterInputs): (r: seq<Movie>)
    ensures |r| <= |movies|
    ensures forall m :: m in r ==> Matches(m, f)
  {
    if movies == [] then []
    else if Matches(movies[0], f) then [movies[0]] + FilterMovies(movies[1..], f)
    else FilterMovies(movies[1..], f)
  }

  /** The filter keeps every matching movie, as often as the list holds it,
      and drops every other one. */
  lemma {:induction false} FilterMoviesKeepsMatches(movies: seq<Movie>, f: FilterInputs)
    ensures forall m :: multiset(FilterMovies(movies, f))[m] == if Matches(m, f) then multiset(movies)[m] else 0
  {
    if movies != [] {
      FilterMoviesKeepsMatches(movies[1..], f);
      assert movies == [movies[0]] + movies[1..];
    }
  }

  /** The filter keeps the order of the list it is given. */
  lemma {:induction false} FilterMoviesOfConcat(a: seq<Movie>, b: seq<Movie>, f: FilterInputs)
    ensures FilterMovies(a + b, f) == FilterMovies(a, f) + FilterMovies(b, f)
  {
    if a == [] {
      assert a + b == b;
    } else {
      var ab := a + b;
      assert ab[0] == a[0];
      assert ab[1..] == a[1..] + b;
      FilterMoviesOfConcat(a[1..], b, f);
      var head := if Matches(a[0], f) then [a[0]] else [];
      assert FilterMovies(ab, f) == head + FilterMovies(ab[1..], f);
      assert FilterMovies(a, f) == head + FilterMovies(a[1..], f);
    }
  }

  /** Filtering twice with the same options is filtering once. */
  lemma {:induction false} FilterMoviesIdempotent(movies: seq<Movie>, f: FilterInputs)
    ensures FilterMovies(FilterMovies(movies, f), f) == FilterMovies(movies, f)
  {
    if movies != [] {
      FilterMoviesIdempotent(movies[1..], f);
      if Matches(movies[0], f) {
        var rest := FilterMovies(movies[1..], f);
        assert ([movies[0]] + rest)[1..] == rest;
      }
    }
  }

  // ---------------------------------------------------------------------
  // Runtime → length
  // ---------------------------------------------------------------------

  /** `s.replace(/[^\d]/g, '')`: the digits of `s`, in order. */
  function DigitsOf(s: string): (ds: string)
    ensures AllDigits(ds)
    ensures |ds| <= |s|
  {
    if s == [] then [] else (if IsDigit(s[0]) then [s[0]] else []) + DigitsOf(s[1..])
  }

  /** `Number(ds)` for a string of decimal digits; `Number("")` is 0. */
  function DecimalValue(ds: string): nat
    requires AllDigits(ds)
  {
    if ds == [] then 0 else 10 * DecimalValue(ds[..|ds| - 1]) + (ds[|ds| - 1] as int - '0' as int)
  }

  /** The decimal spelling of `n`, as OMDb prints a runtime's minutes. */
  function DecimalString(n: nat): (s: string)
    ensures s != [] && AllDigits(s)
  {
    if n < 10 then [('0' as int + n) as char]
    else DecimalString(n / 10) + [('0' as int + n % 10) as char]
  }

  /** The `length` column stored for an OMDb `Runtime` string. */
  function RuntimeMinutes(runtime: string): (n: nat)
    ensures DigitsOf(runtime) == [] ==> n == 0
  {
    DecimalValue(DigitsOf(runtime))
  }

  lemma {:induction false} DigitsOfConcat(a: string, b: string)
    ensures DigitsOf(a + b) == DigitsOf(a) + DigitsOf(b)
  {
    if a != [] {
      assert (a + b)[0] == a[0];
      assert (a + b)[1..] == a[1..] + b;
      DigitsOfConcat(a[1..], b);
    } else {
      assert a + b == b;
    }
  }

  lemma {:induction false} DigitsOfDigits(ds: string)
    requires AllDigits(ds)
    ensures DigitsOf(ds) == ds
  {
    if ds != [] {
      DigitsOfDigits(ds[1..]);
    }
  }

  lemma {:induction false} DecimalRoundTrip(n: nat)
    ensures DecimalValue(DecimalString(n)) == n
  {
    if n >= 10 {
      var s := DecimalString(n);
      assert s[..|s| - 1] == DecimalString(n / 10);
      DecimalRoundTrip(n / 10);
    }
  }

  /** An OMDb runtime "<n> min" is stored as n. */
  lemma RuntimeOfMinutes(n: nat)
    ensures RuntimeMinutes(DecimalString(n) + " min") == n
  {
    DigitsOfConcat(DecimalString(n), " min");
    DigitsOfDigits(DecimalString(n));
    assert DigitsOf(" min") == [];
    assert DecimalString(n) + [] == DecimalString(n);
    DecimalRoundTrip(n);
  }

  /** A runtime without digits ("N/A") is stored as 0, not as null. */
  lemma {:induction false} RuntimeWithoutDigits(runtime: string)
    requires forall i :: 0 <= i < |runtime| ==> !IsDigit(runtime[i])
    ensures DigitsOf(runtime) == [] && RuntimeMinutes(runtime) == 0
  {
    if runtime != [] {
      RuntimeWithoutDigits(runtime[1..]);
    }
  }

  // ---------------------------------------------------------------------
  // create / edit (handleUpsert)
  // ---------------------------------------------------------------------

  /** The options of `create`: an empty string is an option left out. */
  datatype UpsertInputs = UpsertInputs(imdbId: string, title: string, favorite: Option<bool>)

  const MissingInputMessage := "You must provide IMDb code or title"
  const NotCreatedMessage := "Movie not created. Title was not provided and the movie data could not be fetched."

  /** `inputs.favorite || false`. */
  function FavoriteFlag(favorite: Option<bool>): bool {
    favorite == Some(true)
  }

  datatype QueryParam = QueryParam(name: string, value: string)

  /** The search parameters appended to the OMDb URL. */
  function OmdbQuery(apiKey: string, inputs: UpsertInputs): (q: seq<QueryParam>)
    ensures q != [] && q[0] == QueryParam("apiKey", apiKey)
    ensures inputs.imdbId != "" ==> QueryParam("i", inputs.imdbId) in q && forall p :: p in q ==> p.name != "t"
    ensures inputs.imdbId == "" && inputs.title != "" ==>
              QueryParam("t", inputs.title) in q && forall p :: p in q ==> p.name != "i"
    ensures |q| <= 2
  {
    [QueryParam("apiKey", apiKey)]
    + if inputs.imdbId != "" then [QueryParam("i", inputs.imdbId)]
      else if inputs.title != "" then [QueryParam("t", inputs.title)]
      else []
  }

  /**
   * An OMDb movie as the bot reads it. The numeric fields hold what the
   * bot's `Number(...)` conversions produce; `rottenTomatoes` is None when
   * the `Ratings` list has no Rotten Tomatoes entry.
   */
  datatype OmdbMovie = OmdbMovie(
    title: string,
    runtime: string,
    actors: string,
    director: string,
    genre: string,
    imdbId: string,
    rated: string,
    language: string,
    year: int,
    imdbRatingTimesTen: int,
    metascore: int,
    rottenTomatoes: Option<int>)

  /** What the HTTP request for `OmdbQuery(...)` yields: a thrown request,
      or a body whose `Response` field is `response`. */
  datatype Lookup = RequestFailed | Answered(response: string, data: OmdbMovie)

  /** The row stored from an OMDb answer. */
  function ApiRecord(guildId: string, favorite: Option<bool>, d: OmdbMovie): Movie
    requires d.rottenTomatoes.Some?
  {
    Movie(guildId, d.title, FavoriteFlag(favorite), false, Some(RuntimeMinutes(d.runtime)),
          Some(d.actors), Some(d.director), Some(d.genre), Some(d.year), Some(d.imdbId),
          Some(d.imdbRatingTimesTen), Some(d.metascore), Some(d.rottenTomatoes.value),
          Some(d.rated), Some(d.language))
  }

  /** The row stored when the OMDb path gives nothing: only the title. */
  function TitleOnlyRecord(guildId: string, title: string, favorite: Option<bool>): Movie {
    Movie(guildId, title, FavoriteFlag(favorite), false, None, None, None, None, None, None,
          None, None, None, None, None)
  }

  /** The title-only row has no metadata, is unwatched and passes every validator. */
  lemma TitleOnlyRecordShape(guildId: string, title: string, favorite: Option<bool>)
    ensures var m := TitleOnlyRecord(guildId, title, favorite);
      && m.guildId == guildId && m.title == title
      && m.isFavorite == (favorite == Some(true)) && !m.wasWatched
      && m.length.None? && m.actors.None? && m.director.None? && m.genre.None? && m.year.None?
      && m.imdbId.None? && m.imdbRating.None? && m.metacriticRating.None?
      && m.rottenTomatoesRating.None? && m.rating.None? && m.language.None?
      && RowValid(m)
  {
  }

  /** The API row's length is the number spelled by the runtime's digits. */
  lemma ApiRecordLength(guildId: string, favorite: Option<bool>, d: OmdbMovie, n: nat)
    requires d.rottenTomatoes.Some? && d.runtime == DecimalString(n) + " min"
    ensures ApiRecord(guildId, favorite, d).length == Some(n)
  {
    RuntimeOfMinutes(n);
  }

  datatype Source = FromOmdb | TitleOnly

  datatype UpsertOutcome = UpsertOutcome(table: Table, stored: Movie, source: Source)

  datatype UpsertFailure = Rejected(message: string) | Database(error: DbError)

  /** Where the OMDb attempt leaves things: a stored row, or a fall-through
      to the title-only path with the table as it then is. */
  datatype ApiStep = Stored(outcome: UpsertOutcome) | FellThrough(table: Table)

  /** The OMDb answer can yield a row at all. */
  predicate AnswerUsable(lookup: Lookup) {
    lookup.Answered? && lookup.response == "True" && lookup.data.rottenTomatoes.Some?
  }

  /** A key is configured and the OMDb answer can yield a row. */
  predicate ApiUsable(apiKey: string, lookup: Lookup) {
    apiKey != "" && AnswerUsable(lookup)
  }

  /** The body of the try block; every throw inside it falls through. */
  function ApiAttempt(guildId: string, inputs: UpsertInputs, lookup: Lookup, replyDelivered: bool, table: Table): (s: ApiStep)
    // a row is reported only when the answer was usable, the row was stored and the reply went out
    ensures s.Stored? ==>
              && AnswerUsable(lookup) && replyDelivered
              && s.outcome.source == FromOmdb
              && s.outcome.stored == ApiRecord(guildId, inputs.favorite, lookup.data)
              && Upsert(table, s.outcome.stored) == Success(s.outcome.table)
    // falling through leaves the table as it was, unless the row was stored before the reply failed
    ensures s.FellThrough? ==>
              if AnswerUsable(lookup) && Upsert(table, ApiRecord(guildId, inputs.favorite, lookup.data)).Success? && !replyDelivered
              then s.table == Upsert(table, ApiRecord(guildId, inputs.favorite, lookup.data)).value
              else s.table == table
    ensures TableValid(table) ==> TableValid(if s.Stored? then s.outcome.table else s.table)
  {
    match lookup
    case RequestFailed => FellThrough(table)
    case Answered(response, d) =>
      if response == "False" then FellThrough(table)        // 'Movie not found'
      else if response != "True" then FellThrough(table)    // neither branch taken
      else if d.rottenTomatoes.None? then FellThrough(table) // property read on undefined
      else
        var row := ApiRecord(guildId, inputs.favorite, d);
        match Upsert(table, row)
        case Failure(_) => FellThrough(table)
        case Success(t) => if replyDelivered then Stored(UpsertOutcome(t, row, FromOmdb)) else FellThrough(t)
  }

  /** The code after the try block: store the title alone, or fail without a title. */
  function TitleOnlyUpsert(guildId: string, inputs: UpsertInputs, t: Table): (r: Result<UpsertOutcome, UpsertFailure>)
    ensures inputs.title == "" ==> r == Failure(Rejected(NotCreatedMessage))
    ensures inputs.title != "" ==>
              var row := TitleOnlyRecord(guildId, inputs.title, inputs.favorite);
              && (r.Success? <==> Upsert(t, row).Success?)
              && (r.Success? ==> r.value == UpsertOutcome(Upsert(t, row).value, row, TitleOnly))
              && (r.Failure? ==> r.error == Database(Upsert(t, row).error))
    ensures r.Success? && TableValid(t) ==> TableValid(r.value.table)
  {
    if inputs.title != "" then
      var row := TitleOnlyRecord(guildId, inputs.title, inputs.favorite);
      match Upsert(t, row)
      case Success(t') => Success(UpsertOutcome(t', row, TitleOnly))
      case Failure(e) => Failure(Database(e))
    else Failure(Rejected(NotCreatedMessage))
  }

  /** What handleUpsert does: its result, the OMDb request it makes, if any,
      and the table once it has returned or thrown. */
  datatype Handled = Handled(result: Result<UpsertOutcome, UpsertFailure>, query: Option<seq<QueryParam>>, table: Table)

  /** The OMDb row gets stored, but the reply edit after it fails. */
  predicate StoredThenReplyFailed(guildId: string, inputs: UpsertInputs, apiKey: string, lookup: Lookup,
                                  replyDelivered: bool, table: Table) {
    (inputs.imdbId != "" || inputs.title != "") && ApiUsable(apiKey, lookup) && !replyDelivered &&
    Upsert(table, ApiRecord(guildId, inputs.favorite, lookup.data)).Success?
  }

  /**
   * handleUpsert: check the inputs, try OMDb when a key is configured, and
   * otherwise store a title-only row. `lookup` is OMDb's answer to the
   * request in `query`; `replyDelivered` says whether the reply edit after
   * an OMDb row was stored went through (a failure there is caught like
   * any other).
   */
  function HandleUpsert(guildId: string, inputs: UpsertInputs, apiKey: string, lookup: Lookup,
                        replyDelivered: bool, table: Table): (h: Handled)
    ensures inputs.imdbId == "" && inputs.title == "" ==>
              h.result == Failure(Rejected(MissingInputMessage)) && h.query.None? && h.table == table
    // OMDb is asked, with the IMDb id preferred over the title, exactly when a key is configured
    ensures (inputs.imdbId != "" || inputs.title != "") ==>
              h.query == if apiKey != "" then Some(OmdbQuery(apiKey, inputs)) else None
    ensures TableValid(table) ==> TableValid(h.table)
    ensures h.result.Success? ==> h.table == h.result.value.table && h.result.value.stored in h.table
    // a failure leaves the table as it was, except after a stored OMDb row whose reply failed
    ensures h.result.Failure? && !StoredThenReplyFailed(guildId, inputs, apiKey, lookup, replyDelivered, table) ==>
              h.table == table
    ensures h.result.Success? && h.result.value.source == FromOmdb ==>
              ApiUsable(apiKey, lookup) && h.result.value.stored == ApiRecord(guildId, inputs.favorite, lookup.data)
    ensures h.result.Success? && h.result.value.source == TitleOnly ==>
              inputs.title != "" && h.result.value.stored == TitleOnlyRecord(guildId, inputs.title, inputs.favorite)
    ensures h.result.Failure? && h.result.error.Database? ==> inputs.title != ""
    // no usable answer, or the database refuses the OMDb row: the title-only path on the untouched table
    ensures (inputs.imdbId != "" || inputs.title != "") &&
            (!ApiUsable(apiKey, lookup) || Upsert(table, ApiRecord(guildId, inputs.favorite, lookup.data)).Failure?) ==>
              h.result == TitleOnlyUpsert(guildId, inputs, table)
    ensures !ApiUsable(apiKey, lookup) && inputs.title == "" && inputs.imdbId != "" ==>
              h.result == Failure(Rejected(NotCreatedMessage))
    // the OMDb row is stored
    ensures (inputs.imdbId != "" || inputs.title != "") && ApiUsable(apiKey, lookup) &&
            Upsert(table, ApiRecord(guildId, inputs.favorite, lookup.data)).Success? ==>
              var t := Upsert(table, ApiRecord(guildId, inputs.favorite, lookup.data)).value;
              h.result == if replyDelivered then Success(UpsertOutcome(t, ApiRecord(guildId, inputs.favorite, lookup.data), FromOmdb))
                          else TitleOnlyUpsert(guildId, inputs, t)
  {
    if inputs.imdbId == "" && inputs.title == "" then Handled(Failure(Rejected(MissingInputMessage)), None, table)
    else
      var query := if apiKey != "" then Some(OmdbQuery(apiKey, inputs)) else None;
      var step := if apiKey != "" then ApiAttempt(guildId, inputs, lookup, replyDelivered, table) else FellThrough(table);
      match step
      case Stored(outcome) => Handled(Success(outcome), query, outcome.table)
      case FellThrough(t) =>
        var r := TitleOnlyUpsert(guildId, inputs, t);
        Handled(r, query, if r.Success? then r.value.table else t)
  }

  /**
   * As written, handleUpsert can report 'Movie not created…' for a movie it
   * has just stored: with an IMDb id and no title, a usable OMDb answer is
   * stored, the reply edit fails, the catch swallows that, and the
   * title-only path then has no title.
   */
  lemma StoredMovieReportedNotCreated(guildId: string, inputs: UpsertInputs, apiKey: string, lookup: Lookup, table: Table)
    requires inputs.imdbId != "" && inputs.title == "" && ApiUsable(apiKey, lookup)
    requires Upsert(table, ApiRecord(guildId, inputs.favorite, lookup.data)).Success?
    ensures var h := HandleUpsert(guildId, inputs, apiKey, lookup, false, table);
      && h.result == Failure(Rejected(NotCreatedMessage))
      && ApiRecord(guildId, inputs.favorite, lookup.data) in h.table
  {
  }

  /** A concrete case of the above: an empty table gains the movie although the answer says it was not created. */
  lemma StoredMovieReportedNotCreatedExample()
    ensures HandleUpsert("g", UpsertInputs("tt1", "", None), "key", Answered("True", AlienAnswer()), false, {}).result
            == Failure(Rejected(NotCreatedMessage))
    ensures HandleUpsert("g", UpsertInputs("tt1", "", None), "key", Answered("True", AlienAnswer()), false, {}).table != {}
  {
  }

  /** An OMDb answer whose row passes every validator. */
  function AlienAnswer(): OmdbMovie {
    OmdbMovie("Alien", "117 min", "A", "R", "H", "tt1", "R", "E", 1979, 85, 89, Some(98))
  }

  /**
   * handleUpsert as evidently intended: a stored OMDb row is reported as
   * created even when the reply edit after it fails, so a failure never
   * leaves a changed table behind.
   */
  function HandleUpsertIntended(guildId: string, inputs: UpsertInputs, apiKey: string, lookup: Lookup, table: Table): (h: Handled)
    ensures h.result.Failure? ==> h.table == table
    ensures h.result.Success? ==> h.table == h.result.value.table && h.result.value.stored in h.table
    ensures TableValid(table) ==> TableValid(h.table)
    ensures (inputs.imdbId != "" || inputs.title != "") && ApiUsable(apiKey, lookup) &&
            Upsert(table, ApiRecord(guildId, inputs.favorite, lookup.data)).Success? ==>
              h.result.Success? && h.result.value.source == FromOmdb
  {
    HandleUpsert(guildId, inputs, apiKey, lookup, true, table)
  }

  /** With a key and an IMDb id, handleUpsert asks OMDb by id and never by title;
      with a key and only a title, it asks by title. */
  lemma HandleUpsertQueryChoice(guildId: string, inputs: UpsertInputs, apiKey: string, lookup: Lookup,
                                replyDelivered: bool, table: Table)
    requires apiKey != "" && (inputs.imdbId != "" || inputs.title != "")
    ensures var q := HandleUpsert(guildId, inputs, apiKey, lookup, replyDelivered, table).query;
      && q.Some? && q.value[0] == QueryParam("apiKey", apiKey)
      && (inputs.imdbId != "" ==> QueryParam("i", inputs.imdbId) in q.value && forall p :: p in q.value ==> p.name != "t")
      && (inputs.imdbId == "" ==> QueryParam("t", inputs.title) in q.value && forall p :: p in q.value ==> p.name != "i")
  {
  }
}
