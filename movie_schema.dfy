/**
 * The `movies` table: the shape of one row, the column validators and the
 * two unique indexes, and an upsert that keeps all of them.
 */
module MovieSchema {
  import opened Basics
  import opened Text

  /**
   * One row. `guild_id`, `title`, `is_favorite` and `was_watched` are the
   * columns declared NOT NULL, so they are the only ones without an Option.
   * The UUID primary key is not modelled; rows are told apart by value.
   */
  datatype Movie = Movie(
    guildId: string,
    title: string,
    isFavorite: bool,
    wasWatched: bool,
    length: Option<int>,
    actors: Option<string>,
    director: Option<string>,
    genre: Option<string>,
    year: Option<int>,
    imdbId: Option<string>,
    imdbRating: Option<int>,
    metacriticRating: Option<int>,
    rottenTomatoesRating: Option<int>,
    rating: Option<string>,
    language: Option<string>)

  // ---------------------------------------------------------------------
  // The comma-separated-list pattern `^([^,]+,\s*)*[^,]+$`, as a grammar.
  // ---------------------------------------------------------------------

  /** `s` is matched by the whole pattern: some `[^,]+,\s*` groups, then `[^,]+`. */
  predicate MatchesCommaList(s: string)
    decreases |s|, 0
  {
    var i := FirstComma(s);
    if i == |s| then s != []
    else i > 0 && MatchesAfterSeparator(s[i + 1..])
  }

  /** `t` is matched by `\s*` followed by the whole pattern. */
  predicate MatchesAfterSeparator(t: string)
    decreases |t|, 1
  {
    || MatchesCommaList(t)
    || (t != [] && IsRegexSpace(t[0]) && MatchesAfterSeparator(t[1..]))
  }

  /** The plain-words reading of the pattern. */
  predicate WellFormedList(s: string) {
    && s != []
    && s[0] != ','
    && s[|s| - 1] != ','
    && forall j :: 0 <= j < |s| - 1 ==> !(s[j] == ',' && s[j + 1] == ',')
  }

  /** The pattern accepts exactly the non-empty strings that neither start
      nor end with a comma and hold no two adjacent commas. */
  lemma {:induction false} CommaListCharacterization(s: string)
    ensures MatchesCommaList(s) <==> WellFormedList(s)
    decreases |s|, 0
  {
    var i := FirstComma(s);
    if i < |s| {
      var r := s[i + 1..];
      AfterSeparatorCharacterization(r);
      if WellFormedList(s) {
        assert i > 0;
        assert r != [] && r[|r| - 1] == s[|s| - 1];
        assert r[0] == s[i + 1];
        forall j | 0 <= j < |r| - 1 ensures !(r[j] == ',' && r[j + 1] == ',') {
          assert r[j] == s[i + 1 + j] && r[j + 1] == s[i + 1 + j + 1];
        }
      }
      if i > 0 && WellFormedList(r) {
        assert s[|s| - 1] == r[|r| - 1];
        forall j | 0 <= j < |s| - 1 ensures !(s[j] == ',' && s[j + 1] == ',') {
          if j > i {
            assert s[j] == r[j - i - 1] && s[j + 1] == r[j - i];
          }
        }
      }
    }
  }

  /** Leading whitespace after a separator never changes the verdict. */
  lemma {:induction false} AfterSeparatorCharacterization(t: string)
    ensures MatchesAfterSeparator(t) <==> WellFormedList(t)
    decreases |t|, 1
  {
    CommaListCharacterization(t);
    if t != [] && IsRegexSpace(t[0]) {
      var r := t[1..];
      AfterSeparatorCharacterization(r);
      if WellFormedList(r) {
        assert t[|t| - 1] == r[|r| - 1];
        forall j | 0 <= j < |t| - 1 ensures !(t[j] == ',' && t[j + 1] == ',') {
          if j > 0 {
            assert t[j] == r[j - 1] && t[j + 1] == r[j];
          }
        }
      }
    }
  }

  /** A list with a whitespace-only item such as "a, ,b" is accepted. */
  lemma BlankItemAccepted()
    ensures MatchesCommaList("a, ,b")
  {
    CommaListCharacterization("a, ,b");
  }

  // ---------------------------------------------------------------------
  // Column validators and the table invariant.
  // ---------------------------------------------------------------------

  /** A nullable 0-100 column: null, or an integer between 0 and 100. */
  predicate PercentColumn(v: Option<int>) {
    v.None? || 0 <= v.value <= 100
  }

  /** A nullable comma-separated column: null, or matched by the list pattern. */
  predicate CommaListColumn(v: Option<string>) {
    v.None? || MatchesCommaList(v.value)
  }

  /** Every column validator of one row passes (validators skip nulls). */
  predicate RowValid(m: Movie) {
    && CommaListColumn(m.actors)
    && CommaListColumn(m.genre)
    && PercentColumn(m.imdbRating)
    && PercentColumn(m.metacriticRating)
    && PercentColumn(m.rottenTomatoesRating)
  }

  /** The key of the unique index on (guild_id, title). */
  predicate SameTitleKey(a: Movie, b: Movie) {
    a.guildId == b.guildId && a.title == b.title
  }

  /** The key of the partial unique index on (guild_id, imdb_id) where imdb_id is not null. */
  predicate SameImdbKey(a: Movie, b: Movie) {
    a.guildId == b.guildId && a.imdbId.Some? && a.imdbId == b.imdbId
  }

  type Table = set<Movie>

  predicate TableValid(t: Table) {
    && (forall m :: m in t ==> RowValid(m))
    && (forall a, b :: a in t && b in t && a != b ==> !SameTitleKey(a, b) && !SameImdbKey(a, b))
  }

  datatype DbError = ValidationFailed | UniqueViolation

  /** Some row under another (guild_id, title) key already holds `row`'s IMDb id. */
  predicate ImdbTaken(t: Table, row: Movie) {
    exists m :: m in t && !SameTitleKey(m, row) && SameImdbKey(m, row)
  }

  /**
   * Insert `row`, replacing the row with the same (guild_id, title) if there
   * is one. The database refuses a row that fails a validator or that would
   * give two rows of one guild the same non-null IMDb id.
   */
  function Upsert(t: Table, row: Movie): (r: Result<Table, DbError>)
    ensures r.Success? <==> RowValid(row) && !ImdbTaken(t, row)
    ensures !RowValid(row) ==> r == Failure(ValidationFailed)
    ensures r.Success? ==> row in r.value
    ensures r.Success? ==> forall m :: m in t && !SameTitleKey(m, row) ==> m in r.value
    ensures r.Success? ==> forall m :: m in r.value ==> m == row || (m in t && !SameTitleKey(m, row))
    ensures r.Success? && TableValid(t) ==> TableValid(r.value)
  {
    if !RowValid(row) then Failure(ValidationFailed)
    else if ImdbTaken(t, row) then Failure(UniqueViolation)
    else Success((set m | m in t && !SameTitleKey(m, row)) + {row})
  }

  /** Several rows of one guild may all have a null IMDb id. */
  lemma NullImdbIdsNeverClash(t: Table, row: Movie)
    requires row.imdbId.None?
    ensures !ImdbTaken(t, row)
  {
  }
}
