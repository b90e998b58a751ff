/**
 * The schema of the movie database: the Movie, MovieInfo and Review tables,
 * the framework's User table, and the constraints the schema declares on
 * them (rating choices, one review per user and movie, unique titles,
 * cascading foreign keys, timestamps and the default ordering of reviews).
 *
 * A `Db` is a snapshot of the four tables; `Valid` is the conjunction of the
 * declared constraints. The inserts and deletes below keep it, except that
 * `InsertReview` keeps it only for a rating among the choices: the database
 * itself does not check `choices`, only a form does.
 */
module Models {
  import opened Wrappers

  type UserId = nat
  type MovieId = nat
  type InfoId = nat
  /** An instant supplied by the caller; the model never reads a clock. */
  type Timestamp = nat
  /** A review row is identified by the (user, movie) pair it belongs to. */
  type ReviewKey = (UserId, MovieId)

  /** `Review.RATING_CHOICES`: each stored value with the label shown for it. */
  const RATING_CHOICES: seq<(int, string)> :=
    [(1, "1 Star"), (2, "2 Stars"), (3, "3 Stars"), (4, "4 Stars"), (5, "5 Stars")]

  /** A rating the `choices` of the rating field admit. */
  predicate ValidRating(rating: int) {
    exists i :: 0 <= i < |RATING_CHOICES| && RATING_CHOICES[i].0 == rating
  }

  /** The rating choices are exactly the integers 1 to 5. */
  lemma {:induction false} RatingChoicesAreOneToFive(rating: int)
    ensures ValidRating(rating) <==> 1 <= rating <= 5
  {
    if 1 <= rating <= 5 {
      assert RATING_CHOICES[rating - 1].0 == rating;
    }
    if ValidRating(rating) {
      var i :| 0 <= i < |RATING_CHOICES| && RATING_CHOICES[i].0 == rating;
      assert i == 0 || i == 1 || i == 2 || i == 3 || i == 4;
    }
  }

  /** The framework's User; only the username matters here. */
  datatype User = User(username: string)

  /** `poster` is the stored file name of the image, empty when there is none. */
  datatype Movie = Movie(title: string, description: string, poster: string)

  datatype MovieInfo = MovieInfo(
    movie: MovieId,
    director: string,
    actor1: string, actor2: string, actor3: string, actor4: string,
    year: int)

  /** `reviewText` may be empty (the field is declared blank=True). */
  datatype Review = Review(
    user: UserId,
    movie: MovieId,
    rating: int,
    reviewText: string,
    createdAt: Timestamp,
    updatedAt: Timestamp)

  datatype Db = Db(
    users: map<UserId, User>,
    movies: map<MovieId, Movie>,
    infos: map<InfoId, MovieInfo>,
    reviews: map<ReviewKey, Review>)

  /** No two users share a username (the framework's User.username is unique). */
  predicate UniqueUsernames(users: map<UserId, User>) {
    forall u, v :: u in users && v in users && users[u].username == users[v].username ==> u == v
  }

  /** No two movies share a title (`title` is declared unique). */
  predicate UniqueTitles(movies: map<MovieId, Movie>) {
    forall m, n :: m in movies && n in movies && movies[m].title == movies[n].title ==> m == n
  }

  /** Every MovieInfo row refers to an existing movie. */
  predicate InfosValid(movies: map<MovieId, Movie>, infos: map<InfoId, MovieInfo>) {
    forall i :: i in infos ==> infos[i].movie in movies
  }

  /** The row stored under `key` belongs to that user and that movie and carries a rating choice. */
  predicate ReviewRowValid(key: ReviewKey, r: Review) {
    r.user == key.0 && r.movie == key.1 && ValidRating(r.rating)
  }

  /** Every review row is well formed and refers to an existing user and movie. */
  predicate ReviewsValid(users: map<UserId, User>, movies: map<MovieId, Movie>, reviews: map<ReviewKey, Review>) {
    forall k :: k in reviews ==> ReviewRowValid(k, reviews[k]) && k.0 in users && k.1 in movies
  }

  predicate Valid(db: Db) {
    && UniqueUsernames(db.users)
    && UniqueTitles(db.movies)
    && InfosValid(db.movies, db.infos)
    && ReviewsValid(db.users, db.movies, db.reviews)
  }

  /** The UniqueConstraint "one_per_user_per_movie": two rows with the same user and movie are the same row. */
  lemma AtMostOneReviewPerUserAndMovie(db: Db, k1: ReviewKey, k2: ReviewKey)
    requires Valid(db) && k1 in db.reviews && k2 in db.reviews
    requires db.reviews[k1].user == db.reviews[k2].user && db.reviews[k1].movie == db.reviews[k2].movie
    ensures k1 == k2 && db.reviews[k1] == db.reviews[k2]
  {
  }

  /** Every stored rating is one of 1, 2, 3, 4, 5. */
  lemma StoredRatingsAreOneToFive(db: Db, k: ReviewKey)
    requires Valid(db) && k in db.reviews
    ensures 1 <= db.reviews[k].rating <= 5
  {
  }

  /** The ids of the MovieInfo rows that belong to a movie (the reverse relation `movie.movie_info`). */
  function InfoIdsOf(infos: map<InfoId, MovieInfo>, movie: MovieId): set<InfoId>
  {
    set i | i in infos && infos[i].movie == movie
  }

  // ---------------------------------------------------------------------
  // What the database itself enforces on INSERT

  datatype Violation = DuplicateTitle | OnePerUserPerMovie | UnknownUser | UnknownMovie

  datatype Saved = Saved(db: Db) | IntegrityError(violation: Violation)

  predicate TitleTaken(movies: map<MovieId, Movie>, title: string) {
    exists m :: m in movies && movies[m].title == title
  }

  /**
   * INSERT of a Movie row under a fresh id: the unique index on `title`
   * refuses a second movie with the same title.
   */
  function InsertMovie(db: Db, id: MovieId, movie: Movie): (result: Saved)
    requires id !in db.movies
    ensures result.IntegrityError? <==> TitleTaken(db.movies, movie.title)
    ensures result.IntegrityError? ==> result.violation == DuplicateTitle
    ensures result.Saved? ==> result.db.movies.Keys == db.movies.Keys + {id} && result.db.movies[id] == movie
    ensures result.Saved? ==> result.db == db.(movies := result.db.movies)
    ensures result.Saved? && Valid(db) ==> Valid(result.db)
  {
    if TitleTaken(db.movies, movie.title) then IntegrityError(DuplicateTitle)
    else Saved(db.(movies := db.movies[id := movie]))
  }

  /**
   * INSERT of a Review row: the foreign keys refuse an unknown user or movie
   * and the UniqueConstraint refuses a second row for the same pair. The
   * rating choices are not a database constraint: only form validation
   * checks them, so validity is kept only for a rating among the choices.
   */
  function InsertReview(db: Db, r: Review): (result: Saved)
    ensures result.IntegrityError? <==> r.user !in db.users || r.movie !in db.movies || (r.user, r.movie) in db.reviews
    ensures result.IntegrityError? && r.user in db.users && r.movie in db.movies ==> result.violation == OnePerUserPerMovie
    ensures result.Saved? ==> result.db.reviews.Keys == db.reviews.Keys + {(r.user, r.movie)}
    ensures result.Saved? ==> result.db.reviews[(r.user, r.movie)] == r
    ensures result.Saved? ==> forall k :: k in db.reviews ==> result.db.reviews[k] == db.reviews[k]
    ensures result.Saved? ==> result.db == db.(reviews := result.db.reviews)
    ensures result.Saved? && Valid(db) && ValidRating(r.rating) ==> Valid(result.db)
  {
    if r.user !in db.users then IntegrityError(UnknownUser)
    else if r.movie !in db.movies then IntegrityError(UnknownMovie)
    else if (r.user, r.movie) in db.reviews then IntegrityError(OnePerUserPerMovie)
    else Saved(db.(reviews := db.reviews[(r.user, r.movie) := r]))
  }

  // ---------------------------------------------------------------------
  // Cascading deletes (on_delete=CASCADE)

  /** Deleting a movie deletes its MovieInfo rows and its reviews, and nothing else. */
  function DeleteMovie(db: Db, id: MovieId): (after: Db)
    ensures after.users == db.users
    ensures after.movies == db.movies - {id}
    ensures forall i :: i in after.infos <==> i in db.infos && db.infos[i].movie != id
    ensures forall i :: i in after.infos ==> after.infos[i] == db.infos[i]
    ensures forall k :: k in after.reviews <==> k in db.reviews && k.1 != id
    ensures forall k :: k in after.reviews ==> after.reviews[k] == db.reviews[k]
    ensures Valid(db) ==> Valid(after)
  {
    Db(db.users,
       db.movies - {id},
       map i | i in db.infos && db.infos[i].movie != id :: db.infos[i],
       map k | k in db.reviews && k.1 != id :: db.reviews[k])
  }

  /** Deleting a user deletes that user's reviews, and nothing else. */
  function DeleteUser(db: Db, id: UserId): (after: Db)
    ensures after.users == db.users - {id}
    ensures after.movies == db.movies && after.infos == db.infos
    ensures forall k :: k in after.reviews <==> k in db.reviews && k.0 != id
    ensures forall k :: k in after.reviews ==> after.reviews[k] == db.reviews[k]
    ensures Valid(db) ==> Valid(after)
  {
    Db(db.users - {id},
       db.movies,
       db.infos,
       map k | k in db.reviews && k.0 != id :: db.reviews[k])
  }

  /** After a movie is deleted no row of the database refers to it any more. */
  lemma DeletedMovieLeavesNoReference(db: Db, id: MovieId)
    requires Valid(db)
    ensures var after := DeleteMovie(db, id);
      && id !in after.movies
      && (forall i :: i in after.infos ==> after.infos[i].movie != id)
      && (forall k :: k in after.reviews ==> after.reviews[k].movie != id)
  {
  }

  /** After a user is deleted no review refers to them any more. */
  lemma DeletedUserLeavesNoReview(db: Db, id: UserId)
    requires Valid(db)
    ensures var after := DeleteUser(db, id);
      && id !in after.users
      && forall k :: k in after.reviews ==> after.reviews[k].user != id
  {
  }

  // ---------------------------------------------------------------------
  // Default ordering of reviews: ordering = ["-created_at"]

  /** Most recently created first. */
  predicate IsNewestFirst(rs: seq<Review>) {
    forall i, j :: 0 <= i < j < |rs| ==> rs[i].createdAt >= rs[j].createdAt
  }

  function InsertNewest(r: Review, rs: seq<Review>): (out: seq<Review>)
    requires IsNewestFirst(rs)
    ensures IsNewestFirst(out)
    ensures multiset(out) == multiset(rs) + multiset{r}
    ensures |out| == |rs| + 1
    ensures out[0] == if rs == [] || r.createdAt >= rs[0].createdAt then r else rs[0]
  {
    if rs == [] || r.createdAt >= rs[0].createdAt then
      [r] + rs
    else
      var tail := InsertNewest(r, rs[1..]);
      assert rs == [rs[0]] + rs[1..];
      assert tail[0].createdAt <= rs[0].createdAt;
      [rs[0]] + tail
  }

  /** The rows of a review query listed in the model's default order. */
  function NewestFirst(rs: seq<Review>): (out: seq<Review>)
    ensures IsNewestFirst(out)
    ensures multiset(out) == multiset(rs)
  {
    if rs == [] then []
    else
      assert rs == [rs[0]] + rs[1..];
      InsertNewest(rs[0], NewestFirst(rs[1..]))
  }

  // ---------------------------------------------------------------------
  // __str__ of the models

  function DigitChar(d: nat): char
    requires d < 10
  {
    ('0' as int + d) as char
  }

  predicate IsDigit(c: char) {
    '0' <= c <= '9'
  }

  /** Decimal digits of a natural number, most significant first, as Python's `str` writes them. */
  function Digits(n: nat): (s: string)
    ensures |s| >= 1
    ensures forall i :: 0 <= i < |s| ==> IsDigit(s[i])
    ensures n >= 10 ==> s[0] != '0'
    decreases n
  {
    if n < 10 then [DigitChar(n)] else Digits(n / 10) + [DigitChar(n % 10)]
  }

  /** The number a string of decimal digits denotes. */
  function DigitsValue(s: string): nat
    requires forall i :: 0 <= i < |s| ==> IsDigit(s[i])
  {
    if s == [] then 0
    else
      assert IsDigit(s[|s| - 1]);
      DigitsValue(s[..|s| - 1]) * 10 + (s[|s| - 1] as int - '0' as int)
  }

  /** Reading back the digits of `n` gives `n`. */
  lemma {:induction false} DigitsRoundTrip(n: nat)
    ensures DigitsValue(Digits(n)) == n
    decreases n
  {
    if n >= 10 {
      var s := Digits(n);
      assert s[..|s| - 1] == Digits(n / 10);
      DigitsRoundTrip(n / 10);
    }
  }

  /** Python's `str` of an integer. */
  function Decimal(n: int): string {
    if n < 0 then "-" + Digits(-n) else Digits(n)
  }

  /** `MovieInfo.__str__`, given the title of the movie it belongs to. */
  function MovieInfoLabel(db: Db, info: MovieInfo): string
    requires info.movie in db.movies
  {
    "info about " + db.movies[info.movie].title
  }

  /** In a valid database the MovieInfo label names its movie: equal labels mean the same movie. */
  lemma MovieInfoLabelIdentifiesMovie(db: Db, a: MovieInfo, b: MovieInfo)
    requires Valid(db) && a.movie in db.movies && b.movie in db.movies
    requires MovieInfoLabel(db, a) == MovieInfoLabel(db, b)
    ensures a.movie == b.movie
  {
    var prefix := "info about ";
    assert db.movies[a.movie].title == MovieInfoLabel(db, a)[|prefix|..];
    assert db.movies[b.movie].title == MovieInfoLabel(db, b)[|prefix|..];
  }

  /** `Review.__str__`, following the foreign keys to the username and the title. */
  function ReviewLabel(db: Db, r: Review): string
    requires r.user in db.users && r.movie in db.movies
  {
    db.users[r.user].username + "'s review of " + db.movies[r.movie].title + " - " + Decimal(r.rating) + "/5"
  }

  /** For a rating among the choices the label ends in a single digit followed by "/5". */
  lemma ReviewLabelOfStoredReview(db: Db, k: ReviewKey)
    requires Valid(db) && k in db.reviews
    ensures var r := db.reviews[k];
      ReviewLabel(db, r) ==
        db.users[k.0].username + "'s review of " + db.movies[k.1].title + " - " + [DigitChar(r.rating)] + "/5"
  {
  }
}
