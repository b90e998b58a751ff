/**
 * The request handlers. The three review handlers change the Review table
 * in place and are methods of `MovieDatabase`; the signup handler adds a
 * user after its username check; the home page and a movie's page are
 * read-only queries over a snapshot of the tables.
 *
 * Every handler that needs a movie first looks it up and answers "not found"
 * when it does not exist; the review handlers then redirect back to that
 * movie's page with a success or error notice.
 */
module Views {
  import opened Wrappers
  import opened Models

  // ---------------------------------------------------------------------
  // Inputs and responses

  /**
   * A submitted ReviewForm: `valid` stands for the form's own validation,
   * which is not part of this model; the rating field additionally only
   * admits the model's rating choices.
   */
  datatype ReviewForm = ReviewForm(valid: bool, rating: int, reviewText: string)

  predicate Accepts(form: ReviewForm) {
    form.valid && ValidRating(form.rating)
  }

  datatype Notice = Success(text: string) | Error(text: string)

  datatype Response =
    | RedirectToMovie(movieId: MovieId, notice: Notice)
    | NotFound
    | RedirectToLogin

  const ALREADY_REVIEWED := "You have already reviewed this movie. You can edit your existing review."
  const CORRECT_ERRORS := "Please correct the errors in your review."
  const USERNAME_TAKEN := "This username is already taken."

  function ReviewAdded(title: string): string {
    "Your review for '" + title + "' has been added successfully!"
  }

  function ReviewUpdated(title: string): string {
    "Your review for '" + title + "' has been updated successfully!"
  }

  function ReviewDeleted(title: string): string {
    "Your review for '" + title + "' has been deleted."
  }

  /**
   * A submitted signup form: `valid` stands for the framework's own checks
   * (the two passwords, the username's `max_length` of 150 and the form's
   * own unique-username check).
   */
  datatype SignupForm = SignupForm(valid: bool, username: string)

  /**
   * `FormErrors` carries only the errors the view itself adds to the username
   * field; the errors the framework form reports on an invalid form are
   * rendered by the template and are not modelled.
   */
  datatype SignupResponse =
    | RedirectHome
    | SignedUp(id: UserId)
    | FormErrors(viewErrors: seq<string>)

  /** `User.objects.filter(username=username).exists()` */
  predicate UsernameTaken(users: map<UserId, User>, username: string) {
    exists u :: u in users && users[u].username == username
  }

  // ---------------------------------------------------------------------
  // The tables and the handlers that change them

  class MovieDatabase {
    var users: map<UserId, User>
    var movies: map<MovieId, Movie>
    var infos: map<InfoId, MovieInfo>
    var reviews: map<ReviewKey, Review>
    /** The id the User table's sequence hands out next. */
    var nextUserId: UserId

    function Snapshot(): Db
      reads this
    {
      Db(users, movies, infos, reviews)
    }

    predicate Valid()
      reads this
    {
      Models.Valid(Snapshot()) && forall u :: u in users ==> u < nextUserId
    }

    constructor (initial: Db, nextUserId: UserId)
      requires Models.Valid(initial)
      requires forall u :: u in initial.users ==> u < nextUserId
      ensures Valid() && Snapshot() == initial && this.nextUserId == nextUserId
    {
      users, movies, infos, reviews := initial.users, initial.movies, initial.infos, initial.reviews;
      this.nextUserId := nextUserId;
    }

    /**
     * `add_review`: refuses when the requester already reviewed the movie,
     * otherwise stores the submitted review with both timestamps set to now.
     */
    method AddReview(requester: Option<UserId>, movieId: MovieId, form: ReviewForm, now: Timestamp)
      returns (response: Response)
      requires Valid()
      requires requester.Some? ==> requester.value in users
      modifies this`reviews
      ensures Valid()
      ensures requester.None? ==> response == RedirectToLogin && reviews == old(reviews)
      ensures requester.Some? && movieId !in movies ==> response == NotFound && reviews == old(reviews)
      ensures requester.Some? && movieId in movies && (requester.value, movieId) in old(reviews) ==>
        response == RedirectToMovie(movieId, Error(ALREADY_REVIEWED)) && reviews == old(reviews)
      ensures requester.Some? && movieId in movies && (requester.value, movieId) !in old(reviews) && !Accepts(form) ==>
        response == RedirectToMovie(movieId, Error(CORRECT_ERRORS)) && reviews == old(reviews)
      ensures requester.Some? && movieId in movies && (requester.value, movieId) !in old(reviews) && Accepts(form) ==>
        && response == RedirectToMovie(movieId, Success(ReviewAdded(movies[movieId].title)))
        && reviews == old(reviews)[(requester.value, movieId) :=
                                   Review(requester.value, movieId, form.rating, form.reviewText, now, now)]
    {
      if requester.None? {
        return RedirectToLogin;
      }
      var user := requester.value;
      if movieId !in movies {
        return NotFound;
      }
      var key := (user, movieId);
      if key in reviews {
        return RedirectToMovie(movieId, Error(ALREADY_REVIEWED));
      }
      if !Accepts(form) {
        return RedirectToMovie(movieId, Error(CORRECT_ERRORS));
      }
      reviews := reviews[key := Review(user, movieId, form.rating, form.reviewText, now, now)];
      response := RedirectToMovie(movieId, Success(ReviewAdded(movies[movieId].title)));
    }

    /**
     * `edit_review`: the requester's review of the movie, or "not found";
     * a valid form overwrites its rating and text and refreshes `updatedAt`,
     * keeping its user, movie and `createdAt`.
     */
    method EditReview(requester: Option<UserId>, movieId: MovieId, form: ReviewForm, now: Timestamp)
      returns (response: Response)
      requires Valid()
      requires requester.Some? ==> requester.value in users
      modifies this`reviews
      ensures Valid()
      ensures requester.None? ==> response == RedirectToLogin && reviews == old(reviews)
      ensures requester.Some? && (movieId !in movies || (requester.value, movieId) !in old(reviews)) ==>
        response == NotFound && reviews == old(reviews)
      ensures requester.Some? && movieId in movies && (requester.value, movieId) in old(reviews) && !Accepts(form) ==>
        response == RedirectToMovie(movieId, Error(CORRECT_ERRORS)) && reviews == old(reviews)
      ensures requester.Some? && movieId in movies && (requester.value, movieId) in old(reviews) && Accepts(form) ==>
        var key := (requester.value, movieId);
        && response == RedirectToMovie(movieId, Success(ReviewUpdated(movies[movieId].title)))
        && reviews == old(reviews)[key := old(reviews)[key].(rating := form.rating, reviewText := form.reviewText, updatedAt := now)]
    {
      if requester.None? {
        return RedirectToLogin;
      }
      var key := (requester.value, movieId);
      if movieId !in movies || key !in reviews {
        return NotFound;
      }
      if !Accepts(form) {
        return RedirectToMovie(movieId, Error(CORRECT_ERRORS));
      }
      var review := reviews[key];
      reviews := reviews[key := review.(rating := form.rating, reviewText := form.reviewText, updatedAt := now)];
      response := RedirectToMovie(movieId, Success(ReviewUpdated(movies[movieId].title)));
    }

    /** `delete_review`: the requester's review of the movie, or "not found"; it is removed unconditionally. */
    method DeleteReview(requester: Option<UserId>, movieId: MovieId)
      returns (response: Response)
      requires Valid()
      requires requester.Some? ==> requester.value in users
      modifies this`reviews
      ensures Valid()
      ensures requester.None? ==> response == RedirectToLogin && reviews == old(reviews)
      ensures requester.Some? && (movieId !in movies || (requester.value, movieId) !in old(reviews)) ==>
        response == NotFound && reviews == old(reviews)
      ensures requester.Some? && movieId in movies && (requester.value, movieId) in old(reviews) ==>
        && response == RedirectToMovie(movieId, Success(ReviewDeleted(movies[movieId].title)))
        && reviews == old(reviews) - {(requester.value, movieId)}
    {
      if requester.None? {
        return RedirectToLogin;
      }
      var key := (requester.value, movieId);
      if movieId !in movies || key !in reviews {
        return NotFound;
      }
      reviews := reviews - {key};
      response := RedirectToMovie(movieId, Success(ReviewDeleted(movies[movieId].title)));
    }

    /**
     * `signup_view` on a POST: a logged-in visitor is sent home; a username
     * that already exists is refused with a field error and nothing is
     * added; otherwise a new user is created under a fresh id.
     */
    method SignUp(requester: Option<UserId>, form: SignupForm) returns (response: SignupResponse)
      requires Valid()
      modifies this`users, this`nextUserId
      ensures Valid()
      ensures requester.Some? ==> response == RedirectHome
      ensures requester.None? && !form.valid ==> response == FormErrors([])
      ensures requester.None? && form.valid && UsernameTaken(old(users), form.username) ==>
        response == FormErrors([USERNAME_TAKEN])
      ensures requester.Some? || !form.valid || UsernameTaken(old(users), form.username) ==>
        users == old(users) && nextUserId == old(nextUserId)
      ensures requester.None? && form.valid && !UsernameTaken(old(users), form.username) ==>
        && response == SignedUp(old(nextUserId))
        && old(nextUserId) !in old(users)
        && users == old(users)[old(nextUserId) := User(form.username)]
        && nextUserId == old(nextUserId) + 1
    {
      if requester.Some? {
        return RedirectHome;
      }
      if !form.valid {
        return FormErrors([]);
      }
      if UsernameTaken(users, form.username) {
        return FormErrors([USERNAME_TAKEN]);
      }
      var id := nextUserId;
      users := users[id := User(form.username)];
      nextUserId := nextUserId + 1;
      response := SignedUp(id);
    }
  }

  // ---------------------------------------------------------------------
  // The home page

  /** The ids of the movies listed, newest first, with the number of movies and of users. */
  datatype HomePage = HomePage(movieIds: seq<MovieId>, totalMovies: nat, totalUsers: nat)

  predicate IsLargest(m: MovieId, s: set<MovieId>) {
    m in s && forall x :: x in s ==> x <= m
  }

  lemma {:induction false} LargestExists(s: set<MovieId>)
    requires s != {}
    ensures exists m :: IsLargest(m, s)
    decreases |s|
  {
    var y :| y in s;
    if s == {y} {
      assert forall x :: x in s ==> x == y;
      assert IsLargest(y, s);
    } else {
      LargestExists(s - {y});
      var m :| IsLargest(m, s - {y});
      var top := if y > m then y else m;
      forall x | x in s ensures x <= top {
        if x != y {
          assert x in s - {y};
        }
      }
      assert IsLargest(top, s);
    }
  }

  /** The largest id of a non-empty set. */
  function Largest(s: set<MovieId>): (m: MovieId)
    requires s != {}
    ensures m in s && forall x :: x in s ==> x <= m
  {
    LargestExists(s);
    var m :| IsLargest(m, s);
    m
  }

  /** `order_by("-id")`: the ids, largest first. */
  function IdsNewestFirst(s: set<MovieId>): (ids: seq<MovieId>)
    ensures |ids| == |s|
    ensures forall x :: x in ids <==> x in s
    ensures forall i, j :: 0 <= i < j < |ids| ==> ids[i] > ids[j]
    decreases |s|
  {
    if s == {} then []
    else
      var m := Largest(s);
      var rest := IdsNewestFirst(s - {m});
      assert forall j :: 0 <= j < |rest| ==> rest[j] < m by {
        forall j | 0 <= j < |rest| ensures rest[j] < m {
          assert rest[j] in rest;
        }
      }
      [m] + rest
  }

  /** `home` */
  function Home(db: Db): (page: HomePage)
    ensures forall i, j :: 0 <= i < j < |page.movieIds| ==> page.movieIds[i] > page.movieIds[j]
    ensures forall id :: id in page.movieIds <==> id in db.movies
    ensures page.totalMovies == |page.movieIds| == |db.movies|
    ensures page.totalUsers == |db.users|
  {
    HomePage(IdsNewestFirst(db.movies.Keys), |db.movies|, |db.users|)
  }

  /** An operator creates the first movie: the home page lists it and counts one movie. */
  lemma FirstMovieShowsOnHome(id: MovieId, movie: Movie)
    ensures var saved := InsertMovie(Db(map[], map[], map[], map[]), id, movie);
      && saved.Saved?
      && Home(saved.db).totalMovies == 1
      && Home(saved.db).movieIds == [id]
  {
  }

  // ---------------------------------------------------------------------
  // A movie's page

  /** The keys of the reviews of one movie (`movie.reviews`). */
  function ReviewKeysOf(reviews: map<ReviewKey, Review>, movieId: MovieId): set<ReviewKey> {
    set k | k in reviews && k.1 == movieId
  }

  /** `reviews.count()` */
  function ReviewCount(reviews: map<ReviewKey, Review>, movieId: MovieId): nat {
    |ReviewKeysOf(reviews, movieId)|
  }

  /** Some element of a non-empty set of keys: the order in which the database returns rows. */
  ghost function Pick(keys: set<ReviewKey>): ReviewKey
    requires keys != {}
  {
    var k :| k in keys; k
  }

  /** The rows stored under a set of keys, in the order the database returns them. */
  ghost function Rows(reviews: map<ReviewKey, Review>, keys: set<ReviewKey>): (rows: seq<Review>)
    requires keys <= reviews.Keys
    ensures |rows| == |keys|
    decreases keys
  {
    if keys == {} then []
    else
      var k := Pick(keys);
      [reviews[k]] + Rows(reviews, keys - {k})
  }

  /** The rows are exactly the reviews stored under the keys. */
  lemma {:induction false} RowsAreTheStoredReviews(reviews: map<ReviewKey, Review>, keys: set<ReviewKey>)
    requires keys <= reviews.Keys
    ensures forall k :: k in keys ==> reviews[k] in Rows(reviews, keys)
    ensures forall r :: r in Rows(reviews, keys) ==> exists k :: k in keys && reviews[k] == r
    decreases keys
  {
    if keys != {} {
      var j := Pick(keys);
      RowsAreTheStoredReviews(reviews, keys - {j});
      assert Rows(reviews, keys) == [reviews[j]] + Rows(reviews, keys - {j});
    }
  }

  /** One step of the total over the rows: the first row returned, then the others. */
  lemma RowsSumUnfold(reviews: map<ReviewKey, Review>, keys: set<ReviewKey>)
    requires keys <= reviews.Keys && keys != {}
    ensures SumRatings(Rows(reviews, keys)) ==
      reviews[Pick(keys)].rating + SumRatings(Rows(reviews, keys - {Pick(keys)}))
  {
    var j := Pick(keys);
    var rows := Rows(reviews, keys);
    assert rows == [reviews[j]] + Rows(reviews, keys - {j});
    assert rows[1..] == Rows(reviews, keys - {j});
  }

  /** `sum(review.rating for review in reviews)` */
  function SumRatings(rs: seq<Review>): int {
    if rs == [] then 0 else rs[0].rating + SumRatings(rs[1..])
  }

  /** The total of the ratings of a movie's reviews. */
  ghost function RatingSum(reviews: map<ReviewKey, Review>, movieId: MovieId): int {
    SumRatings(Rows(reviews, ReviewKeysOf(reviews, movieId)))
  }

  lemma {:induction false} SumRatingsConcat(a: seq<Review>, b: seq<Review>)
    ensures SumRatings(a + b) == SumRatings(a) + SumRatings(b)
    decreases |a|
  {
    if a == [] {
      assert a + b == b;
    } else {
      assert (a + b)[1..] == a[1..] + b;
      SumRatingsConcat(a[1..], b);
    }
  }

  /** Taking the row at `i` out of a list takes exactly its rating out of the total. */
  lemma SumRatingsRemoveAt(b: seq<Review>, i: nat)
    requires i < |b|
    ensures SumRatings(b) == b[i].rating + SumRatings(b[..i] + b[i + 1..])
  {
    assert b == b[..i] + ([b[i]] + b[i + 1..]);
    SumRatingsConcat(b[..i], [b[i]] + b[i + 1..]);
    SumRatingsConcat(b[..i], b[i + 1..]);
    assert ([b[i]] + b[i + 1..])[1..] == b[i + 1..];
  }

  lemma MultisetRemoveAt(b: seq<Review>, i: nat)
    requires i < |b|
    ensures multiset(b[..i] + b[i + 1..]) == multiset(b) - multiset{b[i]}
  {
    assert b == b[..i] + [b[i]] + b[i + 1..];
  }

  /** The total does not depend on the order of the rows. */
  lemma {:induction false} SumRatingsPermutation(a: seq<Review>, b: seq<Review>)
    requires multiset(a) == multiset(b)
    ensures SumRatings(a) == SumRatings(b)
    decreases |a|
  {
    if a == [] {
      assert |b| == |multiset(b)| == 0;
    } else {
      assert a[0] in multiset(b);
      var i :| 0 <= i < |b| && b[i] == a[0];
      var rest := b[..i] + b[i + 1..];
      MultisetRemoveAt(b, i);
      assert a == [a[0]] + a[1..];
      assert multiset(a[1..]) == multiset(a) - multiset{a[0]};
      SumRatingsPermutation(a[1..], rest);
      SumRatingsRemoveAt(b, i);
    }
  }

  /** Ratings between 1 and 5 total between the count and five times the count. */
  lemma {:induction false} SumRatingsBounds(rs: seq<Review>)
    requires forall i :: 0 <= i < |rs| ==> 1 <= rs[i].rating <= 5
    ensures |rs| <= SumRatings(rs) <= 5 * |rs|
    decreases |rs|
  {
    if rs != [] {
      SumRatingsBounds(rs[1..]);
    }
  }

  /** Taking one row out of the total takes exactly its rating out, whichever row the database returned first. */
  lemma {:induction false} RowsSumRemove(reviews: map<ReviewKey, Review>, keys: set<ReviewKey>, k: ReviewKey)
    requires keys <= reviews.Keys && k in keys
    ensures SumRatings(Rows(reviews, keys)) == reviews[k].rating + SumRatings(Rows(reviews, keys - {k}))
    decreases keys
  {
    var j := Pick(keys);
    RowsSumUnfold(reviews, keys);
    if j != k {
      RowsSumRemove(reviews, keys - {j}, k);
      RowsSumRemove(reviews, keys - {k}, j);
      assert keys - {j} - {k} == keys - {k} - {j};
    }
  }

  /** The rows under a set of keys depend only on what is stored under those keys. */
  lemma {:induction false} RowsAgree(reviews: map<ReviewKey, Review>, other: map<ReviewKey, Review>, keys: set<ReviewKey>)
    requires keys <= reviews.Keys && keys <= other.Keys
    requires forall k :: k in keys ==> reviews[k] == other[k]
    ensures Rows(reviews, keys) == Rows(other, keys)
    decreases keys
  {
    if keys != {} {
      RowsAgree(reviews, other, keys - {Pick(keys)});
    }
  }

  /** Storing a new review adds one to its movie's count and its rating to the movie's total. */
  lemma AddedReviewCountsOnce(reviews: map<ReviewKey, Review>, key: ReviewKey, review: Review)
    requires key !in reviews
    ensures ReviewCount(reviews[key := review], key.1) == ReviewCount(reviews, key.1) + 1
    ensures RatingSum(reviews[key := review], key.1) == RatingSum(reviews, key.1) + review.rating
  {
    var after := reviews[key := review];
    var before := ReviewKeysOf(reviews, key.1);
    assert ReviewKeysOf(after, key.1) == before + {key};
    RowsSumRemove(after, before + {key}, key);
    assert before + {key} - {key} == before;
    RowsAgree(after, reviews, before);
  }

  /** Removing a review takes one from its movie's count and its rating from the movie's total. */
  lemma RemovedReviewCountsOnce(reviews: map<ReviewKey, Review>, key: ReviewKey)
    requires key in reviews
    ensures ReviewCount(reviews - {key}, key.1) == ReviewCount(reviews, key.1) - 1
    ensures RatingSum(reviews - {key}, key.1) == RatingSum(reviews, key.1) - reviews[key].rating
  {
    var after := reviews - {key};
    var before := ReviewKeysOf(reviews, key.1);
    assert ReviewKeysOf(after, key.1) == before - {key};
    RowsSumRemove(reviews, before, key);
    RowsAgree(after, reviews, before - {key});
  }

  /** Overwriting a review (its rating, text and timestamps alike) keeps its movie's count and shifts the total by the change of rating. */
  lemma EditedReviewShiftsTotal(reviews: map<ReviewKey, Review>, key: ReviewKey, review: Review)
    requires key in reviews
    ensures var after := reviews[key := review];
      && ReviewCount(after, key.1) == ReviewCount(reviews, key.1)
      && RatingSum(after, key.1) == RatingSum(reviews, key.1) - reviews[key].rating + review.rating
  {
    var after := reviews[key := review];
    var keys := ReviewKeysOf(reviews, key.1);
    assert ReviewKeysOf(after, key.1) == keys;
    RowsSumRemove(reviews, keys, key);
    RowsSumRemove(after, keys, key);
    RowsAgree(after, reviews, keys - {key});
  }

  /** A change that touches no review of a movie leaves that movie's count and total as they were. */
  lemma OtherMovieStatsUnchanged(reviews: map<ReviewKey, Review>, other: map<ReviewKey, Review>, movieId: MovieId)
    requires forall k: ReviewKey :: k.1 == movieId ==> (k in reviews <==> k in other)
    requires forall k :: k in reviews && k.1 == movieId ==> reviews[k] == other[k]
    ensures ReviewCount(other, movieId) == ReviewCount(reviews, movieId)
    ensures RatingSum(other, movieId) == RatingSum(reviews, movieId)
  {
    var keys := ReviewKeysOf(reviews, movieId);
    assert ReviewKeysOf(other, movieId) == keys;
    RowsAgree(reviews, other, keys);
  }

  /** The exact mean `total / count` of a movie's ratings; displaying it rounded is not modelled. */
  datatype Average = Average(total: int, count: nat)

  datatype MoviePage = MoviePage(
    movie: Movie,
    details: Option<MovieInfo>,
    reviews: seq<Review>,
    userReview: Option<Review>,
    totalReviews: nat,
    averageRating: Option<Average>)

  /**
   * The outcome of `movie_info`: the page, "not found" for an unknown movie,
   * or a server error when `movie.movie_info.get()` meets more than one
   * MovieInfo row (it catches only the no-row case).
   */
  datatype PageResult = Page(page: MoviePage) | PageNotFound | ServerError

  /** `movie_info` */
  ghost function MovieInfoPage(db: Db, requester: Option<UserId>, movieId: MovieId): (result: PageResult)
    ensures result.PageNotFound? <==> movieId !in db.movies
    ensures result.ServerError? <==> movieId in db.movies && |InfoIdsOf(db.infos, movieId)| > 1
    ensures result.Page? ==>
      var p := result.page;
      && p.movie == db.movies[movieId]
      && (p.details.None? <==> InfoIdsOf(db.infos, movieId) == {})
      && (p.details.Some? ==> exists i :: i in db.infos && db.infos[i] == p.details.value && p.details.value.movie == movieId)
      && IsNewestFirst(p.reviews)
      && (forall k :: k in db.reviews && k.1 == movieId ==> db.reviews[k] in p.reviews)
      && (forall r :: r in p.reviews ==> exists k :: k in db.reviews && k.1 == movieId && db.reviews[k] == r)
      && p.totalReviews == |p.reviews| == ReviewCount(db.reviews, movieId)
      && (p.averageRating.None? <==> p.totalReviews == 0)
      && (p.averageRating.Some? ==>
            p.averageRating.value == Average(RatingSum(db.reviews, movieId), ReviewCount(db.reviews, movieId)))
      && (p.userReview.Some? <==> requester.Some? && (requester.value, movieId) in db.reviews)
      && (p.userReview.Some? ==> p.userReview.value == db.reviews[(requester.value, movieId)])
  {
    if movieId !in db.movies then PageNotFound
    else
      var infoIds := InfoIdsOf(db.infos, movieId);
      if |infoIds| > 1 then ServerError
      else
        var details := if infoIds == {} then None else var i :| i in infoIds; Some(db.infos[i]);
        var keys := ReviewKeysOf(db.reviews, movieId);
        var rows := Rows(db.reviews, keys);
        RowsAreTheStoredReviews(db.reviews, keys);
        var listed := NewestFirst(rows);
        var userReview :=
          if requester.Some? && (requester.value, movieId) in db.reviews
          then Some(db.reviews[(requester.value, movieId)])
          else None;
        var total := |listed|;
        SumRatingsPermutation(listed, rows);
        assert |listed| == |multiset(listed)| == |multiset(rows)| == |rows|;
        assert forall r :: r in listed <==> r in rows by {
          forall r ensures r in listed <==> r in rows {
            assert r in listed <==> r in multiset(listed);
            assert r in rows <==> r in multiset(rows);
          }
        }
        var average := if total > 0 then Some(Average(SumRatings(listed), total)) else None;
        Page(MoviePage(db.movies[movieId], details, listed, userReview, total, average))
  }

  /** With valid ratings a movie's mean lies between 1 and 5. */
  lemma {:induction false} AverageWithinRatingChoices(db: Db, requester: Option<UserId>, movieId: MovieId)
    requires Valid(db)
    requires MovieInfoPage(db, requester, movieId).Page?
    ensures var p := MovieInfoPage(db, requester, movieId).page;
      p.averageRating.Some? ==>
        p.averageRating.value.count <= p.averageRating.value.total <= 5 * p.averageRating.value.count
  {
    var p := MovieInfoPage(db, requester, movieId).page;
    forall i | 0 <= i < |p.reviews| ensures 1 <= p.reviews[i].rating <= 5 {
      assert p.reviews[i] in p.reviews;
      var k :| k in db.reviews && k.1 == movieId && db.reviews[k] == p.reviews[i];
      StoredRatingsAreOneToFive(db, k);
    }
    SumRatingsBounds(p.reviews);
    if p.averageRating.Some? {
      SumRatingsPermutation(p.reviews, Rows(db.reviews, ReviewKeysOf(db.reviews, movieId)));
    }
  }

  /** `has_movie_info` is false exactly when the page shows no details. */
  lemma HasDetailsMatchesPage(db: Db, requester: Option<UserId>, movieId: MovieId)
    requires MovieInfoPage(db, requester, movieId).Page?
    ensures MovieInfoPage(db, requester, movieId).page.details.Some? <==>
      exists i :: i in db.infos && db.infos[i].movie == movieId
  {
    var ids := InfoIdsOf(db.infos, movieId);
    assert forall i :: i in db.infos && db.infos[i].movie == movieId ==> i in ids;
  }

  /** A first review of a movie makes its page show one review whose rating is the mean. */
  lemma FirstReviewSetsAverage(db: Db, user: UserId, movieId: MovieId, form: ReviewForm, now: Timestamp)
    requires movieId in db.movies && |InfoIdsOf(db.infos, movieId)| <= 1
    requires ReviewCount(db.reviews, movieId) == 0
    ensures var review := Review(user, movieId, form.rating, form.reviewText, now, now);
      var result := MovieInfoPage(db.(reviews := db.reviews[(user, movieId) := review]), Some(user), movieId);
      && result.Page?
      && result.page.totalReviews == 1
      && result.page.averageRating == Some(Average(form.rating, 1))
      && result.page.userReview == Some(review)
  {
    var review := Review(user, movieId, form.rating, form.reviewText, now, now);
    assert (user, movieId) !in db.reviews by {
      assert (user, movieId) !in ReviewKeysOf(db.reviews, movieId);
    }
    AddedReviewCountsOnce(db.reviews, (user, movieId), review);
    assert ReviewKeysOf(db.reviews, movieId) == {};
  }

  // ---------------------------------------------------------------------
  // Sequences of requests

  /** A second `add_review` for the same movie is refused and the first review stays as it was. */
  method SecondReviewIsRefused(db: MovieDatabase, user: UserId, movieId: MovieId, now: Timestamp, later: Timestamp)
    returns (first: Response, second: Response)
    requires db.Valid() && user in db.users && movieId in db.movies && (user, movieId) !in db.reviews
    modifies db`reviews
    ensures db.Valid()
    ensures first.RedirectToMovie? && first.notice.Success?
    ensures second == RedirectToMovie(movieId, Error(ALREADY_REVIEWED))
    ensures db.reviews == old(db.reviews)[(user, movieId) := Review(user, movieId, 4, "", now, now)]
  {
    RatingChoicesAreOneToFive(4);
    first := db.AddReview(Some(user), movieId, ReviewForm(true, 4, ""), now);
    second := db.AddReview(Some(user), movieId, ReviewForm(true, 2, ""), later);
  }

  /** After `delete_review`, an `add_review` for the same movie is accepted again. */
  method DeleteThenAdd(db: MovieDatabase, user: UserId, movieId: MovieId, form: ReviewForm, now: Timestamp)
    returns (deleted: Response, added: Response)
    requires db.Valid() && user in db.users && (user, movieId) in db.reviews && Accepts(form)
    modifies db`reviews
    ensures db.Valid()
    ensures deleted.RedirectToMovie? && deleted.notice.Success?
    ensures added.RedirectToMovie? && added.notice.Success?
    ensures db.reviews == old(db.reviews)[(user, movieId) := Review(user, movieId, form.rating, form.reviewText, now, now)]
  {
    var key := (user, movieId);
    assert movieId in db.movies;
    deleted := db.DeleteReview(Some(user), movieId);
    ghost var between := db.reviews;
    assert between == old(db.reviews) - {key} && key !in between;
    added := db.AddReview(Some(user), movieId, form, now);
    var review := Review(user, movieId, form.rating, form.reviewText, now, now);
    assert db.reviews == between[key := review];
    assert between[key := review] == old(db.reviews)[key := review];
  }
}
