# Movie database: review store, schema constraints and admin columns

A Dafny model of the logic of a small movie catalogue web application. Visitors browse
movies, read a movie's details and reviews, and signed-in users add, edit and delete
their own review of a movie. The model covers three parts of the application:

- **The schema** (`models.dfy`, module `Models`). It holds the Movie, MovieInfo and Review
  tables and the framework's User table, as a snapshot value `Db`. The constraints the
  schema declares are collected in the predicate `Valid`:
  - a rating is one of the `RATING_CHOICES` 1 to 5;
  - there is at most one review per (user, movie) pair, because the review table is a map
    keyed by that pair;
  - movie titles and usernames are unique;
  - every foreign key refers to an existing row.

  The module also gives what the database does on an INSERT: it refuses a duplicate title,
  a second review for the same pair and an unknown user or movie. It gives the cascading
  deletes of a movie and of a user, the default newest-first ordering of reviews, and the
  `__str__` labels.
- **The request handlers** (`views.dfy`, module `Views`). The class `MovieDatabase` holds
  the four tables as `map` fields. Its methods `AddReview`, `EditReview` and
  `DeleteReview` change the review table in place, as the source's handlers do, and each
  keeps `Valid`. `SignUp` refuses a username that is already taken, and otherwise adds the
  user under a fresh id. The read side has two queries. `Home` lists movie ids newest
  first and counts movies and users. `MovieInfoPage` builds a movie's page: its details,
  its reviews newest first, the requester's own review, the review count and the exact
  mean rating. Lemmas tie the handlers to the page. Adding, editing or deleting a review
  moves that movie's count and rating total by exactly that review and leaves every other
  movie's as it was.
- **The admin console's computed columns** (`admin.dfy`, module `Admin`). These are the
  description preview (50 characters plus `...`), the poster and details indicators, and
  the preview of the first two named actors.

Assumptions:
- Timestamps are natural numbers passed in by the caller.
- Forms are abstract inputs. A review form has a `valid` flag, a rating and a text. It is
  accepted when the flag holds and the rating is one of the field's choices, as a model
  form checks a field with `choices`.
- `views.py` imports a `ReviewForm` that `forms.py` does not define. The model takes it to
  be a model form over `rating` and `review_text`.
- On a bad review form, the review handlers redirect to the movie page with an error
  notice. They do not re-render a form.
- A second MovieInfo row for one movie makes `movie.movie_info.get()` raise. The code does
  not catch this, so `MovieInfoPage` answers `ServerError`.

## Model

| member | source | states |
|---|---|---|
| `Models.RatingChoicesAreOneToFive` | movie_db/movie_db/models.py:33-43 | a rating is among `RATING_CHOICES` exactly when it is one of 1, 2, 3, 4, 5 |
| `Models.StoredRatingsAreOneToFive` | movie_db/movie_db/models.py:43 | every review stored in a valid database has a rating between 1 and 5 |
| `Models.AtMostOneReviewPerUserAndMovie` | movie_db/movie_db/models.py:51-53 | two stored reviews with the same user and movie are the same row |
| `Models.InsertMovie` | movie_db/movie_db/models.py:6 | inserting a movie is refused exactly when its title is already taken; otherwise exactly one movie is added, nothing else changes and validity is kept |
| `Models.InsertReview` | movie_db/movie_db/models.py:41-42 | inserting a review is refused exactly when its user or movie is unknown or the pair already has a review (the unique constraint then being the reason); otherwise only that entry is added and validity is kept when the rating is a choice |
| `Models.DeleteMovie` | movie_db/movie_db/models.py:15-17 | deleting a movie removes it, every MovieInfo row and every review of it, keeps every other row unchanged, and keeps validity |
| `Models.DeleteUser` | movie_db/movie_db/models.py:41 | deleting a user removes the user and every review by them, keeps every other row unchanged, and keeps validity |
| `Models.DeletedMovieLeavesNoReference` | movie_db/movie_db/models.py:42 | after a movie is deleted no MovieInfo row or review refers to it |
| `Models.DeletedUserLeavesNoReview` | movie_db/movie_db/models.py:41 | after a user is deleted no review refers to them |
| `Models.InsertNewest` | movie_db/movie_db/models.py:54 | inserting a review into a newest-first list keeps it newest first and adds exactly that review |
| `Models.NewestFirst` | movie_db/movie_db/models.py:54 | the default ordering lists reviews by descending `created_at` and is a permutation of the rows |
| `Models.Digits` | movie_db/movie_db/models.py:57 | the decimal digits of a number are non-empty digit characters with no leading zero |
| `Models.DigitsRoundTrip` | movie_db/movie_db/models.py:57 | reading back the digits written for the rating gives the number again |
| `Models.MovieInfoLabelIdentifiesMovie` | movie_db/movie_db/models.py:28-29 | in a valid database two MovieInfo labels are equal only when they belong to the same movie |
| `Models.ReviewLabelOfStoredReview` | movie_db/movie_db/models.py:56-57 | a stored review's label is "username's review of title - d/5" with a single digit d |
| `Views.MovieDatabase.AddReview` | movie_db/movie_db/views.py:141-162 | anonymous: login redirect; unknown movie: not found; existing review: error notice and table unchanged; invalid form: error notice and table unchanged; otherwise exactly one new review owned by the requester for that movie with both timestamps now, every other entry unchanged, and validity kept |
| `Views.MovieDatabase.EditReview` | movie_db/movie_db/views.py:165-178 | no such movie or no review by the requester: not found and table unchanged; invalid form: error notice and table unchanged; otherwise only that review's rating, text and `updatedAt` change, its user, movie and `createdAt` are kept, and validity is kept |
| `Views.MovieDatabase.DeleteReview` | movie_db/movie_db/views.py:181-190 | no such movie or no review by the requester: not found and table unchanged; otherwise exactly that (user, movie) entry is removed and validity is kept |
| `Views.MovieDatabase.SignUp` | movie_db/movie_db/views.py:43-64 | a taken username gives the field error "This username is already taken." and adds no user; a free one adds exactly one user under a fresh id; usernames stay unique |
| `Views.Largest` | movie_db/movie_db/views.py:86 | the largest id of a non-empty set is in the set and bounds every element |
| `Views.IdsNewestFirst` | movie_db/movie_db/views.py:86 | the ids are listed in strictly descending order, each exactly once |
| `Views.Home` | movie_db/movie_db/views.py:84-98 | the home page lists every movie exactly once in descending id order, and its counts are the number of movies and of users |
| `Views.FirstMovieShowsOnHome` | movie_db/movie_db/views.py:86-89 | after the first movie is created the home page lists exactly it and counts one movie |
| `Views.RowsAreTheStoredReviews` | movie_db/movie_db/views.py:112 | the rows returned for a set of keys contain every review stored under those keys and nothing else |
| `Views.MovieInfoPage` | movie_db/movie_db/views.py:101-138 | unknown movie: not found; two MovieInfo rows: server error; otherwise details are present exactly when a MovieInfo row exists, reviews are that movie's reviews newest first, the count is their number, the mean is undefined exactly when the count is 0 and otherwise is total/count, and the user review is the requester's own review exactly when one exists |
| `Views.SumRatingsConcat` | movie_db/movie_db/views.py:126 | the rating total of two lists of reviews is the sum of their totals |
| `Views.SumRatingsPermutation` | movie_db/movie_db/views.py:126 | the rating total does not depend on the order of the rows |
| `Views.SumRatingsBounds` | movie_db/movie_db/views.py:126 | ratings between 1 and 5 give a total between the count and five times the count |
| `Views.RowsSumRemove` | movie_db/movie_db/views.py:126 | the total over a set of reviews is one review's rating plus the total over the rest, whichever review is taken out |
| `Views.RowsAgree` | movie_db/movie_db/views.py:112 | the rows of a movie depend only on what is stored under its keys |
| `Views.AverageWithinRatingChoices` | movie_db/movie_db/views.py:123-127 | in a valid database a movie's mean rating lies between 1 and 5 |
| `Views.AddedReviewCountsOnce` | movie_db/movie_db/views.py:151-156 | storing a new review raises its movie's count by one and its total by that rating |
| `Views.RemovedReviewCountsOnce` | movie_db/movie_db/views.py:185-187 | deleting a review lowers its movie's count by one and its total by that rating |
| `Views.EditedReviewShiftsTotal` | movie_db/movie_db/views.py:171-173 | overwriting a stored review with any new row (new rating, text and `updated_at`) keeps the movie's count and shifts its total by the change of rating |
| `Views.OtherMovieStatsUnchanged` | movie_db/movie_db/views.py:123-126 | a change that touches no review of a movie leaves its count and total unchanged |
| `Views.HasDetailsMatchesPage` | movie_db/movie_db/views.py:105-109 | the page shows details exactly when some MovieInfo row belongs to the movie |
| `Views.FirstReviewSetsAverage` | movie_db/movie_db/views.py:123-127 | after a first review, the page shows one review, a mean equal to its rating, and the review as the requester's own |
| `Views.SecondReviewIsRefused` | movie_db/movie_db/views.py:146-149 | a second add for the same movie gets the "already reviewed" notice and the first review stays as stored |
| `Views.DeleteThenAdd` | movie_db/movie_db/views.py:184-187 | after a delete, an add for the same movie is accepted and stores the new review |
| `Admin.DescriptionPreview` | movie_db/movie_db/admin.py:12-14 | a description of at most 50 characters is shown unchanged; a longer one becomes its first 50 characters followed by "...", 53 in all; the result always starts with the first min(50, length) characters |
| `Admin.HasPoster` | movie_db/movie_db/admin.py:16-18 | true exactly when the poster file name is non-empty |
| `Admin.HasMovieInfo` | movie_db/movie_db/admin.py:20-22 | true exactly when some MovieInfo row belongs to the movie |
| `Admin.NonEmptyNames` | movie_db/movie_db/admin.py:33 | the kept names are non-empty, come from the input, and include every non-empty input name |
| `Admin.NonEmptyNamesOfConcat` | movie_db/movie_db/admin.py:33 | filtering a concatenation filters each part and keeps the parts in order |
| `Admin.NamedActorsInOrder` | movie_db/movie_db/admin.py:33 | the actors kept are the non-empty ones among actor1 to actor4, in that order |
| `Admin.MainActorsPreviewShowsFirstTwo` | movie_db/movie_db/admin.py:34 | no actor gives ""; one actor gives that name; two or more give the first two joined by ", ", followed by "..." exactly when a third is named |
| `Admin.MainActorsPreviewEmptyIff` | movie_db/movie_db/admin.py:33-34 | the preview is empty exactly when all four actor fields are empty |

Some members define what the lemmas above speak about and have no row of their own:
- `Models.Valid` is the conjunction of the declared constraints. `StoredRatingsAreOneToFive`
  and `AtMostOneReviewPerUserAndMovie` state what it guarantees, and every insert, delete
  and handler above states that it is kept.
- `Models.ReviewLabel` and `Models.MovieInfoLabel` are the two `__str__` methods. They are
  stated by `ReviewLabelOfStoredReview` and `MovieInfoLabelIdentifiesMovie`.
- `Admin.MainActorsPreview` is stated by `NamedActorsInOrder`,
  `MainActorsPreviewShowsFirstTwo` and `MainActorsPreviewEmptyIff`.
- `Views.ReviewCount`, `Views.Rows`, `Views.SumRatings` and `Views.RatingSum` are the count
  and the total on the movie page. They are stated by the `SumRatings*` and `Rows*`
  lemmas and by `AddedReviewCountsOnce`, `RemovedReviewCountsOnce`,
  `EditedReviewShiftsTotal` and `OtherMovieStatsUnchanged`.
- `Views.UsernameTaken` is the username query in `signup_view`. The contract of
  `SignUp` states what follows from it.

## Left out

- Login and logout (`login_view` and `logout_view`), and inside `signup_view` the password checks, the automatic login and the rendering of the GET form. These are the framework's authentication and session code. `SignUp` keeps only the username check and the creation of the user.
- The form classes of `forms.py`. They configure widgets, and their validation is inherited from framework forms that are not part of this model. Each form becomes an abstract valid or invalid input. Because of this, the framework's own unique-username check in the signup form is covered only by that flag.
- The route table in `urls.py`, and the HTTP method restrictions (a wrong method gets a 405 answer). The framework's dispatcher does this work.
- `Views.MovieInfoPage`: does not model `round(total / count, 1)`. That is floating point with round-half-even. The page carries the exact pair (total, count) instead.
- `Views.MovieInfoPage`: the order of reviews with equal `created_at` is left to the database, as in the source.
- Rendering, templates and the messages framework. A notice is kept as its text, together with the movie id that the handler redirects to.
- The race between the existence check and the insert in `add_review`. This needs concurrent requests. The code does not catch the database's `IntegrityError`, so under a race the second request would fail. `Models.InsertReview` states what the database refuses.
- Storage of the poster images. A poster is its stored file name.
- The `max_length` of the character fields. Only form validation checks it: the admin console's forms, and the signup form for the username (150 characters). The signup check is covered by the form's `valid` flag.
- The list, filter, search and read-only settings of the admin console, and the generic create, edit and delete pages. Creating movies and cascading deletes are covered by `Models.InsertMovie`, `Models.DeleteMovie` and `Models.DeleteUser`.
- Clock time. `created_at` and `updated_at` take the instant the caller passes in.
