/**
 * The computed, display-only columns of the administrative console:
 * a shortened description, whether a movie has a poster or details, and
 * the first actors of a MovieInfo row.
 */
module Admin {
  import opened Models

  /** Number of characters of a description the movie list shows. */
  const PREVIEW_LENGTH := 50
  const ELLIPSIS := "..."
  const ACTOR_SEPARATOR := ", "
  /** Number of actors the MovieInfo list shows. */
  const SHOWN_ACTORS := 2

  function Min(a: int, b: int): int {
    if a <= b then a else b
  }

  /** `MovieAdmin.description_preview`: a long description is cut to its first 50 characters and marked with an ellipsis. */
  function DescriptionPreview(description: string): (preview: string)
    ensures |description| <= PREVIEW_LENGTH ==> preview == description
    ensures |description| > PREVIEW_LENGTH ==>
      |preview| == PREVIEW_LENGTH + |ELLIPSIS| && preview[PREVIEW_LENGTH..] == ELLIPSIS
    ensures |preview| <= PREVIEW_LENGTH + |ELLIPSIS|
    ensures var n := Min(PREVIEW_LENGTH, |description|);
      n <= |preview| && preview[..n] == description[..n]
  {
    if |description| > PREVIEW_LENGTH then description[..PREVIEW_LENGTH] + ELLIPSIS else description
  }

  /** `MovieAdmin.has_poster`: an image field is true when it holds a file name. */
  function HasPoster(movie: Movie): (has: bool)
    ensures has <==> |movie.poster| > 0
  {
    movie.poster != ""
  }

  /** `MovieAdmin.has_movie_info`: whether some MovieInfo row belongs to the movie. */
  function HasMovieInfo(db: Db, id: MovieId): (has: bool)
    ensures has <==> exists i :: i in db.infos && db.infos[i].movie == id
  {
    var ids := InfoIdsOf(db.infos, id);
    assert forall i :: i in db.infos && db.infos[i].movie == id ==> i in ids;
    ids != {}
  }

  // ---------------------------------------------------------------------
  // MovieInfoAdmin.main_actors_preview

  /** The four actor fields, in declaration order. */
  function Actors(info: MovieInfo): seq<string> {
    [info.actor1, info.actor2, info.actor3, info.actor4]
  }

  /** `[actor for actor in names if actor]`: the non-empty names, in their order. */
  function NonEmptyNames(names: seq<string>): (kept: seq<string>)
    ensures |kept| <= |names|
    ensures forall i :: 0 <= i < |kept| ==> kept[i] != "" && kept[i] in names
    ensures forall n :: n in names && n != "" ==> n in kept
  {
    if names == [] then []
    else
      assert forall n :: n in names ==> n == names[0] || n in names[1..];
      (if names[0] != "" then [names[0]] else []) + NonEmptyNames(names[1..])
  }

  /** The name as a list of one, or nothing when it is empty. */
  function Named(name: string): seq<string> {
    if name == "" then [] else [name]
  }

  /** Filtering a concatenation filters each part and keeps them in order. */
  lemma {:induction false} NonEmptyNamesOfConcat(a: seq<string>, b: seq<string>)
    ensures NonEmptyNames(a + b) == NonEmptyNames(a) + NonEmptyNames(b)
  {
    if a != [] {
      assert (a + b)[1..] == a[1..] + b;
      NonEmptyNamesOfConcat(a[1..], b);
    } else {
      assert a + b == b;
    }
  }

  /** The actors kept are the non-empty ones among actor1 to actor4, in that order. */
  lemma {:induction false} NamedActorsInOrder(info: MovieInfo)
    ensures NonEmptyNames(Actors(info)) ==
      Named(info.actor1) + Named(info.actor2) + Named(info.actor3) + Named(info.actor4)
  {
    var a := Actors(info);
    assert a == [info.actor1] + [info.actor2] + [info.actor3] + [info.actor4];
    NonEmptyNamesOfConcat([info.actor1] + [info.actor2] + [info.actor3], [info.actor4]);
    NonEmptyNamesOfConcat([info.actor1] + [info.actor2], [info.actor3]);
    NonEmptyNamesOfConcat([info.actor1], [info.actor2]);
    assert NonEmptyNames([info.actor4]) == Named(info.actor4);
    assert NonEmptyNames([info.actor3]) == Named(info.actor3);
    assert NonEmptyNames([info.actor2]) == Named(info.actor2);
    assert NonEmptyNames([info.actor1]) == Named(info.actor1);
  }

  /** Python's `sep.join(parts)`. */
  function Join(parts: seq<string>, sep: string): string {
    if |parts| == 0 then ""
    else if |parts| == 1 then parts[0]
    else parts[0] + sep + Join(parts[1..], sep)
  }

  /**
   * `MovieInfoAdmin.main_actors_preview`: the first two non-empty actors,
   * separated by a comma, with an ellipsis when more are named.
   */
  function MainActorsPreview(info: MovieInfo): string {
    var actors := NonEmptyNames(Actors(info));
    Join(actors[..Min(SHOWN_ACTORS, |actors|)], ACTOR_SEPARATOR)
      + (if |actors| > SHOWN_ACTORS then ELLIPSIS else "")
  }

  /**
   * The preview shows at most the first two named actors, joined by ", ",
   * and carries the ellipsis exactly when a third one is named.
   */
  lemma {:induction false} MainActorsPreviewShowsFirstTwo(info: MovieInfo)
    ensures var actors := NonEmptyNames(Actors(info));
      && (|actors| == 0 ==> MainActorsPreview(info) == "")
      && (|actors| == 1 ==> MainActorsPreview(info) == actors[0])
      && (|actors| >= 2 ==>
            MainActorsPreview(info) ==
              actors[0] + ACTOR_SEPARATOR + actors[1] + (if |actors| > SHOWN_ACTORS then ELLIPSIS else ""))
  {
    var actors := NonEmptyNames(Actors(info));
    if |actors| >= 2 {
      var shown := actors[..2];
      assert shown[1..] == [actors[1]];
      assert Join(shown, ACTOR_SEPARATOR) == actors[0] + ACTOR_SEPARATOR + actors[1];
    }
  }

  /** The preview is empty exactly when all four actor fields are empty. */
  lemma {:induction false} MainActorsPreviewEmptyIff(info: MovieInfo)
    ensures MainActorsPreview(info) == "" <==>
      info.actor1 == "" && info.actor2 == "" && info.actor3 == "" && info.actor4 == ""
  {
    NamedActorsInOrder(info);
    MainActorsPreviewShowsFirstTwo(info);
    var actors := NonEmptyNames(Actors(info));
    if |actors| > 0 {
      assert actors[0] != "";
    }
  }
}
