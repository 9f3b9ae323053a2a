/**
 * The movie details screen of the movie search app: the outcome of loading one
 * movie's details, which of spinner, error and content is shown, and how the
 * content is derived from the possibly missing fields of the OMDb response.
 */
module MovieDetails {
  import opened Wrappers
  import opened Text

  /** One entry of the response's `Ratings` list; either field may be missing. */
  datatype Rating = Rating(source: Option<string>, value: Option<string>)

  /** The detail response; every field may be missing. */
  datatype MovieDetail = MovieDetail(
    title: Option<string>,
    year: Option<string>,
    rated: Option<string>,
    director: Option<string>,
    actors: Option<string>,
    plot: Option<string>,
    poster: Option<string>,
    ratings: Option<seq<Rating>>,
    imdbRating: Option<string>,
    boxOffice: Option<string>,
    response: Option<string>,
    error: Option<string>)

  const NotAvailable: string := "N/A"
  const UnknownTitle: string := "Unknown Title"
  const NoPlot: string := "No plot available"
  const NotFoundMessage: string := "Movie details not found"
  const GenericErrorMessage: string := "An error occurred"

  /** A rating counts as Rotten Tomatoes when its source mentions it, in any letter case. */
  predicate IsRottenTomatoes(r: Rating) {
    r.source.Some? && ContainsIgnoringCase(r.source.value, "Rotten Tomatoes")
  }

  /** `ratings.find { ... }`, as the position of the first Rotten Tomatoes rating. */
  function FindRottenTomatoes(ratings: seq<Rating>): (k: Option<nat>)
    ensures k.None? <==> forall i :: 0 <= i < |ratings| ==> !IsRottenTomatoes(ratings[i])
    ensures k.Some? ==>
      k.value < |ratings| && IsRottenTomatoes(ratings[k.value])
      && forall j :: 0 <= j < k.value ==> !IsRottenTomatoes(ratings[j])
  {
    if ratings == [] then None
    else if IsRottenTomatoes(ratings[0]) then Some(0)
    else
      var k := FindRottenTomatoes(ratings[1..]);
      assert forall i :: 1 <= i < |ratings| ==> ratings[i] == ratings[1..][i - 1];
      if k.None? then None else Some(k.value + 1)
  }

  /** The Rotten Tomatoes row: the first matching rating's value, else "N/A". */
  function RottenTomatoesValue(d: MovieDetail): (text: string)
    ensures d.ratings.None? ==> text == NotAvailable
    ensures d.ratings.Some? && (forall i :: 0 <= i < |d.ratings.value| ==> !IsRottenTomatoes(d.ratings.value[i]))
      ==> text == NotAvailable
    ensures d.ratings.Some? ==> forall k :: (
      0 <= k < |d.ratings.value| && IsRottenTomatoes(d.ratings.value[k])
      && (forall j :: 0 <= j < k ==> !IsRottenTomatoes(d.ratings.value[j]))
      ==> text == d.ratings.value[k].value.GetOr(NotAvailable))
  {
    match d.ratings
    case None => NotAvailable
    case Some(rs) =>
      match FindRottenTomatoes(rs)
      case None => NotAvailable
      case Some(k) => rs[k].value.GetOr(NotAvailable)
  }

  /** Ratings listed after the first Rotten Tomatoes one do not change the value shown. */
  lemma {:induction false} LaterRatingsIgnored(d: MovieDetail, more: seq<Rating>)
    requires d.ratings.Some? && FindRottenTomatoes(d.ratings.value).Some?
    ensures RottenTomatoesValue(d.(ratings := Some(d.ratings.value + more))) == RottenTomatoesValue(d)
  {
    var rs := d.ratings.value;
    var k := FindRottenTomatoes(rs).value;
    var rs' := rs + more;
    assert forall j :: 0 <= j < k ==> rs'[j] == rs[j];
    assert rs'[k] == rs[k];
  }

  /** The poster is shown when it is present, non-empty and not the "N/A" placeholder. */
  function ShowsPoster(poster: Option<string>): (show: bool)
    ensures show ==> poster.Some? && |poster.value| > 0 && poster.value != NotAvailable
    ensures poster.Some? && |poster.value| > 0 && poster.value != NotAvailable ==> show
  {
    !(poster.None? || poster.value == []) && poster != Some(NotAvailable)
  }

  /** The labels of the detail rows, in screen order. */
  const DetailLabels: seq<string> :=
    ["Year", "Rated", "Director", "Actors", "Rotten Tomatoes", "IMDb Rating", "Box Office"]

  /** The labelled detail rows, in screen order, each falling back to "N/A". */
  function DetailRows(d: MovieDetail): (rows: seq<(string, string)>)
    ensures |rows| == 7
    ensures forall i :: 0 <= i < 7 ==> rows[i].0 == DetailLabels[i]
    ensures forall i :: 0 <= i < 7 ==> rows[i].1 == FieldOfRow(d, i).GetOr(NotAvailable)
    ensures forall i :: 0 <= i < 7 ==>
      (rows[i].1 == NotAvailable <==> FieldOfRow(d, i).None? || FieldOfRow(d, i) == Some(NotAvailable))
  {
    [("Year", d.year.GetOr(NotAvailable)),
     ("Rated", d.rated.GetOr(NotAvailable)),
     ("Director", d.director.GetOr(NotAvailable)),
     ("Actors", d.actors.GetOr(NotAvailable)),
     ("Rotten Tomatoes", RottenTomatoesValue(d)),
     ("IMDb Rating", d.imdbRating.GetOr(NotAvailable)),
     ("Box Office", d.boxOffice.GetOr(NotAvailable))]
  }

  /** The value behind row `i` of `DetailRows`; for the Rotten Tomatoes row, the matched rating's value. */
  function FieldOfRow(d: MovieDetail, i: nat): Option<string>
    requires i < 7
  {
    if i == 0 then d.year
    else if i == 1 then d.rated
    else if i == 2 then d.director
    else if i == 3 then d.actors
    else if i == 4 then
      (match d.ratings
       case None => None
       case Some(rs) =>
         match FindRottenTomatoes(rs)
         case None => None
         case Some(k) => rs[k].value)
    else if i == 5 then d.imdbRating
    else d.boxOffice
  }

  /** The headline: the title, or "Unknown Title" when it is missing. */
  function TitleText(d: MovieDetail): (text: string)
    ensures d.title.Some? ==> text == d.title.value
    ensures d.title.None? ==> text == UnknownTitle
  {
    d.title.GetOr(UnknownTitle)
  }

  /** The plot paragraph, or "No plot available" when it is missing. */
  function PlotText(d: MovieDetail): (text: string)
    ensures d.plot.Some? ==> text == d.plot.value
    ensures d.plot.None? ==> text == NoPlot
  {
    d.plot.GetOr(NoPlot)
  }

  /** What the details request produced: the (possibly missing) response, or a failure with its message. */
  datatype LoadOutcome = Fetched(details: Option<MovieDetail>) | Failed(message: Option<string>)

  /** What the screen body shows. */
  datatype Screen = Spinner | ErrorText(text: string) | Content(details: MovieDetail) | Empty

  class MovieDetailsState {
    var movieDetails: Option<MovieDetail>
    var isLoading: bool
    var error: Option<string>

    /** Entering the screen: loading, with no result yet. */
    constructor ()
      ensures movieDetails == None && isLoading && error == None
    {
      movieDetails, isLoading, error := None, true, None;
    }

    /**
     * The screen body, by priority: the spinner while loading, then the error, then the
     * details; nothing when there is neither.
     */
    function Shown(): (s: Screen)
      reads this
      ensures s.Spinner? <==> isLoading
      ensures s.ErrorText? <==> !isLoading && error.Some?
      ensures s.ErrorText? ==> s.text == error.value
      ensures s.Content? <==> !isLoading && error.None? && movieDetails.Some?
      ensures s.Content? ==> s.details == movieDetails.value
    {
      if isLoading then Spinner
      else if error.Some? then ErrorText(error.value)
      else if movieDetails.Some? then Content(movieDetails.value)
      else Empty
    }

    /** The load effect: records the outcome and always ends loading. */
    method Load(outcome: LoadOutcome)
      modifies this`movieDetails, this`isLoading, this`error
      ensures !isLoading
      ensures outcome.Fetched? && outcome.details.Some? ==>
        movieDetails == outcome.details && error == old(error)
      ensures outcome.Fetched? && outcome.details.None? ==>
        error == Some(NotFoundMessage) && movieDetails == old(movieDetails)
      ensures outcome.Failed? ==>
        error == Some(outcome.message.GetOr(GenericErrorMessage)) && movieDetails == old(movieDetails)
      ensures old(movieDetails).None? && old(error).None? ==>
        (movieDetails.Some? <==> error.None?) && !Shown().Empty?
    {
      match outcome {
        case Fetched(details) =>
          if details.Some? {
            movieDetails := details;
          } else {
            error := Some(NotFoundMessage);
          }
        case Failed(message) =>
          error := Some(message.GetOr(GenericErrorMessage));
      }
      isLoading := false;
    }
  }
}
