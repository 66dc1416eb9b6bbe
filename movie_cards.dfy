/** The rating and pagination logic of the `MovieCards` component
    (src/app/components/MovieCards.tsx), without rendering: pure helpers
    for the colour of a rating, the rated filter, the page count and the
    page slice, and a state object whose methods are the component's
    event handlers. */
module MovieCards {
  import opened Js

  datatype Movie = Movie(
    id: int,
    title: string,
    overview: string,
    posterPath: Option<string>,
    releaseDate: string,
    voteAverage: real)

  /** `pageSize` (and `pageSizeRated`, which has the same value). */
  const PageSize: nat := 6

  /** The two tabs of the shared filter context. */
  datatype ActiveFilter = SearchTab | RatedTab

  // ---------------------------------------------------------------------
  // Colour of a rating

  const Red: string := "#E90000"
  const Orange: string := "#E97E00"
  const Yellow: string := "#E9D100"
  const Green: string := "#66E900"

  /** The star colour for a rating: a step function with four bands. */
  function RatingColor(value: int): (c: string)
    ensures c == Red <==> value <= 3
    ensures c == Orange <==> 4 <= value <= 5
    ensures c == Yellow <==> 6 <= value <= 7
    ensures c == Green <==> 8 <= value
  {
    if value <= 3 then Red
    else if value <= 5 then Orange
    else if value <= 7 then Yellow
    else Green
  }

  // ---------------------------------------------------------------------
  // The rated filter

  /** `rating[movie.id] > 0`; a movie without an entry reads `undefined`,
      and `undefined > 0` is false. */
  predicate IsRated(rating: map<int, int>, m: Movie)
  {
    m.id in rating && rating[m.id] > 0
  }

  /** `a` is `b` with some elements left out, in the same order. */
  ghost predicate IsSubsequence<T>(a: seq<T>, b: seq<T>)
    decreases |b|
  {
    if a == [] then true
    else if b == [] then false
    else (a[0] == b[0] && IsSubsequence(a[1..], b[1..])) || IsSubsequence(a, b[1..])
  }

  /** `moviesList.filter((movie) => rating[movie.id] > 0)`: every rated
      occurrence, no unrated one, in the order of the list. */
  function RatedMovies(movies: seq<Movie>, rating: map<int, int>): (r: seq<Movie>)
    ensures |r| <= |movies|
    ensures IsSubsequence(r, movies)
    ensures forall m :: multiset(r)[m] == if IsRated(rating, m) then multiset(movies)[m] else 0
    ensures forall m :: m in r <==> m in movies && IsRated(rating, m)
  {
    if movies == [] then []
    else
      var rest := RatedMovies(movies[1..], rating);
      assert movies == [movies[0]] + movies[1..];
      if IsRated(rating, movies[0]) then [movies[0]] + rest else rest
  }

  /** The cards shown for a tab: all movies on "search", the rated ones on "rated". */
  function VisibleMovies(filter: ActiveFilter, movies: seq<Movie>, rating: map<int, int>): (r: seq<Movie>)
    ensures filter == SearchTab ==> r == movies
    ensures filter == RatedTab ==> IsSubsequence(r, movies)
    ensures filter == RatedTab ==>
      forall m :: multiset(r)[m] == if IsRated(rating, m) then multiset(movies)[m] else 0
    ensures filter == RatedTab ==> forall m :: m in r <==> m in movies && IsRated(rating, m)
  {
    match filter
    case SearchTab => movies
    case RatedTab => RatedMovies(movies, rating)
  }

  /** Rating a movie puts it in the rated view exactly when the new value is
      positive (0 takes it out), and leaves every other movie where it was. */
  lemma RatingChangeUpdatesRatedView(movies: seq<Movie>, rating: map<int, int>, movieId: int, value: int)
    ensures forall m :: m in movies && m.id == movieId ==>
      (m in RatedMovies(movies, rating[movieId := value]) <==> value > 0)
    ensures forall m: Movie :: m.id != movieId ==>
      (m in RatedMovies(movies, rating[movieId := value]) <==> m in RatedMovies(movies, rating))
  {
  }

  // ---------------------------------------------------------------------
  // Page count and page slice

  /** `Math.ceil(count / pageSize)`: the fewest pages of six that hold
      `count` items. */
  function TotalPagesRated(count: nat): (pages: nat)
    ensures pages * PageSize >= count
    ensures (pages - 1) * PageSize < count
    ensures pages == 0 <==> count == 0
  {
    (count + PageSize - 1) / PageSize
  }

  /** `ratedMovies.slice((page - 1) * pageSize, page * pageSize)`. */
  function RatedPage(rated: seq<Movie>, page: int): (r: seq<Movie>)
    ensures |r| <= PageSize
    ensures 1 <= page ==> r == rated[Min((page - 1) * PageSize, |rated|)..Min(page * PageSize, |rated|)]
    ensures page == 0 || page > TotalPagesRated(|rated|) ==> r == []
  {
    Slice(rated, (page - 1) * PageSize, page * PageSize)
  }

  /** Pages 1..n of the rated list, joined. */
  function PagesUpTo(rated: seq<Movie>, n: nat): seq<Movie>
  {
    if n == 0 then [] else PagesUpTo(rated, n - 1) + RatedPage(rated, n)
  }

  /** The first n pages are the first n * 6 items (or all of them). */
  lemma {:induction false} PagesUpToIsPrefix(rated: seq<Movie>, n: nat)
    ensures PagesUpTo(rated, n) == rated[..Min(n * PageSize, |rated|)]
  {
    if n > 0 {
      PagesUpToIsPrefix(rated, n - 1);
      var a, b := Min((n - 1) * PageSize, |rated|), Min(n * PageSize, |rated|);
      assert rated[..a] + rated[a..b] == rated[..b];
    }
  }

  /** Pages 1..totalPagesRated, joined, give back the rated list. */
  lemma {:induction false} AllPagesReproduceRated(rated: seq<Movie>)
    ensures PagesUpTo(rated, TotalPagesRated(|rated|)) == rated
  {
    PagesUpToIsPrefix(rated, TotalPagesRated(|rated|));
  }

  // ---------------------------------------------------------------------
  // Fetching search results

  /** The request `fetch(`/api/movies?query=${query}&page=${page}`)`. */
  datatype FetchRequest = FetchRequest(page: int, query: string)

  /** The decoded JSON of a search response; an absent `errorMessage` reads
      as the empty string, which is falsy like `undefined`. */
  datatype MoviesBody = MoviesBody(errorMessage: string, movies: seq<Movie>, totalPages: int)

  /** What the awaited `fetch` and `res.json()` produce: a body, or a throw. */
  datatype FetchOutcome = Received(body: MoviesBody) | Thrown

  /** The message set when the fetch or the decoding throws. */
  const LoadFailedMessage: string := "Не удалось загрузить данные"

  /** Every piece of component state, for "this changed, nothing else did". */
  datatype Snapshot = Snapshot(
    moviesList: seq<Movie>,
    totalPages: int,
    currentPageSearch: int,
    currentPageRated: int,
    query: string,
    loading: bool,
    error: Option<string>,
    rating: map<int, int>,
    color: map<int, string>)

  /** The state hooks of one mounted `MovieCards`. */
  class MovieCardsState {
    var moviesList: seq<Movie>
    var totalPages: int
    var currentPageSearch: int
    var currentPageRated: int
    var query: string
    var loading: bool
    var error: Option<string>
    var rating: map<int, int>
    var color: map<int, string>

    function State(): Snapshot
      reads this
    {
      Snapshot(moviesList, totalPages, currentPageSearch, currentPageRated,
               query, loading, error, rating, color)
    }

    /** The initial values of the hooks, from the component's props. */
    constructor (movies: seq<Movie>, pages: int, searchQuery: string)
      ensures State() == Snapshot(movies, pages, 1, 1, searchQuery, false, None, map[], map[])
    {
      moviesList, totalPages := movies, pages;
      currentPageSearch, currentPageRated := 1, 1;
      query, loading, error := searchQuery, false, None;
      rating, color := map[], map[];
    }

    /** `handlRatingChange`: record the rating and its colour for this movie only. */
    method ChangeRating(movieId: int, value: int)
      modifies this
      ensures State() == old(State()).(rating := old(rating)[movieId := value],
                                       color := old(color)[movieId := RatingColor(value)])
    {
      rating := rating[movieId := value];
      var c := RatingColor(value);
      color := color[movieId := c];
    }

    /** The effect that runs on mount and whenever `query` changes: it sets
        the loading flag, clears the error and, for a non-empty query,
        hands the query to the debounced search. */
    method QueryEffect() returns (scheduled: Option<string>)
      modifies this
      ensures State() == old(State()).(loading := true, error := None)
      ensures scheduled == if query == "" then None else Some(query)
    {
      loading, error := true, None;
      if query == "" {
        scheduled := None;
      } else {
        scheduled := Some(query);
      }
    }

    /** Typing in the search box: `setQuery(text)`; the effect re-runs only
        when the text differs from the current query. */
    method ChangeQuery(text: string) returns (scheduled: Option<string>)
      modifies this
      ensures text == old(query) ==> State() == old(State()) && scheduled == None
      ensures text != old(query) ==>
        && State() == old(State()).(query := text, loading := true, error := None)
        && scheduled == (if text == "" then None else Some(text))
    {
      if text == query {
        scheduled := None;
      } else {
        query := text;
        scheduled := QueryEffect();
      }
    }

    /** The synchronous start of `fetchMovies(page, searchQuery)`, up to the
        awaited request. */
    method BeginFetch(page: int, searchQuery: string) returns (request: FetchRequest)
      modifies this
      ensures State() == old(State()).(loading := true, error := None)
      ensures request == FetchRequest(page, searchQuery)
    {
      loading, error := true, None;
      request := FetchRequest(page, searchQuery);
    }

    /** The rest of `fetchMovies`, once the request settles: an error
        message is shown and the list kept; otherwise the list and the page
        count are replaced. Either way the loading flag drops. */
    method CompleteFetch(outcome: FetchOutcome)
      modifies this
      ensures outcome.Thrown? ==>
        State() == old(State()).(error := Some(LoadFailedMessage), loading := false)
      ensures outcome.Received? && outcome.body.errorMessage != "" ==>
        State() == old(State()).(error := Some(outcome.body.errorMessage), loading := false)
      ensures outcome.Received? && outcome.body.errorMessage == "" ==>
        State() == old(State()).(moviesList := outcome.body.movies,
                                 totalPages := outcome.body.totalPages, loading := false)
    {
      match outcome {
        case Thrown =>
          error := Some(LoadFailedMessage);
        case Received(body) =>
          if body.errorMessage != "" {
            error := Some(body.errorMessage);
          } else {
            moviesList := body.movies;
            totalPages := body.totalPages;
          }
      }
      loading := false;
    }

    /** `fetchMovies(page, searchQuery)` when no other event interleaves
        with it: a successful response leaves no error behind, a failed one
        leaves the previous list and page count in place. */
    method FetchMovies(page: int, searchQuery: string, outcome: FetchOutcome) returns (request: FetchRequest)
      modifies this
      ensures request == FetchRequest(page, searchQuery)
      ensures loading == false
      ensures outcome.Received? && outcome.body.errorMessage == "" ==>
        && error == None
        && moviesList == outcome.body.movies
        && totalPages == outcome.body.totalPages
      ensures outcome.Thrown? ==> error == Some(LoadFailedMessage)
      ensures outcome.Received? && outcome.body.errorMessage != "" ==>
        error == Some(outcome.body.errorMessage)
      ensures !(outcome.Received? && outcome.body.errorMessage == "") ==>
        && moviesList == old(moviesList)
        && totalPages == old(totalPages)
      ensures State().(moviesList := old(moviesList), totalPages := old(totalPages),
                       loading := old(loading), error := old(error)) == old(State())
    {
      request := BeginFetch(page, searchQuery);
      CompleteFetch(outcome);
    }

    /** The debounced callback: both page counters go back to 1 and page 1
        of the new query is requested. */
    method DebouncedSearch(value: string) returns (request: FetchRequest)
      modifies this
      ensures State() == old(State()).(currentPageSearch := 1, currentPageRated := 1,
                                       loading := true, error := None)
      ensures request == FetchRequest(1, value)
    {
      currentPageSearch := 1;
      currentPageRated := 1;
      request := BeginFetch(1, value);
    }

    /** `handlePageChangeSearch`: move the search tab to `page` and request
        that page of the current query. */
    method PageChangeSearch(page: int) returns (request: FetchRequest)
      modifies this
      ensures State() == old(State()).(currentPageSearch := page, loading := true, error := None)
      ensures request == FetchRequest(page, old(query))
    {
      currentPageSearch := page;
      request := BeginFetch(page, query);
    }

    /** `handlePageChangeRated`: move the rated tab to `page`; like the
        search handler, it also requests that page of the current query. */
    method PageChangeRated(page: int) returns (request: FetchRequest)
      modifies this
      ensures State() == old(State()).(currentPageRated := page, loading := true, error := None)
      ensures request == FetchRequest(page, old(query))
    {
      currentPageRated := page;
      request := BeginFetch(page, query);
    }

    /** `paginatedRatedMovies` for the current state. */
    function PaginatedRatedMovies(): (page: seq<Movie>)
      reads this
      ensures |page| <= PageSize
      ensures forall m :: m in page ==> m in moviesList && IsRated(rating, m)
    {
      RatedPage(RatedMovies(moviesList, rating), currentPageRated)
    }
  }
}
