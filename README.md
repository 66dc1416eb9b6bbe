# Movie search client: the deterministic core, in Dafny

The system is a Next.js movie-search client over TMDB. Users search titles,
page through the results, and give movies star ratings. Most of it is fetch
calls and JSX. This project models the three parts that are plain logic:

- `truncate_text.dfy` (module `Truncate`): `truncateText`, an exported helper
  that no other file of the program calls (the cards show each overview in
  full). It cuts the text to a maximum length, moves the cut back to the last
  space, and appends `"..."`.
- `rated_movies_route.dfy` (module `RatedMoviesRoute`): the in-memory list
  behind `/api/rated-movies`. The list is a class with a `seq` field. `Post`
  finds a record by id and updates it in place, or appends the body. `Get`
  reads the list.
- `movie_cards.dfy` (module `MovieCards`): the state logic of the
  `MovieCards` component without rendering. Its pure parts are the colour of
  a rating, the rated filter, the page count and the page slice. Its state
  hooks, except the unused `ratedMoviesState`, are the fields of
  `MovieCardsState`, and its event handlers are that class's methods. Each method states the component's whole new state. It
  says which fields change and that the others keep their values.
- `js.dfy` (module `Js`): the JavaScript built-ins the code relies on. This
  covers `undefined` (as `Option`), `slice` with negative indices, and
  `lastIndexOf`.

The network is not modelled. A method that issues a request returns a
`FetchRequest` value. The settled response is a `FetchOutcome` parameter:
either a decoded body or a thrown error.

Some behaviour of the code worth knowing:

- The debounced search resets both page counters to 1, not only the search
  counter.
- Changing the rated tab's page issues a network fetch of that page of the
  current query. It does not re-slice a list that is already loaded.
- A failed fetch keeps the previous movie list. It does not clear it.
- Nothing keeps the rated page inside `[1, totalPagesRated]`. A page past the
  end is an empty slice (`RatedPage`).
- A rating change only updates local state. The component never calls the
  rated-movies route, has no session gate, and does not delete a rating set
  to 0. It also never refreshes after a rating.
- `paginatedRatedMovies` is computed, but the rendered cards come from
  `moviesList.filter(...)`. The model still specifies the computed slice.

## Model

| member | source | states |
|---|---|---|
| `Truncate.TruncateText` | src/utils/truncateText.ts:1-14 | Text that fits is returned unchanged. Longer text becomes a prefix of the text plus `"..."`, at most `maxLength + 3` long. The kept prefix is `maxLength` long, or stops just before a space at an index above 0 |
| `Truncate.CutAtLastSpace` | src/utils/truncateText.ts:8-10 | If the first `maxLength` characters hold a space at an index j > 0, and j is the last such space, the result is `text[..j] + "..."` |
| `Truncate.CutWithoutInnerSpace` | src/utils/truncateText.ts:5-11 | If the cut holds no space, or only one at index 0, the result is the whole cut `text[..maxLength]` plus `"..."` |
| `Js.LastIndexOf` | src/utils/truncateText.ts:8 | Returns -1 exactly when the character does not occur. Otherwise it returns the largest index that holds it |
| `Js.Slice` | src/app/components/MovieCards.tsx:126-129 | The result is never longer than the input, nor, when `start <= end`, than `end - start`. For `0 <= start <= end` it is the clamped block `s[min(start,len)..min(end,len)]` |
| `RatedMoviesRoute.WithProp` | src/app/api/rated-movies/route.ts:11 | The spread `{...o, value: v}` sets that one property and keeps every other property |
| `RatedMoviesRoute.FindIndexById` | src/app/api/rated-movies/route.ts:9 | `findIndex` on `f.id === movieId`. It returns -1 exactly when no record matches. Otherwise it returns a matching index with no match before it |
| `RatedMoviesRoute.Upsert` | src/app/api/rated-movies/route.ts:8-14 | On a hit, the length is unchanged. The first record whose `id` equals `data.movieId` gets `value := data.value`, and every other index is unchanged. On a miss, the body is appended after the unchanged records |
| `RatedMoviesRoute.UpsertKeepsIdsUnique` | src/app/api/rated-movies/route.ts:9-13 | If the ids are unique and the body's `id` equals its `movieId`, the ids are still unique after the upsert |
| `RatedMoviesRoute.PostsKeepIdsUnique` | src/app/api/rated-movies/route.ts:9-13 | Any series of POSTs whose bodies all carry `id == movieId` keeps the ids unique |
| `RatedMoviesRoute.BodyWithoutIdIsStoredTwice` | src/app/api/rated-movies/route.ts:9-13 | Posting `{movieId: 5, value: 8}` twice, with no `id`, stores two records with the same (missing) id. Uniqueness depends on the body |
| `RatedMoviesRoute.RatedMoviesStore.constructor` | src/app/api/rated-movies/route.ts:3 | The store starts empty |
| `RatedMoviesRoute.RatedMoviesStore.Post` | src/app/api/rated-movies/route.ts:5-16 | The new list is `Upsert(old list, data)`. The reply is `"Rating saved"` with the updated list. Ids stay unique when the body carries its own id |
| `RatedMoviesRoute.RatedMoviesStore.Get` | src/app/api/rated-movies/route.ts:18-20 | Returns the current list and changes nothing |
| `MovieCards.RatingColor` | src/app/components/MovieCards.tsx:186-190 | Each colour holds exactly on its band: red for a value of 3 or less, orange for 4-5, yellow for 6-7, green for 8 or more |
| `MovieCards.RatedMovies` | src/app/components/MovieCards.tsx:68 | The result is an order-preserving subsequence of the list. It holds every occurrence of a movie with `rating[id] > 0` and no other movie. A movie with no rating entry is excluded |
| `MovieCards.VisibleMovies` | src/app/components/MovieCards.tsx:265-270 | The search tab shows every movie. The rated tab shows an order-preserving subsequence of the list holding every occurrence of a movie with a positive rating and no other movie |
| `MovieCards.RatingChangeUpdatesRatedView` | src/app/components/MovieCards.tsx:68 | After rating movie `id` with `v`, that movie is in the rated view exactly when `v > 0`. Every other movie stays in or out of the view as before |
| `MovieCards.TotalPagesRated` | src/app/components/MovieCards.tsx:69 | `ceil(count / 6)`: `pages*6 >= count` and `(pages-1)*6 < count`, with 0 pages exactly when `count` is 0 |
| `MovieCards.RatedPage` | src/app/components/MovieCards.tsx:126-129 | Page p >= 1 is the block `[(p-1)*6, p*6)` of the rated list, clipped to its length. A page has at most 6 items. Page 0 and pages past the last one are empty |
| `MovieCards.PagesUpToIsPrefix` | src/app/components/MovieCards.tsx:126-129 | Pages 1..n joined are the first `min(6n, count)` rated items |
| `MovieCards.AllPagesReproduceRated` | src/app/components/MovieCards.tsx:69 | Pages 1..totalPagesRated joined are exactly the rated list |
| `MovieCards.MovieCardsState.constructor` | src/app/components/MovieCards.tsx:41-62 | The initial hook values: the props' movies, page count and query, both pages at 1, not loading, no error, empty rating and colour maps |
| `MovieCards.MovieCardsState.ChangeRating` | src/app/components/MovieCards.tsx:184-193 | Sets `rating[movieId] := value` and `color[movieId] := RatingColor(value)`. Nothing else changes |
| `MovieCards.MovieCardsState.QueryEffect` | src/app/components/MovieCards.tsx:108-114 | Sets loading and clears the error. It schedules the debounced search only for a non-empty query. Nothing else changes |
| `MovieCards.MovieCardsState.ChangeQuery` | src/app/components/MovieCards.tsx:255 | A different text updates `query` and runs the effect. The same text changes nothing and schedules nothing |
| `MovieCards.MovieCardsState.BeginFetch` | src/app/components/MovieCards.tsx:74-78 | Sets loading, clears the error and issues the request for the given page and query. Nothing else changes |
| `MovieCards.MovieCardsState.CompleteFetch` | src/app/components/MovieCards.tsx:85-95 | A non-empty `errorMessage` sets `error` and keeps the list and page count. A throw sets the load-failure message. Otherwise the list and `totalPages` are replaced. Loading ends in every case, and nothing else changes |
| `MovieCards.MovieCardsState.FetchMovies` | src/app/components/MovieCards.tsx:74-96 | A successful response with no other event between leaves `error` null and the new list and page count. A failed one leaves the old list and page count and sets `error` to the response's `errorMessage`, or to the load-failure message after a throw. Only these fields and `loading` change |
| `MovieCards.MovieCardsState.DebouncedSearch` | src/app/components/MovieCards.tsx:99-106 | Both page counters become 1 and page 1 of the new query is requested. Apart from loading and error, nothing else changes |
| `MovieCards.MovieCardsState.PageChangeSearch` | src/app/components/MovieCards.tsx:116-119 | Only the search counter moves to the requested page. The rated counter is unchanged, and that page of the current query is requested |
| `MovieCards.MovieCardsState.PageChangeRated` | src/app/components/MovieCards.tsx:121-124 | Only the rated counter moves to the requested page. The search counter is unchanged, and that page of the current query is requested |
| `MovieCards.MovieCardsState.PaginatedRatedMovies` | src/app/components/MovieCards.tsx:126-129 | The current rated page has at most 6 items, all of them listed movies with a positive rating |

## Left out

- Network and framework code is not part of this model. This covers every `fetch` to TMDB and the Next.js request and response objects. It also covers the `/api/movies` and `/api/guest-session` routes and the server page. Requests are values and responses are parameters.
- The guest-session effect and its token are left out. The shown code stores the token and never reads it.
- The lodash `debounce` timer, its 500 ms window and cancellation of pending calls are left out. Only the body of the debounced callback is modelled (`DebouncedSearch`).
- React scheduling is not modelled. A state update takes effect at once in the model, where React applies it on the next render. The order of concurrent responses is also unconstrained: `BeginFetch` and `CompleteFetch` may interleave freely, and no response is discarded as stale.
- The browser `online`/`offline` handlers, the `mounted` spinner flag, the `serverError` prop, `console.log`, JSX, antd components and date formatting are left out. These are rendering and browser events.
- The filter context is represented only by the two-valued `ActiveFilter`.
- `Truncate.TruncateText` counts Unicode scalar values, while JavaScript's `length` and `slice` count UTF-16 code units. Text with characters outside the Basic Multilingual Plane is measured differently. `maxLength` is a natural number; a negative length is not modelled.
- `RatedMoviesRoute.Json` has scalar values only, with integer numbers. Nested arrays and objects are not modelled, nor are fractional numbers or `NaN`. A property set to `undefined` is modelled as absent. This matches how it reads and how it serialises.
- A POST body that is not valid JSON makes `req.json()` throw. That error path is not modelled.
- `RatedMoviesRoute.RatedMoviesStore.Post` takes the body as an `Obj`, so valid JSON that is not an object is not modelled. For `null`, reading `data.movieId` throws. For a number, a string or an array, `data.movieId` is `undefined`, so the lookup matches any record without an `id`. On a miss such a body is pushed as `{...data}`: a number spreads to `{}`, and a string or an array spreads to index keys.
- `MovieCards.MovieCardsState.constructor` takes `pages` and `searchQuery` as the `Props` type declares them. The server page renders `<MovieCards movies={movies} />` and omits both, so in that use `totalPages` and `query` start as `undefined`. An `undefined` query acts like `""` in the `!query` test of the query effect, so the model's `""` behaves the same there. The two agree only in that test: the page handlers would request `query=undefined`, which the search route reads as a search for the text "undefined", while the model's `""` requests an empty query. The model has no value for an `undefined` `totalPages`, which only feeds the pagination display.
- The `ratedMoviesState` hook is declared but never read or set, so it is not a field of `MovieCardsState`.
- `MovieCards.MoviesBody` reads an absent `errorMessage` as `""`, which is falsy in the same way. A response body with neither `errorMessage` nor `movies` is not modelled.
