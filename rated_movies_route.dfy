/** The in-memory rated-movie store behind `/api/rated-movies`
    (src/app/api/rated-movies/route.ts): a module-level list of JSON
    records, upserted by POST and read by GET. */
module RatedMoviesRoute {
  import opened Js

  /** Scalar JSON values a posted body carries (ids, ratings, titles, ...). */
  datatype Json = JNull | JBool(b: bool) | JNum(n: int) | JStr(s: string)

  /** A JSON object; a property that is `undefined` is simply absent. */
  type Obj = map<string, Json>

  /** Property access `o.key`: `None` is `undefined`. */
  function Prop(o: Obj, key: string): Option<Json>
  {
    if key in o then Some(o[key]) else None
  }

  /** The object spread `{ ...o, [key]: v }`. */
  function WithProp(o: Obj, key: string, v: Option<Json>): (r: Obj)
    ensures Prop(r, key) == v
    ensures forall k :: k != key ==> Prop(r, k) == Prop(o, k)
  {
    match v
    case Some(x) => o[key := x]
    case None => o - {key}
  }

  /** The `findIndex` callback `f => f.id === data.movieId`. Strict equality
      on scalars is value equality, and `undefined === undefined` holds. */
  predicate MatchesId(f: Obj, movieId: Option<Json>)
  {
    Prop(f, "id") == movieId
  }

  /** `list.findIndex(f => f.id === movieId)`: the first matching index,
      or -1 when no record matches. */
  function FindIndexById(list: seq<Obj>, movieId: Option<Json>): (r: int)
    ensures -1 <= r < |list|
    ensures r == -1 <==> forall i :: 0 <= i < |list| ==> !MatchesId(list[i], movieId)
    ensures 0 <= r ==> MatchesId(list[r], movieId)
    ensures 0 <= r ==> forall i :: 0 <= i < r ==> !MatchesId(list[i], movieId)
  {
    if |list| == 0 then -1
    else if MatchesId(list[0], movieId) then 0
    else
      var k := FindIndexById(list[1..], movieId);
      if k == -1 then -1 else k + 1
  }

  /** The list after one POST of `data`. On a hit, the first record whose
      `id` equals `data.movieId` takes `data.value` in place and nothing
      else in the list changes; on a miss, a copy of the whole body is
      appended at the end. */
  function Upsert(list: seq<Obj>, data: Obj): (r: seq<Obj>)
    ensures (exists i :: 0 <= i < |list| && MatchesId(list[i], Prop(data, "movieId")))
      ==> |r| == |list|
    ensures (forall i :: 0 <= i < |list| ==> !MatchesId(list[i], Prop(data, "movieId")))
      ==> r == list + [data]
    ensures forall i ::
              && 0 <= i < |list|
              && MatchesId(list[i], Prop(data, "movieId"))
              && (forall j :: 0 <= j < i ==> !MatchesId(list[j], Prop(data, "movieId")))
              ==> r == list[i := WithProp(list[i], "value", Prop(data, "value"))]
  {
    var index := FindIndexById(list, Prop(data, "movieId"));
    if index != -1 then list[index := WithProp(list[index], "value", Prop(data, "value"))]
    else list + [data]
  }

  /** No two records share an `id` (a missing `id` counts as the value `undefined`). */
  ghost predicate IdsUnique(list: seq<Obj>)
  {
    forall i, j :: 0 <= i < j < |list| ==> Prop(list[i], "id") != Prop(list[j], "id")
  }

  /** The body of a POST whose `id` field is the `movieId` it rates. */
  predicate CarriesOwnId(data: Obj)
  {
    Prop(data, "id") == Prop(data, "movieId")
  }

  /** One upsert keeps ids unique as long as the body carries `id == movieId`:
      a hit changes only `value`, a miss appends an id that no record holds. */
  lemma UpsertKeepsIdsUnique(list: seq<Obj>, data: Obj)
    requires IdsUnique(list) && CarriesOwnId(data)
    ensures IdsUnique(Upsert(list, data))
  {
  }

  /** The list after a series of POSTs, in order. */
  function PostAll(list: seq<Obj>, bodies: seq<Obj>): (r: seq<Obj>)
    ensures |list| <= |r| <= |list| + |bodies|
    decreases |bodies|
  {
    if |bodies| == 0 then list
    else PostAll(Upsert(list, bodies[0]), bodies[1..])
  }

  /** From a list with unique ids (the empty store at process start, say),
      bodies that all carry `id == movieId` never produce two records with
      the same id. */
  lemma {:induction false} PostsKeepIdsUnique(list: seq<Obj>, bodies: seq<Obj>)
    requires IdsUnique(list)
    requires forall k :: 0 <= k < |bodies| ==> CarriesOwnId(bodies[k])
    ensures IdsUnique(PostAll(list, bodies))
    decreases |bodies|
  {
    if |bodies| > 0 {
      UpsertKeepsIdsUnique(list, bodies[0]);
      PostsKeepIdsUnique(Upsert(list, bodies[0]), bodies[1..]);
    }
  }

  /** Uniqueness rests on the body: a body that carries `movieId` but no
      `id` is never found again, so posting it twice stores it twice. */
  lemma BodyWithoutIdIsStoredTwice()
    ensures var body := map["movieId" := JNum(5), "value" := JNum(8)];
      PostAll([], [body, body]) == [body, body] && !IdsUnique([body, body])
  {
  }

  /** The JSON reply of POST. */
  datatype PostReply = PostReply(message: string, ratedMovies: seq<Obj>)

  const RatingSaved: string := "Rating saved"

  /** The module-level `ratedMovies` array; one instance per server process. */
  class RatedMoviesStore {
    var ratedMovies: seq<Obj>

    constructor ()
      ensures ratedMovies == []
    {
      ratedMovies := [];
    }

    /** POST: overwrite the `value` of the first record whose `id` is
        `data.movieId`, or append the body; reply with the whole list. */
    method Post(data: Obj) returns (reply: PostReply)
      modifies this
      ensures ratedMovies == Upsert(old(ratedMovies), data)
      ensures reply == PostReply(RatingSaved, ratedMovies)
      ensures IdsUnique(old(ratedMovies)) && CarriesOwnId(data) ==> IdsUnique(ratedMovies)
    {
      var index := FindIndexById(ratedMovies, Prop(data, "movieId"));
      if index != -1 {
        ratedMovies := ratedMovies[index := WithProp(ratedMovies[index], "value", Prop(data, "value"))];
      } else {
        ratedMovies := ratedMovies + [data];
      }
      reply := PostReply(RatingSaved, ratedMovies);
      if IdsUnique(old(ratedMovies)) && CarriesOwnId(data) {
        UpsertKeepsIdsUnique(old(ratedMovies), data);
      }
    }

    /** GET: the current list, left as it is. */
    method Get() returns (list: seq<Obj>)
      ensures list == ratedMovies
    {
      list := ratedMovies;
    }
  }
}
