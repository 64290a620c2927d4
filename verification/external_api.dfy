/**
 * The client of the external exercise-video service: a one-hour cache of search results held
 * in two dictionaries (data and expiry time, keyed by a string built from the query), the
 * search-by-muscle variant with an order-free key, clearing the cache, and the
 * video recommendation that searches once per body part and keeps the first video of each
 * `exerciseId` up to a limit.
 *
 * The clock and the HTTP exchange are parameters: `now` is the time in seconds at which a call
 * looks at the cache and stores into it, and `fetch` is what the HTTP request would have
 * produced (the decoded JSON page, or an `httpx.HTTPError` with its message).
 */
module ExternalApi {
  import opened Wrappers
  import opened Strings
  import Tally

  /** One video record of the external service; absent JSON keys are `None`. `dayAssignment` is
      the tag the external routine builder attaches to each record it collects. */
  datatype Video = Video(
    exerciseId: Option<int>,
    title: Option<string>,
    targetGroup: Option<string>,
    videoLengthSeconds: Option<int>,
    exerciseTool: Option<string>,
    description: Option<string>,
    videoUrl: Option<string>,
    imageUrl: Option<string>,
    fitnessFactorName: Option<string>,
    dayAssignment: Option<string>)

  /** One page of search results as the service returns it, or the error page the client builds. */
  datatype SearchData = SearchData(content: seq<Video>, totalPages: int, totalElements: int, error: Option<string>)

  /** What the HTTP request produced. */
  datatype HttpOutcome = Fetched(data: SearchData) | HttpFailure(message: string)

  /** An exception that escapes the client. */
  datatype PyError = TypeError

  /** The result of a call together with the cache dictionaries after it. */
  datatype Lookup<R> = Lookup(result: R, data: map<string, SearchData>, expiry: map<string, int>)

  /** `timedelta(hours=1)`, in seconds. */
  const CacheSeconds: int := 3600

  /** `_is_cached`: the key is in both dictionaries and its expiry time is still ahead. */
  predicate Fresh(data: map<string, SearchData>, expiry: map<string, int>, key: string, now: int) {
    key in data && key in expiry && now < expiry[key]
  }

  /** An f-string renders `None` as the text "None". */
  function OptText(o: Option<string>): string {
    if o.None? then "None" else o.value
  }

  /** The cache key of `search_exercises`. */
  function SearchKey(keyword: Option<string>, targetGroup: Option<string>, fitnessFactor: Option<string>,
                     tool: Option<string>, page: int, size: int): string
  {
    "search_" + OptText(keyword) + "_" + OptText(targetGroup) + "_" + OptText(fitnessFactor) + "_"
    + OptText(tool) + "_" + IntToString(page) + "_" + IntToString(size)
  }

  /** The cache key of `search_by_muscle`: the muscles sorted and joined with `_`. */
  function MuscleKey(muscles: seq<string>, page: int, size: int): string {
    "muscle_" + Join(SortLex(muscles), '_') + "_" + IntToString(page) + "_" + IntToString(size)
  }

  /** The page returned when the HTTP call fails. */
  function FailureData(message: string): SearchData {
    SearchData([], 0, 0, Some(message))
  }

  /** One cached search: a fresh entry is returned as it is; otherwise a fetched page is stored
      with an expiry one hour ahead, and a failed fetch returns the error page and stores nothing. */
  function CachedFetch(data: map<string, SearchData>, expiry: map<string, int>, key: string, now: int,
                       fetch: HttpOutcome): Lookup<SearchData>
  {
    if Fresh(data, expiry, key, now) then Lookup(data[key], data, expiry)
    else match fetch
      case Fetched(d) => Lookup(d, data[key := d], expiry[key := now + CacheSeconds])
      case HttpFailure(m) => Lookup(FailureData(m), data, expiry)
  }

  /** `search_by_muscle` as written: the query parameters are built as `params + muscle_params`,
      a dictionary plus a list, which raises TypeError; only `httpx.HTTPError` is caught, so
      every call that misses the cache raises, and nothing is ever stored. */
  function MuscleFetchAsWritten(data: map<string, SearchData>, expiry: map<string, int>, key: string,
                                now: int): Lookup<Result<SearchData, PyError>>
  {
    if Fresh(data, expiry, key, now) then Lookup(Ok(data[key]), data, expiry)
    else Lookup(Err(TypeError), data, expiry)
  }

  /** The searches of a sequence of keys in turn, each against the cache the previous one left. */
  function FetchAll(data: map<string, SearchData>, expiry: map<string, int>, keys: seq<string>, now: int,
                    fetches: seq<HttpOutcome>): (o: Lookup<seq<SearchData>>)
    requires |fetches| == |keys|
    ensures |o.result| == |keys|
    decreases |keys|
  {
    if |keys| == 0 then Lookup([], data, expiry)
    else
      var first := CachedFetch(data, expiry, keys[0], now, fetches[0]);
      var rest := FetchAll(first.data, first.expiry, keys[1..], now, fetches[1..]);
      Lookup([first.result] + rest.result, rest.data, rest.expiry)
  }

  function Contents(pages: seq<SearchData>): seq<Video> {
    if |pages| == 0 then [] else Contents(pages[..|pages| - 1]) + pages[|pages| - 1].content
  }

  function VideoId(v: Video): Option<int> { v.exerciseId }

  /** The video recommendation's result: first video per `exerciseId` (a missing id is itself a
      value), cut to `limit`. */
  function UniqueVideosSpec(all: seq<Video>, limit: int): seq<Video> {
    Tally.SliceTo(Tally.DedupBy(all, VideoId), limit)
  }

  // ------------------------------------------------------------------ lemmas

  /** A stored entry stays fresh exactly until one hour after it was stored. */
  lemma StoredEntryFreshForAnHour(data: map<string, SearchData>, expiry: map<string, int>, key: string,
                                  d: SearchData, now: int, t: int)
    ensures Fresh(data[key := d], expiry[key := now + CacheSeconds], key, t) <==> t < now + 3600
  {
  }

  /** A fresh entry is returned without using the network, and the cache is unchanged. */
  lemma CacheHit(data: map<string, SearchData>, expiry: map<string, int>, key: string, now: int,
                 fetch: HttpOutcome)
    requires Fresh(data, expiry, key, now)
    ensures CachedFetch(data, expiry, key, now, fetch) == Lookup(data[key], data, expiry)
  {
  }

  /** A successful search returns the fetched page, and a repeat of the same search within the
      hour returns that page again whatever the network would say, leaving the cache as it is. */
  lemma RepeatWithinHourHits(data: map<string, SearchData>, expiry: map<string, int>, key: string,
                             now: int, d: SearchData, later: int, again: HttpOutcome)
    requires !Fresh(data, expiry, key, now)
    requires now <= later < now + CacheSeconds
    ensures var first := CachedFetch(data, expiry, key, now, Fetched(d));
      && first.result == d
      && CachedFetch(first.data, first.expiry, key, later, again) == Lookup(d, first.data, first.expiry)
  {
  }

  /** A failed HTTP call returns an empty page carrying the error and stores nothing. */
  lemma FailureCachesNothing(data: map<string, SearchData>, expiry: map<string, int>, key: string,
                             now: int, message: string)
    requires !Fresh(data, expiry, key, now)
    ensures var o := CachedFetch(data, expiry, key, now, HttpFailure(message));
      && o.result.content == [] && o.result.totalPages == 0 && o.result.totalElements == 0
      && o.result.error == Some(message)
      && o.data == data && o.expiry == expiry
  {
  }

  /** A search changes the cache at its own key only. */
  lemma OtherKeysUntouched(data: map<string, SearchData>, expiry: map<string, int>, key: string, now: int,
                           fetch: HttpOutcome, other: string, t: int)
    requires other != key
    ensures var o := CachedFetch(data, expiry, key, now, fetch);
      && (other in o.data <==> other in data)
      && (other in data ==> o.data[other] == data[other])
      && (Fresh(o.data, o.expiry, other, t) <==> Fresh(data, expiry, other, t))
  {
  }

  /** The muscle key does not depend on the order in which the muscles are given. */
  lemma MuscleKeyOrderFree(a: seq<string>, b: seq<string>, page: int, size: int)
    requires multiset(a) == multiset(b)
    ensures MuscleKey(a, page, size) == MuscleKey(b, page, size)
  {
    SortLexOrderFree(a, b);
  }

  /** The search key is not injective: an underscore inside a query value moves the field
      boundaries, so two different searches share one cache entry. */
  lemma SearchKeyCollision(fitnessFactor: Option<string>, tool: Option<string>, page: int, size: int)
    ensures SearchKey(Some("a_b"), Some("c"), fitnessFactor, tool, page, size)
         == SearchKey(Some("a"), Some("b_c"), fitnessFactor, tool, page, size)
  {
    assert "search_" + "a_b" + "_" + "c" == "search_" + "a" + "_" + "b_c" == "search_a_b_c";
  }

  /** As written, a muscle search that misses the cache raises and stores nothing, so the same
      search a moment later raises again: the one-hour cache of muscle searches never fills. */
  lemma MuscleSearchAsWrittenNeverCaches(data: map<string, SearchData>, expiry: map<string, int>,
                                         muscles: seq<string>, page: int, size: int, now: int, later: int)
    requires !Fresh(data, expiry, MuscleKey(muscles, page, size), now)
    requires now <= later
    ensures var key := MuscleKey(muscles, page, size);
      var first := MuscleFetchAsWritten(data, expiry, key, now);
      && first == Lookup(Err(TypeError), data, expiry)
      && MuscleFetchAsWritten(first.data, first.expiry, key, later).result == Err(TypeError)
  {
  }

  /** With the parameters passed as a list of pairs, a muscle search behaves like the plain
      search: a success is returned and, for an hour, served from the cache under the order-free
      key, whichever order the muscles are given in the repeat. */
  lemma MuscleSearchRepeatHits(data: map<string, SearchData>, expiry: map<string, int>,
                               muscles: seq<string>, reordered: seq<string>, page: int, size: int,
                               now: int, d: SearchData, later: int, again: HttpOutcome)
    requires !Fresh(data, expiry, MuscleKey(muscles, page, size), now)
    requires multiset(reordered) == multiset(muscles)
    requires now <= later < now + CacheSeconds
    ensures var first := CachedFetch(data, expiry, MuscleKey(muscles, page, size), now, Fetched(d));
      && first.result == d
      && CachedFetch(first.data, first.expiry, MuscleKey(reordered, page, size), later, again).result == d
  {
    MuscleKeyOrderFree(muscles, reordered, page, size);
  }

  /** The video recommendation keeps at most `limit` videos with pairwise different ids, in
      their original order, each the first video with its id. */
  lemma UniqueVideosFacts(all: seq<Video>, limit: int)
    ensures var r := UniqueVideosSpec(all, limit);
      && (limit >= 0 ==> |r| <= limit)
      && Tally.Distinct(Tally.MapSeq(r, VideoId))
      && Tally.IsSubsequence(r, all)
      && (forall k :: 0 <= k < |r| ==> exists j :: 0 <= j < |all| && all[j] == r[k] && Tally.FirstWithKey(all, j, VideoId))
  {
    UniqueVideosDistinct(all, limit);
    UniqueVideosInOrder(all, limit);
    UniqueVideosFirsts(all, limit);
  }

  lemma UniqueVideosDistinct(all: seq<Video>, limit: int)
    ensures var r := UniqueVideosSpec(all, limit);
      (limit >= 0 ==> |r| <= limit) && Tally.Distinct(Tally.MapSeq(r, VideoId))
  {
    var u := Tally.DedupBy(all, VideoId);
    var r := UniqueVideosSpec(all, limit);
    Tally.DedupByFacts(all, VideoId);
    assert r == u[..|r|];
    assert Tally.MapSeq(r, VideoId) == Tally.MapSeq(u, VideoId)[..|r|];
  }

  lemma UniqueVideosInOrder(all: seq<Video>, limit: int)
    ensures Tally.IsSubsequence(UniqueVideosSpec(all, limit), all)
  {
    var u := Tally.DedupBy(all, VideoId);
    var r := UniqueVideosSpec(all, limit);
    Tally.DedupBySubsequence(all, VideoId);
    Tally.SubsequencePrefix(u, all, |r|);
    assert r == u[..|r|];
  }

  lemma UniqueVideosFirsts(all: seq<Video>, limit: int)
    ensures var r := UniqueVideosSpec(all, limit);
      forall k :: 0 <= k < |r| ==> exists j :: 0 <= j < |all| && all[j] == r[k] && Tally.FirstWithKey(all, j, VideoId)
  {
    var u := Tally.DedupBy(all, VideoId);
    var r := UniqueVideosSpec(all, limit);
    assert r == u[..|r|];
    forall k | 0 <= k < |r|
      ensures exists j :: 0 <= j < |all| && all[j] == r[k] && Tally.FirstWithKey(all, j, VideoId)
    {
      var j := DedupedIsFirst(all, k);
      assert all[j] == r[k];
    }
  }

  /** Each video kept by the duplicate removal is the first video with its id. */
  lemma DedupedIsFirst(all: seq<Video>, k: nat) returns (j: nat)
    requires k < |Tally.DedupBy(all, VideoId)|
    ensures j < |all| && all[j] == Tally.DedupBy(all, VideoId)[k] && Tally.FirstWithKey(all, j, VideoId)
  {
    var u := Tally.DedupBy(all, VideoId);
    Tally.DedupBySubset(all, VideoId);
    assert u[k] in u;
    var i :| 0 <= i < |all| && all[i] == u[k];
    j := FirstIndexWithKey(all, i);
    Tally.DedupByKeepsFirst(all, VideoId);
    var m :| 0 <= m < |u| && u[m] == all[j];
    var ks := Tally.MapSeq(u, VideoId);
    assert ks[m] == ks[k];
    Tally.DedupByDistinct(all, VideoId);
    assert m == k;
  }

  /** The earliest position holding the same id as position `i`. */
  lemma FirstIndexWithKey(s: seq<Video>, i: nat) returns (j: nat)
    requires i < |s|
    ensures j <= i && VideoId(s[j]) == VideoId(s[i]) && Tally.FirstWithKey(s, j, VideoId)
    decreases i
  {
    if Tally.FirstWithKey(s, i, VideoId) {
      j := i;
    } else {
      var h :| 0 <= h < i && VideoId(s[h]) == VideoId(s[i]);
      j := FirstIndexWithKey(s, h);
    }
  }

  /** The duplicate removal and cut of the video recommendation. */
  method UniqueVideos(all: seq<Video>, limit: int) returns (r: seq<Video>)
    ensures r == UniqueVideosSpec(all, limit)
  {
    var seen: set<Option<int>> := {};
    var unique: seq<Video> := [];
    var i := 0;
    while i < |all|
      invariant 0 <= i <= |all|
      invariant unique == Tally.DedupBy(all[..i], VideoId)
      invariant forall k :: k in seen <==> k in Tally.MapSeq(unique, VideoId)
    {
      assert all[..i + 1][..i] == all[..i];
      if all[i].exerciseId !in seen {
        seen := seen + {all[i].exerciseId};
        Tally.MapSeqSnoc(unique, all[i], VideoId);
        unique := unique + [all[i]];
      }
      i := i + 1;
    }
    assert all[..i] == all;
    if limit >= 0 {
      r := if limit < |unique| then unique[..limit] else unique;
    } else {
      r := if |unique| + limit > 0 then unique[..|unique| + limit] else [];
    }
  }

  function BodyPartKeys(bodyParts: seq<string>, targetGroup: string, tool: Option<string>, limit: int): (keys: seq<string>)
    ensures |keys| == |bodyParts|
    ensures forall i :: 0 <= i < |bodyParts| ==> keys[i] == SearchKey(Some(bodyParts[i]), Some(targetGroup), None, tool, 0, limit)
  {
    if |bodyParts| == 0 then []
    else [SearchKey(Some(bodyParts[0]), Some(targetGroup), None, tool, 0, limit)]
         + BodyPartKeys(bodyParts[1..], targetGroup, tool, limit)
  }

  /** `full` is what the searches give when `pages` are already answered and the searches of
      `keys` are still to run against the cache `data`/`expiry`. */
  ghost predicate FetchesRemain(full: Lookup<seq<SearchData>>, pages: seq<SearchData>,
                                data: map<string, SearchData>, expiry: map<string, int>,
                                keys: seq<string>, now: int, fetches: seq<HttpOutcome>)
    requires |fetches| == |keys|
  {
    var rest := FetchAll(data, expiry, keys, now, fetches);
    full == Lookup(pages + rest.result, rest.data, rest.expiry)
  }

  /** Running the next search moves its page from the remaining searches to the answered ones. */
  lemma FetchesRemainStep(full: Lookup<seq<SearchData>>, pages: seq<SearchData>,
                          data: map<string, SearchData>, expiry: map<string, int>,
                          keys: seq<string>, now: int, fetches: seq<HttpOutcome>)
    requires |fetches| == |keys| > 0
    requires FetchesRemain(full, pages, data, expiry, keys, now, fetches)
    ensures var first := CachedFetch(data, expiry, keys[0], now, fetches[0]);
      FetchesRemain(full, pages + [first.result], first.data, first.expiry, keys[1..], now, fetches[1..])
  {
    var first := CachedFetch(data, expiry, keys[0], now, fetches[0]);
    var tail := FetchAll(first.data, first.expiry, keys[1..], now, fetches[1..]);
    assert pages + ([first.result] + tail.result) == (pages + [first.result]) + tail.result;
  }

  lemma ContentsSnoc(pages: seq<SearchData>, p: SearchData)
    ensures Contents(pages + [p]) == Contents(pages) + p.content
  {
    assert (pages + [p])[..|pages|] == pages;
  }

  /** The client object with its two cache dictionaries. */
  class ExerciseApiClient {
    var cache: map<string, SearchData>
    var cacheExpiry: map<string, int>

    constructor ()
      ensures cache == map[] && cacheExpiry == map[]
    {
      cache := map[];
      cacheExpiry := map[];
    }

    predicate IsCached(key: string, now: int)
      reads this
    {
      Fresh(cache, cacheExpiry, key, now)
    }

    method SearchExercises(keyword: Option<string>, targetGroup: Option<string>, fitnessFactor: Option<string>,
                           tool: Option<string>, page: int, size: int, now: int, fetch: HttpOutcome)
      returns (r: SearchData)
      modifies this
      ensures var o := CachedFetch(old(cache), old(cacheExpiry),
                                   SearchKey(keyword, targetGroup, fitnessFactor, tool, page, size), now, fetch);
        r == o.result && cache == o.data && cacheExpiry == o.expiry
    {
      var key := SearchKey(keyword, targetGroup, fitnessFactor, tool, page, size);
      if IsCached(key, now) {
        return cache[key];
      }
      match fetch {
        case Fetched(d) =>
          cache := cache[key := d];
          cacheExpiry := cacheExpiry[key := now + CacheSeconds];
          r := d;
        case HttpFailure(m) =>
          r := FailureData(m);
      }
    }

    /** `search_by_muscle` as written: it raises TypeError whenever it misses the cache. */
    method SearchByMuscleAsWritten(muscles: seq<string>, page: int, size: int, now: int)
      returns (r: Result<SearchData, PyError>)
      modifies this
      ensures var o := MuscleFetchAsWritten(old(cache), old(cacheExpiry), MuscleKey(muscles, page, size), now);
        r == o.result && cache == o.data && cacheExpiry == o.expiry
    {
      var key := MuscleKey(muscles, page, size);
      if IsCached(key, now) {
        return Ok(cache[key]);
      }
      r := Err(TypeError);
    }

    /** `search_by_muscle` with its query parameters passed as a list of pairs. */
    method SearchByMuscle(muscles: seq<string>, page: int, size: int, now: int, fetch: HttpOutcome)
      returns (r: SearchData)
      modifies this
      ensures var o := CachedFetch(old(cache), old(cacheExpiry), MuscleKey(muscles, page, size), now, fetch);
        r == o.result && cache == o.data && cacheExpiry == o.expiry
    {
      var key := MuscleKey(muscles, page, size);
      if IsCached(key, now) {
        return cache[key];
      }
      match fetch {
        case Fetched(d) =>
          cache := cache[key := d];
          cacheExpiry := cacheExpiry[key := now + CacheSeconds];
          r := d;
        case HttpFailure(m) =>
          r := FailureData(m);
      }
    }

    method ClearCache()
      modifies this
      ensures cache == map[] && cacheExpiry == map[]
    {
      cache := map[];
      cacheExpiry := map[];
    }

    /** `get_exercise_recommendations_with_videos`: one search per body part, in order, then the
        duplicate removal and cut. `fetches[i]` is what the network answers for body part `i`. */
    method RecommendationsWithVideos(bodyParts: seq<string>, targetGroup: string, tool: Option<string>,
                                     limit: int, now: int, fetches: seq<HttpOutcome>)
      returns (r: seq<Video>, ghost pages: seq<SearchData>)
      requires |fetches| == |bodyParts|
      modifies this
      ensures var o := FetchAll(old(cache), old(cacheExpiry), BodyPartKeys(bodyParts, targetGroup, tool, limit), now, fetches);
        pages == o.result && cache == o.data && cacheExpiry == o.expiry
      ensures r == UniqueVideosSpec(Contents(pages), limit)
    {
      ghost var keys := BodyPartKeys(bodyParts, targetGroup, tool, limit);
      ghost var full := FetchAll(cache, cacheExpiry, keys, now, fetches);
      var all: seq<Video> := [];
      pages := [];
      var i := 0;
      assert keys[0..] == keys && fetches[0..] == fetches;
      assert pages + full.result == full.result;
      while i < |bodyParts|
        invariant 0 <= i <= |bodyParts| && |pages| == i
        invariant all == Contents(pages)
        invariant FetchesRemain(full, pages, cache, cacheExpiry, keys[i..], now, fetches[i..])
      {
        FetchesRemainStep(full, pages, cache, cacheExpiry, keys[i..], now, fetches[i..]);
        assert keys[i..][1..] == keys[i + 1..] && fetches[i..][1..] == fetches[i + 1..];
        var result := SearchExercises(Some(bodyParts[i]), Some(targetGroup), None, tool, 0, limit, now, fetches[i]);
        if |result.content| > 0 {
          all := all + result.content;
        }
        ContentsSnoc(pages, result);
        pages := pages + [result];
        i := i + 1;
      }
      assert keys[i..] == [];
      r := UniqueVideos(all, limit);
    }
  }
}
