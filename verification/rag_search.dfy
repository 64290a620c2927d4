/**
 * The exercise search over the vector index: the ranked (score, index) pairs the index
 * returns are mapped to catalogue entries, filtered by target group and fitness factor, and
 * cut at k results. The query embedding and the nearest-neighbour search are foreign calls:
 * the search is a function parameter from the number of neighbours asked to the ranking.
 */
module RagSearch {
  import opened Wrappers
  import Strings
  import Tally

  /** A catalogue entry as stored in the metadata file: its fields by name. */
  type Entry = map<string, string>

  /** `meta.get(field)`. */
  function Field(e: Entry, f: string): Option<string> {
    if f in e then Some(e[f]) else None
  }

  /** The metadata of a result: a fixed set of fields, each `None` where the entry lacks it. */
  datatype ResultMeta = ResultMeta(
    exerciseId: Option<string>, title: Option<string>, standardTitle: Option<string>,
    trainingName: Option<string>, bodyPart: Option<string>, exerciseTool: Option<string>,
    fitnessFactorName: Option<string>, fitnessLevelName: Option<string>, targetGroup: Option<string>,
    trainingAimName: Option<string>, trainingPlaceName: Option<string>, trainingSectionName: Option<string>,
    trainingStepName: Option<string>, description: Option<string>, muscles: Option<string>,
    videoUrl: Option<string>, videoLengthSeconds: Option<string>, imageUrl: Option<string>,
    imageFileName: Option<string>)

  /** A result's metadata, read field by field from the entry. */
  function Project(e: Entry): ResultMeta {
    ResultMeta(
      Field(e, "exercise_id"), Field(e, "title"), Field(e, "standard_title"),
      Field(e, "training_name"), Field(e, "body_part"), Field(e, "exercise_tool"),
      Field(e, "fitness_factor_name"), Field(e, "fitness_level_name"), Field(e, "target_group"),
      Field(e, "training_aim_name"), Field(e, "training_place_name"), Field(e, "training_section_name"),
      Field(e, "training_step_name"), Field(e, "description"), Field(e, "muscles"),
      Field(e, "video_url"), Field(e, "video_length_seconds"), Field(e, "image_url"),
      Field(e, "image_file_name"))
  }

  datatype Hit = Hit(score: real, metadata: ResultMeta)

  /** The result for an entry at a score. */
  function ToHit(score: real, e: Entry): Hit { Hit(score, Project(e)) }

  /** The service's state: the metadata list, aligned with the index, and the default k. */
  datatype Service = Service(metadata: seq<Entry>, topK: int)

  /** The filters; an absent exclusion list is the empty one. */
  datatype Filters = Filters(targetGroup: Option<string>, excludeGroups: seq<string>, fitnessFactor: Option<string>, excludeFactors: seq<string>)

  /** Python's truth test on an optional string: present and non-empty. */
  predicate Truthy(o: Option<string>) { o.Some? && o.value != "" }

  predicate AnyFilter(f: Filters) {
    Truthy(f.targetGroup) || |f.excludeGroups| > 0 || Truthy(f.fitnessFactor) || |f.excludeFactors| > 0
  }

  /** `top_k or self.top_k`: an absent or zero request falls back to the default. */
  function ResultLimit(topK: Option<int>, defaultK: int): int {
    if topK.Some? && topK.value != 0 then topK.value else defaultK
  }

  /** The number of neighbours asked of the index: with a filter three times k, and at least
      30; without one, k. */
  function FetchSize(k: int, f: Filters): (n: int)
    ensures AnyFilter(f) ==> n >= 30 && n >= 3 * k && (n == 30 || n == 3 * k)
    ensures !AnyFilter(f) ==> n == k
  {
    if AnyFilter(f) then (if 3 * k > 30 then 3 * k else 30) else k
  }

  /** The number of results after which the loop stops: the test comes after an append, so a
      limit below 1 still lets one result through. */
  function StopAt(k: int): int { if k >= 1 then k else 1 }

  /** Whether an entry passes the filters. */
  predicate Passes(e: Entry, f: Filters) {
    var group, factor := Field(e, "target_group"), Field(e, "fitness_factor_name");
    !(Truthy(f.targetGroup) && group != f.targetGroup)
    && !(|f.excludeGroups| > 0 && Truthy(group) && group.value in f.excludeGroups)
    && !(Truthy(f.fitnessFactor) && factor != f.fitnessFactor)
    && !(|f.excludeFactors| > 0 && Truthy(factor) && factor.value in f.excludeFactors)
  }

  /** A ranking position with an index into the metadata list whose entry passes. */
  predicate Accepted(meta: seq<Entry>, r: (real, int), f: Filters) {
    0 <= r.1 < |meta| && Passes(meta[r.1], f)
  }

  /** The hits of a ranking, in ranking order. */
  function Hits(meta: seq<Entry>, ranking: seq<(real, int)>, f: Filters): seq<Hit> {
    if |ranking| == 0 then []
    else
      var r := ranking[|ranking| - 1];
      Hits(meta, ranking[..|ranking| - 1], f) + (if Accepted(meta, r, f) then [ToHit(r.0, meta[r.1])] else [])
  }

  /** `search`: nothing for a blank query, otherwise the first hits of the ranking the index
      gives for the fetch size, up to the limit. */
  function SearchOf(svc: Service, query: string, topK: Option<int>, f: Filters, index: int -> seq<(real, int)>): seq<Hit> {
    if Strings.Strip(query) == "" then []
    else
      var k := ResultLimit(topK, svc.topK);
      Tally.SliceTo(Hits(svc.metadata, index(FetchSize(k, f)), f), StopAt(k))
  }

  // ------------------------------------------------------------------ the loop

  method Search(svc: Service, query: string, topK: Option<int>, f: Filters, index: int -> seq<(real, int)>)
    returns (results: seq<Hit>)
    ensures results == SearchOf(svc, query, topK, f, index)
  {
    if Strings.Strip(query) == "" {
      return [];
    }
    var k := ResultLimit(topK, svc.topK);
    var ranking := index(FetchSize(k, f));
    results := [];
    var i := 0;
    while i < |ranking|
      invariant 0 <= i <= |ranking|
      invariant results == Hits(svc.metadata, ranking[..i], f) && |results| < StopAt(k)
    {
      HitsStep(svc.metadata, ranking, f, i);
      var score, idx := ranking[i].0, ranking[i].1;
      i := i + 1;
      if idx < 0 || idx >= |svc.metadata| {
        continue;
      }
      var meta := svc.metadata[idx];
      var keep := Admit(meta, f);
      if !keep {
        continue;
      }
      results := results + [ToHit(score, meta)];
      if |results| >= k {
        HitsPrefix(svc.metadata, ranking, f, i);
        return;
      }
    }
    assert ranking[..i] == ranking;
  }

  /** The filter tests of one entry, in the order the loop makes them. */
  method Admit(meta: Entry, f: Filters) returns (keep: bool)
    ensures keep == Passes(meta, f)
  {
    var group, factor := Field(meta, "target_group"), Field(meta, "fitness_factor_name");
    if Truthy(f.targetGroup) && group != f.targetGroup {
      return false;
    }
    if |f.excludeGroups| > 0 && Truthy(group) && group.value in f.excludeGroups {
      return false;
    }
    if Truthy(f.fitnessFactor) && factor != f.fitnessFactor {
      return false;
    }
    if |f.excludeFactors| > 0 && Truthy(factor) && factor.value in f.excludeFactors {
      return false;
    }
    return true;
  }

  lemma HitsStep(meta: seq<Entry>, ranking: seq<(real, int)>, f: Filters, i: nat)
    requires i < |ranking|
    ensures Hits(meta, ranking[..i + 1], f)
      == Hits(meta, ranking[..i], f) + (if Accepted(meta, ranking[i], f) then [ToHit(ranking[i].0, meta[ranking[i].1])] else [])
  {
    assert ranking[..i + 1][..i] == ranking[..i];
  }

  /** The hits of a prefix of the ranking are a prefix of its hits. */
  lemma {:induction false} HitsPrefix(meta: seq<Entry>, ranking: seq<(real, int)>, f: Filters, n: nat)
    requires n <= |ranking|
    ensures var h := Hits(meta, ranking[..n], f);
      |h| <= |Hits(meta, ranking, f)| && Hits(meta, ranking, f)[..|h|] == h
  {
    if n < |ranking| {
      var pre := ranking[..|ranking| - 1];
      assert pre[..n] == ranking[..n];
      HitsPrefix(meta, pre, f, n);
    } else {
      assert ranking[..n] == ranking;
    }
  }

  // ------------------------------------------------------------- properties

  /** A blank or whitespace-only query gets no results. */
  lemma BlankQuery(svc: Service, query: string, topK: Option<int>, f: Filters, index: int -> seq<(real, int)>)
    ensures Strings.IsBlank(query) ==> SearchOf(svc, query, topK, f, index) == []
  {
    Strings.StripEmptyIffBlank(query);
  }

  /** At most k results come back (one when k is below 1); fewer only when the ranking has
      no more hits, and then all of them. */
  lemma ResultCount(svc: Service, query: string, topK: Option<int>, f: Filters, index: int -> seq<(real, int)>)
    requires !Strings.IsBlank(query)
    ensures var k, r := ResultLimit(topK, svc.topK), SearchOf(svc, query, topK, f, index);
      |r| <= StopAt(k) && (k >= 1 ==> |r| <= k)
    ensures var k := ResultLimit(topK, svc.topK);
      var h := Hits(svc.metadata, index(FetchSize(k, f)), f);
      |SearchOf(svc, query, topK, f, index)| < StopAt(k) ==> SearchOf(svc, query, topK, f, index) == h
  {
    Strings.StripEmptyIffBlank(query);
  }

  /** The ranking positions that give a hit, in increasing order. */
  function Sources(meta: seq<Entry>, ranking: seq<(real, int)>, f: Filters): seq<nat> {
    if |ranking| == 0 then []
    else Sources(meta, ranking[..|ranking| - 1], f) + (if Accepted(meta, ranking[|ranking| - 1], f) then [|ranking| - 1] else [])
  }

  /** Position `j` of the ranking gives the hit `h`. */
  predicate IsSource(meta: seq<Entry>, ranking: seq<(real, int)>, f: Filters, j: nat, h: Hit) {
    j < |ranking| && Accepted(meta, ranking[j], f) && h == ToHit(ranking[j].0, meta[ranking[j].1])
  }

  /** Each hit comes from its source: a ranking position with a valid index whose entry passes
      the filters. */
  lemma {:induction false} SourcesGiveHits(meta: seq<Entry>, ranking: seq<(real, int)>, f: Filters)
    ensures |Sources(meta, ranking, f)| == |Hits(meta, ranking, f)|
    ensures forall i :: 0 <= i < |Hits(meta, ranking, f)| ==> IsSource(meta, ranking, f, Sources(meta, ranking, f)[i], Hits(meta, ranking, f)[i])
  {
    if |ranking| > 0 {
      var pre := ranking[..|ranking| - 1];
      SourcesGiveHits(meta, pre, f);
      var s, h := Sources(meta, pre, f), Hits(meta, pre, f);
      forall i | 0 <= i < |s| ensures IsSource(meta, ranking, f, s[i], h[i]) {
        SourceInPrefix(meta, ranking, f, s[i], h[i]);
      }
    }
  }

  lemma SourceInPrefix(meta: seq<Entry>, ranking: seq<(real, int)>, f: Filters, j: nat, h: Hit)
    requires |ranking| > 0 && IsSource(meta, ranking[..|ranking| - 1], f, j, h)
    ensures IsSource(meta, ranking, f, j, h)
  {
    assert ranking[..|ranking| - 1][j] == ranking[j];
  }

  /** The sources increase, so the hits keep the ranking's order. */
  lemma {:induction false} SourcesIncrease(meta: seq<Entry>, ranking: seq<(real, int)>, f: Filters)
    ensures forall i :: 0 <= i < |Sources(meta, ranking, f)| ==> Sources(meta, ranking, f)[i] < |ranking|
    ensures forall i, j :: 0 <= i < j < |Sources(meta, ranking, f)| ==> Sources(meta, ranking, f)[i] < Sources(meta, ranking, f)[j]
  {
    if |ranking| > 0 {
      SourcesIncrease(meta, ranking[..|ranking| - 1], f);
    }
  }

  /** Every position with a valid index whose entry passes the filters gives a hit. */
  lemma {:induction false} SourcesComplete(meta: seq<Entry>, ranking: seq<(real, int)>, f: Filters, j: nat)
    requires j < |ranking| && Accepted(meta, ranking[j], f)
    ensures j in Sources(meta, ranking, f)
  {
    var n := |ranking| - 1;
    if j < n {
      var pre := ranking[..n];
      assert pre[j] == ranking[j];
      SourcesComplete(meta, pre, f, j);
    }
  }

  /** An entry that passes carries the requested group and factor in its result, and an
      excluded group or factor only when it is empty. */
  lemma PassesFilters(e: Entry, f: Filters)
    requires Passes(e, f)
    ensures var m := Project(e);
      (Truthy(f.targetGroup) ==> m.targetGroup == f.targetGroup)
      && (Truthy(f.fitnessFactor) ==> m.fitnessFactorName == f.fitnessFactor)
    ensures var m := Project(e);
      (Truthy(m.targetGroup) ==> m.targetGroup.value !in f.excludeGroups)
      && (Truthy(m.fitnessFactorName) ==> m.fitnessFactorName.value !in f.excludeFactors)
  {
  }

  /** An entry without a group or factor is never dropped by an exclusion list. */
  lemma UnsetSurvivesExclusion(e: Entry, f: Filters)
    requires !Truthy(Field(e, "target_group")) && !Truthy(Field(e, "fitness_factor_name"))
    requires !Truthy(f.targetGroup) && !Truthy(f.fitnessFactor)
    ensures Passes(e, f)
  {
  }
}
