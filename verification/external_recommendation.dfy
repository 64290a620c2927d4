/**
 * The routine builder that works from the external video service instead of the local catalog.
 * It collects videos by searching per body part and goal keyword, removes duplicate ids, groups
 * the pool by the training day each video was collected for, ranks and selects videos within the
 * day's time budget, converts them to exercise recommendations with goal-dependent set, rep and
 * rest tables, and adds a summary, video tips and a difficulty score.
 *
 * The searches themselves are network calls: the collected pool (already tagged with its day)
 * and the top-up results of a day with fewer than three videos are parameters. The random part
 * of the ranking score is the parameter `jitter`, in thousandths like the score.
 */
module ExternalRecommendation {
  import opened Wrappers
  import opened Strings
  import Tally
  import Schemas
  import DB = DatabaseService
  import Rec = Recommendation
  import opened ExternalApi

  /** `split_mapping`: the training days of a split and the search words of each. */
  function SplitGroups(splitType: string): (g: seq<(string, seq<string>)>)
    requires splitType in Schemas.SplitTypes
    ensures splitType == "2분할" ==> |g| == 2
    ensures splitType == "3분할" ==> |g| == 3
    ensures splitType == "전신" ==> |g| == 1
    ensures forall i, j :: 0 <= i < j < |g| ==> g[i].0 != g[j].0
  {
    if splitType == "2분할" then
      [("상체운동", ["상체", "가슴", "등", "어깨", "팔"]), ("하체운동", ["하체", "다리", "허벅지", "종아리"])]
    else if splitType == "3분할" then
      [("가슴/삼두", ["가슴", "삼두", "팔굽혀펴기"]), ("등/이두", ["등", "이두", "풀업", "턱걸이"]),
       ("하체/어깨", ["하체", "어깨", "스쿼트", "런지"])]
    else
      [("전신운동", ["전신", "복합운동", "기능성", "체중"])]
  }

  /** `goal_keywords.get(goal, [])`, as the ranking score reads it. */
  function GoalKeywords(goal: string): seq<string> {
    if goal == "근육 증가" then ["근력", "웨이트", "덤벨", "바벨"]
    else if goal == "다이어트" then ["유산소", "칼로리", "다이어트", "체중감량"]
    else if goal == "체력 향상" then ["체력", "지구력", "기능성", "맨몸"]
    else if goal == "재활" then ["재활", "스트레칭", "가동성", "회복"]
    else []
  }

  /** `experience_mapping.get(level, "성인")`: the service's audience group for a level. */
  function TargetGroup(level: string): (t: string)
    ensures |t| > 0
  {
    if level == "초급" then "유소년" else if level == "중급" then "청소년" else "성인"
  }

  // ---------------------------------------------------- duplicate removal

  /** `exercise_id and ...`: a missing id and the id 0 are both false. */
  predicate HasId(v: Video) { v.exerciseId.Some? && v.exerciseId.value != 0 }

  /** The pool after duplicate removal: videos with a true id, first video per id. */
  function UniquePoolSpec(pool: seq<Video>): seq<Video> {
    Tally.DedupBy(Tally.Filter(pool, HasId), VideoId)
  }

  /** The duplicate removal at the end of `_collect_exercise_data`: a dictionary from id to the
      first video with it, read back in insertion order. */
  method UniquePool(pool: seq<Video>) returns (unique: seq<Video>)
    ensures unique == UniquePoolSpec(pool)
  {
    var seen: set<Option<int>> := {};
    unique := [];
    var i := 0;
    while i < |pool|
      invariant 0 <= i <= |pool|
      invariant unique == UniquePoolSpec(pool[..i])
      invariant forall k :: k in seen <==> k in Tally.MapSeq(unique, VideoId)
    {
      UniquePoolStep(pool, i, unique, seen);
      if HasId(pool[i]) && pool[i].exerciseId !in seen {
        seen := seen + {pool[i].exerciseId};
        unique := unique + [pool[i]];
      }
      i := i + 1;
    }
    assert pool[..i] == pool;
  }

  lemma UniquePoolStep(pool: seq<Video>, i: nat, unique: seq<Video>, seen: set<Option<int>>)
    requires i < |pool|
    requires unique == UniquePoolSpec(pool[..i])
    requires forall k :: k in seen <==> k in Tally.MapSeq(unique, VideoId)
    ensures var add := HasId(pool[i]) && pool[i].exerciseId !in seen;
      var next := if add then unique + [pool[i]] else unique;
      && next == UniquePoolSpec(pool[..i + 1])
      && forall k :: k in (if add then seen + {pool[i].exerciseId} else seen) <==> k in Tally.MapSeq(next, VideoId)
  {
    Tally.DedupFilterSnoc(pool, i, HasId, VideoId);
    Tally.MapSeqSnoc(unique, pool[i], VideoId);
  }

  /** Dropping the false ids and then removing duplicates is the same as removing duplicates and
      then dropping the false ids: the false ids never hide a true one. */
  lemma FilterThenDedup(pool: seq<Video>)
    ensures UniquePoolSpec(pool) == Tally.Filter(Tally.DedupBy(pool, VideoId), HasId)
  {
    Tally.FilterDedupCommute(pool, HasId, VideoId);
  }

  /** The pool after duplicate removal holds only true ids, pairwise different, in the order
      collected; every true id of the collection is in it, carried by its first video. */
  lemma UniquePoolFacts(pool: seq<Video>)
    ensures var u := UniquePoolSpec(pool);
      && Tally.Distinct(Tally.MapSeq(u, VideoId))
      && (forall k :: 0 <= k < |u| ==> HasId(u[k]))
      && Tally.IsSubsequence(u, pool)
      && (forall j :: 0 <= j < |pool| && HasId(pool[j]) ==> pool[j].exerciseId in Tally.MapSeq(u, VideoId))
      && (forall j :: 0 <= j < |pool| && HasId(pool[j]) && Tally.FirstWithKey(pool, j, VideoId) ==> pool[j] in u)
  {
    Tally.DedupByFacts(Tally.Filter(pool, HasId), VideoId);
    UniquePoolOnlyTrueIds(pool);
    UniquePoolInOrder(pool);
    UniquePoolCovers(pool);
    UniquePoolKeepsFirst(pool);
  }

  lemma UniquePoolOnlyTrueIds(pool: seq<Video>)
    ensures forall k :: 0 <= k < |UniquePoolSpec(pool)| ==> HasId(UniquePoolSpec(pool)[k])
  {
    var f := Tally.Filter(pool, HasId);
    var u := UniquePoolSpec(pool);
    Tally.DedupByFacts(f, VideoId);
    forall k | 0 <= k < |u| ensures HasId(u[k]) {
      assert u[k] in f;
    }
  }

  lemma UniquePoolInOrder(pool: seq<Video>)
    ensures Tally.IsSubsequence(UniquePoolSpec(pool), pool)
  {
    var f := Tally.Filter(pool, HasId);
    Tally.DedupBySubsequence(f, VideoId);
    Tally.FilterSubsequence(pool, HasId);
    Tally.SubsequenceTransitive(UniquePoolSpec(pool), f, pool);
  }

  lemma UniquePoolCovers(pool: seq<Video>)
    ensures forall j :: 0 <= j < |pool| && HasId(pool[j]) ==> pool[j].exerciseId in Tally.MapSeq(UniquePoolSpec(pool), VideoId)
  {
    var f := Tally.Filter(pool, HasId);
    forall j | 0 <= j < |pool| && HasId(pool[j])
      ensures pool[j].exerciseId in Tally.MapSeq(UniquePoolSpec(pool), VideoId)
    {
      Tally.KeyKept(f, VideoId, pool[j].exerciseId);
      assert pool[j] in f;
      var t :| 0 <= t < |f| && f[t] == pool[j];
      assert VideoId(f[t]) == pool[j].exerciseId;
    }
  }

  lemma UniquePoolKeepsFirst(pool: seq<Video>)
    ensures forall j :: 0 <= j < |pool| && HasId(pool[j]) && Tally.FirstWithKey(pool, j, VideoId) ==> pool[j] in UniquePoolSpec(pool)
  {
    FilterThenDedup(pool);
    Tally.DedupByFacts(pool, VideoId);
    var d := Tally.DedupBy(pool, VideoId);
    forall j | 0 <= j < |pool| && HasId(pool[j]) && Tally.FirstWithKey(pool, j, VideoId)
      ensures pool[j] in UniquePoolSpec(pool)
    {
      assert pool[j] in d;
      var t :| 0 <= t < |d| && d[t] == pool[j];
      assert HasId(d[t]);
    }
  }

  // ------------------------------------------------------------ day plans

  datatype VideoDayPlan = VideoDayPlan(
    key: string,
    name: string,
    targetParts: seq<string>,
    available: seq<Video>,
    timeBudget: int,
    warmUpTime: int,
    coolDownTime: int)

  /** The videos collected for the training day `name`. */
  function DayPool(pool: seq<Video>, name: string): (r: seq<Video>)
    ensures forall v :: v in r <==> v in pool && v.dayAssignment == Some(name)
  {
    var r := Tally.Filter(pool, (v: Video) => v.dayAssignment == Some(name));
    assert forall v :: v in pool && v.dayAssignment == Some(name) ==> v in r by {
      forall v | v in pool && v.dayAssignment == Some(name) ensures v in r {
        var i :| 0 <= i < |pool| && pool[i] == v;
      }
    }
    r
  }

  /** The plan of training day `i` over the pool: its key, name and body parts, the pool's videos
      assigned to it, and the session time minus 20 minutes as its budget. */
  function PlanFor(req: Schemas.RecommendationRequest, pool: seq<Video>, i: nat): VideoDayPlan
    requires req.splitType in Schemas.SplitTypes && i < |SplitGroups(req.splitType)|
  {
    var (name, parts) := SplitGroups(req.splitType)[i];
    VideoDayPlan(Rec.DayKey(i), name, parts, DayPool(pool, name), req.availableTime - 20, 10, 10)
  }

  /** `_generate_daily_plans`: one plan per training day of the split, up to the weekly
      frequency, each with the videos collected for it and the session time minus 20 minutes
      of warm-up and cool-down as its budget. */
  method GenerateDailyPlans(req: Schemas.RecommendationRequest, pool: seq<Video>) returns (plans: seq<VideoDayPlan>)
    requires req.splitType in Schemas.SplitTypes
    ensures |plans| == Rec.DayCount(req.weeklyFrequency, |SplitGroups(req.splitType)|)
    ensures forall i :: 0 <= i < |plans| ==>
      && plans[i].key == Rec.DayKey(i)
      && plans[i].name == SplitGroups(req.splitType)[i].0
      && plans[i].targetParts == SplitGroups(req.splitType)[i].1
      && plans[i].available == DayPool(pool, SplitGroups(req.splitType)[i].0)
    ensures forall i :: 0 <= i < |plans| ==>
      && plans[i].timeBudget == req.availableTime - 20
      && plans[i].warmUpTime == 10 && plans[i].coolDownTime == 10
    ensures forall i :: 0 <= i < |plans| ==> plans[i] == PlanFor(req, pool, i)
  {
    var groups := SplitGroups(req.splitType);
    var days := Rec.DayCount(req.weeklyFrequency, |groups|);
    plans := [];
    var i := 0;
    while i < |groups|
      invariant 0 <= i <= days
      invariant |plans| == i
      invariant forall t :: 0 <= t < i ==> plans[t] == PlanFor(req, pool, t)
    {
      if i >= days {
        break;
      }
      var dayVideos := DayPool(pool, groups[i].0);
      plans := plans + [VideoDayPlan(Rec.DayKey(i), groups[i].0, groups[i].1, dayVideos, req.availableTime - 20, 10, 10)];
      i := i + 1;
    }
  }

  /** Different training days of a split draw on disjoint parts of the pool. */
  lemma DayPoolsDisjoint(pool: seq<Video>, splitType: string, i: nat, j: nat, v: Video)
    requires splitType in Schemas.SplitTypes
    requires i < j < |SplitGroups(splitType)|
    ensures !(v in DayPool(pool, SplitGroups(splitType)[i].0) && v in DayPool(pool, SplitGroups(splitType)[j].0))
  {
  }

  // -------------------------------------------------------------- ranking

  /** Some word of `words` occurs in `title`, both lower-cased. */
  predicate MentionsAny(title: string, words: seq<string>) {
    exists i :: 0 <= i < |words| && Contains(Lower(title), Lower(words[i]))
  }

  /** The preferred equipment, lower-cased, occurs in the video's lower-cased tool; only a
      non-empty preference is tried. */
  predicate UsesPreferred(v: Video, pref: Option<string>) {
    pref.Some? && |pref.value| > 0 && Contains(Lower(v.exerciseTool.GetOr("")), Lower(pref.value))
  }

  /** `_calculate_exercise_score` without its random part, in thousandths: 300 when the title
      names a body part of the day, 250 when it names a goal keyword, 200 when the audience group
      is the level's, 150 for a video of one to thirty minutes (50 for another positive length),
      and 100 when the tool contains the preferred equipment; the text matches ignore case. */
  function VideoScore(v: Video, parts: seq<string>, req: Schemas.RecommendationRequest): (s: int)
    ensures 0 <= s <= 1000
    ensures UsesPreferred(v, req.preferredEquipment) ==> s >= 100
    ensures v.targetGroup == Some(TargetGroup(req.experienceLevel)) ==> s >= 200
  {
    var title := v.title.GetOr("");
    var len := v.videoLengthSeconds.GetOr(0);
    (if MentionsAny(title, parts) then 300 else 0)
    + (if MentionsAny(title, GoalKeywords(req.primaryGoal)) then 250 else 0)
    + (if v.targetGroup.GetOr("") == TargetGroup(req.experienceLevel) then 200 else 0)
    + (if 60 <= len <= 1800 then 150 else if len > 0 then 50 else 0)
    + (if UsesPreferred(v, req.preferredEquipment) then 100 else 0)
  }

  /** The audience group adds exactly 200 when it is the level's and nothing when it is missing,
      whatever else the video has. */
  lemma ScoreTargetGroupEffect(v: Video, parts: seq<string>, req: Schemas.RecommendationRequest)
    ensures VideoScore(v.(targetGroup := Some(TargetGroup(req.experienceLevel))), parts, req)
         == VideoScore(v.(targetGroup := None), parts, req) + 200
  {
  }

  /** The text matches ignore case: lower-casing the video's tool and title changes no score. */
  lemma ScoreIgnoresCase(v: Video, parts: seq<string>, req: Schemas.RecommendationRequest)
    requires v.exerciseTool.Some? && v.title.Some?
    ensures VideoScore(v.(exerciseTool := Some(Lower(v.exerciseTool.value)), title := Some(Lower(v.title.value))), parts, req)
         == VideoScore(v, parts, req)
  {
    var w := v.(exerciseTool := Some(Lower(v.exerciseTool.value)), title := Some(Lower(v.title.value)));
    LowerIdempotent(v.exerciseTool.value);
    LowerIdempotent(v.title.value);
    assert UsesPreferred(w, req.preferredEquipment) == UsesPreferred(v, req.preferredEquipment);
    assert MentionsAny(w.title.GetOr(""), parts) == MentionsAny(v.title.GetOr(""), parts);
    assert MentionsAny(w.title.GetOr(""), GoalKeywords(req.primaryGoal))
        == MentionsAny(v.title.GetOr(""), GoalKeywords(req.primaryGoal));
  }

  /** The videos sorted by score plus jitter, highest first, ties in their original order. */
  function Ranked(avail: seq<Video>, parts: seq<string>, req: Schemas.RecommendationRequest,
                  jitter: Video -> int): (r: seq<Video>)
    ensures multiset(r) == multiset(avail)
    ensures Tally.SortedDesc(r, v => VideoScore(v, parts, req) + jitter(v))
  {
    Tally.SortDescFacts(avail, v => VideoScore(v, parts, req) + jitter(v));
    Tally.SortDesc(avail, v => VideoScore(v, parts, req) + jitter(v))
  }

  // ------------------------------------------------------------ selection

  /** `max(videoLengthSeconds // 60, 3)` with 180 seconds for a missing length. */
  function PickMinutes(v: Video): (d: int)
    ensures d >= 3
  {
    var d := v.videoLengthSeconds.GetOr(180) / 60;
    if d < 3 then 3 else d
  }

  function Minutes(sel: seq<Video>): int {
    if |sel| == 0 then 0 else Minutes(sel[..|sel| - 1]) + PickMinutes(sel[|sel| - 1])
  }

  /** `min(6, n)`: only the six best-ranked videos are considered. */
  function Considered(n: nat): (m: nat)
    ensures m <= n && m <= 6
  {
    if n < 6 then n else 6
  }

  /** The walk over positions `i` to `m` of the ranked videos, having taken `sel` so far: a video
      is taken when it still fits the budget, and the walk ends once four are taken or 80% of
      the budget is used. */
  function Greedy(ranked: seq<Video>, m: nat, budget: int, i: nat, sel: seq<Video>): seq<Video>
    requires i <= m <= |ranked|
    decreases m - i
  {
    if i == m then sel
    else if Minutes(sel) + PickMinutes(ranked[i]) <= budget then
      var s := sel + [ranked[i]];
      if |s| >= 4 || 5 * Minutes(s) >= 4 * budget then s else Greedy(ranked, m, budget, i + 1, s)
    else Greedy(ranked, m, budget, i + 1, sel)
  }

  /** `_select_best_exercises`: walk the six best-ranked videos, taking each that still fits the
      budget, and stop once four are taken or 80% of the budget is used. The result has at most
      four videos, taken in ranked order from the six best, within the budget; and unless the
      walk stopped early, no video left out would have fitted. */
  method SelectBest(exercises: seq<Video>, parts: seq<string>, req: Schemas.RecommendationRequest,
                    jitter: Video -> int, budget: int)
    returns (sel: seq<Video>, ghost idx: seq<nat>)
    ensures |exercises| == 0 ==> sel == []
    ensures var ranked := Ranked(exercises, parts, req, jitter);
      sel == Greedy(ranked, Considered(|ranked|), budget, 0, [])
    ensures var ranked := Ranked(exercises, parts, req, jitter);
      && |sel| <= 4
      && Tally.Embeds(sel, ranked[..Considered(|ranked|)], idx)
      && (|sel| > 0 ==> Minutes(sel) <= budget)
      && (|sel| < 4 && 5 * Minutes(sel) < 4 * budget ==>
            forall k :: 0 <= k < Considered(|ranked|) && k !in idx ==> Minutes(sel) + PickMinutes(ranked[k]) > budget)
  {
    sel := [];
    idx := [];
    var ranked := Ranked(exercises, parts, req, jitter);
    var m := Considered(|ranked|);
    if |exercises| == 0 {
      assert Tally.Embeds(sel, ranked[..m], idx);
      return;
    }
    sel, idx := WalkRanked(ranked, m, budget);
  }

  /** The selection loop over the first `m` ranked videos. */
  method WalkRanked(ranked: seq<Video>, m: nat, budget: int) returns (sel: seq<Video>, ghost idx: seq<nat>)
    requires m <= |ranked|
    ensures sel == Greedy(ranked, m, budget, 0, [])
    ensures |sel| <= 4
    ensures Tally.Embeds(sel, ranked[..m], idx)
    ensures |sel| > 0 ==> Minutes(sel) <= budget
    ensures |sel| < 4 && 5 * Minutes(sel) < 4 * budget ==>
      forall k :: 0 <= k < m && k !in idx ==> Minutes(sel) + PickMinutes(ranked[k]) > budget
  {
    sel := [];
    idx := [];
    var used := 0;
    var i := 0;
    assert Walked(ranked, m, 0, sel, idx, budget);
    while i < m
      invariant Walked(ranked, m, i, sel, idx, budget)
      invariant used == Minutes(sel)
      invariant |sel| < 4 && (|sel| > 0 ==> 5 * used < 4 * budget && used <= budget)
      invariant Greedy(ranked, m, budget, i, sel) == Greedy(ranked, m, budget, 0, [])
    {
      var stop;
      sel, idx, used, stop := WalkStep(ranked, m, i, budget, sel, idx, used);
      if stop {
        return;
      }
      i := i + 1;
    }
  }

  /** One video of the walk: it is taken when it fits, and the walk stops once four are taken
      or 80% of the budget is used. */
  method WalkStep(ranked: seq<Video>, m: nat, i: nat, budget: int, sel: seq<Video>, ghost idx: seq<nat>, used: int)
    returns (sel': seq<Video>, ghost idx': seq<nat>, used': int, stop: bool)
    requires i < m && Walked(ranked, m, i, sel, idx, budget) && used == Minutes(sel)
    requires |sel| < 4 && (|sel| > 0 ==> 5 * used < 4 * budget && used <= budget)
    ensures Walked(ranked, m, i + 1, sel', idx', budget) && used' == Minutes(sel')
    ensures stop ==> sel' == Greedy(ranked, m, budget, i, sel)
    ensures !stop ==> Greedy(ranked, m, budget, i + 1, sel') == Greedy(ranked, m, budget, i, sel)
    ensures used + PickMinutes(ranked[i]) <= budget ==> sel' == sel + [ranked[i]]
    ensures used + PickMinutes(ranked[i]) > budget ==> sel' == sel && !stop
    ensures stop ==> |sel'| >= 4 || 5 * used' >= 4 * budget
    ensures !stop ==> |sel'| < 4 && (|sel'| > 0 ==> 5 * used' < 4 * budget)
    ensures |sel'| <= 4 && (|sel'| > 0 ==> used' <= budget)
  {
    var d := PickMinutes(ranked[i]);
    if used + d <= budget {
      WalkTake(ranked, m, i, sel, idx, budget);
      sel', idx', used' := sel + [ranked[i]], idx + [i], used + d;
      stop := |sel'| >= 4 || 5 * used' >= 4 * budget;
    } else {
      WalkSkip(ranked, m, i, sel, idx, budget);
      sel', idx', used', stop := sel, idx, used, false;
    }
  }

  /** The walk over the first `m` ranked videos has looked at the first `i`: what it took is
      embedded at the positions `idx`, and each video it passed over did not fit. */
  ghost predicate Walked(ranked: seq<Video>, m: nat, i: nat, sel: seq<Video>, idx: seq<nat>, budget: int) {
    && i <= m <= |ranked|
    && Tally.Embeds(sel, ranked[..m], idx)
    && (forall t :: 0 <= t < |idx| ==> idx[t] < i)
    && (forall k :: 0 <= k < i && k !in idx ==> Minutes(sel) + PickMinutes(ranked[k]) > budget)
  }

  lemma WalkSkip(ranked: seq<Video>, m: nat, i: nat, sel: seq<Video>, idx: seq<nat>, budget: int)
    requires Walked(ranked, m, i, sel, idx, budget) && i < m
    requires Minutes(sel) + PickMinutes(ranked[i]) > budget
    ensures Walked(ranked, m, i + 1, sel, idx, budget)
  {
  }

  lemma WalkTake(ranked: seq<Video>, m: nat, i: nat, sel: seq<Video>, idx: seq<nat>, budget: int)
    requires Walked(ranked, m, i, sel, idx, budget) && i < m
    ensures Minutes(sel + [ranked[i]]) == Minutes(sel) + PickMinutes(ranked[i])
    ensures Walked(ranked, m, i + 1, sel + [ranked[i]], idx + [i], budget)
  {
    assert (sel + [ranked[i]])[..|sel|] == sel;
    var sel', idx' := sel + [ranked[i]], idx + [i];
    assert Tally.Embeds(sel', ranked[..m], idx');
    forall k | 0 <= k < i + 1 && k !in idx'
      ensures Minutes(sel') + PickMinutes(ranked[k]) > budget
    {
      assert k !in idx;
    }
  }

  // ---------------------------------------------------------- conversion

  /** `_calculate_sets_for_goal`: 3 for a goal or level outside the table. */
  function Sets(goal: string, level: string): (n: int)
    ensures 2 <= n <= 4
    ensures goal !in ["근육 증가", "다이어트", "체력 향상", "재활"] ==> n == 3
  {
    if goal == "근육 증가" then (if level == "초급" then 3 else if level == "중급" || level == "고급" then 4 else 3)
    else if goal == "다이어트" then (if level == "초급" || level == "중급" then 3 else if level == "고급" then 4 else 3)
    else if goal == "체력 향상" then (if level == "초급" then 2 else if level == "중급" || level == "고급" then 3 else 3)
    else if goal == "재활" then (if level == "초급" || level == "중급" then 2 else if level == "고급" then 3 else 3)
    else 3
  }

  /** `_calculate_reps_for_goal`, as the two ends of its "a-b" text; 10-15 outside the table. */
  function RepsRange(goal: string, level: string): (r: (nat, nat))
    ensures 6 <= r.0 < r.1 <= 25
  {
    if goal == "근육 증가" then (if level == "초급" || level == "중급" then (8, 12) else if level == "고급" then (6, 12) else (10, 15))
    else if goal == "다이어트" then
      (if level == "초급" then (12, 15) else if level == "중급" then (15, 20) else if level == "고급" then (15, 25) else (10, 15))
    else if goal == "체력 향상" then
      (if level == "초급" then (10, 15) else if level == "중급" then (12, 20) else if level == "고급" then (15, 25) else (10, 15))
    else if goal == "재활" then
      (if level == "초급" then (8, 10) else if level == "중급" then (10, 12) else if level == "고급" then (12, 15) else (10, 15))
    else (10, 15)
  }

  function Reps(goal: string, level: string): string {
    NatToString(RepsRange(goal, level).0) + "-" + NatToString(RepsRange(goal, level).1)
  }

  /** Every rep text the table gives is a range "a-b" that the plan saver reads back as its two
      ends, the smaller first. */
  lemma RepsStoredAsRange(goal: string, level: string)
    ensures DB.ParseRepsMin(Reps(goal, level)) == Some(RepsRange(goal, level).0 as int)
    ensures DB.ParseRepsMax(Reps(goal, level)) == Some(RepsRange(goal, level).1 as int)
    ensures DB.ParseRepsMin(Reps(goal, level)).value < DB.ParseRepsMax(Reps(goal, level)).value
  {
    DB.RepsRangeRoundTrip(RepsRange(goal, level).0, RepsRange(goal, level).1);
  }

  /** `_calculate_rest_for_goal`. */
  function Rest(goal: string): string {
    if goal == "근육 증가" || goal == "재활" then "2-3분"
    else if goal == "다이어트" || goal == "체력 향상" then "1-2분"
    else "2분"
  }

  /** The plan saver stores one minute of rest for the diet and fitness goals and two otherwise. */
  lemma RestStoredSeconds(goal: string)
    ensures DB.ParseRestSeconds(Rest(goal)) == if goal == "다이어트" || goal == "체력 향상" then 60 else 120
  {
    Rec.RestStrings();
  }

  /** `_get_weight_guidance`: a text for each of the three levels, `None` otherwise. */
  function WeightGuidance(level: string): (w: Option<string>)
    ensures w.Some? <==> level in Schemas.ExperienceLevels
  {
    if level == "초급" then Some("가벼운 무게로 시작하여 점진적으로 증가")
    else if level == "중급" then Some("적절한 강도로 도전적인 무게 사용")
    else if level == "고급" then Some("고강도 훈련으로 한계에 도전")
    else None
  }

  /** One exercise of a day, carrying its video. `tipMinutes` is the length in whole minutes
      quoted in the tip text. */
  datatype VideoExerciseRec = VideoExerciseRec(
    name: string,
    bodyPart: string,
    sets: int,
    reps: string,
    weight: Option<string>,
    rest: string,
    instructions: Option<string>,
    tipMinutes: int,
    difficulty: string,
    equipment: Option<string>,
    videoUrl: Option<string>,
    videoId: Option<int>,
    imageUrl: Option<string>,
    videoLength: Option<int>,
    targetGroup: Option<string>,
    fitnessFactor: Option<string>)

  /** `_convert_to_exercise_recommendation`. */
  function Convert(v: Video, req: Schemas.RecommendationRequest): VideoExerciseRec {
    VideoExerciseRec(
      v.title.GetOr("운동"), v.targetGroup.GetOr("전신"),
      Sets(req.primaryGoal, req.experienceLevel), Reps(req.primaryGoal, req.experienceLevel),
      WeightGuidance(req.experienceLevel), Rest(req.primaryGoal), v.description,
      v.videoLengthSeconds.GetOr(0) / 60, req.experienceLevel, v.exerciseTool,
      v.videoUrl, v.exerciseId, v.imageUrl, v.videoLengthSeconds, v.targetGroup, v.fitnessFactorName)
  }

  function ConvertAll(picks: seq<Video>, req: Schemas.RecommendationRequest): (r: seq<VideoExerciseRec>)
    ensures |r| == |picks|
    ensures forall i :: 0 <= i < |picks| ==> r[i] == Convert(picks[i], req)
  {
    if |picks| == 0 then [] else ConvertAll(picks[..|picks| - 1], req) + [Convert(picks[|picks| - 1], req)]
  }

  /** Each converted exercise keeps its video's identity and takes the request's tables. */
  lemma ConvertKeepsVideo(v: Video, req: Schemas.RecommendationRequest)
    ensures var r := Convert(v, req);
      && r.videoId == v.exerciseId && r.videoUrl == v.videoUrl && r.videoLength == v.videoLengthSeconds
      && r.sets == Sets(req.primaryGoal, req.experienceLevel)
      && DB.ParseRestSeconds(r.rest) == (if req.primaryGoal == "다이어트" || req.primaryGoal == "체력 향상" then 60 else 120)
      && (r.weight.Some? <==> req.experienceLevel in Schemas.ExperienceLevels)
      && (v.title.None? ==> r.name == "운동")
  {
    RestStoredSeconds(req.primaryGoal);
  }

  // ------------------------------------------------------------- one day

  /** `max(videoLengthSeconds // 60, 5)` with 180 seconds for a missing length: the estimate
      counts every video as at least five minutes, where the selection counted three. */
  function EstimateMinutes(v: Video): (d: int)
    ensures d >= 5 && d >= PickMinutes(v)
  {
    var d := v.videoLengthSeconds.GetOr(180) / 60;
    if d < 5 then 5 else d
  }

  function EstimateTotal(sel: seq<Video>): int {
    if |sel| == 0 then 0 else EstimateTotal(sel[..|sel| - 1]) + EstimateMinutes(sel[|sel| - 1])
  }

  datatype VideoDayRec = VideoDayRec(
    dayName: string,
    targetParts: seq<string>,
    exercises: seq<VideoExerciseRec>,
    estimatedDuration: int,
    warmUpTime: int,
    coolDownTime: int)

  /** The videos a day chooses from: its own, topped up with the extra search results when it
      has fewer than three. */
  function Available(plan: VideoDayPlan, extra: seq<Video>): seq<Video> {
    if |plan.available| < 3 then plan.available + extra else plan.available
  }

  /** The loop of `_create_day_recommendation` over the selected videos: each converted to an
      exercise entry, and their estimated minutes added up. */
  method ConvertSelection(sel: seq<Video>, req: Schemas.RecommendationRequest)
    returns (recs: seq<VideoExerciseRec>, minutes: int)
    ensures recs == ConvertAll(sel, req) && minutes == EstimateTotal(sel)
  {
    recs := [];
    minutes := 0;
    var i := 0;
    while i < |sel|
      invariant 0 <= i <= |sel|
      invariant recs == ConvertAll(sel[..i], req)
      invariant minutes == EstimateTotal(sel[..i])
    {
      assert sel[..i + 1][..i] == sel[..i];
      recs := recs + [Convert(sel[i], req)];
      minutes := minutes + EstimateMinutes(sel[i]);
      i := i + 1;
    }
    assert sel[..i] == sel;
  }

  /** The videos a day selects: the walk over the six best of its ranked available videos. */
  function DaySelection(plan: VideoDayPlan, req: Schemas.RecommendationRequest, extra: seq<Video>,
                        jitter: Video -> int): seq<Video>
  {
    var ranked := Ranked(Available(plan, extra), plan.targetParts, req, jitter);
    Greedy(ranked, Considered(|ranked|), plan.timeBudget, 0, [])
  }

  /** The estimate of a day: warm-up plus cool-down plus the videos' minutes, capped at the
      session time. */
  function DayEstimate(plan: VideoDayPlan, availableTime: int, sel: seq<Video>): (d: int)
    ensures d <= availableTime
    ensures plan.warmUpTime + plan.coolDownTime + EstimateTotal(sel) <= availableTime ==>
      d == plan.warmUpTime + plan.coolDownTime + EstimateTotal(sel)
  {
    var total := plan.warmUpTime + plan.coolDownTime + EstimateTotal(sel);
    if total < availableTime then total else availableTime
  }

  /** `_create_day_recommendation`. `extra` is what the top-up searches for the first two body
      parts return. The day lists the videos of the walk, converted, and its estimate is
      warm-up plus cool-down plus their minutes, capped at the session time. */
  method CreateDay(plan: VideoDayPlan, req: Schemas.RecommendationRequest, extra: seq<Video>, jitter: Video -> int)
    returns (day: VideoDayRec, ghost picks: seq<Video>, ghost idx: seq<nat>)
    ensures picks == DaySelection(plan, req, extra, jitter)
    ensures var ranked := Ranked(Available(plan, extra), plan.targetParts, req, jitter);
      && |picks| <= 4
      && Tally.Embeds(picks, ranked[..Considered(|ranked|)], idx)
      && (|picks| > 0 ==> Minutes(picks) <= plan.timeBudget)
    ensures day.dayName == plan.name && day.targetParts == plan.targetParts
    ensures day.warmUpTime == plan.warmUpTime && day.coolDownTime == plan.coolDownTime
    ensures day.exercises == ConvertAll(picks, req)
    ensures day.estimatedDuration == DayEstimate(plan, req.availableTime, picks)
  {
    var avail := Available(plan, extra);
    var sel;
    sel, idx := SelectBest(avail, plan.targetParts, req, jitter, plan.timeBudget);
    picks := sel;
    var recs, minutes := ConvertSelection(sel, req);
    var total := plan.warmUpTime + plan.coolDownTime + minutes;
    day := VideoDayRec(plan.name, plan.targetParts, recs,
                       if total < req.availableTime then total else req.availableTime,
                       plan.warmUpTime, plan.coolDownTime);
  }

  /** The estimate of a day never exceeds the session time, and when the session time does not
      cap it, it is at least the selection's own count plus warm-up and cool-down. */
  lemma {:induction false} EstimateCoversSelection(sel: seq<Video>)
    ensures EstimateTotal(sel) >= Minutes(sel) && EstimateTotal(sel) >= 5 * |sel|
  {
    if |sel| > 0 {
      EstimateCoversSelection(sel[..|sel| - 1]);
    }
  }

  // ------------------------------------------------------ summary and tips

  datatype VideoSummary = VideoSummary(
    totalDays: nat,
    totalExercises: nat,
    totalWeeklyDuration: int,
    avgSessionDuration: int,
    splitType: string,
    primaryGoal: string,
    experienceLevel: string)

  function ExerciseCount(days: seq<VideoDayRec>): nat {
    if |days| == 0 then 0 else ExerciseCount(days[..|days| - 1]) + |days[|days| - 1].exercises|
  }

  lemma {:induction false} ExerciseCountBound(days: seq<VideoDayRec>)
    requires forall i :: 0 <= i < |days| ==> |days[i].exercises| <= 4
    ensures ExerciseCount(days) <= 4 * |days|
  {
    if |days| > 0 {
      ExerciseCountBound(days[..|days| - 1]);
    }
  }

  /** `_generate_summary`: day and exercise counts, the weekly total, and its floor average. */
  function Summarize(req: Schemas.RecommendationRequest, days: seq<VideoDayRec>, total: int): (s: VideoSummary)
    ensures s.totalDays == |days| && s.totalExercises == ExerciseCount(days) && s.totalWeeklyDuration == total
    ensures |days| == 0 ==> s.avgSessionDuration == 0
    ensures |days| > 0 ==> s.avgSessionDuration * |days| <= total < (s.avgSessionDuration + 1) * |days|
  {
    var avg := if |days| > 0 then total / |days| else 0;
    assert |days| > 0 ==> avg * |days| <= total < (avg + 1) * |days| by {
      if |days| > 0 { Rec.FloorDivBounds(total, |days|); }
    }
    VideoSummary(|days|, ExerciseCount(days), total, avg, req.splitType, req.primaryGoal, req.experienceLevel)
  }

  datatype VideoTip =
    | LearnFormFromVideos | WatchBeforeDoing
    | WatchSlowly | DoNotOverdo
    | TryVariations
    | FocusOnContraction | HighIntensityForCalories

  function TipList(req: Schemas.RecommendationRequest): seq<VideoTip> {
    [LearnFormFromVideos, WatchBeforeDoing]
    + (if req.experienceLevel == "초급" then [WatchSlowly, DoNotOverdo]
       else if req.experienceLevel == "고급" then [TryVariations] else [])
    + (if req.primaryGoal == "근육 증가" then [FocusOnContraction]
       else if req.primaryGoal == "다이어트" then [HighIntensityForCalories] else [])
  }

  /** `_generate_tips`: always the two video tips first, the level's and the goal's after them;
      at most five are ever produced, so the cut to six never drops one. */
  function Tips(req: Schemas.RecommendationRequest): (r: seq<VideoTip>)
    ensures 2 <= |r| <= 5
    ensures r[0] == LearnFormFromVideos && r[1] == WatchBeforeDoing
    ensures WatchSlowly in r <==> req.experienceLevel == "초급"
    ensures TryVariations in r <==> req.experienceLevel == "고급"
    ensures FocusOnContraction in r <==> req.primaryGoal == "근육 증가"
    ensures HighIntensityForCalories in r <==> req.primaryGoal == "다이어트"
  {
    Tally.SliceTo(TipList(req), 6)
  }

  /** `base_scores.get(level, 3.0)`, in tenths. */
  function BaseDifficulty(level: string): int {
    if level == "초급" then 20 else if level == "중급" then 35 else if level == "고급" then 45 else 30
  }

  /** `_calculate_difficulty_score`, in tenths: the level's base, half a point more for a pool of
      over twenty videos and half a point less for one under ten, capped to [1.0, 5.0]. The caps
      never bind: every base is at least 2.0 and at most 4.5. */
  function DifficultyTenths(poolSize: nat, level: string): (d: int)
    ensures 10 <= d <= 50
    ensures poolSize > 20 ==> d == BaseDifficulty(level) + 5
    ensures poolSize < 10 ==> d == BaseDifficulty(level) - 5
    ensures 10 <= poolSize <= 20 ==> d == BaseDifficulty(level)
  {
    var base := BaseDifficulty(level);
    if poolSize > 20 then (if base + 5 < 50 then base + 5 else 50)
    else if poolSize < 10 then (if base - 5 > 10 then base - 5 else 10)
    else base
  }

  // ---------------------------------------------------------- whole week

  datatype VideoResponse = VideoResponse(
    success: bool,
    recommendation: seq<(string, VideoDayRec)>,
    summary: Option<VideoSummary>,
    tips: seq<VideoTip>,
    totalWeeklyDuration: int,
    difficultyTenths: int)

  function WeeklyDuration(days: seq<VideoDayRec>): int {
    if |days| == 0 then 0 else WeeklyDuration(days[..|days| - 1]) + days[|days| - 1].estimatedDuration
  }

  /** A week whose every day is capped at the session time lasts at most that many minutes per day. */
  lemma {:induction false} WeeklyDurationBound(days: seq<VideoDayRec>, cap: int)
    requires forall i :: 0 <= i < |days| ==> days[i].estimatedDuration <= cap
    ensures WeeklyDuration(days) <= cap * |days|
  {
    if |days| > 0 {
      WeeklyDurationBound(days[..|days| - 1], cap);
    }
  }

  /** A day of the response answers its plan: same key, name, body parts, warm-up and
      cool-down; its exercises are the plan's selection converted, at most four; its estimate is
      the capped one, within the session time. */
  predicate AnswersPlan(entry: (string, VideoDayRec), plan: VideoDayPlan, req: Schemas.RecommendationRequest,
                        extra: seq<Video>, jitter: Video -> int) {
    && entry.0 == plan.key && entry.1.dayName == plan.name && entry.1.targetParts == plan.targetParts
    && entry.1.warmUpTime == plan.warmUpTime && entry.1.coolDownTime == plan.coolDownTime
    && entry.1.exercises == ConvertAll(DaySelection(plan, req, extra, jitter), req)
    && entry.1.estimatedDuration == DayEstimate(plan, req.availableTime, DaySelection(plan, req, extra, jitter))
    && entry.1.estimatedDuration <= req.availableTime && |entry.1.exercises| <= 4
  }

  lemma WeeklySnoc(rec: seq<(string, VideoDayRec)>, x: (string, VideoDayRec))
    ensures WeeklyDuration(Tally.Values(rec + [x])) == WeeklyDuration(Tally.Values(rec)) + x.1.estimatedDuration
  {
    assert Tally.Values(rec + [x])[..|rec|] == Tally.Values(rec);
  }

  /** One iteration of the day loop: the day's recommendation under its key. */
  method DayEntry(plan: VideoDayPlan, req: Schemas.RecommendationRequest, extra: seq<Video>, jitter: Video -> int)
    returns (entry: (string, VideoDayRec))
    ensures AnswersPlan(entry, plan, req, extra, jitter)
  {
    var day, picks, idx := CreateDay(plan, req, extra, jitter);
    entry := (plan.key, day);
  }

  /** The day loop of `generate_external_recommendation`. */
  method RecommendWeek(plans: seq<VideoDayPlan>, req: Schemas.RecommendationRequest, extras: seq<seq<Video>>,
                       jitter: Video -> int)
    returns (rec: seq<(string, VideoDayRec)>, total: int)
    requires |extras| >= |plans|
    ensures |rec| == |plans|
    ensures forall i :: 0 <= i < |plans| ==> AnswersPlan(rec[i], plans[i], req, extras[i], jitter)
    ensures total == WeeklyDuration(Tally.Values(rec))
  {
    rec := [];
    total := 0;
    var i := 0;
    while i < |plans|
      invariant 0 <= i <= |plans| && |rec| == i
      invariant forall t :: 0 <= t < i ==> AnswersPlan(rec[t], plans[t], req, extras[t], jitter)
      invariant total == WeeklyDuration(Tally.Values(rec))
    {
      var entry := DayEntry(plans[i], req, extras[i], jitter);
      WeeklySnoc(rec, entry);
      AnswersSnoc(rec, entry, plans, req, extras, jitter);
      rec := rec + [entry];
      total := total + entry.1.estimatedDuration;
      i := i + 1;
    }
  }

  lemma AnswersSnoc(rec: seq<(string, VideoDayRec)>, entry: (string, VideoDayRec), plans: seq<VideoDayPlan>,
                    req: Schemas.RecommendationRequest, extras: seq<seq<Video>>, jitter: Video -> int)
    requires |rec| < |plans| <= |extras|
    requires forall t :: 0 <= t < |rec| ==> AnswersPlan(rec[t], plans[t], req, extras[t], jitter)
    requires AnswersPlan(entry, plans[|rec|], req, extras[|rec|], jitter)
    ensures forall t :: 0 <= t < |rec| + 1 ==> AnswersPlan((rec + [entry])[t], plans[t], req, extras[t], jitter)
  {
    forall t | 0 <= t < |rec| + 1
      ensures AnswersPlan((rec + [entry])[t], plans[t], req, extras[t], jitter)
    {
      if t < |rec| {
        assert (rec + [entry])[t] == rec[t];
      }
    }
  }

  /** `generate_external_recommendation` from the collected pool: a failure when no video with
      an id was found, otherwise one day per plan, the weekly total, summary, tips and the
      difficulty of the deduplicated pool. */
  method GenerateExternalRecommendation(req: Schemas.RecommendationRequest, collected: seq<Video>,
                                        extras: seq<seq<Video>>, jitter: Video -> int)
    returns (resp: VideoResponse)
    requires Schemas.ValidRequest(req)
    requires |extras| == |SplitGroups(req.splitType)|
    ensures resp.success <==> |UniquePoolSpec(collected)| > 0
    ensures !resp.success ==> resp == VideoResponse(false, [], None, [], 0, 0)
    ensures resp.success ==>
      && |resp.recommendation| == Rec.DayCount(req.weeklyFrequency, |SplitGroups(req.splitType)|)
      && (forall i :: 0 <= i < |resp.recommendation| ==>
            && resp.recommendation[i].0 == Rec.DayKey(i)
            && resp.recommendation[i].1.dayName == SplitGroups(req.splitType)[i].0
            && resp.recommendation[i].1.estimatedDuration <= req.availableTime
            && |resp.recommendation[i].1.exercises| <= 4)
      && (forall i :: 0 <= i < |resp.recommendation| ==>
            AnswersPlan(resp.recommendation[i], PlanFor(req, UniquePoolSpec(collected), i), req, extras[i], jitter))
      && resp.totalWeeklyDuration == WeeklyDuration(Tally.Values(resp.recommendation))
      && resp.totalWeeklyDuration <= req.availableTime * |resp.recommendation|
      && resp.summary == Some(Summarize(req, Tally.Values(resp.recommendation), resp.totalWeeklyDuration))
      && resp.tips == Tips(req)
      && resp.difficultyTenths == DifficultyTenths(|UniquePoolSpec(collected)|, req.experienceLevel)
  {
    var pool := UniquePool(collected);
    if |pool| == 0 {
      return VideoResponse(false, [], None, [], 0, 0);
    }
    var plans := GenerateDailyPlans(req, pool);
    var rec, total := RecommendWeek(plans, req, extras, jitter);
    WeeklyDurationBound(Tally.Values(rec), req.availableTime);
    resp := VideoResponse(true, rec, Some(Summarize(req, Tally.Values(rec), total)), Tips(req), total,
                          DifficultyTenths(|pool|, req.experienceLevel));
  }
}
