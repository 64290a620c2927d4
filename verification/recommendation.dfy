/**
 * The rule-based routine builder: the split of a week into per-day body-part groups, the
 * catalog query of one day with its fallback, the deterministic part of the exercise score,
 * the two-phase greedy selection under the day's minute budget, the set/rep/rest/weight
 * tables, the summary, the tips and the difficulty score of a recommendation.
 *
 * Scores are integers in thousandths. The `random.random() * 0.1` term of the score is the
 * `jitter` parameter (thousandths as well), so the ranked order is a function of it.
 */
module Recommendation {
  import opened Wrappers
  import opened Strings
  import Tally
  import Schemas
  import DB = DatabaseService

  type Exercise = DB.Exercise

  // ------------------------------------------------------------ day plans

  /** The day groups of a split type, in the order of the mapping. */
  function SplitGroups(splitType: string): (g: seq<(string, seq<string>)>)
    requires splitType in Schemas.SplitTypes
    ensures splitType == "2분할" ==> |g| == 2
    ensures splitType == "3분할" ==> |g| == 3
    ensures splitType == "전신" ==> |g| == 1
    ensures forall i :: 0 <= i < |g| ==> Tally.Distinct(g[i].1)
  {
    if splitType == "2분할" then
      [("상체", ["가슴", "등", "어깨", "팔"]), ("하체", ["하체", "코어"])]
    else if splitType == "3분할" then
      [("가슴/삼두", ["가슴", "팔"]), ("등/이두", ["등", "팔"]), ("하체/어깨", ["하체", "어깨", "코어"])]
    else
      [("전신운동", ["가슴", "등", "하체", "어깨", "팔", "코어"])]
  }

  /** One entry of `daily_plans`, keyed "Day n". */
  datatype DayPlan = DayPlan(
    key: string,
    name: string,
    targetParts: seq<string>,
    timeBudget: int,
    warmUpTime: int,
    coolDownTime: int,
    mainWorkoutTime: int)

  /** `min(weekly_frequency, len(split_plan))`, never below zero days. */
  function DayCount(frequency: int, groups: nat): (n: nat)
    ensures n <= groups
    ensures frequency >= 0 ==> n == if frequency < groups then frequency else groups
  {
    if frequency < 0 then 0 else if frequency < groups then frequency else groups
  }

  function DayKey(i: nat): string {
    "Day " + NatToString(i + 1)
  }

  /** Different days get different keys, so no day overwrites another in the plan dictionary. */
  lemma DayKeysDistinct(i: nat, j: nat)
    requires i != j
    ensures DayKey(i) != DayKey(j)
  {
    if DayKey(i) == DayKey(j) {
      assert DayKey(i)[4..] == NatToString(i + 1);
      assert DayKey(j)[4..] == NatToString(j + 1);
      NatToStringInjective(i + 1, j + 1);
    }
  }

  /** The plan of training day `i`: its key, name and body parts, the whole session as its
      budget, 10 minutes of warm-up and of cool-down, and the rest as its main workout time. */
  function PlanFor(req: Schemas.RecommendationRequest, i: nat): DayPlan
    requires req.splitType in Schemas.SplitTypes && i < |SplitGroups(req.splitType)|
  {
    var (name, parts) := SplitGroups(req.splitType)[i];
    DayPlan(DayKey(i), name, parts, req.availableTime, 10, 10, req.availableTime - 20)
  }

  /** `_generate_daily_plans`: the first `min(frequency, groups)` groups of the split, each
      with the whole session as its budget, 10 minutes of warm-up and of cool-down, and the
      rest as its main workout time. */
  method GenerateDailyPlans(req: Schemas.RecommendationRequest) returns (plans: seq<DayPlan>)
    requires req.splitType in Schemas.SplitTypes
    ensures |plans| == DayCount(req.weeklyFrequency, |SplitGroups(req.splitType)|)
    ensures forall i :: 0 <= i < |plans| ==>
      && plans[i].key == DayKey(i)
      && plans[i].name == SplitGroups(req.splitType)[i].0
      && plans[i].targetParts == SplitGroups(req.splitType)[i].1
    ensures forall i :: 0 <= i < |plans| ==>
      && plans[i].timeBudget == req.availableTime
      && plans[i].warmUpTime == 10 && plans[i].coolDownTime == 10
      && plans[i].mainWorkoutTime + plans[i].warmUpTime + plans[i].coolDownTime == plans[i].timeBudget
    ensures forall i :: 0 <= i < |plans| ==> plans[i] == PlanFor(req, i)
  {
    var groups := SplitGroups(req.splitType);
    var days := DayCount(req.weeklyFrequency, |groups|);
    plans := [];
    var i := 0;
    while i < |groups|
      invariant 0 <= i <= days
      invariant |plans| == i
      invariant forall t :: 0 <= t < i ==> plans[t] == PlanFor(req, t)
    {
      if i >= days {
        break;
      }
      var (name, parts) := groups[i];
      plans := plans + [DayPlan(DayKey(i), name, parts, req.availableTime, 10, 10, req.availableTime - 20)];
      i := i + 1;
    }
  }

  // ------------------------------------------------------ preferences

  /** The difficulties of `difficulty_mapping` (a KeyError for any other level). */
  function LevelDifficulties(level: string): (r: seq<string>)
    requires level in Schemas.ExperienceLevels
    ensures r == DB.AllowedDifficulties(level)
    ensures forall i :: 0 <= i < |r| ==> r[i] in Schemas.ExperienceLevels
  {
    if level == "초급" then ["초급"]
    else if level == "중급" then ["초급", "중급"]
    else ["초급", "중급", "고급"]
  }

  /** The feedback part of the preferences: present only when the user has feedback rows. */
  datatype FeedbackIds = FeedbackIds(preferred: seq<int>, disliked: seq<int>)

  datatype Preferences = Preferences(
    allowedDifficulties: seq<string>,
    goal: string,
    excludedExercises: seq<string>,
    preferredEquipment: Option<string>,
    timePerSession: int,
    feedback: Option<FeedbackIds>)

  /** `_analyze_user_preferences`, with the user's feedback rows passed in. */
  function AnalyzePreferences(req: Schemas.RecommendationRequest, fb: seq<DB.Feedback>): (p: Preferences)
    requires req.experienceLevel in Schemas.ExperienceLevels
    ensures p.feedback.Some? <==> |fb| > 0
    ensures p.feedback.Some? ==>
      && (forall id :: id in p.feedback.value.preferred <==>
            exists i :: 0 <= i < |fb| && fb[i].rating >= 4 && fb[i].exerciseId == id)
      && (forall id :: id in p.feedback.value.disliked <==>
            exists i :: 0 <= i < |fb| && fb[i].rating <= 2 && fb[i].exerciseId == id)
    ensures p.allowedDifficulties == DB.AllowedDifficulties(req.experienceLevel)
    ensures p.goal == req.primaryGoal && p.preferredEquipment == req.preferredEquipment
    ensures p.timePerSession == req.availableTime
    ensures p.excludedExercises == if req.excludeExercises.Some? then req.excludeExercises.value else []
  {
    var excluded := if req.excludeExercises.Some? then req.excludeExercises.value else [];
    var feedback := if |fb| > 0 then Some(FeedbackIds(DB.Stats(fb).preferredExercises, DB.Stats(fb).dislikedExercises)) else None;
    DB.StatsCoverRatings(fb);
    Preferences(LevelDifficulties(req.experienceLevel), req.primaryGoal, excluded,
      req.preferredEquipment, req.availableTime, feedback)
  }

  /** With one feedback row per exercise, no exercise id is both preferred and disliked. */
  lemma PreferencesDisjoint(req: Schemas.RecommendationRequest, fb: seq<DB.Feedback>)
    requires req.experienceLevel in Schemas.ExperienceLevels
    requires |fb| > 0 && Tally.Distinct(DB.Ids(fb))
    ensures var f := AnalyzePreferences(req, fb).feedback.value;
      forall id :: id in f.preferred ==> id !in f.disliked
  {
    DB.PreferredDislikedDisjoint(fb);
  }

  // ------------------------------------------------------ the day query

  /** `"체중" in preferred_equipment`, applied only for a truthy preference. */
  predicate BodyweightOnly(pref: Option<string>) {
    pref.Some? && |pref.value| > 0 && Contains(pref.value, "체중")
  }

  /** The first query of a day: body part, difficulty and goal, minus the exclusions, and
      bodyweight exercises only when the equipment preference names 체중. */
  predicate MatchesDay(e: Exercise, parts: seq<string>, prefs: Preferences) {
    && e.bodyPart in parts
    && e.difficulty in prefs.allowedDifficulties
    && e.targetGoal == prefs.goal
    && !(|prefs.excludedExercises| > 0 && e.name in prefs.excludedExercises)
    && !(BodyweightOnly(prefs.preferredEquipment) && e.category != "체중")
  }

  /** The fallback query: body part and difficulty only. */
  predicate MatchesFallback(e: Exercise, parts: seq<string>, prefs: Preferences) {
    e.bodyPart in parts && e.difficulty in prefs.allowedDifficulties
  }

  /** The first query of a day: exactly the catalog rows that match it, in catalog order. */
  function DayQuery(catalog: seq<Exercise>, parts: seq<string>, prefs: Preferences): (r: seq<Exercise>)
    ensures Tally.Selects(r, catalog, e => MatchesDay(e, parts, prefs))
    ensures forall i :: 0 <= i < |r| ==> r[i] in catalog && MatchesDay(r[i], parts, prefs)
    ensures (exists i :: 0 <= i < |catalog| && MatchesDay(catalog[i], parts, prefs)) <==> |r| > 0
  {
    var r := Tally.Filter(catalog, e => MatchesDay(e, parts, prefs));
    Tally.FilterSelects(catalog, e => MatchesDay(e, parts, prefs));
    DayMatchFound(catalog, parts, prefs);
    r
  }

  /** The first query finds something exactly when some catalog row matches it. */
  lemma DayMatchFound(catalog: seq<Exercise>, parts: seq<string>, prefs: Preferences)
    ensures (exists i :: 0 <= i < |catalog| && MatchesDay(catalog[i], parts, prefs))
      <==> |Tally.Filter(catalog, e => MatchesDay(e, parts, prefs))| > 0
  {
    var m := e => MatchesDay(e, parts, prefs);
    Tally.FilterNonEmpty(catalog, m);
    forall i | 0 <= i < |catalog| ensures m(catalog[i]) == MatchesDay(catalog[i], parts, prefs) { }
  }

  /** The fallback query of a day: the first ten of the catalog rows that match it (all of them
      when fewer), in catalog order. */
  function FallbackQuery(catalog: seq<Exercise>, parts: seq<string>, prefs: Preferences): (r: seq<Exercise>)
    ensures exists f :: (Tally.Selects(f, catalog, e => MatchesFallback(e, parts, prefs))
      && |r| == (if |f| < 10 then |f| else 10) && r == f[..|r|])
    ensures forall i :: 0 <= i < |r| ==> r[i] in catalog && MatchesFallback(r[i], parts, prefs)
  {
    var fallback := Tally.Filter(catalog, e => MatchesFallback(e, parts, prefs));
    Tally.FilterSelects(catalog, e => MatchesFallback(e, parts, prefs));
    var r := Tally.SliceTo(fallback, 10);
    assert forall i :: 0 <= i < |r| ==> r[i] == fallback[i];
    r
  }

  /** The exercises of one day over the catalog in catalog order: the rows matching the first
      query, or the first ten rows of the fallback query when the first query finds nothing. */
  function DayCandidates(catalog: seq<Exercise>, parts: seq<string>, prefs: Preferences): (r: seq<Exercise>)
    ensures forall i :: 0 <= i < |r| ==> r[i] in catalog && MatchesFallback(r[i], parts, prefs)
    ensures (exists i :: 0 <= i < |catalog| && MatchesDay(catalog[i], parts, prefs)) ==>
      Tally.Selects(r, catalog, e => MatchesDay(e, parts, prefs))
    ensures (forall i :: 0 <= i < |catalog| ==> !MatchesDay(catalog[i], parts, prefs)) ==>
      exists f :: (Tally.Selects(f, catalog, e => MatchesFallback(e, parts, prefs))
        && |r| == (if |f| < 10 then |f| else 10) && r == f[..|r|])
  {
    var first := DayQuery(catalog, parts, prefs);
    if |first| > 0 then first else FallbackQuery(catalog, parts, prefs)
  }

  // ------------------------------------------------------------ scoring

  /** `goal_weights[goal].get(category, 0.1) * 0.2` in thousandths; a goal without a table
      (유지) uses the 체력 향상 table. */
  function CategoryWeight(goal: string, category: string): (w: int)
    ensures 10 <= w <= 140
    ensures category !in ["웨이트", "체중", "유산소", "스트레칭"] ==> w == 20
  {
    if goal == "근육 증가" then
      (if category == "웨이트" then 140 else if category == "체중" then 40
       else if category == "유산소" || category == "스트레칭" then 10 else 20)
    else if goal == "다이어트" then
      (if category == "유산소" then 80 else if category == "체중" then 60
       else if category == "웨이트" then 40 else if category == "스트레칭" then 20 else 20)
    else if goal == "재활" then
      (if category == "스트레칭" || category == "체중" then 80
       else if category == "웨이트" || category == "유산소" then 20 else 20)
    else
      (if category == "체중" then 80 else if category == "유산소" then 60
       else if category == "웨이트" then 40 else if category == "스트레칭" then 20 else 20)
  }

  /** The deterministic terms of `_calculate_exercise_score`, in thousandths. */
  function Score(e: Exercise, parts: seq<string>, prefs: Preferences): (s: int)
    ensures -140 <= s <= 940
  {
    (if e.bodyPart in parts then 300 else 0)
    + (if e.targetGoal == prefs.goal then 250 else 0)
    + CategoryWeight(prefs.goal, e.category)
    + (match prefs.feedback
       case None => 0
       case Some(f) => if e.id in f.preferred then 150 else if e.id in f.disliked then -100 else 0)
    + (if e.duration <= 30 then 100 else if e.duration > 60 then -50 else 0)
  }

  /** Feedback moves a score by +0.15 for a preferred exercise and by -0.1 for a disliked one
      that is not also preferred, against the same preferences without feedback. */
  lemma ScoreFeedbackEffect(e: Exercise, parts: seq<string>, prefs: Preferences, f: FeedbackIds)
    requires prefs.feedback == Some(f)
    ensures var base := Score(e, parts, prefs.(feedback := None));
      && (e.id in f.preferred ==> Score(e, parts, prefs) == base + 150)
      && (e.id !in f.preferred && e.id in f.disliked ==> Score(e, parts, prefs) == base - 100)
      && (e.id !in f.preferred && e.id !in f.disliked ==> Score(e, parts, prefs) == base)
  {
  }

  /** Candidates in descending order of score plus jitter; ties keep catalog order. */
  function Ranked(cands: seq<Exercise>, parts: seq<string>, prefs: Preferences, jitter: Exercise -> int): (r: seq<Exercise>)
    ensures multiset(r) == multiset(cands)
    ensures Tally.SortedDesc(r, e => Score(e, parts, prefs) + jitter(e))
  {
    Tally.SortDescFacts(cands, e => Score(e, parts, prefs) + jitter(e));
    Tally.SortDesc(cands, e => Score(e, parts, prefs) + jitter(e))
  }

  // ---------------------------------------------------------- selection

  datatype Priority = Primary | Secondary

  datatype Pick = Pick(exercise: Exercise, priority: Priority)

  function Picked(sel: seq<Pick>): (r: seq<Exercise>)
    ensures |r| == |sel| && forall i :: 0 <= i < |sel| ==> r[i] == sel[i].exercise
  {
    if |sel| == 0 then [] else Picked(sel[..|sel| - 1]) + [sel[|sel| - 1].exercise]
  }

  /** The minutes of the picked exercises. */
  function UsedTime(sel: seq<Pick>): int {
    if |sel| == 0 then 0 else UsedTime(sel[..|sel| - 1]) + sel[|sel| - 1].exercise.duration
  }

  function NumPrimaries(sel: seq<Pick>): nat {
    if |sel| == 0 then 0 else NumPrimaries(sel[..|sel| - 1]) + (if sel[|sel| - 1].priority == Primary then 1 else 0)
  }

  lemma PickAppend(sel: seq<Pick>, p: Pick)
    ensures Picked(sel + [p]) == Picked(sel) + [p.exercise]
    ensures UsedTime(sel + [p]) == UsedTime(sel) + p.exercise.duration
    ensures NumPrimaries(sel + [p]) == NumPrimaries(sel) + (if p.priority == Primary then 1 else 0)
  {
    assert (sel + [p])[..|sel|] == sel;
  }

  /** Every unpicked exercise among `ranked[..j]` would overrun the budget. */
  predicate NoneFits(ranked: seq<Exercise>, j: nat, sel: seq<Pick>, budget: int)
    requires j <= |ranked|
  {
    forall t :: 0 <= t < j && ranked[t] !in Picked(sel) ==> UsedTime(sel) + ranked[t].duration > budget
  }

  /** `ranked[t]` can be the primary pick for `part`: of that part, not picked yet, and within
      the `room` minutes left. */
  predicate FitsPrimary(e: Exercise, part: string, room: int, picked: seq<Exercise>) {
    e.bodyPart == part && e.duration <= room && e !in picked
  }

  /** The first index from `from` on whose exercise fits as the primary pick for `part`, or
      `|ranked|` when there is none. */
  function FirstFitFrom(ranked: seq<Exercise>, part: string, room: int, picked: seq<Exercise>, from: nat): (j: nat)
    requires from <= |ranked|
    ensures from <= j <= |ranked|
    ensures j < |ranked| ==> FitsPrimary(ranked[j], part, room, picked)
    decreases |ranked| - from
  {
    if from == |ranked| then |ranked|
    else if FitsPrimary(ranked[from], part, room, picked) then from
    else FirstFitFrom(ranked, part, room, picked, from + 1)
  }

  /** The primary pick for `part`, if any, after the picks `sel`: the first ranked exercise of
      that part that is not picked yet and fits what is left of the budget. */
  function PrimaryNext(ranked: seq<Exercise>, part: string, budget: int, sel: seq<Pick>): seq<Pick> {
    var j := FirstFitFrom(ranked, part, budget - UsedTime(sel), Picked(sel), 0);
    if j < |ranked| then sel + [Pick(ranked[j], Primary)] else sel
  }

  /** Phase one from target part `p` on, with `sel` picked so far: each part in turn adds its
      primary pick, when there is one. */
  function PrimaryPicks(ranked: seq<Exercise>, parts: seq<string>, budget: int, sel: seq<Pick>, p: nat): seq<Pick>
    requires p <= |parts|
    decreases |parts| - p
  {
    if p == |parts| then sel
    else PrimaryPicks(ranked, parts, budget, PrimaryNext(ranked, parts[p], budget, sel), p + 1)
  }

  /** Phase two from rank position `j` on, with `sel` picked so far: every unpicked exercise
      that still fits becomes a secondary pick, and the phase ends right after a pick that
      brings the used time to 80% of the budget. */
  function SecondaryPicks(ranked: seq<Exercise>, budget: int, sel: seq<Pick>, j: nat): seq<Pick>
    requires j <= |ranked|
    decreases |ranked| - j
  {
    if j == |ranked| then sel
    else if ranked[j] !in Picked(sel) && UsedTime(sel) + ranked[j].duration <= budget then
      var s := sel + [Pick(ranked[j], Secondary)];
      if 5 * UsedTime(s) >= 4 * budget then s else SecondaryPicks(ranked, budget, s, j + 1)
    else SecondaryPicks(ranked, budget, sel, j + 1)
  }

  /** The whole selection: phase one over all target parts, then phase two over all ranks. */
  function Selection(ranked: seq<Exercise>, parts: seq<string>, budget: int): seq<Pick> {
    SecondaryPicks(ranked, budget, PrimaryPicks(ranked, parts, budget, [], 0), 0)
  }

  /** Phase two only appends to what it starts from. */
  lemma {:induction false} SecondaryPicksExtends(ranked: seq<Exercise>, budget: int, sel: seq<Pick>, j: nat)
    requires j <= |ranked|
    ensures |SecondaryPicks(ranked, budget, sel, j)| >= |sel|
    ensures SecondaryPicks(ranked, budget, sel, j)[..|sel|] == sel
    decreases |ranked| - j
  {
    if j < |ranked| {
      if ranked[j] !in Picked(sel) && UsedTime(sel) + ranked[j].duration <= budget {
        var s := sel + [Pick(ranked[j], Secondary)];
        if 5 * UsedTime(s) < 4 * budget {
          SecondaryPicksExtends(ranked, budget, s, j + 1);
          var r := SecondaryPicks(ranked, budget, s, j + 1);
          assert r[..|sel|] == r[..|s|][..|sel|];
        } else {
          assert s[..|sel|] == sel;
        }
      } else {
        SecondaryPicksExtends(ranked, budget, sel, j + 1);
      }
    } else {
      assert sel[..|sel|] == sel;
    }
  }

  /** The selection starts with exactly the primary picks of phase one. */
  lemma SelectionStartsWithPrimaries(ranked: seq<Exercise>, parts: seq<string>, budget: int)
    ensures var prim := PrimaryPicks(ranked, parts, budget, [], 0);
      |Selection(ranked, parts, budget)| >= |prim| && Selection(ranked, parts, budget)[..|prim|] == prim
  {
    SecondaryPicksExtends(ranked, budget, PrimaryPicks(ranked, parts, budget, [], 0), 0);
  }

  /** `_select_optimal_exercises` on the ranked candidates: first at most one primary pick per
      target part, the best-ranked exercise of that part that still fits, then secondary picks
      in rank order while they fit, stopping once 80% of the budget is used. */
  method SelectOptimal(ranked: seq<Exercise>, parts: seq<string>, budget: int) returns (sel: seq<Pick>)
    ensures sel == Selection(ranked, parts, budget)
    ensures Tally.Distinct(Picked(sel))
    ensures forall i :: 0 <= i < |sel| ==> sel[i].exercise in ranked
    ensures |sel| > 0 ==> UsedTime(sel) <= budget
    ensures forall i, j :: 0 <= i < j < |sel| && sel[j].priority == Primary ==> sel[i].priority == Primary
    ensures forall i :: 0 <= i < |sel| && sel[i].priority == Primary ==> sel[i].exercise.bodyPart in parts
    ensures NumPrimaries(sel) <= |parts|
    ensures Tally.Distinct(parts) ==> forall i, j :: 0 <= i < j < |sel| && sel[j].priority == Primary ==>
      sel[i].exercise.bodyPart != sel[j].exercise.bodyPart
    ensures (forall i :: 0 <= i < |ranked| ==> ranked[i].duration >= 0) ==>
      5 * UsedTime(sel) >= 4 * budget || NoneFits(ranked, |ranked|, sel, budget)
  {
    var primaries := PickPrimaries(ranked, parts, budget);
    sel := FillSecondaries(ranked, budget, primaries);
    assert forall i :: 0 <= i < |primaries| ==> sel[i] == sel[..|primaries|][i] == primaries[i];
  }

  /** The inner loop of phase one: the first ranked exercise of `part` that is not picked yet
      and takes at most `room` minutes, or `|ranked|` when there is none. */
  method FirstFit(ranked: seq<Exercise>, part: string, room: int, picked: seq<Exercise>) returns (j: nat)
    ensures j == FirstFitFrom(ranked, part, room, picked, 0)
    ensures j <= |ranked|
    ensures j < |ranked| ==> ranked[j].bodyPart == part && ranked[j].duration <= room && ranked[j] !in picked
    ensures forall t :: 0 <= t < j ==> !(ranked[t].bodyPart == part && ranked[t].duration <= room && ranked[t] !in picked)
  {
    j := 0;
    while j < |ranked|
      invariant j <= |ranked|
      invariant FirstFitFrom(ranked, part, room, picked, j) == FirstFitFrom(ranked, part, room, picked, 0)
      invariant forall t :: 0 <= t < j ==> !(ranked[t].bodyPart == part && ranked[t].duration <= room && ranked[t] !in picked)
    {
      var e := ranked[j];
      if e.bodyPart == part && e.duration <= room && e !in picked {
        return;
      }
      j := j + 1;
    }
  }

  /** The picks after the first `p` target parts: primaries from `ranked`, at most one per part
      so far, each of a part among `parts[..p]`, distinct, and within the budget. */
  predicate PrimariesSoFar(sel: seq<Pick>, ranked: seq<Exercise>, parts: seq<string>, p: nat, budget: int)
    requires p <= |parts|
  {
    && |sel| <= p && NumPrimaries(sel) == |sel|
    && (|sel| > 0 ==> UsedTime(sel) <= budget)
    && Tally.Distinct(Picked(sel))
    && (forall i :: 0 <= i < |sel| ==> sel[i].exercise in ranked && sel[i].priority == Primary)
    && (forall i :: 0 <= i < |sel| ==> sel[i].exercise.bodyPart in parts[..p])
    && (Tally.Distinct(parts) ==> forall i, j :: 0 <= i < j < |sel| ==>
          sel[i].exercise.bodyPart != sel[j].exercise.bodyPart)
  }

  lemma PrimaryTake(sel: seq<Pick>, ranked: seq<Exercise>, parts: seq<string>, p: nat, budget: int, e: Exercise)
    requires p < |parts| && PrimariesSoFar(sel, ranked, parts, p, budget)
    requires e in ranked && e.bodyPart == parts[p] && e.duration <= budget - UsedTime(sel) && e !in Picked(sel)
    ensures PrimariesSoFar(sel + [Pick(e, Primary)], ranked, parts, p + 1, budget)
    ensures UsedTime(sel + [Pick(e, Primary)]) == UsedTime(sel) + e.duration
  {
    var s := sel + [Pick(e, Primary)];
    PrimaryStep(sel, e, parts, p);
    PickAppend(sel, Pick(e, Primary));
    DistinctSnoc(Picked(sel), e);
    forall i | 0 <= i < |s| ensures s[i].exercise in ranked && s[i].priority == Primary {
      if i < |sel| { assert s[i] == sel[i]; }
    }
  }

  lemma PrimarySkip(sel: seq<Pick>, ranked: seq<Exercise>, parts: seq<string>, p: nat, budget: int)
    requires p < |parts| && PrimariesSoFar(sel, ranked, parts, p, budget)
    ensures PrimariesSoFar(sel, ranked, parts, p + 1, budget)
  {
    InPartsGrow(sel, parts, p);
  }

  /** One round of phase one: the pick, if any, for `parts[p]`. */
  method PrimaryRound(ranked: seq<Exercise>, parts: seq<string>, p: nat, budget: int, sel: seq<Pick>, used: int)
    returns (sel': seq<Pick>, used': int)
    requires p < |parts| && used == UsedTime(sel)
    ensures sel' == PrimaryNext(ranked, parts[p], budget, sel)
    ensures PrimaryPicks(ranked, parts, budget, sel', p + 1) == PrimaryPicks(ranked, parts, budget, sel, p)
    ensures used' == UsedTime(sel')
  {
    var j := FirstFit(ranked, parts[p], budget - used, Picked(sel));
    if j < |ranked| {
      var e := ranked[j];
      PickAppend(sel, Pick(e, Primary));
      sel', used' := sel + [Pick(e, Primary)], used + e.duration;
    } else {
      sel', used' := sel, used;
    }
  }

  /** The pick for one more target part keeps the primary invariant. */
  lemma PrimaryNextKeeps(ranked: seq<Exercise>, parts: seq<string>, budget: int, sel: seq<Pick>, p: nat, next: seq<Pick>)
    requires p < |parts| && PrimariesSoFar(sel, ranked, parts, p, budget)
    requires next == PrimaryNext(ranked, parts[p], budget, sel)
    ensures PrimariesSoFar(next, ranked, parts, p + 1, budget)
  {
    var j := FirstFitFrom(ranked, parts[p], budget - UsedTime(sel), Picked(sel), 0);
    if j < |ranked| {
      PrimaryTake(sel, ranked, parts, p, budget, ranked[j]);
    } else {
      PrimarySkip(sel, ranked, parts, p, budget);
    }
  }

  /** Phase one keeps the primary invariant from any part on to the last part. */
  lemma {:induction false} PrimaryPicksKeeps(ranked: seq<Exercise>, parts: seq<string>, budget: int, sel: seq<Pick>, p: nat,
                                             r: seq<Pick>)
    requires p <= |parts| && PrimariesSoFar(sel, ranked, parts, p, budget)
    requires r == PrimaryPicks(ranked, parts, budget, sel, p)
    ensures PrimariesSoFar(r, ranked, parts, |parts|, budget)
    decreases |parts| - p
  {
    if p < |parts| {
      var next := PrimaryNext(ranked, parts[p], budget, sel);
      PrimaryNextKeeps(ranked, parts, budget, sel, p, next);
      PrimaryPicksKeeps(ranked, parts, budget, next, p + 1, r);
    }
  }

  /** What phase one promises: at most one primary per target part, distinct exercises from the
      ranking, each of a target part, one per part when the parts are distinct, within the budget. */
  lemma PrimaryPicksFacts(ranked: seq<Exercise>, parts: seq<string>, budget: int, sel: seq<Pick>)
    requires sel == PrimaryPicks(ranked, parts, budget, [], 0)
    ensures |sel| <= |parts| && NumPrimaries(sel) == |sel|
    ensures |sel| > 0 ==> UsedTime(sel) <= budget
    ensures Tally.Distinct(Picked(sel))
    ensures forall i :: 0 <= i < |sel| ==> sel[i].exercise in ranked && sel[i].priority == Primary
    ensures forall i :: 0 <= i < |sel| ==> sel[i].exercise.bodyPart in parts
    ensures Tally.Distinct(parts) ==> forall i, j :: 0 <= i < j < |sel| ==>
      sel[i].exercise.bodyPart != sel[j].exercise.bodyPart
  {
    PrimaryPicksKeeps(ranked, parts, budget, [], 0, sel);
    PrimariesAll(sel, ranked, parts, budget);
  }

  /** Phase one: for each target part in turn, the best-ranked exercise of that part that is not
      picked yet and still fits the budget. */
  method PickPrimaries(ranked: seq<Exercise>, parts: seq<string>, budget: int) returns (sel: seq<Pick>)
    ensures sel == PrimaryPicks(ranked, parts, budget, [], 0)
    ensures |sel| <= |parts| && NumPrimaries(sel) == |sel|
    ensures |sel| > 0 ==> UsedTime(sel) <= budget
    ensures Tally.Distinct(Picked(sel))
    ensures forall i :: 0 <= i < |sel| ==> sel[i].exercise in ranked && sel[i].priority == Primary
    ensures forall i :: 0 <= i < |sel| ==> sel[i].exercise.bodyPart in parts
    ensures Tally.Distinct(parts) ==> forall i, j :: 0 <= i < j < |sel| ==>
      sel[i].exercise.bodyPart != sel[j].exercise.bodyPart
  {
    sel := [];
    var used := 0;
    var p := 0;
    while p < |parts|
      invariant 0 <= p <= |parts|
      invariant used == UsedTime(sel)
      invariant PrimaryPicks(ranked, parts, budget, sel, p) == PrimaryPicks(ranked, parts, budget, [], 0)
    {
      sel, used := PrimaryRound(ranked, parts, p, budget, sel, used);
      p := p + 1;
    }
    assert PrimaryPicks(ranked, parts, budget, sel, p) == sel;
    PrimaryPicksFacts(ranked, parts, budget, sel);
  }

  /** After the last target part, the picks lie among all the target parts. */
  lemma PrimariesAll(sel: seq<Pick>, ranked: seq<Exercise>, parts: seq<string>, budget: int)
    requires PrimariesSoFar(sel, ranked, parts, |parts|, budget)
    ensures |sel| <= |parts| && NumPrimaries(sel) == |sel|
    ensures |sel| > 0 ==> UsedTime(sel) <= budget
    ensures Tally.Distinct(Picked(sel))
    ensures forall i :: 0 <= i < |sel| ==> sel[i].exercise in ranked && sel[i].priority == Primary
    ensures forall i :: 0 <= i < |sel| ==> sel[i].exercise.bodyPart in parts
    ensures Tally.Distinct(parts) ==> forall i, j :: 0 <= i < j < |sel| ==>
      sel[i].exercise.bodyPart != sel[j].exercise.bodyPart
  {
    assert parts[..|parts|] == parts;
  }

  lemma DistinctSnoc<T>(s: seq<T>, x: T)
    requires Tally.Distinct(s) && x !in s
    ensures Tally.Distinct(s + [x])
  {
  }

  lemma InPartsGrow(sel: seq<Pick>, parts: seq<string>, p: nat)
    requires p < |parts|
    requires forall i :: 0 <= i < |sel| ==> sel[i].exercise.bodyPart in parts[..p]
    ensures forall i :: 0 <= i < |sel| ==> sel[i].exercise.bodyPart in parts[..p + 1]
  {
    forall i | 0 <= i < |sel| ensures sel[i].exercise.bodyPart in parts[..p + 1] {
      var t :| 0 <= t < |parts[..p]| && parts[..p][t] == sel[i].exercise.bodyPart;
      assert parts[..p + 1][t] == sel[i].exercise.bodyPart;
    }
  }

  /** A primary pick for `parts[p]` keeps the picked body parts inside `parts[..p + 1]`, and
      distinct when the parts are. */
  lemma PrimaryStep(sel: seq<Pick>, e: Exercise, parts: seq<string>, p: nat)
    requires p < |parts| && e.bodyPart == parts[p]
    requires forall i :: 0 <= i < |sel| ==> sel[i].exercise.bodyPart in parts[..p]
    requires Tally.Distinct(parts) ==> forall i, j :: 0 <= i < j < |sel| ==>
      sel[i].exercise.bodyPart != sel[j].exercise.bodyPart
    ensures forall i :: 0 <= i < |sel| + 1 ==> (sel + [Pick(e, Primary)])[i].exercise.bodyPart in parts[..p + 1]
    ensures Tally.Distinct(parts) ==> forall i, j :: 0 <= i < j < |sel| + 1 ==>
      (sel + [Pick(e, Primary)])[i].exercise.bodyPart != (sel + [Pick(e, Primary)])[j].exercise.bodyPart
  {
    var s := sel + [Pick(e, Primary)];
    InPartsGrow(sel, parts, p);
    assert parts[..p + 1][p] == e.bodyPart;
    if Tally.Distinct(parts) {
      forall i | 0 <= i < |sel| ensures sel[i].exercise.bodyPart != e.bodyPart {
        var t :| 0 <= t < |parts[..p]| && parts[..p][t] == sel[i].exercise.bodyPart;
        assert parts[t] != parts[p];
      }
    }
  }

  /** `sel` is `start` followed by distinct secondary picks from `ranked`. */
  predicate ExtendsWithSecondaries(start: seq<Pick>, sel: seq<Pick>, ranked: seq<Exercise>) {
    && |sel| >= |start| && sel[..|start|] == start
    && (forall i :: |start| <= i < |sel| ==> sel[i].priority == Secondary && sel[i].exercise in ranked)
    && NumPrimaries(sel) == NumPrimaries(start)
    && Tally.Distinct(Picked(sel))
  }

  lemma SecondaryStep(start: seq<Pick>, sel: seq<Pick>, ranked: seq<Exercise>, e: Exercise)
    requires ExtendsWithSecondaries(start, sel, ranked)
    requires e in ranked && e !in Picked(sel)
    ensures ExtendsWithSecondaries(start, sel + [Pick(e, Secondary)], ranked)
    ensures UsedTime(sel + [Pick(e, Secondary)]) == UsedTime(sel) + e.duration
    ensures Picked(sel + [Pick(e, Secondary)]) == Picked(sel) + [e]
  {
    var s := sel + [Pick(e, Secondary)];
    PickAppend(sel, Pick(e, Secondary));
    DistinctSnoc(Picked(sel), e);
    assert s[..|start|] == sel[..|start|];
  }

  /** One rank position of phase two: a fitting exercise is picked, and the phase ends there
      once 80% of the budget is used; any other exercise is passed over. */
  lemma SecondaryPicksStep(ranked: seq<Exercise>, budget: int, sel: seq<Pick>, j: nat)
    requires j < |ranked|
    ensures var s := sel + [Pick(ranked[j], Secondary)];
      ranked[j] !in Picked(sel) && UsedTime(sel) + ranked[j].duration <= budget ==>
        SecondaryPicks(ranked, budget, sel, j)
          == if 5 * UsedTime(s) >= 4 * budget then s else SecondaryPicks(ranked, budget, s, j + 1)
    ensures !(ranked[j] !in Picked(sel) && UsedTime(sel) + ranked[j].duration <= budget) ==>
      SecondaryPicks(ranked, budget, sel, j) == SecondaryPicks(ranked, budget, sel, j + 1)
  {
  }

  /** Phase two: secondary picks in rank order of every exercise not yet picked that still fits,
      stopping right after a pick that brings the used time to 80% of the budget. */
  method FillSecondaries(ranked: seq<Exercise>, budget: int, start: seq<Pick>) returns (sel: seq<Pick>)
    requires |start| > 0 ==> UsedTime(start) <= budget
    requires Tally.Distinct(Picked(start))
    ensures sel == SecondaryPicks(ranked, budget, start, 0)
    ensures ExtendsWithSecondaries(start, sel, ranked)
    ensures |sel| > 0 ==> UsedTime(sel) <= budget
    ensures (forall i :: 0 <= i < |ranked| ==> ranked[i].duration >= 0) ==>
      5 * UsedTime(sel) >= 4 * budget || NoneFits(ranked, |ranked|, sel, budget)
  {
    sel := start;
    assert sel[..|start|] == start;
    var used := UsedTime(start);
    var j := 0;
    while j < |ranked|
      invariant 0 <= j <= |ranked|
      invariant ExtendsWithSecondaries(start, sel, ranked)
      invariant used == UsedTime(sel) && (|sel| > 0 ==> used <= budget)
      invariant (forall i :: 0 <= i < |ranked| ==> ranked[i].duration >= 0) ==> NoneFits(ranked, j, sel, budget)
      invariant SecondaryPicks(ranked, budget, sel, j) == SecondaryPicks(ranked, budget, start, 0)
    {
      var stop;
      sel, used, stop := SecondaryRound(ranked, budget, start, j, sel, used);
      if stop {
        return;
      }
      j := j + 1;
    }
  }

  /** One rank position of phase two: the exercise at `j` becomes a secondary pick when it is
      not picked yet and fits, and the phase stops once 80% of the budget is used. */
  method SecondaryRound(ranked: seq<Exercise>, budget: int, start: seq<Pick>, j: nat, sel: seq<Pick>, used: int)
    returns (sel': seq<Pick>, used': int, stop: bool)
    requires j < |ranked|
    requires ExtendsWithSecondaries(start, sel, ranked)
    requires used == UsedTime(sel) && (|sel| > 0 ==> used <= budget)
    requires (forall i :: 0 <= i < |ranked| ==> ranked[i].duration >= 0) ==> NoneFits(ranked, j, sel, budget)
    ensures ExtendsWithSecondaries(start, sel', ranked)
    ensures used' == UsedTime(sel') && (|sel'| > 0 ==> used' <= budget)
    ensures stop ==> sel' == SecondaryPicks(ranked, budget, sel, j) && 5 * used' >= 4 * budget
    ensures !stop ==> SecondaryPicks(ranked, budget, sel', j + 1) == SecondaryPicks(ranked, budget, sel, j)
    ensures !stop ==> (forall i :: 0 <= i < |ranked| ==> ranked[i].duration >= 0) ==> NoneFits(ranked, j + 1, sel', budget)
  {
    var e := ranked[j];
    SecondaryPicksStep(ranked, budget, sel, j);
    if e !in Picked(sel) && used + e.duration <= budget {
      SecondaryStep(start, sel, ranked, e);
      NoneFitsGrow(ranked, j, sel, Pick(e, Secondary), budget);
      sel', used' := sel + [Pick(e, Secondary)], used + e.duration;
      stop := 5 * used' >= 4 * budget;
    } else {
      NoneFitsSkip(ranked, j, sel, budget);
      sel', used', stop := sel, used, false;
    }
  }

  lemma NoneFitsSkip(ranked: seq<Exercise>, j: nat, sel: seq<Pick>, budget: int)
    requires j < |ranked|
    requires ranked[j] in Picked(sel) || UsedTime(sel) + ranked[j].duration > budget
    ensures NoneFits(ranked, j, sel, budget) ==> NoneFits(ranked, j + 1, sel, budget)
  {
  }

  /** Picking one more exercise of non-negative duration keeps every earlier skip a skip. */
  lemma NoneFitsGrow(ranked: seq<Exercise>, j: nat, sel: seq<Pick>, p: Pick, budget: int)
    requires j < |ranked| && p.exercise == ranked[j]
    requires Picked(sel + [p]) == Picked(sel) + [p.exercise]
    requires UsedTime(sel + [p]) == UsedTime(sel) + p.exercise.duration
    ensures (forall i :: 0 <= i < |ranked| ==> ranked[i].duration >= 0) && NoneFits(ranked, j, sel, budget) ==>
      NoneFits(ranked, j + 1, sel + [p], budget)
  {
    if (forall i :: 0 <= i < |ranked| ==> ranked[i].duration >= 0) && NoneFits(ranked, j, sel, budget) {
      forall t | 0 <= t < j + 1 && ranked[t] !in Picked(sel + [p])
        ensures UsedTime(sel + [p]) + ranked[t].duration > budget
      {
        assert ranked[t] != p.exercise;
        assert ranked[t] !in Picked(sel);
      }
    }
  }

  // ----------------------------------------------------------- the tables

  /** The rep range of `base_reps` for a goal and level, as (low, high); "10-15" for any pair
      the table lacks. */
  function RepsRange(goal: string, level: string): (r: (nat, nat))
    ensures 6 <= r.0 < r.1 <= 25
  {
    if goal == "근육 증가" then (if level == "고급" then (6, 12) else if level == "초급" || level == "중급" then (8, 12) else (10, 15))
    else if goal == "다이어트" then
      (if level == "초급" then (12, 15) else if level == "중급" then (12, 18) else if level == "고급" then (15, 20) else (10, 15))
    else if goal == "체력 향상" then
      (if level == "초급" then (10, 15) else if level == "중급" then (12, 18) else if level == "고급" then (15, 25) else (10, 15))
    else (10, 15)
  }

  /** `_calculate_reps`: minutes for cardio, a hold time for stretching, a rep range otherwise. */
  function Reps(e: Exercise, goal: string, level: string): string {
    if e.category == "유산소" then IntToString(e.duration) + "분"
    else if e.category == "스트레칭" then IntToString(e.duration) + "초 유지"
    else NatToString(RepsRange(goal, level).0) + "-" + NatToString(RepsRange(goal, level).1)
  }

  /** A strength rep string is stored by the plan saver as its low and high ends. */
  lemma RepsStoredAsRange(e: Exercise, goal: string, level: string)
    requires e.category != "유산소" && e.category != "스트레칭"
    ensures DB.ParseRepsMin(Reps(e, goal, level)) == Some(RepsRange(goal, level).0 as int)
    ensures DB.ParseRepsMax(Reps(e, goal, level)) == Some(RepsRange(goal, level).1 as int)
    ensures DB.ParseRepsMin(Reps(e, goal, level)).value < DB.ParseRepsMax(Reps(e, goal, level)).value
  {
    DB.RepsRangeRoundTrip(RepsRange(goal, level).0, RepsRange(goal, level).1);
  }

  /** A cardio entry of a non-negative duration stores no rep counts. */
  lemma CardioRepsNotCounted(e: Exercise, goal: string, level: string)
    requires e.category == "유산소" && e.duration >= 0
    ensures DB.ParseRepsMin(Reps(e, goal, level)) == None && DB.ParseRepsMax(Reps(e, goal, level)) == None
  {
    var d := NatToString(e.duration);
    var s := d + "분";
    assert s[|d|] == '분' && !IsDigit(s[|d|]);
    DB.DigitsHaveNo(d, '-');
    assert '-' !in s;
    DB.RepsOtherwiseNone(s);
  }

  /** `_calculate_sets`: one set of cardio or stretching, four for the advanced level, else three. */
  function Sets(e: Exercise, level: string): (n: int)
    ensures n == 1 <==> e.category == "유산소" || e.category == "스트레칭"
    ensures n == 4 <==> e.category != "유산소" && e.category != "스트레칭" && level == "고급"
    ensures n == 1 || n == 3 || n == 4
  {
    if e.category == "유산소" || e.category == "스트레칭" then 1
    else if level == "고급" then 4
    else 3
  }

  /** `_calculate_rest_time`. */
  function Rest(e: Exercise, goal: string): string {
    if e.category == "유산소" then "없음"
    else if e.category == "스트레칭" then "10초"
    else if goal == "근육 증가" then "2-3분"
    else if goal == "다이어트" || goal == "체력 향상" then "1-2분"
    else "2분"
  }

  lemma SmallNumerals()
    ensures NatToString(1) == "1" && NatToString(2) == "2" && NatToString(3) == "3"
    ensures NatToString(10) == "10"
  {
    assert NatToString(10) == NatToString(1) + [DigitChar(0)];
  }

  /** The seconds the plan saver stores for each rest string: "없음" falls to the 120-second
      default, "10초" is 10, "2-3분" is 120, "1-2분" is 60 and "2분" is 120. */
  lemma RestStoredSeconds(e: Exercise, goal: string)
    ensures e.category == "유산소" ==> DB.ParseRestSeconds(Rest(e, goal)) == 120
    ensures e.category == "스트레칭" ==> DB.ParseRestSeconds(Rest(e, goal)) == 10
    ensures e.category != "유산소" && e.category != "스트레칭" ==>
      DB.ParseRestSeconds(Rest(e, goal)) == if goal == "다이어트" || goal == "체력 향상" then 60 else 120
  {
    RestStrings();
  }

  lemma RestStrings()
    ensures DB.ParseRestSeconds("없음") == 120
    ensures DB.ParseRestSeconds("10초") == 10
    ensures DB.ParseRestSeconds("2-3분") == 120
    ensures DB.ParseRestSeconds("1-2분") == 60
    ensures DB.ParseRestSeconds("2분") == 120
  {
    DB.RestDefault("없음");
    RestTenSeconds();
    RestTwoToThree();
    RestOneToTwo();
    RestTwo();
  }

  lemma RestTenSeconds()
    ensures DB.ParseRestSeconds("10초") == 10
  {
    DB.RestSeconds(10);
    RestTexts();
  }

  lemma RestTwoToThree()
    ensures DB.ParseRestSeconds("2-3분") == 120
  {
    DB.RestMinuteRange(2, 3);
    RestTexts();
  }

  lemma RestOneToTwo()
    ensures DB.ParseRestSeconds("1-2분") == 60
  {
    DB.RestMinuteRange(1, 2);
    RestTexts();
  }

  lemma RestTwo()
    ensures DB.ParseRestSeconds("2분") == 120
  {
    DB.RestMinutes(2);
    RestTexts();
  }

  /** The rest texts spelled with the decimal numerals. */
  lemma RestTexts()
    ensures NatToString(10) + "초" == "10초"
    ensures NatToString(2) + "-" + NatToString(3) + "분" == "2-3분"
    ensures NatToString(1) + "-" + NatToString(2) + "분" == "1-2분"
    ensures NatToString(2) + "분" == "2분"
  {
    SmallNumerals();
  }

  /** `_get_weight_guidance`: guidance only for weight exercises. */
  function WeightGuidance(e: Exercise, level: string): (w: Option<string>)
    ensures w.Some? <==> e.category == "웨이트"
  {
    if e.category != "웨이트" then None
    else if level == "초급" then Some("가벼운 무게부터 시작")
    else if level == "중급" then Some("1RM의 70-80%")
    else if level == "고급" then Some("1RM의 75-85%")
    else Some("적절한 무게")
  }

  // ------------------------------------------------------------ one day

  /** An `ExerciseRecommendation`. */
  datatype ExerciseRec = ExerciseRec(
    name: string,
    nameEn: Option<string>,
    bodyPart: string,
    sets: int,
    reps: string,
    weight: Option<string>,
    rest: string,
    instructions: Option<string>,
    tips: Option<string>,
    difficulty: string,
    equipment: Option<string>)

  function ToRecommendation(e: Exercise, req: Schemas.RecommendationRequest): (r: ExerciseRec)
    ensures r.name == e.name && r.bodyPart == e.bodyPart && r.difficulty == e.difficulty
    ensures r.sets == Sets(e, req.experienceLevel) && r.weight == WeightGuidance(e, req.experienceLevel)
  {
    ExerciseRec(e.name, e.nameEn, e.bodyPart, Sets(e, req.experienceLevel),
      Reps(e, req.primaryGoal, req.experienceLevel), WeightGuidance(e, req.experienceLevel),
      Rest(e, req.primaryGoal), e.instructions, e.tips, e.difficulty, e.equipment)
  }

  /** A `DayRecommendation`. */
  datatype DayRec = DayRec(
    dayName: string,
    targetParts: seq<string>,
    exercises: seq<ExerciseRec>,
    estimatedDuration: int,
    warmUpTime: int,
    coolDownTime: int)

  /** `_recommend_exercises_for_day`: query, rank, select, and convert the picks, estimating the
      day as the picked minutes plus warm-up and cool-down. The picks are returned beside the day. */
  /** The picks of a day: the two-phase selection over the day's candidates, ranked. */
  function DaySelection(catalog: seq<Exercise>, plan: DayPlan, prefs: Preferences, jitter: Exercise -> int): seq<Pick> {
    Selection(Ranked(DayCandidates(catalog, plan.targetParts, prefs), plan.targetParts, prefs, jitter),
      plan.targetParts, plan.mainWorkoutTime)
  }

  method RecommendForDay(catalog: seq<Exercise>, plan: DayPlan, req: Schemas.RecommendationRequest,
                         prefs: Preferences, jitter: Exercise -> int) returns (day: DayRec, picks: seq<Pick>)
    ensures picks == DaySelection(catalog, plan, prefs, jitter)
    ensures forall i :: 0 <= i < |picks| ==> picks[i].exercise in catalog
    ensures Tally.Distinct(Picked(picks))
    ensures |picks| > 0 ==> UsedTime(picks) <= plan.mainWorkoutTime
    ensures |day.exercises| == |picks|
    ensures forall i :: 0 <= i < |picks| ==> day.exercises[i] == ToRecommendation(picks[i].exercise, req)
    ensures day.estimatedDuration == UsedTime(picks) + plan.warmUpTime + plan.coolDownTime
    ensures day.dayName == plan.name && day.targetParts == plan.targetParts
    ensures day.warmUpTime == plan.warmUpTime && day.coolDownTime == plan.coolDownTime
    ensures |picks| > 0 && plan.mainWorkoutTime + plan.warmUpTime + plan.coolDownTime == plan.timeBudget ==>
      day.estimatedDuration <= plan.timeBudget
  {
    var cands := DayCandidates(catalog, plan.targetParts, prefs);
    var ranked := Ranked(cands, plan.targetParts, prefs, jitter);
    picks := SelectOptimal(ranked, plan.targetParts, plan.mainWorkoutTime);
    assert forall i :: 0 <= i < |picks| ==> picks[i].exercise in catalog by {
      forall i | 0 <= i < |picks| ensures picks[i].exercise in catalog {
        assert picks[i].exercise in multiset(ranked);
      }
    }
    var recs, total := ConvertPicks(picks, req);
    day := DayRec(plan.name, plan.targetParts, recs, total + plan.warmUpTime + plan.coolDownTime,
      plan.warmUpTime, plan.coolDownTime);
  }

  /** The conversion loop of `_recommend_exercises_for_day`: one recommendation per pick, and the
      picked minutes. */
  method ConvertPicks(picks: seq<Pick>, req: Schemas.RecommendationRequest) returns (recs: seq<ExerciseRec>, total: int)
    ensures |recs| == |picks| && forall i :: 0 <= i < |picks| ==> recs[i] == ToRecommendation(picks[i].exercise, req)
    ensures total == UsedTime(picks)
  {
    recs := [];
    total := 0;
    var i := 0;
    while i < |picks|
      invariant 0 <= i <= |picks|
      invariant total == UsedTime(picks[..i])
      invariant |recs| == i && forall t :: 0 <= t < i ==> recs[t] == ToRecommendation(picks[t].exercise, req)
    {
      assert picks[..i + 1][..i] == picks[..i];
      recs := recs + [ToRecommendation(picks[i].exercise, req)];
      total := total + picks[i].exercise.duration;
      i := i + 1;
    }
    assert picks[..|picks|] == picks;
  }

  // ------------------------------------------------- summary and scoring

  /** Every recommended exercise of the week, day after day. */
  function AllExercises(days: seq<DayRec>): seq<ExerciseRec> {
    if |days| == 0 then [] else AllExercises(days[..|days| - 1]) + days[|days| - 1].exercises
  }

  function BodyParts(xs: seq<ExerciseRec>): (r: seq<string>)
    ensures |r| == |xs| && forall i :: 0 <= i < |xs| ==> r[i] == xs[i].bodyPart
  {
    if |xs| == 0 then [] else BodyParts(xs[..|xs| - 1]) + [xs[|xs| - 1].bodyPart]
  }

  /** The summary's category: weight training whenever the exercise names equipment. */
  function EquipmentCategory(x: ExerciseRec): string {
    if x.equipment.Some? && |x.equipment.value| > 0 then "웨이트" else "체중"
  }

  function Categories(xs: seq<ExerciseRec>): (r: seq<string>)
    ensures |r| == |xs| && forall i :: 0 <= i < |xs| ==> r[i] == EquipmentCategory(xs[i])
  {
    if |xs| == 0 then [] else Categories(xs[..|xs| - 1]) + [EquipmentCategory(xs[|xs| - 1])]
  }

  datatype Summary = Summary(
    totalDays: nat,
    totalExercises: nat,
    totalWeeklyDuration: int,
    avgSessionDuration: int,
    bodyPartDistribution: seq<(string, nat)>,
    categoryDistribution: seq<(string, nat)>,
    splitType: string,
    primaryGoal: string,
    experienceLevel: string)

  /** `_generate_summary`: the distributions count every exercise once, and the average session
      is the floor of the weekly total over the days (0 without days). */
  function Summarize(req: Schemas.RecommendationRequest, days: seq<DayRec>, total: int): (s: Summary)
    ensures s.totalDays == |days| && s.totalExercises == |AllExercises(days)|
    ensures Tally.Total(s.bodyPartDistribution) == s.totalExercises
    ensures Tally.Total(s.categoryDistribution) == s.totalExercises
    ensures forall k :: Tally.Get(s.bodyPartDistribution, k) == Tally.Count(BodyParts(AllExercises(days)), k)
    ensures forall k :: Tally.Get(s.categoryDistribution, k) == Tally.Count(Categories(AllExercises(days)), k)
    ensures Tally.Distinct(Tally.Keys(s.bodyPartDistribution)) && Tally.Distinct(Tally.Keys(s.categoryDistribution))
    ensures s.totalWeeklyDuration == total
    ensures s.splitType == req.splitType && s.primaryGoal == req.primaryGoal && s.experienceLevel == req.experienceLevel
    ensures |days| == 0 ==> s.avgSessionDuration == 0
    ensures |days| > 0 ==> s.avgSessionDuration * |days| <= total < (s.avgSessionDuration + 1) * |days|
  {
    var xs := AllExercises(days);
    var avg := if |days| > 0 then total / |days| else 0;
    assert |days| > 0 ==> avg * |days| <= total < (avg + 1) * |days| by {
      if |days| > 0 { FloorDivBounds(total, |days|); }
    }
    Tally.TallyFacts(BodyParts(xs));
    Tally.TallyFacts(Categories(xs));
    Summary(|days|, |xs|, total, avg,
      Tally.TallyOf(BodyParts(xs)), Tally.TallyOf(Categories(xs)),
      req.splitType, req.primaryGoal, req.experienceLevel)
  }

  /** Python's `a // n` for a positive `n` is the floor of the quotient. */
  lemma FloorDivBounds(a: int, n: int)
    requires n > 0
    ensures (a / n) * n <= a < (a / n + 1) * n
  {
  }

  /** `difficulty_scores.get(difficulty, 3)`. */
  function DifficultyPoints(difficulty: string): (p: int)
    ensures 1 <= p <= 5
  {
    if difficulty == "초급" then 1 else if difficulty == "고급" then 5 else 3
  }

  function DifficultyTotal(xs: seq<ExerciseRec>): int {
    if |xs| == 0 then 0 else DifficultyTotal(xs[..|xs| - 1]) + DifficultyPoints(xs[|xs| - 1].difficulty)
  }

  /** The mean difficulty points of the exercises, 3.0 without exercises (before rounding). */
  function DifficultyScore(xs: seq<ExerciseRec>): real {
    if |xs| == 0 then 3.0 else DB.Mean(DifficultyTotal(xs), |xs|)
  }

  lemma {:induction false} DifficultyTotalBounds(xs: seq<ExerciseRec>)
    ensures |xs| <= DifficultyTotal(xs) <= 5 * |xs|
  {
    if |xs| > 0 {
      DifficultyTotalBounds(xs[..|xs| - 1]);
    }
  }

  /** The difficulty score lies in [1, 5]. */
  lemma DifficultyScoreInRange(xs: seq<ExerciseRec>)
    ensures 1.0 <= DifficultyScore(xs) <= 5.0
  {
    if |xs| > 0 {
      DifficultyTotalBounds(xs);
      DB.MeanBounds(DifficultyTotal(xs), |xs|, 1, 5);
    }
  }

  lemma DifficultyTotalSnoc(done: seq<ExerciseRec>, xs: seq<ExerciseRec>, j: nat)
    requires j < |xs|
    ensures DifficultyTotal(done + xs[..j + 1]) == DifficultyTotal(done + xs[..j]) + DifficultyPoints(xs[j].difficulty)
  {
    var ys := done + xs[..j + 1];
    assert ys[..|ys| - 1] == done + xs[..j];
  }

  lemma AllExercisesSnoc(days: seq<DayRec>, d: nat)
    requires d < |days|
    ensures AllExercises(days[..d + 1]) == AllExercises(days[..d]) + days[d].exercises[..|days[d].exercises|]
  {
    assert days[..d + 1][..d] == days[..d];
    assert days[d].exercises[..|days[d].exercises|] == days[d].exercises;
  }

  /** `_calculate_difficulty_score`, accumulating over the days and their exercises. */
  method CalculateDifficultyScore(days: seq<DayRec>) returns (score: real)
    ensures score == DifficultyScore(AllExercises(days))
  {
    var total := 0;
    var count := 0;
    var d := 0;
    while d < |days|
      invariant 0 <= d <= |days|
      invariant total == DifficultyTotal(AllExercises(days[..d])) && count == |AllExercises(days[..d])|
    {
      var xs := days[d].exercises;
      ghost var done := AllExercises(days[..d]);
      assert done + xs[..0] == done;
      var j := 0;
      while j < |xs|
        invariant 0 <= j <= |xs|
        invariant total == DifficultyTotal(done + xs[..j]) && count == |done + xs[..j]|
      {
        DifficultyTotalSnoc(done, xs, j);
        total := total + DifficultyPoints(xs[j].difficulty);
        count := count + 1;
        j := j + 1;
      }
      AllExercisesSnoc(days, d);
      d := d + 1;
    }
    assert days[..|days|] == days;
    if count == 0 {
      score := 3.0;
    } else {
      score := DB.Mean(total, count);
    }
  }

  // --------------------------------------------------------------- tips

  /** The tips of `_generate_tips`, by subject. */
  datatype Tip =
    | FormBeforeWeight | WarmUpAndCoolDown | ListenToYourBody
    | ProgressiveOverload | MobilityAndRecovery
    | ProteinAndRest | CompoundFirst
    | CardioWithStrength | WatchYourDiet
    | ShortAndIntense | TimeForWarmUp

  function LevelTips(level: string): seq<Tip> {
    if level == "초급" then [FormBeforeWeight, WarmUpAndCoolDown, ListenToYourBody]
    else if level == "고급" then [ProgressiveOverload, MobilityAndRecovery]
    else []
  }

  function GoalTips(goal: string): seq<Tip> {
    if goal == "근육 증가" then [ProteinAndRest, CompoundFirst]
    else if goal == "다이어트" then [CardioWithStrength, WatchYourDiet]
    else []
  }

  function TimeTips(availableTime: int): seq<Tip> {
    if availableTime < 45 then [ShortAndIntense]
    else if availableTime > 90 then [TimeForWarmUp]
    else []
  }

  /** `_generate_tips`: level tips, then goal tips, then a time tip, cut to five. */
  function Tips(req: Schemas.RecommendationRequest): (r: seq<Tip>)
    ensures |r| == if |LevelTips(req.experienceLevel) + GoalTips(req.primaryGoal) + TimeTips(req.availableTime)| < 5
      then |LevelTips(req.experienceLevel) + GoalTips(req.primaryGoal) + TimeTips(req.availableTime)| else 5
    ensures r == (LevelTips(req.experienceLevel) + GoalTips(req.primaryGoal) + TimeTips(req.availableTime))[..|r|]
  {
    Tally.SliceTo(LevelTips(req.experienceLevel) + GoalTips(req.primaryGoal) + TimeTips(req.availableTime), 5)
  }

  /** The cut to five tips loses something only for a beginner with a muscle-gain or diet goal
      and a short or long session, and then it loses exactly the time tip. */
  lemma TipsTruncation(req: Schemas.RecommendationRequest)
    ensures var all := LevelTips(req.experienceLevel) + GoalTips(req.primaryGoal) + TimeTips(req.availableTime);
      |Tips(req)| < |all| <==>
        (req.experienceLevel == "초급" && (req.primaryGoal == "근육 증가" || req.primaryGoal == "다이어트")
         && (req.availableTime < 45 || req.availableTime > 90))
    ensures var all := LevelTips(req.experienceLevel) + GoalTips(req.primaryGoal) + TimeTips(req.availableTime);
      |Tips(req)| < |all| ==> Tips(req) == all[..5] && |all| == 6
  {
  }

  // ------------------------------------------------------ the whole week

  datatype Response = Response(
    success: bool,
    recommendation: seq<(string, DayRec)>,
    summary: Summary,
    tips: seq<Tip>,
    totalWeeklyDuration: int,
    difficultyScore: real)

  function WeeklyDuration(days: seq<DayRec>): int {
    if |days| == 0 then 0 else WeeklyDuration(days[..|days| - 1]) + days[|days| - 1].estimatedDuration
  }

  lemma DaysSnoc(rec: seq<(string, DayRec)>, x: (string, DayRec))
    ensures WeeklyDuration(Tally.Values(rec + [x])) == WeeklyDuration(Tally.Values(rec)) + x.1.estimatedDuration
  {
    assert Tally.Values(rec + [x])[..|rec|] == Tally.Values(rec);
  }

  /** A day of the response answers its plan: same key, name, body parts, warm-up and
      cool-down; its exercises are the day's selection, converted in order; its estimate is their
      minutes plus warm-up and cool-down, within the session time when something was selected. */
  predicate AnswersPlan(entry: (string, DayRec), plan: DayPlan, catalog: seq<Exercise>,
                        req: Schemas.RecommendationRequest, prefs: Preferences, jitter: Exercise -> int) {
    var sel := DaySelection(catalog, plan, prefs, jitter);
    && entry.0 == plan.key && entry.1.dayName == plan.name && entry.1.targetParts == plan.targetParts
    && entry.1.warmUpTime == plan.warmUpTime && entry.1.coolDownTime == plan.coolDownTime
    && |entry.1.exercises| == |sel|
    && (forall i :: 0 <= i < |sel| ==> entry.1.exercises[i] == ToRecommendation(sel[i].exercise, req))
    && entry.1.estimatedDuration == UsedTime(sel) + plan.warmUpTime + plan.coolDownTime
    && (|entry.1.exercises| > 0 ==> entry.1.estimatedDuration <= req.availableTime)
  }

  lemma AnswersSnoc(rec: seq<(string, DayRec)>, entry: (string, DayRec), plans: seq<DayPlan>, catalog: seq<Exercise>,
                    req: Schemas.RecommendationRequest, prefs: Preferences, jitter: Exercise -> int)
    requires |rec| < |plans|
    requires forall t :: 0 <= t < |rec| ==> AnswersPlan(rec[t], plans[t], catalog, req, prefs, jitter)
    requires AnswersPlan(entry, plans[|rec|], catalog, req, prefs, jitter)
    ensures forall t :: 0 <= t < |rec| + 1 ==> AnswersPlan((rec + [entry])[t], plans[t], catalog, req, prefs, jitter)
  {
    forall t | 0 <= t < |rec| + 1
      ensures AnswersPlan((rec + [entry])[t], plans[t], catalog, req, prefs, jitter)
    {
      if t < |rec| {
        assert (rec + [entry])[t] == rec[t];
      }
    }
  }

  /** One iteration of the day loop: the day's recommendation under its key. */
  method DayEntry(plan: DayPlan, catalog: seq<Exercise>, req: Schemas.RecommendationRequest,
                  prefs: Preferences, jitter: Exercise -> int) returns (entry: (string, DayRec))
    requires plan.mainWorkoutTime + plan.warmUpTime + plan.coolDownTime == plan.timeBudget == req.availableTime
    ensures AnswersPlan(entry, plan, catalog, req, prefs, jitter)
  {
    var day, picks := RecommendForDay(catalog, plan, req, prefs, jitter);
    entry := (plan.key, day);
  }

  /** The day loop of `generate_recommendation`: one recommendation per plan, in plan order, and
      the weekly total of their estimates. */
  method RecommendWeek(plans: seq<DayPlan>, catalog: seq<Exercise>, req: Schemas.RecommendationRequest,
                       prefs: Preferences, jitter: Exercise -> int) returns (rec: seq<(string, DayRec)>, total: int)
    requires forall t :: 0 <= t < |plans| ==>
      plans[t].mainWorkoutTime + plans[t].warmUpTime + plans[t].coolDownTime == plans[t].timeBudget == req.availableTime
    ensures |rec| == |plans|
    ensures forall t :: 0 <= t < |rec| ==> AnswersPlan(rec[t], plans[t], catalog, req, prefs, jitter)
    ensures total == WeeklyDuration(Tally.Values(rec))
  {
    rec := [];
    total := 0;
    var i := 0;
    while i < |plans|
      invariant 0 <= i <= |plans|
      invariant |rec| == i
      invariant forall t :: 0 <= t < i ==> AnswersPlan(rec[t], plans[t], catalog, req, prefs, jitter)
      invariant total == WeeklyDuration(Tally.Values(rec))
    {
      var entry := DayEntry(plans[i], catalog, req, prefs, jitter);
      DaysSnoc(rec, entry);
      AnswersSnoc(rec, entry, plans, catalog, req, prefs, jitter);
      rec := rec + [entry];
      total := total + entry.1.estimatedDuration;
      i := i + 1;
    }
  }

  /** `generate_recommendation` for a validated request, with the catalog, the user's feedback
      rows and the score jitter passed in. No lookup can fail for a valid request, so the
      response is always a success. */
  method GenerateRecommendation(req: Schemas.RecommendationRequest, catalog: seq<Exercise>,
                                fb: seq<DB.Feedback>, jitter: Exercise -> int) returns (resp: Response)
    requires Schemas.ValidRequest(req)
    ensures resp.success
    ensures |resp.recommendation| == DayCount(req.weeklyFrequency, |SplitGroups(req.splitType)|)
    ensures forall i :: 0 <= i < |resp.recommendation| ==>
      && resp.recommendation[i].0 == DayKey(i)
      && resp.recommendation[i].1.dayName == SplitGroups(req.splitType)[i].0
      && resp.recommendation[i].1.targetParts == SplitGroups(req.splitType)[i].1
    ensures forall i :: 0 <= i < |resp.recommendation| && |resp.recommendation[i].1.exercises| > 0 ==>
      resp.recommendation[i].1.estimatedDuration <= req.availableTime
    ensures forall i :: 0 <= i < |resp.recommendation| ==>
      AnswersPlan(resp.recommendation[i], PlanFor(req, i), catalog, req, AnalyzePreferences(req, fb), jitter)
    ensures resp.totalWeeklyDuration == WeeklyDuration(Tally.Values(resp.recommendation))
    ensures resp.summary == Summarize(req, Tally.Values(resp.recommendation), resp.totalWeeklyDuration)
    ensures resp.tips == Tips(req)
    ensures resp.difficultyScore == DifficultyScore(AllExercises(Tally.Values(resp.recommendation)))
  {
    var prefs := AnalyzePreferences(req, fb);
    var plans := GenerateDailyPlans(req);
    var rec, total := RecommendWeek(plans, catalog, req, prefs, jitter);
    var score := CalculateDifficultyScore(Tally.Values(rec));
    resp := Response(true, rec, Summarize(req, Tally.Values(rec), total), Tips(req), total, score);
  }
}
