/**
 * The database service's pure helpers: the parsers that turn a recommendation's
 * reps and rest strings into the integers stored with a saved plan, the filter rule of the
 * catalog query behind a recommendation, and the feedback statistics of user analytics.
 * Queries become predicates over an in-memory list in catalog order.
 */
module DatabaseService {
  import opened Wrappers
  import opened Strings
  import Tally
  import Schemas

  /** A row of the exercise catalog. */
  datatype Exercise = Exercise(
    id: int,
    name: string,
    nameEn: Option<string>,
    bodyPart: string,
    category: string,
    difficulty: string,
    duration: int,
    equipment: Option<string>,
    targetGoal: string,
    instructions: Option<string>,
    tips: Option<string>)

  /** A row of user feedback on one exercise. */
  datatype Feedback = Feedback(exerciseId: int, rating: int)

  // ------------------------------------------------------ reps and rest

  /** `_parse_reps_min`: the number before the first '-', or the whole number; None when `int`
      raises or the string is neither. */
  function ParseRepsMin(s: string): Option<int> {
    if '-' in s then ParseInt(Split(s, '-')[0])
    else if IsDigitString(s) then ParseInt(s)
    else None
  }

  /** `_parse_reps_max`: the number between the first and the second '-', or the whole number. */
  function ParseRepsMax(s: string): Option<int> {
    if '-' in s then ParseInt(Split(s, '-')[1])
    else if IsDigitString(s) then ParseInt(s)
    else None
  }

  /** `_parse_rest_seconds`: minutes before the first '-' of a string holding '분', times 60;
      else the seconds of a string holding '초'; 120 for anything else or anything unparsable. */
  function ParseRestSeconds(s: string): int {
    if '분' in s then
      match ParseInt(Split(RemoveChar(s, '분'), '-')[0])
      case Some(m) => m * 60
      case None => 120
    else if '초' in s then
      match ParseInt(RemoveChar(s, '초'))
      case Some(n) => n
      case None => 120
    else 120
  }

  lemma DigitsHaveNo(s: string, c: char)
    requires AllDigits(s) && !IsDigit(c)
    ensures c !in s
  {
    forall i | 0 <= i < |s| ensures s[i] != c {
      assert IsDigit(s[i]);
    }
  }

  lemma SplitRange(a: nat, b: nat)
    ensures Split(NatToString(a) + "-" + NatToString(b), '-') == [NatToString(a), NatToString(b)]
  {
    DigitsHaveNo(NatToString(a), '-');
    DigitsHaveNo(NatToString(b), '-');
    SplitAtFirst(NatToString(a), NatToString(b), '-');
    SplitNoSeparator(NatToString(b), '-');
  }

  /** A range "a-b" parses to a as its minimum and b as its maximum. */
  lemma RepsRangeRoundTrip(a: nat, b: nat)
    ensures ParseRepsMin(NatToString(a) + "-" + NatToString(b)) == Some(a)
    ensures ParseRepsMax(NatToString(a) + "-" + NatToString(b)) == Some(b)
  {
    var s := NatToString(a) + "-" + NatToString(b);
    assert s[|NatToString(a)|] == '-';
    SplitRange(a, b);
    ParseIntNatToString(a);
    ParseIntNatToString(b);
  }

  /** A plain number is both the minimum and the maximum. */
  lemma RepsSingleNumber(s: string)
    requires IsDigitString(s)
    ensures ParseRepsMin(s) == ParseRepsMax(s) == Some(DigitsValue(s))
  {
    DigitsHaveNo(s, '-');
    ParseIntDigits(s);
  }

  /** A string without '-' that is not all digits (such as "30분" or "10초 유지") gives no count. */
  lemma RepsOtherwiseNone(s: string)
    requires '-' !in s && !IsDigitString(s)
    ensures ParseRepsMin(s) == None && ParseRepsMax(s) == None
  {
  }

  lemma RemoveSuffixChar(s: string, c: char)
    requires AllDigits(s) && !IsDigit(c)
    ensures RemoveChar(s + [c], c) == s
  {
    DigitsHaveNo(s, c);
    RemoveCharAppend(s, [c], c);
  }

  /** "N분" is N minutes. */
  lemma RestMinutes(n: nat)
    ensures ParseRestSeconds(NatToString(n) + "분") == 60 * n
  {
    var d := NatToString(n);
    assert (d + "분")[|d|] == '분';
    RemoveSuffixChar(d, '분');
    DigitsHaveNo(d, '-');
    SplitNoSeparator(d, '-');
    ParseIntNatToString(n);
  }

  /** "A-B분" is A minutes: the lower end of the range is used. */
  lemma RestMinuteRange(a: nat, b: nat)
    ensures ParseRestSeconds(NatToString(a) + "-" + NatToString(b) + "분") == 60 * a
  {
    var r := NatToString(a) + "-" + NatToString(b);
    var s := r + "분";
    assert s[|r|] == '분';
    DigitsHaveNo(NatToString(a), '분');
    DigitsHaveNo(NatToString(b), '분');
    RemoveCharAppend(NatToString(a) + "-", NatToString(b), '분');
    RemoveCharAppend(NatToString(a), "-", '분');
    RemoveCharAppend(r, "분", '분');
    assert RemoveChar(s, '분') == r;
    SplitRange(a, b);
    ParseIntNatToString(a);
  }

  /** "N초" is N seconds, because '분' is looked for first and does not occur. */
  lemma RestSeconds(n: nat)
    ensures ParseRestSeconds(NatToString(n) + "초") == n
  {
    var d := NatToString(n);
    assert (d + "초")[|d|] == '초';
    DigitsHaveNo(d, '분');
    assert '분' !in d + "초";
    RemoveSuffixChar(d, '초');
    ParseIntNatToString(n);
  }

  /** Without '분' and '초' the rest is the 120-second default; nothing raises. */
  lemma RestDefault(s: string)
    requires '분' !in s && '초' !in s
    ensures ParseRestSeconds(s) == 120
  {
  }

  // --------------------------------------------------- catalog filter

  /** The difficulties allowed for an experience level; an unknown level allows 초급 and 중급. */
  function AllowedDifficulties(level: string): (r: seq<string>)
    ensures "초급" in r
    ensures level == "고급" <==> "고급" in r
    ensures level == "초급" <==> r == ["초급"]
    ensures level == "고급" ==> r == ["초급", "중급", "고급"]
    ensures level != "초급" && level != "고급" ==> r == ["초급", "중급"]
  {
    if level == "초급" then ["초급"]
    else if level == "중급" then ["초급", "중급"]
    else if level == "고급" then ["초급", "중급", "고급"]
    else ["초급", "중급"]
  }

  /** The longest exercise a session of `availableTime` minutes admits: half of it, at most 60. */
  function MaxDuration(availableTime: int): (m: int)
    ensures m <= 60 && 2 * m <= availableTime
    ensures availableTime < 120 ==> 2 * m >= availableTime - 1
  {
    var half := availableTime / 2;
    if half < 60 then half else 60
  }

  /** `Exercise.name.in_(excluded)` is only applied for a non-empty exclusion list. */
  predicate Excluded(e: Exercise, exclude: Option<seq<string>>) {
    exclude.Some? && |exclude.value| > 0 && e.name in exclude.value
  }

  predicate SuitsRequest(e: Exercise, req: Schemas.RecommendationRequest) {
    && e.targetGoal == req.primaryGoal
    && e.difficulty in AllowedDifficulties(req.experienceLevel)
    && !Excluded(e, req.excludeExercises)
    && e.duration <= MaxDuration(req.availableTime)
  }

  /** `get_exercises_for_recommendation` over the catalog in catalog order: exactly the rows that
      match the goal, the level's difficulties, the exclusions and the duration cap. */
  function ExercisesForRecommendation(catalog: seq<Exercise>, req: Schemas.RecommendationRequest): (r: seq<Exercise>)
    ensures forall i :: 0 <= i < |r| ==> r[i] in catalog
    ensures forall i :: 0 <= i < |r| ==> r[i].targetGoal == req.primaryGoal
    ensures forall i :: 0 <= i < |r| ==> r[i].difficulty in AllowedDifficulties(req.experienceLevel)
    ensures forall i :: 0 <= i < |r| ==> r[i].duration <= 60 && 2 * r[i].duration <= req.availableTime
    ensures forall i :: 0 <= i < |r| ==> !Excluded(r[i], req.excludeExercises)
    ensures forall i :: 0 <= i < |catalog| && SuitsRequest(catalog[i], req) ==> catalog[i] in r
  {
    Tally.Filter(catalog, e => SuitsRequest(e, req))
  }

  /** The query keeps catalog order: filtering two halves of the catalog and concatenating is
      filtering the whole. */
  lemma ForRecommendationKeepsOrder(a: seq<Exercise>, b: seq<Exercise>, req: Schemas.RecommendationRequest)
    ensures ExercisesForRecommendation(a + b, req) == ExercisesForRecommendation(a, req) + ExercisesForRecommendation(b, req)
  {
    Tally.FilterAppend(a, b, e => SuitsRequest(e, req));
  }

  // ------------------------------------------------- feedback statistics

  datatype FeedbackStats = FeedbackStats(
    totalFeedback: nat,
    avgRating: real,
    preferredExercises: seq<int>,
    dislikedExercises: seq<int>)

  function Ratings(fb: seq<Feedback>): (r: seq<int>)
    ensures |r| == |fb| && forall i :: 0 <= i < |fb| ==> r[i] == fb[i].rating
  {
    if |fb| == 0 then [] else Ratings(fb[..|fb| - 1]) + [fb[|fb| - 1].rating]
  }

  function Ids(fb: seq<Feedback>): (r: seq<int>)
    ensures |r| == |fb| && forall i :: 0 <= i < |fb| ==> r[i] == fb[i].exerciseId
  {
    if |fb| == 0 then [] else Ids(fb[..|fb| - 1]) + [fb[|fb| - 1].exerciseId]
  }

  predicate IsLiked(f: Feedback) { f.rating >= 4 }
  predicate IsDisliked(f: Feedback) { f.rating <= 2 }
  predicate IsNeutral(f: Feedback) { f.rating == 3 }

  /** The rows rated 4 or more, in order. */
  function LikedRows(fb: seq<Feedback>): seq<Feedback> { Tally.Filter(fb, IsLiked) }

  /** The rows rated 2 or less, in order. */
  function DislikedRows(fb: seq<Feedback>): seq<Feedback> { Tally.Filter(fb, IsDisliked) }

  /** The `feedback_stats` of user analytics: the average is 0 without feedback (exact, where
      Python divides in floating point). */
  function Stats(fb: seq<Feedback>): (s: FeedbackStats)
    ensures s.totalFeedback == |fb|
    ensures |fb| == 0 ==> s.avgRating == 0.0
    ensures |fb| > 0 ==> s.avgRating == Tally.Sum(Ratings(fb)) as real / |fb| as real
    ensures |s.preferredExercises| + |s.dislikedExercises| <= |fb|
    ensures exists rows :: Tally.Selects(rows, fb, IsLiked) && s.preferredExercises == Ids(rows)
    ensures exists rows :: Tally.Selects(rows, fb, IsDisliked) && s.dislikedExercises == Ids(rows)
  {
    PartitionSizes(fb);
    Tally.FilterSelects(fb, IsLiked);
    Tally.FilterSelects(fb, IsDisliked);
    var avg := Mean(Tally.Sum(Ratings(fb)), |fb|);
    FeedbackStats(|fb|, avg, Ids(LikedRows(fb)), Ids(DislikedRows(fb)))
  }

  /** `total / count if count else 0`, exactly. */
  function Mean(total: int, count: nat): (m: real)
    ensures count == 0 ==> m == 0.0
    ensures count > 0 ==> m * (count as real) == total as real
  {
    if count > 0 then total as real / count as real else 0.0
  }

  /** Every feedback row is liked, disliked or neutral (rating 3), and never two of these. */
  lemma {:induction false} PartitionSizes(fb: seq<Feedback>)
    ensures |Tally.Filter(fb, IsLiked)| + |Tally.Filter(fb, IsDisliked)| + |Tally.Filter(fb, IsNeutral)| == |fb|
  {
    if |fb| > 0 {
      PartitionSizes(fb[..|fb| - 1]);
    }
  }

  /** With ratings in 1..5 the average lies in [1, 5]. */
  lemma AverageInRange(fb: seq<Feedback>)
    requires |fb| > 0
    requires forall i :: 0 <= i < |fb| ==> 1 <= fb[i].rating <= 5
    ensures 1.0 <= Stats(fb).avgRating <= 5.0
  {
    SumBounds(fb);
    MeanBounds(Tally.Sum(Ratings(fb)), |fb|, 1, 5);
  }

  lemma MeanBounds(total: int, count: nat, lo: int, hi: int)
    requires count > 0 && lo * count <= total <= hi * count
    ensures lo as real <= Mean(total, count) <= hi as real
  {
    var m := Mean(total, count);
    var n := count as real;
    assert (m - lo as real) * n == (total - lo * count) as real;
    assert (hi as real - m) * n == (hi * count - total) as real;
  }

  lemma {:induction false} SumBounds(fb: seq<Feedback>)
    requires forall i :: 0 <= i < |fb| ==> 1 <= fb[i].rating <= 5
    ensures |fb| <= Tally.Sum(Ratings(fb)) <= 5 * |fb|
  {
    if |fb| > 0 {
      SumBounds(fb[..|fb| - 1]);
      assert Ratings(fb)[..|fb| - 1] == Ratings(fb[..|fb| - 1]);
    }
  }

  /** An exercise is listed as preferred exactly when one of its rows is rated 4 or more, and as
      disliked exactly when one is rated 2 or less. */
  lemma StatsCoverRatings(fb: seq<Feedback>)
    ensures forall id :: id in Stats(fb).preferredExercises <==>
      exists i :: 0 <= i < |fb| && fb[i].rating >= 4 && fb[i].exerciseId == id
    ensures forall id :: id in Stats(fb).dislikedExercises <==>
      exists i :: 0 <= i < |fb| && fb[i].rating <= 2 && fb[i].exerciseId == id
  {
    RowIdsExact(fb, IsLiked);
    RowIdsExact(fb, IsDisliked);
  }

  /** The ids of the rows a filter keeps are exactly the ids of rows satisfying it. */
  lemma RowIdsExact(fb: seq<Feedback>, p: Feedback -> bool)
    ensures forall id :: id in Ids(Tally.Filter(fb, p)) <==> exists i :: 0 <= i < |fb| && p(fb[i]) && fb[i].exerciseId == id
  {
    var rows := Tally.Filter(fb, p);
    var ids := Ids(rows);
    forall id | id in ids ensures exists i :: 0 <= i < |fb| && p(fb[i]) && fb[i].exerciseId == id {
      var t :| 0 <= t < |ids| && ids[t] == id;
      assert p(rows[t]) && rows[t] in fb;
      var i :| 0 <= i < |fb| && fb[i] == rows[t];
      assert p(fb[i]) && fb[i].exerciseId == id;
    }
    forall id | exists i :: 0 <= i < |fb| && p(fb[i]) && fb[i].exerciseId == id ensures id in ids {
      var i :| 0 <= i < |fb| && p(fb[i]) && fb[i].exerciseId == id;
      assert fb[i] in rows;
      var t :| 0 <= t < |rows| && rows[t] == fb[i];
      assert ids[t] == id;
    }
  }

  /** With one feedback row per exercise, no exercise is both preferred and disliked. */
  lemma PreferredDislikedDisjoint(fb: seq<Feedback>)
    requires Tally.Distinct(Ids(fb))
    ensures forall id :: id in Stats(fb).preferredExercises ==> id !in Stats(fb).dislikedExercises
  {
    var liked := Tally.Filter(fb, IsLiked);
    var disliked := Tally.Filter(fb, IsDisliked);
    forall i, j | 0 <= i < |liked| && 0 <= j < |disliked| ensures liked[i].exerciseId != disliked[j].exerciseId {
      var p :| 0 <= p < |fb| && fb[p] == liked[i];
      var q :| 0 <= q < |fb| && fb[q] == disliked[j];
      assert fb[p].rating != fb[q].rating;
      assert Ids(fb)[p] != Ids(fb)[q];
    }
  }

  /** Two rows for the same exercise, one rated 5 and one rated 1, put it in both lists. */
  lemma PreferredDislikedOverlap()
    ensures var s := Stats([Feedback(7, 5), Feedback(7, 1)]);
      7 in s.preferredExercises && 7 in s.dislikedExercises
  {
    var fb := [Feedback(7, 5), Feedback(7, 1)];
    assert Tally.Filter(fb, IsLiked) == [Feedback(7, 5)];
    assert Tally.Filter(fb, IsDisliked) == [Feedback(7, 1)];
  }
}
