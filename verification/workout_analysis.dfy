/**
 * The workout-pattern analysis over a user's logs of a period: totals, per-body-part
 * statistics, the most frequent exercises and the intensity counts, and the insights
 * drawn from them (over- and under-worked parts, intensity, balance and frequency advice).
 * The logs of the period are given: the date window and the database query are not
 * modelled. The average time per workout is kept as an exact rational.
 */
module WorkoutAnalysis {
  import opened Wrappers
  import Tally

  // ------------------------------------------------------------- the logs

  /** A logged exercise joined with its catalogue entry. */
  datatype LogExercise = LogExercise(name: string, bodyPart: string, minutes: int, intensity: string)

  datatype DailyLog = DailyLog(exercises: seq<LogExercise>)

  function ExerciseCount(log: DailyLog): int { |log.exercises| }
  function BodyPartOf(e: LogExercise): string { e.bodyPart }
  function MinutesOf(e: LogExercise): int { e.minutes }
  function IntensityOf(e: LogExercise): string { e.intensity }
  function ExerciseKey(e: LogExercise): (string, string) { (e.name, e.bodyPart) }

  /** The logs' exercises, log after log. */
  function AllExercises(logs: seq<DailyLog>): seq<LogExercise> {
    if |logs| == 0 then [] else AllExercises(logs[..|logs| - 1]) + logs[|logs| - 1].exercises
  }

  /** The exercises of all logs number the sum of the logs' exercise counts. */
  lemma {:induction false} AllExercisesCount(logs: seq<DailyLog>)
    ensures |AllExercises(logs)| == Tally.Sum(Tally.MapSeq(logs, ExerciseCount))
  {
    if |logs| > 0 {
      var p := logs[..|logs| - 1];
      AllExercisesCount(p);
      assert Tally.MapSeq(logs, ExerciseCount)[..|p|] == Tally.MapSeq(p, ExerciseCount);
    }
  }

  // ------------------------------------------------- per-body-part entries

  /** What the analysis keeps per body part: exercises, minutes and the distinct names. */
  datatype PartStat = PartStat(part: string, count: nat, minutes: int, names: seq<string>)

  /** One more exercise for a part; the first one opens the part's entry. */
  function Record(prev: Option<PartStat>, e: LogExercise): PartStat {
    match prev
    case None => PartStat(e.bodyPart, 1, e.minutes, [e.name])
    case Some(s) =>
      PartStat(s.part, s.count + 1, s.minutes + e.minutes, AddName(s.names, e.name))
  }

  /** A name joins a list of distinct names unless it is already there. */
  function AddName(names: seq<string>, name: string): seq<string> {
    if name in names then names else names + [name]
  }

  /** The entry of a part, if it has one. */
  function Lookup(stats: seq<PartStat>, part: string): Option<PartStat> {
    if |stats| == 0 then None
    else if stats[0].part == part then Some(stats[0])
    else Lookup(stats[1..], part)
  }

  function PartsOf(stats: seq<PartStat>): (ps: seq<string>)
    ensures |ps| == |stats| && forall i :: 0 <= i < |stats| ==> ps[i] == stats[i].part
  {
    if |stats| == 0 then [] else [stats[0].part] + PartsOf(stats[1..])
  }

  /** The per-part entries after one exercise: a new part is appended, a known part is
      updated where it stands. */
  function AddExercise(stats: seq<PartStat>, e: LogExercise): seq<PartStat> {
    if |stats| == 0 then [Record(None, e)]
    else if stats[0].part == e.bodyPart then [Record(Some(stats[0]), e)] + stats[1..]
    else [stats[0]] + AddExercise(stats[1..], e)
  }

  /** The per-part entries a loop over `es` builds. */
  function PartStatsOf(es: seq<LogExercise>): seq<PartStat> {
    if |es| == 0 then [] else AddExercise(PartStatsOf(es[..|es| - 1]), es[|es| - 1])
  }

  /** Names of the exercises of a part, in log order, repetitions included. */
  function NamesFor(es: seq<LogExercise>, part: string): seq<string> {
    if |es| == 0 then []
    else NamesFor(es[..|es| - 1], part) + (if es[|es| - 1].bodyPart == part then [es[|es| - 1].name] else [])
  }

  /** Minutes spent on a part. */
  function MinutesFor(es: seq<LogExercise>, part: string): int {
    if |es| == 0 then 0
    else MinutesFor(es[..|es| - 1], part) + (if es[|es| - 1].bodyPart == part then es[|es| - 1].minutes else 0)
  }

  function StatCount(s: PartStat): int { s.count }

  /** Adding an exercise changes only the entry of its own part. */
  lemma {:induction false} AddExerciseLookup(stats: seq<PartStat>, e: LogExercise, p: string)
    ensures Lookup(AddExercise(stats, e), p) == if p == e.bodyPart then Some(Record(Lookup(stats, p), e)) else Lookup(stats, p)
  {
    if |stats| > 0 && stats[0].part != e.bodyPart {
      AddExerciseLookup(stats[1..], e, p);
      assert ([stats[0]] + AddExercise(stats[1..], e))[1..] == AddExercise(stats[1..], e);
    } else if |stats| > 0 {
      assert ([Record(Some(stats[0]), e)] + stats[1..])[1..] == stats[1..];
    }
  }

  lemma {:induction false} AddExerciseParts(stats: seq<PartStat>, e: LogExercise)
    ensures PartsOf(AddExercise(stats, e)) == if e.bodyPart in PartsOf(stats) then PartsOf(stats) else PartsOf(stats) + [e.bodyPart]
    ensures Tally.SumBy(AddExercise(stats, e), StatCount) == Tally.SumBy(stats, StatCount) + 1
  {
    if |stats| > 0 && stats[0].part != e.bodyPart {
      AddExerciseParts(stats[1..], e);
      assert ([stats[0]] + AddExercise(stats[1..], e))[1..] == AddExercise(stats[1..], e);
      assert PartsOf(stats) == [stats[0].part] + PartsOf(stats[1..]);
    } else if |stats| > 0 {
      assert ([Record(Some(stats[0]), e)] + stats[1..])[1..] == stats[1..];
    }
  }

  /** A part that never occurs has no names and no minutes. */
  lemma {:induction false} AbsentPart(es: seq<LogExercise>, p: string)
    requires p !in Tally.MapSeq(es, BodyPartOf)
    ensures NamesFor(es, p) == [] && MinutesFor(es, p) == 0
  {
    if |es| > 0 {
      assert Tally.MapSeq(es, BodyPartOf)[..|es| - 1] == Tally.MapSeq(es[..|es| - 1], BodyPartOf);
      AbsentPart(es[..|es| - 1], p);
    }
  }

  /** The per-part entries hold each logged part once, in first-seen order, and their
      counts add up to the number of exercises. */
  lemma {:induction false} PartStatsParts(es: seq<LogExercise>)
    ensures PartsOf(PartStatsOf(es)) == Tally.Dedup(Tally.MapSeq(es, BodyPartOf))
    ensures Tally.Distinct(PartsOf(PartStatsOf(es)))
    ensures Tally.SumBy(PartStatsOf(es), StatCount) == |es|
  {
    if |es| > 0 {
      var p := es[..|es| - 1];
      PartStatsParts(p);
      AddExerciseParts(PartStatsOf(p), es[|es| - 1]);
    }
    Tally.DedupFacts(Tally.MapSeq(es, BodyPartOf));
  }

  /** Number of exercises of a part. */
  function CountFor(es: seq<LogExercise>, part: string): nat {
    if |es| == 0 then 0
    else CountFor(es[..|es| - 1], part) + (if es[|es| - 1].bodyPart == part then 1 else 0)
  }

  /** A part's exercise count is the number of times it occurs among the logged parts. */
  lemma {:induction false} CountForFacts(es: seq<LogExercise>, p: string)
    ensures CountFor(es, p) == Tally.Count(Tally.MapSeq(es, BodyPartOf), p)
    ensures p in Tally.MapSeq(es, BodyPartOf) <==> CountFor(es, p) > 0
  {
    if |es| > 0 {
      var pre, e := es[..|es| - 1], es[|es| - 1];
      assert es == pre + [e];
      CountForFacts(pre, p);
      Tally.MapSeqSnoc(pre, e, BodyPartOf);
      var parts := Tally.MapSeq(pre, BodyPartOf);
      assert multiset(parts + [e.bodyPart]) == multiset(parts) + multiset{e.bodyPart};
    }
  }

  /** The entry a part should have after `es`: its number of exercises, their minutes and
      their distinct names in first-seen order; none for a part never logged. */
  function PartEntry(es: seq<LogExercise>, p: string): Option<PartStat> {
    if CountFor(es, p) == 0 then None
    else Some(PartStat(p, CountFor(es, p), MinutesFor(es, p), Tally.Dedup(NamesFor(es, p))))
  }

  /** The last exercise leaves the entries of the other parts as they were. */
  lemma PartEntryOther(es: seq<LogExercise>, p: string)
    requires |es| > 0 && p != es[|es| - 1].bodyPart
    ensures PartEntry(es, p) == PartEntry(es[..|es| - 1], p)
  {
    assert NamesFor(es, p) == NamesFor(es[..|es| - 1], p);
  }

  /** The first exercise of a part opens its entry. */
  lemma PartEntryFirst(es: seq<LogExercise>)
    requires |es| > 0 && CountFor(es[..|es| - 1], es[|es| - 1].bodyPart) == 0
    ensures PartEntry(es, es[|es| - 1].bodyPart) == Some(Record(None, es[|es| - 1]))
  {
    var pre, e := es[..|es| - 1], es[|es| - 1];
    CountForFacts(pre, e.bodyPart);
    AbsentPart(pre, e.bodyPart);
    assert NamesFor(es, e.bodyPart) == [] + [e.name];
    Tally.DedupSnoc([], e.name);
  }

  /** A later exercise of a part updates its entry. */
  lemma PartEntryAgain(es: seq<LogExercise>)
    requires |es| > 0 && CountFor(es[..|es| - 1], es[|es| - 1].bodyPart) > 0
    ensures PartEntry(es, es[|es| - 1].bodyPart) == Some(Record(PartEntry(es[..|es| - 1], es[|es| - 1].bodyPart), es[|es| - 1]))
  {
    var pre, e := es[..|es| - 1], es[|es| - 1];
    Tally.DedupSnoc(NamesFor(pre, e.bodyPart), e.name);
  }

  /** The entries the loop builds are the entries each part should have. */
  lemma {:induction false} PartStatsLookup(es: seq<LogExercise>, p: string)
    ensures Lookup(PartStatsOf(es), p) == PartEntry(es, p)
  {
    if |es| > 0 {
      var pre, e := es[..|es| - 1], es[|es| - 1];
      PartStatsLookup(pre, p);
      AddExerciseLookup(PartStatsOf(pre), e, p);
      if p != e.bodyPart {
        PartEntryOther(es, p);
      } else if CountFor(pre, p) > 0 {
        PartEntryAgain(es);
      } else {
        PartEntryFirst(es);
      }
    }
  }

  /** Without repeated parts, a part's entry is found where it stands. */
  lemma {:induction false} LookupIndex(stats: seq<PartStat>, i: nat)
    requires Tally.Distinct(PartsOf(stats)) && i < |stats|
    ensures Lookup(stats, stats[i].part) == Some(stats[i])
  {
    if i > 0 {
      var ps, rest := PartsOf(stats), PartsOf(stats[1..]);
      assert ps[0] != ps[i];
      forall a, b | 0 <= a < b < |rest| ensures rest[a] != rest[b] {
        assert rest[a] == ps[a + 1] && rest[b] == ps[b + 1];
      }
      LookupIndex(stats[1..], i - 1);
    }
  }

  /** A name is listed for a part exactly when an exercise of that part carries it. */
  lemma {:induction false} NamesForMembers(es: seq<LogExercise>, part: string, n: string)
    ensures n in NamesFor(es, part) <==> exists k :: 0 <= k < |es| && es[k].bodyPart == part && es[k].name == n
  {
    if |es| > 0 {
      var pre := es[..|es| - 1];
      NamesForMembers(pre, part, n);
      if n in NamesFor(pre, part) {
        var k :| 0 <= k < |pre| && pre[k].bodyPart == part && pre[k].name == n;
        assert es[k] == pre[k];
      }
      if exists k :: 0 <= k < |es| && es[k].bodyPart == part && es[k].name == n {
        var k :| 0 <= k < |es| && es[k].bodyPart == part && es[k].name == n;
        if k < |pre| {
          assert pre[k] == es[k];
        }
      }
    }
  }

  // ------------------------------------------------------ body-part distribution

  /** One row of the body-part distribution; the share is a percentage kept in tenths. */
  datatype BodyPartAnalysis = BodyPartAnalysis(bodyPart: string, exerciseCount: nat, totalTime: int, percentTenths: nat, exercises: seq<string>)

  /** A part's row: its share of all exercises, rounded to a tenth, and its first five names. */
  function ToAnalysis(s: PartStat, total: nat): BodyPartAnalysis {
    BodyPartAnalysis(s.part, s.count, s.minutes, Tally.PercentTenths(s.count, total), Tally.SliceTo(s.names, 5))
  }

  /** The rows of the entries, in the order of the entries. */
  function Analyses(stats: seq<PartStat>, total: nat): (rows: seq<BodyPartAnalysis>)
    ensures |rows| == |stats| && forall i :: 0 <= i < |stats| ==> rows[i] == ToAnalysis(stats[i], total)
  {
    if |stats| == 0 then [] else [ToAnalysis(stats[0], total)] + Analyses(stats[1..], total)
  }

  function PercentKey(a: BodyPartAnalysis): int { a.percentTenths }
  function AnalysisCount(a: BodyPartAnalysis): int { a.exerciseCount }
  function AnalysisPart(a: BodyPartAnalysis): string { a.bodyPart }

  /** The rows sorted by decreasing share; rows with equal shares keep first-seen order. */
  function Distribution(es: seq<LogExercise>): seq<BodyPartAnalysis> {
    Tally.SortDesc(Analyses(PartStatsOf(es), |es|), PercentKey)
  }

  /** What a row says about a logged part: how many exercises it had, its minutes, its
      rounded share of all exercises and the first five of its distinct names, in the order
      they were first logged. */
  predicate Describes(es: seq<LogExercise>, a: BodyPartAnalysis) {
    var parts := Tally.MapSeq(es, BodyPartOf);
    a.bodyPart in parts
    && a.exerciseCount == Tally.Count(parts, a.bodyPart)
    && a.totalTime == MinutesFor(es, a.bodyPart)
    && a.percentTenths == Tally.PercentTenths(a.exerciseCount, |es|)
    && a.exercises == Tally.SliceTo(Tally.Dedup(NamesFor(es, a.bodyPart)), 5)
  }

  lemma {:induction false} AnalysesDescribe(es: seq<LogExercise>, rows: seq<BodyPartAnalysis>)
    requires rows == Analyses(PartStatsOf(es), |es|)
    ensures forall i :: 0 <= i < |rows| ==> Describes(es, rows[i])
  {
    var stats := PartStatsOf(es);
    PartStatsParts(es);
    forall i | 0 <= i < |stats| ensures Describes(es, Analyses(stats, |es|)[i]) {
      LookupIndex(stats, i);
      PartStatsLookup(es, stats[i].part);
      CountForFacts(es, stats[i].part);
    }
  }

  /** Every row of the distribution describes its part, and the rows are ordered by
      non-increasing share. */
  lemma DistributionFacts(es: seq<LogExercise>)
    ensures Tally.SortedDesc(Distribution(es), PercentKey)
    ensures forall i :: 0 <= i < |Distribution(es)| ==> Describes(es, Distribution(es)[i])
  {
    var rows := Analyses(PartStatsOf(es), |es|);
    Tally.SortDescFacts(rows, PercentKey);
    AnalysesDescribe(es, rows);
    PermutedRows(es, rows, Distribution(es));
  }

  lemma PermutedRows(es: seq<LogExercise>, rows: seq<BodyPartAnalysis>, d: seq<BodyPartAnalysis>)
    requires multiset(rows) == multiset(d)
    requires forall i :: 0 <= i < |rows| ==> Describes(es, rows[i])
    ensures forall i :: 0 <= i < |d| ==> Describes(es, d[i])
  {
    forall i | 0 <= i < |d| ensures Describes(es, d[i]) {
      assert d[i] in multiset(rows);
      var j :| 0 <= j < |rows| && rows[j] == d[i];
    }
  }

  lemma PermutedPart(rows: seq<BodyPartAnalysis>, d: seq<BodyPartAnalysis>, j: nat)
    requires multiset(rows) == multiset(d) && j < |rows|
    ensures rows[j].bodyPart in Tally.MapSeq(d, AnalysisPart)
  {
    assert rows[j] in multiset(d);
    var i :| 0 <= i < |d| && d[i] == rows[j];
    assert Tally.MapSeq(d, AnalysisPart)[i] == rows[j].bodyPart;
  }

  lemma {:induction false} AnalysesCount(stats: seq<PartStat>, total: nat)
    ensures Tally.SumBy(Analyses(stats, total), AnalysisCount) == Tally.SumBy(stats, StatCount)
  {
    if |stats| > 0 {
      AnalysesCount(stats[1..], total);
      assert Analyses(stats, total)[1..] == Analyses(stats[1..], total);
    }
  }

  /** The rows' exercise counts add up to the number of exercises. */
  lemma DistributionCount(es: seq<LogExercise>)
    ensures Tally.SumBy(Distribution(es), AnalysisCount) == |es|
  {
    var stats := PartStatsOf(es);
    Tally.SortDescSumBy(Analyses(stats, |es|), PercentKey, AnalysisCount);
    AnalysesCount(stats, |es|);
    PartStatsParts(es);
  }

  /** The distribution has a row for every logged part, and for no other. */
  lemma DistributionParts(es: seq<LogExercise>)
    ensures forall p :: p in Tally.MapSeq(es, BodyPartOf) <==> p in Tally.MapSeq(Distribution(es), AnalysisPart)
  {
    var stats := PartStatsOf(es);
    var rows := Analyses(stats, |es|);
    var d := Distribution(es);
    var parts := Tally.MapSeq(es, BodyPartOf);
    forall p | p in parts ensures p in Tally.MapSeq(d, AnalysisPart) {
      RowOfPart(es, p);
    }
    forall p | p in Tally.MapSeq(d, AnalysisPart) ensures p in parts {
      DistributionFacts(es);
      var i :| 0 <= i < |d| && Tally.MapSeq(d, AnalysisPart)[i] == p;
      assert Describes(es, d[i]);
    }
  }

  lemma RowOfPart(es: seq<LogExercise>, p: string)
    requires p in Tally.MapSeq(es, BodyPartOf)
    ensures p in Tally.MapSeq(Distribution(es), AnalysisPart)
  {
    var rows := Analyses(PartStatsOf(es), |es|);
    var j := PartIndex(es, p);
    assert rows[j].bodyPart == p;
    Tally.SortDescFacts(rows, PercentKey);
    PermutedPart(rows, Distribution(es), j);
  }

  /** Where a logged part's entry stands. */
  lemma PartIndex(es: seq<LogExercise>, p: string) returns (j: nat)
    requires p in Tally.MapSeq(es, BodyPartOf)
    ensures j < |PartStatsOf(es)| && PartStatsOf(es)[j].part == p
  {
    var stats := PartStatsOf(es);
    PartStatsParts(es);
    Tally.DedupFacts(Tally.MapSeq(es, BodyPartOf));
    assert p in PartsOf(stats);
    j :| 0 <= j < |stats| && PartsOf(stats)[j] == p;
  }

  /** A row is determined by its part. */
  lemma SamePartSameRow(es: seq<LogExercise>, x: BodyPartAnalysis, y: BodyPartAnalysis)
    requires Describes(es, x) && Describes(es, y)
    ensures x.bodyPart == y.bodyPart ==> x == y
  {
  }

  /** No part has two rows. */
  lemma DistributionDistinct(es: seq<LogExercise>)
    ensures Tally.Distinct(Tally.MapSeq(Distribution(es), AnalysisPart))
  {
    var rows := Analyses(PartStatsOf(es), |es|);
    var d := Distribution(es);
    RowsDistinct(es);
    Tally.SortDescFacts(rows, PercentKey);
    Tally.DistinctPermutation(rows, d);
    DistributionFacts(es);
    var ps := Tally.MapSeq(d, AnalysisPart);
    forall a, b | 0 <= a < b < |d| ensures ps[a] != ps[b] {
      SamePartSameRow(es, d[a], d[b]);
    }
  }

  lemma RowsDistinct(es: seq<LogExercise>)
    ensures Tally.Distinct(Analyses(PartStatsOf(es), |es|))
  {
    var stats := PartStatsOf(es);
    var rows := Analyses(stats, |es|);
    PartStatsParts(es);
    forall a, b | 0 <= a < b < |rows| ensures rows[a] != rows[b] {
      assert PartsOf(stats)[a] != PartsOf(stats)[b];
    }
  }

  /** A row lists at most five names, without repeats, each the name of an exercise
      logged for its part. */
  lemma RowNames(es: seq<LogExercise>, a: BodyPartAnalysis, n: string)
    requires Describes(es, a)
    ensures |a.exercises| <= 5 && Tally.Distinct(a.exercises)
    ensures n in a.exercises ==> exists k :: 0 <= k < |es| && es[k].bodyPart == a.bodyPart && es[k].name == n
  {
    var names := NamesFor(es, a.bodyPart);
    Tally.DedupFacts(names);
    NamesForMembers(es, a.bodyPart, n);
    if n in a.exercises {
      assert n in Tally.Dedup(names);
    }
  }

  // ------------------------------------------------------- most frequent exercises

  datatype FrequentExercise = FrequentExercise(name: string, bodyPart: string, count: nat)

  function KeyCount(entry: ((string, string), nat)): int { entry.1 }
  function ToFrequent(entry: ((string, string), nat)): FrequentExercise {
    FrequentExercise(entry.0.0, entry.0.1, entry.1)
  }
  function FrequentKey(f: FrequentExercise): (string, string) { (f.name, f.bodyPart) }

  /** The counter of (name, part) keys in first-seen order. */
  function ExerciseCounter(es: seq<LogExercise>): seq<((string, string), nat)> {
    Tally.TallyOf(Tally.MapSeq(es, ExerciseKey))
  }

  /** `most_common(10)` of the counter: the entries by decreasing count, ties in first-seen
      order, cut after ten. */
  function TopEntries(es: seq<LogExercise>): seq<((string, string), nat)> {
    Tally.SliceTo(Tally.SortDesc(ExerciseCounter(es), KeyCount), 10)
  }

  function MostFrequent(es: seq<LogExercise>): seq<FrequentExercise> {
    Tally.MapSeq(TopEntries(es), ToFrequent)
  }

  /** A counter entry holds a logged key with its number of occurrences. */
  lemma CounterEntry(es: seq<LogExercise>, x: ((string, string), nat))
    requires x in ExerciseCounter(es)
    ensures x.0 in Tally.MapSeq(es, ExerciseKey) && x.1 == Tally.Count(Tally.MapSeq(es, ExerciseKey), x.0)
  {
    var t := ExerciseCounter(es);
    Tally.TallyFacts(Tally.MapSeq(es, ExerciseKey));
    Tally.DedupFacts(Tally.MapSeq(es, ExerciseKey));
    var j :| 0 <= j < |t| && t[j] == x;
    Tally.GetAt(t, j);
    assert x.0 in Tally.Keys(t);
  }

  /** At most ten entries: one for each of the ten most logged keys, or for every logged
      key when fewer were logged. */
  lemma MostFrequentLength(es: seq<LogExercise>)
    ensures var m, distinct := MostFrequent(es), |Tally.Dedup(Tally.MapSeq(es, ExerciseKey))|;
      |m| == if distinct < 10 then distinct else 10
  {
    Tally.TallyFacts(Tally.MapSeq(es, ExerciseKey));
    Tally.SortDescFacts(ExerciseCounter(es), KeyCount);
  }

  /** The entries come by non-increasing count. */
  lemma MostFrequentOrder(es: seq<LogExercise>)
    ensures var m := MostFrequent(es);
      forall i, j :: 0 <= i < j < |m| ==> m[i].count >= m[j].count
  {
    var sorted := Tally.SortDesc(ExerciseCounter(es), KeyCount);
    var m := MostFrequent(es);
    Tally.SortDescFacts(ExerciseCounter(es), KeyCount);
    forall i, j | 0 <= i < j < |m| ensures m[i].count >= m[j].count {
      assert m[i].count == sorted[i].1 && m[j].count == sorted[j].1;
    }
  }

  /** Each entry is a logged key with its number of occurrences. */
  lemma MostFrequentCounts(es: seq<LogExercise>)
    ensures var m, keys := MostFrequent(es), Tally.MapSeq(es, ExerciseKey);
      forall i :: 0 <= i < |m| ==> FrequentKey(m[i]) in keys && m[i].count == Tally.Count(keys, FrequentKey(m[i]))
  {
    var t := ExerciseCounter(es);
    var sorted := Tally.SortDesc(t, KeyCount);
    var m := MostFrequent(es);
    Tally.SortDescFacts(t, KeyCount);
    forall i | 0 <= i < |m|
      ensures FrequentKey(m[i]) in Tally.MapSeq(es, ExerciseKey)
      ensures m[i].count == Tally.Count(Tally.MapSeq(es, ExerciseKey), FrequentKey(m[i]))
    {
      assert sorted[i] in multiset(t);
      CounterEntry(es, sorted[i]);
      assert m[i] == ToFrequent(sorted[i]);
    }
  }

  /** A logged key left out of the list was logged no more often than any listed one. */
  lemma MostFrequentTop(es: seq<LogExercise>, k: (string, string))
    requires k in Tally.MapSeq(es, ExerciseKey) && k !in Tally.MapSeq(MostFrequent(es), FrequentKey)
    ensures var m := MostFrequent(es);
      forall i :: 0 <= i < |m| ==> Tally.Count(Tally.MapSeq(es, ExerciseKey), k) <= m[i].count
  {
    var sorted := Tally.SortDesc(ExerciseCounter(es), KeyCount);
    var top := TopEntries(es);
    var m := MostFrequent(es);
    var idx := SortedPosition(es, k);
    forall i | 0 <= i < |top| ensures sorted[i].0 != k {
      assert top[i] == sorted[i];
      assert Tally.MapSeq(m, FrequentKey)[i] == top[i].0;
    }
    assert sorted[idx].0 == k;
    assert idx >= |top|;
    Tally.SortDescFacts(ExerciseCounter(es), KeyCount);
    forall i | 0 <= i < |m| ensures Tally.Count(Tally.MapSeq(es, ExerciseKey), k) <= m[i].count {
      assert m[i].count == sorted[i].1;
    }
  }

  /** Where a logged key stands in the sorted counter. */
  lemma SortedPosition(es: seq<LogExercise>, k: (string, string)) returns (idx: nat)
    requires k in Tally.MapSeq(es, ExerciseKey)
    ensures var sorted := Tally.SortDesc(ExerciseCounter(es), KeyCount);
      idx < |sorted| && sorted[idx] == (k, Tally.Count(Tally.MapSeq(es, ExerciseKey), k))
  {
    var keys := Tally.MapSeq(es, ExerciseKey);
    var t := ExerciseCounter(es);
    var sorted := Tally.SortDesc(t, KeyCount);
    Tally.TallyFacts(keys);
    Tally.DedupFacts(keys);
    Tally.SortDescFacts(t, KeyCount);
    assert k in Tally.Keys(t);
    var j :| 0 <= j < |t| && Tally.Keys(t)[j] == k;
    CounterEntry(es, t[j]);
    assert t[j] in multiset(sorted);
    idx :| 0 <= idx < |sorted| && sorted[idx] == t[j];
  }

  // ------------------------------------------------------------- intensity counts

  /** How many exercises were logged at each of the three intensity grades. */
  datatype IntensityCounts = IntensityCounts(high: nat, medium: nat, low: nat)

  function IntensityDistribution(es: seq<LogExercise>): IntensityCounts {
    var t := Tally.TallyOf(Tally.MapSeq(es, IntensityOf));
    IntensityCounts(Tally.Get(t, "상"), Tally.Get(t, "중"), Tally.Get(t, "하"))
  }

  /** Each grade's count is its number of occurrences; other intensity strings are not counted. */
  lemma IntensityFacts(es: seq<LogExercise>)
    ensures var d, grades := IntensityDistribution(es), Tally.MapSeq(es, IntensityOf);
      d.high == Tally.Count(grades, "상") && d.medium == Tally.Count(grades, "중") && d.low == Tally.Count(grades, "하")
  {
    Tally.TallyFacts(Tally.MapSeq(es, IntensityOf));
  }

  // ------------------------------------------------------------------ the pattern

  datatype Pattern = Pattern(
    periodDays: int,
    totalWorkouts: nat,
    totalExercises: nat,
    totalTime: int,
    avgWorkoutTime: real,
    distribution: seq<BodyPartAnalysis>,
    mostFrequent: seq<FrequentExercise>,
    intensity: IntensityCounts)

  /** The pattern of the period's logs; no logs give the all-zero pattern. */
  function PatternOf(logs: seq<DailyLog>, days: int): Pattern {
    if |logs| == 0 then Pattern(days, 0, 0, 0, 0.0, [], [], IntensityCounts(0, 0, 0))
    else
      var es := AllExercises(logs);
      var total := Tally.Sum(Tally.MapSeq(es, MinutesOf));
      Pattern(days, |logs|, |es|, total, total as real / |logs| as real, Distribution(es), MostFrequent(es), IntensityDistribution(es))
  }

  /** The totals: one workout per log, every exercise of every log, the sum of their
      minutes, and that sum shared out over the workouts (0 without logs). */
  lemma PatternTotals(logs: seq<DailyLog>, days: int)
    ensures var p := PatternOf(logs, days);
      p.periodDays == days && p.totalWorkouts == |logs| && p.totalExercises == Tally.Sum(Tally.MapSeq(logs, ExerciseCount))
    ensures PatternOf(logs, days).totalTime == Tally.Sum(Tally.MapSeq(AllExercises(logs), MinutesOf))
    ensures var p := PatternOf(logs, days);
      if |logs| == 0 then p.avgWorkoutTime == 0.0 else p.avgWorkoutTime == p.totalTime as real / |logs| as real
  {
    AllExercisesCount(logs);
  }

  /** Without exercises, whether or not there were logs, the pattern is empty. */
  lemma PatternWithoutExercises(logs: seq<DailyLog>, days: int)
    requires PatternOf(logs, days).totalExercises == 0
    ensures var p := PatternOf(logs, days);
      p.totalTime == 0 && p.distribution == [] && p.mostFrequent == [] && p.intensity == IntensityCounts(0, 0, 0)
  {
    if |logs| > 0 {
      var es := AllExercises(logs);
      assert es == [];
      assert Tally.TallyOf(Tally.MapSeq(es, IntensityOf)) == [];
    }
  }

  /** The distribution of the pattern: one row per logged part and no other, ordered by
      non-increasing share, each row describing its part; the rows' counts add up to the
      number of exercises. */
  lemma PatternDistribution(logs: seq<DailyLog>, days: int)
    ensures var p, es := PatternOf(logs, days), AllExercises(logs);
      Tally.SortedDesc(p.distribution, PercentKey) && forall i :: 0 <= i < |p.distribution| ==> Describes(es, p.distribution[i])
    ensures var p, es := PatternOf(logs, days), AllExercises(logs);
      forall q :: q in Tally.MapSeq(es, BodyPartOf) <==> q in Tally.MapSeq(p.distribution, AnalysisPart)
    ensures var p := PatternOf(logs, days);
      Tally.Distinct(Tally.MapSeq(p.distribution, AnalysisPart)) && Tally.SumBy(p.distribution, AnalysisCount) == p.totalExercises
  {
    var es := AllExercises(logs);
    if |logs| > 0 {
      DistributionFacts(es);
      DistributionParts(es);
      DistributionDistinct(es);
      DistributionCount(es);
    }
  }

  // ------------------------------------------------------------ the analysis loops

  /** `analyze_workout_pattern`: the logs' exercises are gathered, counted per part, per
      (name, part) key and per intensity, and the rows and the top entries are built. */
  method AnalyzePattern(logs: seq<DailyLog>, days: int) returns (p: Pattern)
    ensures p == PatternOf(logs, days)
  {
    if |logs| == 0 {
      return Pattern(days, 0, 0, 0, 0.0, [], [], IntensityCounts(0, 0, 0));
    }
    var all := CollectExercises(logs);
    var totalTime := SumMinutes(all);
    var stats, exerciseCounter, intensityCounter := TallyExercises(all);
    var rows := DistributionRows(stats, |all|);
    var distribution := Tally.SortDesc(rows, PercentKey);
    var mostFrequent := FrequentList(Tally.SliceTo(Tally.SortDesc(exerciseCounter, KeyCount), 10));
    var intensity := IntensityCounts(Tally.Get(intensityCounter, "상"), Tally.Get(intensityCounter, "중"), Tally.Get(intensityCounter, "하"));
    var avgWorkoutTime := totalTime as real / |logs| as real;
    p := Pattern(days, |logs|, |all|, totalTime, avgWorkoutTime, distribution, mostFrequent, intensity);
  }

  method CollectExercises(logs: seq<DailyLog>) returns (all: seq<LogExercise>)
    ensures all == AllExercises(logs)
  {
    all := [];
    for i := 0 to |logs|
      invariant all == AllExercises(logs[..i])
    {
      assert logs[..i + 1][..i] == logs[..i];
      all := all + logs[i].exercises;
    }
    assert logs[..|logs|] == logs;
  }

  method SumMinutes(es: seq<LogExercise>) returns (total: int)
    ensures total == Tally.Sum(Tally.MapSeq(es, MinutesOf))
  {
    total := 0;
    for i := 0 to |es|
      invariant total == Tally.Sum(Tally.MapSeq(es[..i], MinutesOf))
    {
      MinutesStep(es, i);
      total := total + es[i].minutes;
    }
    assert es[..|es|] == es;
  }

  lemma MinutesStep(es: seq<LogExercise>, i: nat)
    requires i < |es|
    ensures Tally.Sum(Tally.MapSeq(es[..i + 1], MinutesOf)) == Tally.Sum(Tally.MapSeq(es[..i], MinutesOf)) + es[i].minutes
  {
    var m := Tally.MapSeq(es[..i + 1], MinutesOf);
    assert es[..i + 1] == es[..i] + [es[i]];
    Tally.MapSeqSnoc(es[..i], es[i], MinutesOf);
    assert m[..i] == Tally.MapSeq(es[..i], MinutesOf);
  }

  /** The loop over the exercises: the per-part entries and the two counters. */
  method TallyExercises(es: seq<LogExercise>) returns (stats: seq<PartStat>, exerciseCounter: seq<((string, string), nat)>, intensityCounter: seq<(string, nat)>)
    ensures stats == PartStatsOf(es)
    ensures exerciseCounter == ExerciseCounter(es)
    ensures intensityCounter == Tally.TallyOf(Tally.MapSeq(es, IntensityOf))
  {
    stats, exerciseCounter, intensityCounter := [], [], [];
    for i := 0 to |es|
      invariant stats == PartStatsOf(es[..i])
      invariant exerciseCounter == Tally.TallyOf(Tally.MapSeq(es[..i], ExerciseKey))
      invariant intensityCounter == Tally.TallyOf(Tally.MapSeq(es[..i], IntensityOf))
    {
      PartStatsStep(es, i);
      Tally.TallyOfMapStep(es, i, ExerciseKey);
      Tally.TallyOfMapStep(es, i, IntensityOf);
      stats := AddExercise(stats, es[i]);
      exerciseCounter := Tally.Bump(exerciseCounter, ExerciseKey(es[i]));
      intensityCounter := Tally.Bump(intensityCounter, es[i].intensity);
    }
    assert es[..|es|] == es;
  }

  lemma PartStatsStep(es: seq<LogExercise>, i: nat)
    requires i < |es|
    ensures PartStatsOf(es[..i + 1]) == AddExercise(PartStatsOf(es[..i]), es[i])
  {
    assert es[..i + 1][..i] == es[..i];
  }

  method DistributionRows(stats: seq<PartStat>, total: nat) returns (rows: seq<BodyPartAnalysis>)
    ensures rows == Analyses(stats, total)
  {
    rows := [];
    for j := 0 to |stats|
      invariant |rows| == j && forall k :: 0 <= k < j ==> rows[k] == ToAnalysis(stats[k], total)
    {
      rows := rows + [ToAnalysis(stats[j], total)];
    }
  }

  method FrequentList(top: seq<((string, string), nat)>) returns (m: seq<FrequentExercise>)
    ensures m == Tally.MapSeq(top, ToFrequent)
  {
    m := [];
    for j := 0 to |top|
      invariant |m| == j && forall k :: 0 <= k < j ==> m[k] == ToFrequent(top[k])
    {
      m := m + [ToFrequent(top[j])];
    }
  }

  // ------------------------------------------------------------------ the insights

  /** A recommendation, by kind; the message texts are not modelled. */
  datatype Advice =
    | KeepALog
    | FocusOn(parts: seq<string>)
    | RaiseIntensityGradually
    | GreatBalance
    | GoodRoutine
    | ImproveBalance
    | TrainMoreOften

  /** A warning, by kind. */
  datatype Caution = RestParts(parts: seq<string>) | RecoverFromHighIntensity

  /** The insights of a period; the balance score is kept in tenths. */
  datatype Insight = Insight(
    overworked: seq<string>,
    underworked: seq<string>,
    balanceTenths: int,
    recommendations: seq<Advice>,
    warnings: seq<Caution>)

  /** The body parts a routine is expected to train. */
  const MajorParts: seq<string> := ["가슴", "등", "하체", "어깨", "팔", "코어"]

  /** The shares of the distribution as a dict filled row by row: a part keeps the place of
      its first row and the share of its last. */
  function ShareTable(rows: seq<BodyPartAnalysis>): seq<(string, nat)> {
    if |rows| == 0 then []
    else Tally.Put(ShareTable(rows[..|rows| - 1]), rows[|rows| - 1].bodyPart, rows[|rows| - 1].percentTenths)
  }

  /** The parts whose share is 30% or more, in the order of the table. */
  function Overworked(table: seq<(string, nat)>): seq<string> {
    if |table| == 0 then []
    else (if table[0].1 >= 300 then [table[0].0] else []) + Overworked(table[1..])
  }

  /** The parts among `parts` whose share is under 10%; a part without a share has 0. */
  function Underworked(table: seq<(string, nat)>, parts: seq<string>): seq<string> {
    if |parts| == 0 then []
    else Underworked(table, parts[..|parts| - 1]) + (if Tally.Get(table, parts[|parts| - 1]) < 100 then [parts[|parts| - 1]] else [])
  }

  /** More than 70% of the graded exercises are high-intensity. */
  predicate MostlyHigh(c: IntensityCounts) {
    var total := c.high + c.medium + c.low;
    total > 0 && 100 * c.high > 70 * total
  }

  /** More than 70% of the graded exercises are low-intensity. */
  predicate MostlyLow(c: IntensityCounts) {
    var total := c.high + c.medium + c.low;
    total > 0 && 100 * c.low > 70 * total
  }

  function BalanceAdvice(balanceTenths: int): Advice {
    if balanceTenths >= 800 then GreatBalance
    else if balanceTenths >= 600 then GoodRoutine
    else ImproveBalance
  }

  /** The balance score: the spread score floored at 0 when at least two parts were trained,
      50 otherwise. */
  function BalanceOf(table: seq<(string, nat)>, spreadTenths: int): int {
    if |table| >= 2 then (if spreadTenths > 0 then spreadTenths else 0) else 500
  }

  /** The recommendations, in order: the parts to focus on, raising the intensity, the
      balance advice, training more often. */
  function Recommendations(under: seq<string>, c: IntensityCounts, balanceTenths: int, workouts: nat, days: int): seq<Advice> {
    (if under != [] then [FocusOn(under)] else [])
    + (if !MostlyHigh(c) && MostlyLow(c) then [RaiseIntensityGradually] else [])
    + [BalanceAdvice(balanceTenths)]
    + (if 7 * workouts < 2 * days then [TrainMoreOften] else [])
  }

  /** The warnings, in order: the parts to rest, recovering from high intensity. */
  function Warnings(over: seq<string>, c: IntensityCounts): seq<Caution> {
    (if over != [] then [RestParts(over)] else [])
    + (if MostlyHigh(c) then [RecoverFromHighIntensity] else [])
  }

  /** The insights of a pattern. `spreadTenths` is the floor of ten times 100 minus 3.33 times
      the standard deviation of the shares; it is used, floored at 0, when at least two parts
      were trained, and 50 stands in otherwise. The bands compare it with 800 and 600. */
  function InsightsOf(p: Pattern, spreadTenths: int): Insight {
    if p.totalExercises == 0 then Insight([], [], 0, [KeepALog], [])
    else
      var table := ShareTable(p.distribution);
      var over, under := Overworked(table), Underworked(table, MajorParts);
      var balance := BalanceOf(table, spreadTenths);
      Insight(over, under, balance,
        Recommendations(under, p.intensity, balance, p.totalWorkouts, p.periodDays), Warnings(over, p.intensity))
  }

  // -------------------------------------------------------- the share table

  /** The table holds each part of the rows once, in first-seen order. */
  lemma {:induction false} ShareTableKeys(rows: seq<BodyPartAnalysis>)
    ensures Tally.Keys(ShareTable(rows)) == Tally.Dedup(Tally.MapSeq(rows, AnalysisPart))
    ensures Tally.Distinct(Tally.Keys(ShareTable(rows)))
  {
    if |rows| > 0 {
      var pre, r := rows[..|rows| - 1], rows[|rows| - 1];
      ShareTableKeys(pre);
      Tally.PutKeys(ShareTable(pre), r.bodyPart, r.percentTenths);
      Tally.DedupSnoc(Tally.MapSeq(pre, AnalysisPart), r.bodyPart);
    }
  }

  /** A part's value in the table is the share of its last row. */
  lemma {:induction false} ShareTableLast(rows: seq<BodyPartAnalysis>, i: nat)
    requires i < |rows| && forall j :: i < j < |rows| ==> rows[j].bodyPart != rows[i].bodyPart
    ensures Tally.Get(ShareTable(rows), rows[i].bodyPart) == rows[i].percentTenths
  {
    var pre, r := rows[..|rows| - 1], rows[|rows| - 1];
    Tally.PutGet(ShareTable(pre), r.bodyPart, r.percentTenths, rows[i].bodyPart);
    if i < |rows| - 1 {
      assert pre[i] == rows[i];
      ShareTableLast(pre, i);
    }
  }

  /** A part without a row has no value in the table. */
  lemma ShareTableMissing(rows: seq<BodyPartAnalysis>, q: string)
    requires q !in Tally.MapSeq(rows, AnalysisPart)
    ensures Tally.Get(ShareTable(rows), q) == 0
  {
    ShareTableKeys(rows);
    Tally.DedupFacts(Tally.MapSeq(rows, AnalysisPart));
    Tally.GetMissing(ShareTable(rows), q);
  }

  /** A part is overworked exactly when the table gives it a share of 30% or more. */
  lemma {:induction false} OverworkedRule(table: seq<(string, nat)>, q: string)
    requires Tally.Distinct(Tally.Keys(table))
    ensures q in Overworked(table) <==> q in Tally.Keys(table) && Tally.Get(table, q) >= 300
  {
    if |table| > 0 {
      var rest := table[1..];
      assert Tally.Keys(table) == [table[0].0] + Tally.Keys(rest);
      forall a, b | 0 <= a < b < |rest| ensures Tally.Keys(rest)[a] != Tally.Keys(rest)[b] {
        assert Tally.Keys(table)[a + 1] != Tally.Keys(table)[b + 1];
      }
      OverworkedRule(rest, q);
      if q == table[0].0 {
        assert q !in Tally.Keys(rest) by {
          forall b | 0 <= b < |rest| ensures Tally.Keys(rest)[b] != q {
            assert Tally.Keys(table)[0] != Tally.Keys(table)[b + 1];
          }
        }
      }
    }
  }

  /** A part is underworked exactly when it is one of `parts` and its share is under 10%. */
  lemma {:induction false} UnderworkedRule(table: seq<(string, nat)>, parts: seq<string>, q: string)
    ensures q in Underworked(table, parts) <==> q in parts && Tally.Get(table, q) < 100
  {
    if |parts| > 0 {
      var pre := parts[..|parts| - 1];
      UnderworkedRule(table, pre, q);
      assert parts == pre + [parts[|parts| - 1]];
    }
  }

  /** Every logged part has the share of its row in the table of the distribution, every other
      part none: in all cases its rounded share of all exercises. */
  lemma ShareOfPart(es: seq<LogExercise>, q: string)
    requires |es| > 0
    ensures q in Tally.Keys(ShareTable(Distribution(es))) <==> q in Tally.MapSeq(es, BodyPartOf)
    ensures Tally.Get(ShareTable(Distribution(es)), q) == Tally.PercentTenths(Tally.Count(Tally.MapSeq(es, BodyPartOf), q), |es|)
  {
    var d := Distribution(es);
    ShareTableKeys(d);
    Tally.DedupFacts(Tally.MapSeq(d, AnalysisPart));
    DistributionParts(es);
    if q in Tally.MapSeq(d, AnalysisPart) {
      ShareOfLoggedPart(es, q);
    } else {
      ShareOfMissingPart(es, q);
    }
  }

  lemma ShareOfLoggedPart(es: seq<LogExercise>, q: string)
    requires q in Tally.MapSeq(Distribution(es), AnalysisPart)
    ensures Tally.Get(ShareTable(Distribution(es)), q) == Tally.PercentTenths(Tally.Count(Tally.MapSeq(es, BodyPartOf), q), |es|)
  {
    var d := Distribution(es);
    var dp := Tally.MapSeq(d, AnalysisPart);
    var i := RowIndex(d, q);
    DistributionDistinct(es);
    forall j | i < j < |d| ensures d[j].bodyPart != q {
      assert dp[i] != dp[j];
    }
    ShareTableLast(d, i);
    DistributionFacts(es);
    assert Describes(es, d[i]);
  }

  lemma ShareOfMissingPart(es: seq<LogExercise>, q: string)
    requires |es| > 0 && q !in Tally.MapSeq(Distribution(es), AnalysisPart)
    ensures Tally.Get(ShareTable(Distribution(es)), q) == Tally.PercentTenths(Tally.Count(Tally.MapSeq(es, BodyPartOf), q), |es|)
  {
    ShareTableMissing(Distribution(es), q);
    DistributionParts(es);
    CountForFacts(es, q);
    Tally.PercentOfNone(|es|);
  }

  lemma RowIndex(d: seq<BodyPartAnalysis>, q: string) returns (i: nat)
    requires q in Tally.MapSeq(d, AnalysisPart)
    ensures i < |d| && d[i].bodyPart == q
  {
    var dp := Tally.MapSeq(d, AnalysisPart);
    i :| 0 <= i < |dp| && dp[i] == q;
  }

  // -------------------------------------------------------- the insight rules

  /** Without a single exercise the insights only ask for a log. */
  lemma KeepALogRule(p: Pattern, spreadTenths: int)
    ensures KeepALog in InsightsOf(p, spreadTenths).recommendations <==> p.totalExercises == 0
    ensures p.totalExercises == 0 ==> InsightsOf(p, spreadTenths) == Insight([], [], 0, [KeepALog], [])
  {
    var r := InsightsOf(p, spreadTenths);
    AdviceKinds(r.underworked, p.intensity, r.balanceTenths, p.totalWorkouts, p.periodDays);
  }

  /** A part is overworked exactly when it was logged and makes up 30% or more of the
      period's exercises, rounded to a tenth. */
  lemma OverworkedParts(logs: seq<DailyLog>, days: int, spreadTenths: int, q: string)
    ensures var es := AllExercises(logs);
      q in InsightsOf(PatternOf(logs, days), spreadTenths).overworked
      <==> q in Tally.MapSeq(es, BodyPartOf) && Tally.PercentTenths(Tally.Count(Tally.MapSeq(es, BodyPartOf), q), |es|) >= 300
  {
    var es := AllExercises(logs);
    if |es| > 0 {
      assert |logs| > 0;
      var table := ShareTable(Distribution(es));
      ShareTableKeys(Distribution(es));
      OverworkedRule(table, q);
      ShareOfPart(es, q);
    }
  }

  /** When the period has exercises, a part is underworked exactly when it is a major part
      and makes up less than 10% of them, a part never logged making up 0%. */
  lemma UnderworkedParts(logs: seq<DailyLog>, days: int, spreadTenths: int, q: string)
    requires |AllExercises(logs)| > 0
    ensures var es := AllExercises(logs);
      q in InsightsOf(PatternOf(logs, days), spreadTenths).underworked
      <==> q in MajorParts && Tally.PercentTenths(Tally.Count(Tally.MapSeq(es, BodyPartOf), q), |es|) < 100
  {
    var es := AllExercises(logs);
    assert |logs| > 0;
    UnderworkedRule(ShareTable(Distribution(es)), MajorParts, q);
    ShareOfPart(es, q);
  }

  /** The focus advice and the rest warning appear exactly when there are parts to name. */
  lemma PartAdviceRules(p: Pattern, spreadTenths: int)
    requires p.totalExercises > 0
    ensures var r := InsightsOf(p, spreadTenths);
      FocusOn(r.underworked) in r.recommendations <==> r.underworked != []
    ensures var r := InsightsOf(p, spreadTenths);
      RestParts(r.overworked) in r.warnings <==> r.overworked != []
  {
    var r := InsightsOf(p, spreadTenths);
    AdviceKinds(r.underworked, p.intensity, r.balanceTenths, p.totalWorkouts, p.periodDays);
    CautionKinds(r.overworked, p.intensity);
  }

  /** The high-intensity warning comes with more than 70% high-intensity exercises, the advice
      to raise the intensity with more than 70% low-intensity ones, and never both. */
  lemma IntensityRules(p: Pattern, spreadTenths: int)
    requires p.totalExercises > 0
    ensures RecoverFromHighIntensity in InsightsOf(p, spreadTenths).warnings <==> MostlyHigh(p.intensity)
    ensures RaiseIntensityGradually in InsightsOf(p, spreadTenths).recommendations <==> MostlyLow(p.intensity)
  {
    var r := InsightsOf(p, spreadTenths);
    AdviceKinds(r.underworked, p.intensity, r.balanceTenths, p.totalWorkouts, p.periodDays);
    CautionKinds(r.overworked, p.intensity);
  }

  /** Exactly one balance advice is given, by the thresholds 80 and 60 on a score that is
      never negative. */
  lemma BalanceRules(p: Pattern, spreadTenths: int)
    requires p.totalExercises > 0
    ensures var r := InsightsOf(p, spreadTenths);
      r.balanceTenths >= 0 && (GreatBalance in r.recommendations <==> r.balanceTenths >= 800)
    ensures var r := InsightsOf(p, spreadTenths);
      (GoodRoutine in r.recommendations <==> 600 <= r.balanceTenths < 800) && (ImproveBalance in r.recommendations <==> r.balanceTenths < 600)
  {
    var r := InsightsOf(p, spreadTenths);
    BalanceKinds(r.underworked, p.intensity, r.balanceTenths, p.totalWorkouts, p.periodDays);
  }

  /** Fewer than two workouts a week over the period ask for more frequent training. */
  lemma FrequencyRule(p: Pattern, spreadTenths: int)
    requires p.totalExercises > 0
    ensures TrainMoreOften in InsightsOf(p, spreadTenths).recommendations <==> 7 * p.totalWorkouts < 2 * p.periodDays
  {
    var r := InsightsOf(p, spreadTenths);
    AdviceKinds(r.underworked, p.intensity, r.balanceTenths, p.totalWorkouts, p.periodDays);
  }

  /** The recommendations, spelled out as the four rule outcomes. */
  lemma AdviceParts(under: seq<string>, c: IntensityCounts, b: int, workouts: nat, days: int)
    returns (focus: seq<Advice>, raise: seq<Advice>, often: seq<Advice>)
    ensures Recommendations(under, c, b, workouts, days) == focus + raise + [BalanceAdvice(b)] + often
    ensures (focus == [FocusOn(under)] && under != []) || (focus == [] && under == [])
    ensures (raise == [RaiseIntensityGradually] && MostlyLow(c)) || (raise == [] && !MostlyLow(c))
    ensures (often == [TrainMoreOften] && 7 * workouts < 2 * days) || (often == [] && 7 * workouts >= 2 * days)
  {
    focus := if under != [] then [FocusOn(under)] else [];
    raise := if !MostlyHigh(c) && MostlyLow(c) then [RaiseIntensityGradually] else [];
    often := if 7 * workouts < 2 * days then [TrainMoreOften] else [];
    if MostlyLow(c) {
      assert !MostlyHigh(c);
    }
  }

  /** Which advice the recommendations hold. */
  lemma AdviceKinds(under: seq<string>, c: IntensityCounts, b: int, workouts: nat, days: int)
    ensures var recs := Recommendations(under, c, b, workouts, days);
      (FocusOn(under) in recs <==> under != []) && (RaiseIntensityGradually in recs <==> MostlyLow(c))
    ensures (TrainMoreOften in Recommendations(under, c, b, workouts, days) <==> 7 * workouts < 2 * days)
      && KeepALog !in Recommendations(under, c, b, workouts, days)
  {
    var focus, raise, often := AdviceParts(under, c, b, workouts, days);
  }

  /** Which balance advice the recommendations hold. */
  lemma BalanceKinds(under: seq<string>, c: IntensityCounts, b: int, workouts: nat, days: int)
    ensures var recs := Recommendations(under, c, b, workouts, days);
      (GreatBalance in recs <==> b >= 800) && (GoodRoutine in recs <==> 600 <= b < 800) && (ImproveBalance in recs <==> b < 600)
  {
    var focus, raise, often := AdviceParts(under, c, b, workouts, days);
  }

  /** Which warnings there are. */
  lemma CautionKinds(over: seq<string>, c: IntensityCounts)
    ensures (RestParts(over) in Warnings(over, c) <==> over != [])
      && (RecoverFromHighIntensity in Warnings(over, c) <==> MostlyHigh(c))
  {
  }

  /** A period that trained a single part scores the fixed 50 and is told to improve its
      balance. */
  lemma SinglePartBalance(logs: seq<DailyLog>, days: int, spreadTenths: int)
    requires |AllExercises(logs)| > 0
    requires forall k :: 0 <= k < |AllExercises(logs)| ==> AllExercises(logs)[k].bodyPart == AllExercises(logs)[0].bodyPart
    ensures var r := InsightsOf(PatternOf(logs, days), spreadTenths);
      r.balanceTenths == 500 && ImproveBalance in r.recommendations
  {
    var es := AllExercises(logs);
    assert |logs| > 0;
    var d := Distribution(es);
    var keys := Tally.Keys(ShareTable(d));
    ShareTableKeys(d);
    Tally.DedupFacts(Tally.MapSeq(d, AnalysisPart));
    DistributionParts(es);
    forall x | x in keys ensures x == es[0].bodyPart {
      assert x in Tally.MapSeq(es, BodyPartOf);
    }
    Tally.DistinctAllSame(keys, es[0].bodyPart);
  }

  // ------------------------------------------------------------ the insight loops

  /** `generate_insights`: the pattern, the share dict, the over- and under-worked parts and
      the advice. */
  method GenerateInsights(logs: seq<DailyLog>, days: int, spreadTenths: int) returns (r: Insight)
    ensures r == InsightsOf(PatternOf(logs, days), spreadTenths)
  {
    var p := AnalyzePattern(logs, days);
    if p.totalExercises == 0 {
      return Insight([], [], 0, [KeepALog], []);
    }
    var table := ShareTableOf(p.distribution);
    var over := OverworkedList(table);
    var under := UnderworkedList(table, MajorParts);
    var balance := 500;
    if |table| >= 2 {
      balance := if spreadTenths > 0 then spreadTenths else 0;
    }
    var recs, warns := AdviceLists(over, under, p.intensity, balance, p.totalWorkouts, p.periodDays);
    r := Insight(over, under, balance, recs, warns);
  }

  /** The advice in the order the rules are applied: part advice, the intensity rule, the
      balance rule, the frequency rule. */
  method AdviceLists(over: seq<string>, under: seq<string>, c: IntensityCounts, balance: int, workouts: nat, days: int)
    returns (recs: seq<Advice>, warns: seq<Caution>)
    ensures recs == Recommendations(under, c, balance, workouts, days) && warns == Warnings(over, c)
  {
    recs, warns := [], [];
    if under != [] {
      recs := recs + [FocusOn(under)];
    }
    if over != [] {
      warns := warns + [RestParts(over)];
    }
    if MostlyHigh(c) {
      warns := warns + [RecoverFromHighIntensity];
    } else if MostlyLow(c) {
      recs := recs + [RaiseIntensityGradually];
    }
    recs := recs + [BalanceAdvice(balance)];
    if 7 * workouts < 2 * days {
      recs := recs + [TrainMoreOften];
    }
  }

  method ShareTableOf(rows: seq<BodyPartAnalysis>) returns (table: seq<(string, nat)>)
    ensures table == ShareTable(rows)
  {
    table := [];
    for i := 0 to |rows|
      invariant table == ShareTable(rows[..i])
    {
      assert rows[..i + 1][..i] == rows[..i];
      table := Tally.Put(table, rows[i].bodyPart, rows[i].percentTenths);
    }
    assert rows[..|rows|] == rows;
  }

  method OverworkedList(table: seq<(string, nat)>) returns (over: seq<string>)
    ensures over == Overworked(table)
  {
    over := [];
    for i := 0 to |table|
      invariant over + Overworked(table[i..]) == Overworked(table)
    {
      assert table[i..][1..] == table[i + 1..];
      if table[i].1 >= 300 {
        over := over + [table[i].0];
      }
    }
  }

  method UnderworkedList(table: seq<(string, nat)>, parts: seq<string>) returns (under: seq<string>)
    ensures under == Underworked(table, parts)
  {
    under := [];
    for i := 0 to |parts|
      invariant under == Underworked(table, parts[..i])
    {
      assert parts[..i + 1][..i] == parts[..i];
      if Tally.Get(table, parts[i]) < 100 {
        under := under + [parts[i]];
      }
    }
    assert parts[..|parts|] == parts;
  }
}
