/**
 * The rule-based analysis of one day's workout log (`analyze_daily_workout`): the
 * totals, the intensity histogram and its percentages, the keyword classifier of body
 * parts, the body-part, tool and muscle counters, and the insights, recommendations and
 * warnings the rules attach to them, with the highlights of the day.
 *
 * A JSON key that is absent is `None`. Each message is a tag carrying the values its
 * Korean text interpolates; the messages of one rule block form a section, and the three
 * output lists are the sections' lists concatenated in block order.
 */
module DailyAnalysis {
  import opened Wrappers
  import opened Strings
  import Tally

  // ----------------------------------------------------------- the log

  /** The `exercise` object of a logged entry. */
  datatype ExerciseInfo = ExerciseInfo(
    title: Option<string>,
    description: Option<string>,
    trainingName: Option<string>,
    bodyPart: Option<string>,
    exerciseTool: Option<string>,
    muscles: seq<string>)

  datatype LoggedExercise = LoggedExercise(
    exercise: Option<ExerciseInfo>,
    exerciseTime: Option<int>,
    intensity: Option<string>)

  datatype WorkoutLog = WorkoutLog(exercises: seq<LoggedExercise>, memo: Option<string>, date: Option<string>)

  /** `d.get(key, default)` on a string-valued key. */
  function OrElse(o: Option<string>, default: string): string {
    if o.Some? then o.value else default
  }

  /** `ex.get("exercise", {})`. */
  function InfoOf(ex: LoggedExercise): ExerciseInfo {
    if ex.exercise.Some? then ex.exercise.value else ExerciseInfo(None, None, None, None, None, [])
  }

  /** `ex.get("exerciseTime", 0)`. */
  function TimeOf(ex: LoggedExercise): int {
    if ex.exerciseTime.Some? then ex.exerciseTime.value else 0
  }

  /** The intensity levels the histogram counts; any other text is not counted. */
  datatype Level = High | Medium | Low | Ungraded

  function LevelOf(text: string): Level {
    if text == "상" then High else if text == "중" then Medium else if text == "하" then Low else Ungraded
  }

  /** `ex.get("intensity", "중")`, the histogram's reading of an entry. */
  function IntensityOf(ex: LoggedExercise): Level {
    LevelOf(OrElse(ex.intensity, "중"))
  }

  /** `ex["exercise"]["title"]`: None where either key is missing (a `KeyError`). */
  function TitleOf(ex: LoggedExercise): Option<string> {
    if ex.exercise.Some? then ex.exercise.value.title else None
  }

  predicate AllTitled(exs: seq<LoggedExercise>) {
    forall i :: 0 <= i < |exs| ==> TitleOf(exs[i]).Some?
  }

  // ------------------------------------------------- body-part classifier

  const LowerBodyKeywords: seq<string> :=
    ["다리", "하체", "스쿼트", "앉아서", "일어서기", "밀기", "펴기", "넙다리", "대퇴", "허벅지", "종아리", "발목"]
  const UpperBodyKeywords: seq<string> :=
    ["가슴", "어깨", "팔", "등", "코어", "복부", "벤치", "프레스", "풀업", "덤벨", "로우"]

  /** The keyword occurs in the lower-cased title, description or training name. */
  predicate Mentions(info: ExerciseInfo, kw: string) {
    Contains(Lower(OrElse(info.title, "")), kw)
    || Contains(Lower(OrElse(info.description, "")), kw)
    || Contains(Lower(OrElse(info.trainingName, "")), kw)
  }

  /** The keyword loop of the classifier: it stops at the first keyword mentioned. */
  predicate AnyMentioned(info: ExerciseInfo, kws: seq<string>) {
    |kws| > 0 && (Mentions(info, kws[0]) || AnyMentioned(info, kws[1..]))
  }

  lemma {:induction false} AnyMentionedIff(info: ExerciseInfo, kws: seq<string>)
    ensures AnyMentioned(info, kws) <==> exists i :: 0 <= i < |kws| && Mentions(info, kws[i])
  {
    if |kws| > 0 {
      AnyMentionedIff(info, kws[1..]);
      if Mentions(info, kws[0]) {
        assert Mentions(info, kws[0]);
      }
      forall i | 1 <= i < |kws| && Mentions(info, kws[i])
        ensures exists j :: 0 <= j < |kws[1..]| && Mentions(info, kws[1..][j])
      {
        assert kws[1..][i - 1] == kws[i];
      }
    }
  }

  /** Lower-body keywords are tried first, then upper-body ones, and "전신" is the default. */
  function Classify(info: ExerciseInfo): (part: string)
    ensures part == "하체" <==> exists i :: 0 <= i < |LowerBodyKeywords| && Mentions(info, LowerBodyKeywords[i])
    ensures part == "상체" <==>
      (forall i :: 0 <= i < |LowerBodyKeywords| ==> !Mentions(info, LowerBodyKeywords[i]))
      && exists i :: 0 <= i < |UpperBodyKeywords| && Mentions(info, UpperBodyKeywords[i])
    ensures part == "전신" <==>
      (forall i :: 0 <= i < |LowerBodyKeywords| ==> !Mentions(info, LowerBodyKeywords[i]))
      && (forall i :: 0 <= i < |UpperBodyKeywords| ==> !Mentions(info, UpperBodyKeywords[i]))
  {
    AnyMentionedIff(info, LowerBodyKeywords);
    AnyMentionedIff(info, UpperBodyKeywords);
    if AnyMentioned(info, LowerBodyKeywords) then "하체"
    else if AnyMentioned(info, UpperBodyKeywords) then "상체"
    else "전신"
  }

  /** A non-empty `bodyPart` is taken as given; otherwise the classifier decides. */
  function BodyPartOf(info: ExerciseInfo): (part: string)
    ensures (info.bodyPart == Some(part) && part != "") || (part == Classify(info) && part in {"하체", "상체", "전신"})
    ensures info.bodyPart.Some? && info.bodyPart.value != "" ==> part == info.bodyPart.value
  {
    if info.bodyPart.Some? && info.bodyPart.value != "" then info.bodyPart.value else Classify(info)
  }

  function PartOfEntry(ex: LoggedExercise): string { BodyPartOf(InfoOf(ex)) }

  /** `exercise.get("exerciseTool", "기타")`. */
  function ToolOfEntry(ex: LoggedExercise): string { OrElse(InfoOf(ex).exerciseTool, "기타") }

  // ------------------------------------------------------ the statistics

  /** The counts of "상", "중" and "하"; other intensity labels are not counted. */
  datatype IntensityDist = IntensityDist(high: nat, medium: nat, low: nat)

  function AddIntensity(d: IntensityDist, level: Level): IntensityDist {
    match level
    case High => d.(high := d.high + 1)
    case Medium => d.(medium := d.medium + 1)
    case Low => d.(low := d.low + 1)
    case Ungraded => d
  }

  function Histogram(exs: seq<LoggedExercise>): IntensityDist {
    if |exs| == 0 then IntensityDist(0, 0, 0)
    else AddIntensity(Histogram(exs[..|exs| - 1]), IntensityOf(exs[|exs| - 1]))
  }

  function HistTotal(d: IntensityDist): nat { d.high + d.medium + d.low }

  predicate Graded(ex: LoggedExercise) { IntensityOf(ex) != Ungraded }

  lemma AddIntensityTotal(d: IntensityDist, level: Level)
    ensures HistTotal(AddIntensity(d, level)) == HistTotal(d) + if level == Ungraded then 0 else 1
  {
  }

  /** Each bucket counts the entries at that level. */
  lemma {:induction false} HistogramCounts(exs: seq<LoggedExercise>)
    ensures Histogram(exs).high == Tally.Count(Tally.MapSeq(exs, IntensityOf), High)
    ensures Histogram(exs).medium == Tally.Count(Tally.MapSeq(exs, IntensityOf), Medium)
    ensures Histogram(exs).low == Tally.Count(Tally.MapSeq(exs, IntensityOf), Low)
  {
    if |exs| > 0 {
      var p, x := exs[..|exs| - 1], exs[|exs| - 1];
      HistogramCounts(p);
      var levels := Tally.MapSeq(exs, IntensityOf);
      assert levels == Tally.MapSeq(p, IntensityOf) + [IntensityOf(x)];
      assert multiset(levels) == multiset(Tally.MapSeq(p, IntensityOf)) + multiset{IntensityOf(x)};
    }
  }

  /** The buckets together count the entries at one of the three levels, so never more
      than there are entries. */
  lemma {:induction false} HistogramTotal(exs: seq<LoggedExercise>)
    ensures HistTotal(Histogram(exs)) == |Tally.Filter(exs, Graded)| <= |exs|
  {
    if |exs| > 0 {
      var p, x := exs[..|exs| - 1], exs[|exs| - 1];
      HistogramTotal(p);
      AddIntensityTotal(Histogram(p), IntensityOf(x));
      assert Tally.Filter(exs, Graded) == Tally.Filter(p, Graded) + if Graded(x) then [x] else [];
    }
  }

  function Percentages(d: IntensityDist): IntensityDist {
    var t := HistTotal(d);
    IntensityDist(Tally.PercentTenths(d.high, t), Tally.PercentTenths(d.medium, t), Tally.PercentTenths(d.low, t))
  }

  function MuscleSet(ms: seq<string>): set<string> { set i | 0 <= i < |ms| :: ms[i] }

  /** The union of the entries' `muscles` lists. */
  function MusclesOf(exs: seq<LoggedExercise>): set<string> {
    if |exs| == 0 then {}
    else MusclesOf(exs[..|exs| - 1]) + MuscleSet(InfoOf(exs[|exs| - 1]).muscles)
  }

  datatype Statistics = Statistics(
    totalExercises: nat,
    totalTime: int,
    intensity: IntensityDist,
    intensityTenths: IntensityDist,
    bodyParts: seq<(string, nat)>,
    tools: seq<(string, nat)>,
    muscles: set<string>)

  function StatsOf(exs: seq<LoggedExercise>): Statistics {
    var hist := Histogram(exs);
    Statistics(
      |exs|,
      Tally.Sum(Tally.MapSeq(exs, TimeOf)),
      hist,
      Percentages(hist),
      Tally.TallyOf(Tally.MapSeq(exs, PartOfEntry)),
      Tally.TallyOf(Tally.MapSeq(exs, ToolOfEntry)),
      MusclesOf(exs))
  }

  /** The body-part counter holds every part once, counted by occurrence, and adds up to
      the number of entries. */
  lemma BodyPartCounter(exs: seq<LoggedExercise>)
    ensures var parts := StatsOf(exs).bodyParts;
      && Tally.Distinct(Tally.Keys(parts))
      && (forall k :: Tally.Get(parts, k) == Tally.Count(Tally.MapSeq(exs, PartOfEntry), k))
      && Tally.Total(parts) == |exs|
  {
    Tally.TallyFacts(Tally.MapSeq(exs, PartOfEntry));
  }

  /** The tool counter holds every tool once, counted by occurrence, and adds up to the
      number of entries. */
  lemma ToolCounter(exs: seq<LoggedExercise>)
    ensures var tools := StatsOf(exs).tools;
      && Tally.Distinct(Tally.Keys(tools))
      && (forall k :: Tally.Get(tools, k) == Tally.Count(Tally.MapSeq(exs, ToolOfEntry), k))
      && Tally.Total(tools) == |exs|
  {
    Tally.TallyFacts(Tally.MapSeq(exs, ToolOfEntry));
  }

  // --------------------------------------------------------- the messages

  /** Block 1: the share of each intensity level, in tenths of a percent. */
  datatype IntensityNote =
    | VeryHighIntensity(highTenths: nat)
    | ModerateNextSession
    | HighIntensity(highTenths: nat)
    | MostlyLowIntensity(lowTenths: nat)
    | BalancedMediumIntensity(mediumTenths: nat)

  /** Block 2: the average time per exercise, carried as total minutes over entries. */
  datatype TimeNote =
    | AvgTimeVeryGood(totalTime: int, count: nat)
    | AvgTimeGood(totalTime: int, count: nat)
    | AvgTimeShort(totalTime: int, count: nat)
    | AvgTimeTooShort(totalTime: int, count: nat)

  /** Block 3: the body parts trained. */
  datatype PartNote =
    | SinglePartFocus(part: string)
    | AddUpperBodyForBalance
    | TwoPartsBalanced(first: string, second: string)
    | ManyParts(partCount: nat)

  /** Block 4: the tools used. */
  datatype ToolNote = SingleTool(tool: string) | ManyTools(toolCount: nat)

  /** Block 5: the muscles targeted. */
  datatype MuscleNote = TargetMuscles(muscles: set<string>) | StretchQuadriceps

  /** Block 6: one line per exercise whose title calls for one. */
  datatype DetailNote =
    | SquatHard(name: string)
    | SquatModerate(name: string)
    | LegExtensionShort(name: string, minutes: int)
    | LegExtensionFine(name: string, minutes: int, level: string)

  /** Block 7: the order of the session and its mix of compound and isolation work. */
  datatype OrderNote =
    | ExerciseOrder(first: string, last: string)
    | CompoundAndIsolation(compound: nat, isolation: nat)
    | CompoundFocused

  /** Block 8: the memo. */
  datatype MemoNote = MemoQuoted(memo: string) | MemoTough | WarmUpAndCoolDown | MemoSatisfied

  /** Block 9: intake after a hard or a long session. */
  datatype FollowUpNote = ProteinAfterHighIntensity | HydrateAfterLongSession

  /** Block 10: the next session. */
  datatype NextPlanNote = AddUpperBodyNext | AddLowerBodyNext

  /** A message of the three output lists, by the block that emits it. */
  datatype Message =
    | Intensity(intensityNote: IntensityNote)
    | AverageTime(timeNote: TimeNote)
    | BodyParts(partNote: PartNote)
    | Tools(toolNote: ToolNote)
    | Muscles(muscleNote: MuscleNote)
    | ExerciseLine(detailNote: DetailNote)
    | Composition(orderNote: OrderNote)
    | Memo(memoNote: MemoNote)
    | FollowUp(followUpNote: FollowUpNote)
    | NextSession(nextPlanNote: NextPlanNote)

  /** The rule block (numbered from 0) that emits a message. */
  function SectionOf(m: Message): nat {
    match m
    case Intensity(_) => 0
    case AverageTime(_) => 1
    case BodyParts(_) => 2
    case Tools(_) => 3
    case Muscles(_) => 4
    case ExerciseLine(_) => 5
    case Composition(_) => 6
    case Memo(_) => 7
    case FollowUp(_) => 8
    case NextSession(_) => 9
  }

  /** What one rule block appends to the three lists. */
  datatype Notes = Notes(insights: seq<Message>, recommendations: seq<Message>, warnings: seq<Message>)

  const NoNotes := Notes([], [], [])

  /** Every message of `ms` comes from block `k`. */
  predicate AllFrom(ms: seq<Message>, k: nat) {
    |ms| == 0 || (SectionOf(ms[0]) == k && AllFrom(ms[1..], k))
  }

  lemma {:induction false} AllFromMember(ms: seq<Message>, k: nat, m: Message)
    requires AllFrom(ms, k) && m in ms
    ensures SectionOf(m) == k
  {
    if ms[0] != m {
      assert m in ms[1..];
      AllFromMember(ms[1..], k, m);
    }
  }

  lemma {:induction false} AllFromAppend(a: seq<Message>, b: seq<Message>, k: nat)
    requires AllFrom(a, k) && AllFrom(b, k)
    ensures AllFrom(a + b, k)
  {
    if |a| > 0 {
      AllFromAppend(a[1..], b, k);
      assert (a + b)[1..] == a[1..] + b;
    } else {
      assert a + b == b;
    }
  }

  /** Every message of `n` comes from block `k`. */
  predicate Tagged(n: Notes, k: nat) {
    AllFrom(n.insights, k) && AllFrom(n.recommendations, k) && AllFrom(n.warnings, k)
  }

  /** A block holds no message of another block. */
  lemma NotFromOther(n: Notes, k: nat, m: Message)
    requires Tagged(n, k) && SectionOf(m) != k
    ensures m !in n.insights && m !in n.recommendations && m !in n.warnings
  {
    if m in n.insights {
      AllFromMember(n.insights, k, m);
    }
    if m in n.recommendations {
      AllFromMember(n.recommendations, k, m);
    }
    if m in n.warnings {
      AllFromMember(n.warnings, k, m);
    }
  }

  function IntensityNotes(pct: IntensityDist): (n: Notes)
    ensures Tagged(n, 0)
  {
    if pct.high > 700 then Notes([], [Intensity(ModerateNextSession)], [Intensity(VeryHighIntensity(pct.high))])
    else if pct.high > 500 then Notes([], [], [Intensity(HighIntensity(pct.high))])
    else if pct.low > 700 then Notes([], [Intensity(MostlyLowIntensity(pct.low))], [])
    else if pct.medium > 600 then Notes([Intensity(BalancedMediumIntensity(pct.medium))], [], [])
    else NoNotes
  }

  /** The average `totalTime / count` against 45, 30 and 15 minutes, cross-multiplied. */
  function TimeNotes(totalTime: int, count: nat): (n: Notes)
    ensures Tagged(n, 1)
  {
    if totalTime > 45 * count then Notes([AverageTime(AvgTimeVeryGood(totalTime, count))], [], [])
    else if totalTime > 30 * count then Notes([AverageTime(AvgTimeGood(totalTime, count))], [], [])
    else if totalTime > 15 * count then Notes([], [AverageTime(AvgTimeShort(totalTime, count))], [])
    else Notes([], [], [AverageTime(AvgTimeTooShort(totalTime, count))])
  }

  function PartNotes(parts: seq<(string, nat)>): (n: Notes)
    ensures Tagged(n, 2)
  {
    if |parts| == 1 then Notes([], [BodyParts(AddUpperBodyForBalance)], [BodyParts(SinglePartFocus(parts[0].0))])
    else if |parts| == 2 then Notes([BodyParts(TwoPartsBalanced(parts[0].0, parts[1].0))], [], [])
    else if |parts| >= 3 then Notes([BodyParts(ManyParts(|parts|))], [], [])
    else NoNotes
  }

  function ToolNotes(tools: seq<(string, nat)>): (n: Notes)
    ensures Tagged(n, 3)
  {
    if |tools| == 1 then Notes([], [Tools(SingleTool(tools[0].0))], [])
    else if |tools| >= 2 then Notes([Tools(ManyTools(|tools|))], [], [])
    else NoNotes
  }

  function MuscleNotes(muscles: set<string>): (n: Notes)
    ensures Tagged(n, 4)
  {
    if |muscles| > 0 then
      Notes([Muscles(TargetMuscles(muscles))], if "넙다리네갈래근" in muscles then [Muscles(StretchQuadriceps)] else [], [])
    else NoNotes
  }

  // ------------------------------------------------- per-exercise lines

  /** The line of block 6 for one entry, if its title calls for one. */
  function Detail(ex: LoggedExercise): (d: Option<Message>)
    ensures d.Some? ==> SectionOf(d.value) == 5
  {
    var name := OrElse(InfoOf(ex).title, "");
    var minutes := TimeOf(ex);
    var level := OrElse(ex.intensity, "");
    if Contains(name, "스쿼트") || Contains(name, "앉았다") then
      if level == "상" && minutes > 25 then Some(ExerciseLine(SquatHard(name)))
      else if level == "중" then Some(ExerciseLine(SquatModerate(name)))
      else None
    else if Contains(name, "다리") && (Contains(name, "밀기") || Contains(name, "펴기")) then
      if minutes < 15 then Some(ExerciseLine(LegExtensionShort(name, minutes)))
      else Some(ExerciseLine(LegExtensionFine(name, minutes, level)))
    else None
  }

  function Details(exs: seq<LoggedExercise>): (ds: seq<Message>)
    ensures AllFrom(ds, 5)
  {
    if |exs| == 0 then []
    else
      var d := Detail(exs[|exs| - 1]);
      var tail := if d.Some? then [d.value] else [];
      AllFromAppend(Details(exs[..|exs| - 1]), tail, 5);
      Details(exs[..|exs| - 1]) + tail
  }

  /** Every entry that calls for a line gets it, and nothing else is said. */
  lemma {:induction false} DetailsCover(exs: seq<LoggedExercise>)
    ensures forall i :: 0 <= i < |exs| && Detail(exs[i]).Some? ==> Detail(exs[i]).value in Details(exs)
    ensures forall m :: m in Details(exs) ==> exists i :: 0 <= i < |exs| && Detail(exs[i]) == Some(m)
  {
    if |exs| > 0 {
      var p := exs[..|exs| - 1];
      DetailsCover(p);
      forall m | m in Details(exs)
        ensures exists i :: 0 <= i < |exs| && Detail(exs[i]) == Some(m)
      {
        if m in Details(p) {
          var i :| 0 <= i < |p| && Detail(p[i]) == Some(m);
          assert exs[i] == p[i];
        } else {
          assert Detail(exs[|exs| - 1]) == Some(m);
        }
      }
      forall i | 0 <= i < |exs| && Detail(exs[i]).Some?
        ensures Detail(exs[i]).value in Details(exs)
      {
        if i < |p| {
          assert exs[i] == p[i];
        }
      }
    }
  }

  // ------------------------------------------------ order and composition

  const CompoundKeywords: seq<string> := ["스쿼트", "데드리프트", "벤치프레스", "풀업", "앉았다"]

  /** `any(keyword in text for keyword in kws)`. */
  predicate AnyIn(text: string, kws: seq<string>) {
    |kws| > 0 && (Contains(text, kws[0]) || AnyIn(text, kws[1..]))
  }

  predicate IsCompound(name: string) { AnyIn(name, CompoundKeywords) }

  predicate IsIsolation(name: string) { !IsCompound(name) }

  function Titles(exs: seq<LoggedExercise>): (ts: seq<string>)
    requires AllTitled(exs)
    ensures |ts| == |exs| && forall i :: 0 <= i < |exs| ==> TitleOf(exs[i]) == Some(ts[i])
  {
    if |exs| == 0 then [] else Titles(exs[..|exs| - 1]) + [TitleOf(exs[|exs| - 1]).value]
  }

  /** Every title is either compound or isolation, never both. */
  lemma {:induction false} CompoundPartition(ts: seq<string>)
    ensures |Tally.Filter(ts, IsCompound)| + |Tally.Filter(ts, IsIsolation)| == |ts|
  {
    if |ts| > 0 {
      CompoundPartition(ts[..|ts| - 1]);
    }
  }

  /** The composition line from the numbers of compound and isolation titles. */
  function CompositionNotes(c: nat, i: nat): (n: Notes)
    ensures Tagged(n, 6)
  {
    if c > 0 && i > 0 then Notes([Composition(CompoundAndIsolation(c, i))], [], [])
    else if c > 0 then Notes([Composition(CompoundFocused)], [], [])
    else NoNotes
  }

  function OrderNotes(exs: seq<LoggedExercise>): (n: Notes)
    requires |exs| >= 2 ==> AllTitled(exs)
    ensures Tagged(n, 6)
  {
    if |exs| >= 2 then
      var ts := Titles(exs);
      var comp := CompositionNotes(|Tally.Filter(ts, IsCompound)|, |Tally.Filter(ts, IsIsolation)|);
      var head := [Composition(ExerciseOrder(ts[0], ts[|ts| - 1]))];
      assert AllFrom(head, 6) by { assert head[1..] == []; }
      AllFromAppend(head, comp.insights, 6);
      Notes(head + comp.insights, [], [])
    else NoNotes
  }

  // ------------------------------------------------- memo and follow-ups

  const ToughWords: seq<string> := ["힘들", "어려", "고생", "조졋"]
  const SatisfiedWords: seq<string> := ["좋", "만족", "성공", "완료"]

  function MemoNotes(memo: string): (n: Notes)
    ensures Tagged(n, 7)
  {
    if memo == "" then NoNotes
    else if AnyIn(memo, ToughWords) then Notes([Memo(MemoQuoted(memo)), Memo(MemoTough)], [Memo(WarmUpAndCoolDown)], [])
    else if AnyIn(memo, SatisfiedWords) then Notes([Memo(MemoQuoted(memo)), Memo(MemoSatisfied)], [], [])
    else Notes([Memo(MemoQuoted(memo))], [], [])
  }

  function FollowUpNotes(highTenths: nat, totalTime: int): (n: Notes)
    ensures Tagged(n, 8)
  {
    Notes([],
      (if highTenths > 500 then [FollowUp(ProteinAfterHighIntensity)] else [])
      + (if totalTime > 90 then [FollowUp(HydrateAfterLongSession)] else []),
      [])
  }

  function NextPlanNotes(parts: seq<(string, nat)>): (n: Notes)
    ensures Tagged(n, 9)
  {
    if |parts| == 1 && parts[0].0 == "하체" then Notes([], [NextSession(AddUpperBodyNext)], [])
    else if |parts| == 1 && parts[0].0 == "상체" then Notes([], [NextSession(AddLowerBodyNext)], [])
    else NoNotes
  }

  // ------------------------------------------------- assembling the lists

  /** What the ten rule blocks append, block by block. */
  datatype Blocks = Blocks(
    intensity: Notes,
    time: Notes,
    parts: Notes,
    tools: Notes,
    muscles: Notes,
    details: Notes,
    order: Notes,
    memo: Notes,
    followUp: Notes,
    nextPlan: Notes)
  {
    /** The notes of block `k`. */
    function Block(k: nat): Notes
      requires k < 10
    {
      if k == 0 then intensity else if k == 1 then time else if k == 2 then parts
      else if k == 3 then tools else if k == 4 then muscles else if k == 5 then details
      else if k == 6 then order else if k == 7 then memo else if k == 8 then followUp
      else nextPlan
    }

    /** Every block holds only its own messages. */
    predicate WellTagged() {
      forall k: nat | k < 10 :: Tagged(Block(k), k)
    }

    function Insights(): seq<Message> {
      intensity.insights + time.insights + parts.insights + tools.insights + muscles.insights
      + details.insights + order.insights + memo.insights + followUp.insights + nextPlan.insights
    }

    function Recommendations(): seq<Message> {
      intensity.recommendations + time.recommendations + parts.recommendations + tools.recommendations
      + muscles.recommendations + details.recommendations + order.recommendations
      + memo.recommendations + followUp.recommendations + nextPlan.recommendations
    }

    function Warnings(): seq<Message> {
      intensity.warnings + time.warnings + parts.warnings + tools.warnings + muscles.warnings
      + details.warnings + order.warnings + memo.warnings + followUp.warnings + nextPlan.warnings
    }
  }

  /** Since every block holds only its own messages, a message is among the report's insights
      exactly when it is among its own block's insights. */
  lemma InInsights(b: Blocks, m: Message)
    requires b.WellTagged()
    ensures SectionOf(m) < 10 && (m in b.Insights() <==> m in b.Block(SectionOf(m)).insights)
  {
    var k := SectionOf(m);
    if k != 0 { NotFromOther(b.Block(0), 0, m); }
    if k != 1 { NotFromOther(b.Block(1), 1, m); }
    if k != 2 { NotFromOther(b.Block(2), 2, m); }
    if k != 3 { NotFromOther(b.Block(3), 3, m); }
    if k != 4 { NotFromOther(b.Block(4), 4, m); }
    if k != 5 { NotFromOther(b.Block(5), 5, m); }
    if k != 6 { NotFromOther(b.Block(6), 6, m); }
    if k != 7 { NotFromOther(b.Block(7), 7, m); }
    if k != 8 { NotFromOther(b.Block(8), 8, m); }
    if k != 9 { NotFromOther(b.Block(9), 9, m); }
  }

  /** Since every block holds only its own messages, a message is among the report's recommendations
      exactly when it is among its own block's recommendations. */
  lemma InRecommendations(b: Blocks, m: Message)
    requires b.WellTagged()
    ensures SectionOf(m) < 10 && (m in b.Recommendations() <==> m in b.Block(SectionOf(m)).recommendations)
  {
    var k := SectionOf(m);
    if k != 0 { NotFromOther(b.Block(0), 0, m); }
    if k != 1 { NotFromOther(b.Block(1), 1, m); }
    if k != 2 { NotFromOther(b.Block(2), 2, m); }
    if k != 3 { NotFromOther(b.Block(3), 3, m); }
    if k != 4 { NotFromOther(b.Block(4), 4, m); }
    if k != 5 { NotFromOther(b.Block(5), 5, m); }
    if k != 6 { NotFromOther(b.Block(6), 6, m); }
    if k != 7 { NotFromOther(b.Block(7), 7, m); }
    if k != 8 { NotFromOther(b.Block(8), 8, m); }
    if k != 9 { NotFromOther(b.Block(9), 9, m); }
  }

  /** Since every block holds only its own messages, a message is among the report's warnings
      exactly when it is among its own block's warnings. */
  lemma InWarnings(b: Blocks, m: Message)
    requires b.WellTagged()
    ensures SectionOf(m) < 10 && (m in b.Warnings() <==> m in b.Block(SectionOf(m)).warnings)
  {
    var k := SectionOf(m);
    if k != 0 { NotFromOther(b.Block(0), 0, m); }
    if k != 1 { NotFromOther(b.Block(1), 1, m); }
    if k != 2 { NotFromOther(b.Block(2), 2, m); }
    if k != 3 { NotFromOther(b.Block(3), 3, m); }
    if k != 4 { NotFromOther(b.Block(4), 4, m); }
    if k != 5 { NotFromOther(b.Block(5), 5, m); }
    if k != 6 { NotFromOther(b.Block(6), 6, m); }
    if k != 7 { NotFromOther(b.Block(7), 7, m); }
    if k != 8 { NotFromOther(b.Block(8), 8, m); }
    if k != 9 { NotFromOther(b.Block(9), 9, m); }
  }

  function BlocksOf(log: WorkoutLog, st: Statistics, details: seq<Message>, order: Notes): (b: Blocks)
    requires AllFrom(details, 5)
    requires Tagged(order, 6)
    ensures b.WellTagged()
  {
    Blocks(
      IntensityNotes(st.intensityTenths),
      TimeNotes(st.totalTime, st.totalExercises),
      PartNotes(st.bodyParts),
      ToolNotes(st.tools),
      MuscleNotes(st.muscles),
      Notes(details, [], []),
      order,
      MemoNotes(OrElse(log.memo, "")),
      FollowUpNotes(st.intensityTenths.high, st.totalTime),
      NextPlanNotes(st.bodyParts))
  }

  // ------------------------------------------------------- highlights

  datatype Highlights = Highlights(
    mostFrequentBodyPart: (string, nat),
    mostUsedTool: (string, nat),
    dominantIntensity: (string, nat))

  /** The first entry with the largest count, or ("없음", 0) for an empty counter. */
  function MostCommon(d: seq<(string, nat)>): (e: (string, nat))
    ensures |d| == 0 ==> e == ("없음", 0)
    ensures |d| > 0 ==> e in d && forall i :: 0 <= i < |d| ==> d[i].1 <= e.1
    ensures |d| > 0 ==> exists i :: 0 <= i < |d| && d[i] == e && forall j :: 0 <= j < i ==> d[j].1 < e.1
  {
    if |d| == 0 then ("없음", 0) else d[Tally.MaxIndex(d)]
  }

  function HighlightsOf(st: Statistics): Highlights {
    var levels := [("상", st.intensity.high), ("중", st.intensity.medium), ("하", st.intensity.low)];
    Highlights(
      MostCommon(st.bodyParts),
      MostCommon(st.tools),
      if HistTotal(st.intensity) > 0 then MostCommon(levels) else ("없음", 0))
  }

  // ---------------------------------------------------------- the result

  datatype Analysis =
    | NoRecords
    | Report(
        date: string,
        stats: Statistics,
        insights: seq<Message>,
        recommendations: seq<Message>,
        warnings: seq<Message>,
        highlights: Highlights)
    | AnalysisFailed

  /** The report of a non-empty log from its statistics and its rule blocks: each output
      list is the blocks' lists in block order. */
  function Assemble(log: WorkoutLog, st: Statistics, b: Blocks): (r: Analysis)
    ensures r.Report? && r.stats == st
  {
    Report(OrElse(log.date, "해당 날짜"), st, b.Insights(), b.Recommendations(), b.Warnings(), HighlightsOf(st))
  }

  /** The analysis of a log: nothing to analyse, the error object of a missing title, or the report. */
  function Analyze(log: WorkoutLog): (r: Analysis)
    ensures r.NoRecords? <==> |log.exercises| == 0
    ensures r.AnalysisFailed? <==> |log.exercises| >= 2 && !AllTitled(log.exercises)
    ensures r.Report? ==> r.stats.totalExercises == |log.exercises| > 0
  {
    var exs := log.exercises;
    if |exs| == 0 then NoRecords
    else if |exs| >= 2 && !AllTitled(exs) then AnalysisFailed
    else
      var st := StatsOf(exs);
      Assemble(log, st, BlocksOf(log, st, Details(exs), OrderNotes(exs)))
  }

  // ------------------------------------------------- rule-level properties
  // Each is stated for any report assembled from well-tagged blocks whose block in
  // question is the one `BlocksOf` builds from the statistics.

  /** Exactly one of the four average-time messages appears, chosen by the average. */
  lemma TimeTier(log: WorkoutLog, st: Statistics, b: Blocks)
    requires b.WellTagged() && b.time == TimeNotes(st.totalTime, st.totalExercises)
    ensures var r := Assemble(log, st, b);
      var t := st.totalTime;
      var n := st.totalExercises;
      && (AverageTime(AvgTimeVeryGood(t, n)) in r.insights <==> t > 45 * n)
      && (AverageTime(AvgTimeGood(t, n)) in r.insights <==> 30 * n < t <= 45 * n)
      && (AverageTime(AvgTimeShort(t, n)) in r.recommendations <==> 15 * n < t <= 30 * n)
      && (AverageTime(AvgTimeTooShort(t, n)) in r.warnings <==> t <= 15 * n)
  {
    var t := st.totalTime;
    var n := st.totalExercises;
    InInsights(b, AverageTime(AvgTimeVeryGood(t, n)));
    InInsights(b, AverageTime(AvgTimeGood(t, n)));
    InRecommendations(b, AverageTime(AvgTimeShort(t, n)));
    InWarnings(b, AverageTime(AvgTimeTooShort(t, n)));
  }

  /** Above 70% high-intensity exercise: the overload warning and the advice to go moderate next time. */
  lemma VeryHighIntensityRule(log: WorkoutLog, st: Statistics, b: Blocks)
    requires b.WellTagged() && b.intensity == IntensityNotes(st.intensityTenths)
    ensures var r := Assemble(log, st, b);
      var p := st.intensityTenths;
      && (Intensity(VeryHighIntensity(p.high)) in r.warnings <==> p.high > 700)
      && (Intensity(ModerateNextSession) in r.recommendations <==> p.high > 700)
  {
    var p := st.intensityTenths;
    InWarnings(b, Intensity(VeryHighIntensity(p.high)));
    InRecommendations(b, Intensity(ModerateNextSession));
  }

  /** Above 50% but not above 70% high-intensity exercise: the milder warning only. */
  lemma HighIntensityRule(log: WorkoutLog, st: Statistics, b: Blocks)
    requires b.WellTagged() && b.intensity == IntensityNotes(st.intensityTenths)
    ensures var r := Assemble(log, st, b);
      var p := st.intensityTenths;
      Intensity(HighIntensity(p.high)) in r.warnings <==> 500 < p.high <= 700
  {
    InWarnings(b, Intensity(HighIntensity(st.intensityTenths.high)));
  }

  /** When the high share is at most 50%, a low share above 70% draws the advice to push harder. */
  lemma LowIntensityRule(log: WorkoutLog, st: Statistics, b: Blocks)
    requires b.WellTagged() && b.intensity == IntensityNotes(st.intensityTenths)
    ensures var r := Assemble(log, st, b);
      var p := st.intensityTenths;
      Intensity(MostlyLowIntensity(p.low)) in r.recommendations <==> p.high <= 500 && p.low > 700
  {
    InRecommendations(b, Intensity(MostlyLowIntensity(st.intensityTenths.low)));
  }

  /** Only when no earlier intensity rule fired, a medium share above 60% is praised as balanced. */
  lemma BalancedIntensityRule(log: WorkoutLog, st: Statistics, b: Blocks)
    requires b.WellTagged() && b.intensity == IntensityNotes(st.intensityTenths)
    ensures var r := Assemble(log, st, b);
      var p := st.intensityTenths;
      Intensity(BalancedMediumIntensity(p.medium)) in r.insights <==> p.high <= 500 && p.low <= 700 && p.medium > 600
  {
    InInsights(b, Intensity(BalancedMediumIntensity(st.intensityTenths.medium)));
  }

  /** Protein advice follows a day above 50% high-intensity exercise. */
  lemma ProteinRule(log: WorkoutLog, st: Statistics, b: Blocks)
    requires b.WellTagged() && b.followUp == FollowUpNotes(st.intensityTenths.high, st.totalTime)
    ensures var r := Assemble(log, st, b);
      FollowUp(ProteinAfterHighIntensity) in r.recommendations <==> st.intensityTenths.high > 500
  {
    InRecommendations(b, FollowUp(ProteinAfterHighIntensity));
  }

  /** Water advice follows a day of more than 90 minutes in total. */
  lemma HydrationRule(log: WorkoutLog, st: Statistics, b: Blocks)
    requires b.WellTagged() && b.followUp == FollowUpNotes(st.intensityTenths.high, st.totalTime)
    ensures var r := Assemble(log, st, b);
      FollowUp(HydrateAfterLongSession) in r.recommendations <==> st.totalTime > 90
  {
    InRecommendations(b, FollowUp(HydrateAfterLongSession));
  }

  /** A day spent on one body part draws the imbalance warning and the balancing recommendation. */
  lemma SinglePartRule(log: WorkoutLog, st: Statistics, b: Blocks)
    requires b.WellTagged() && b.parts == PartNotes(st.bodyParts)
    requires |st.bodyParts| == 1
    ensures var r := Assemble(log, st, b);
      && BodyParts(SinglePartFocus(st.bodyParts[0].0)) in r.warnings
      && BodyParts(AddUpperBodyForBalance) in r.recommendations
  {
    InWarnings(b, BodyParts(SinglePartFocus(st.bodyParts[0].0)));
    InRecommendations(b, BodyParts(AddUpperBodyForBalance));
  }

  /** The next-session advice names the other half of the body after a lower-only or upper-only day. */
  lemma NextPlanRule(log: WorkoutLog, st: Statistics, b: Blocks)
    requires b.WellTagged() && b.nextPlan == NextPlanNotes(st.bodyParts)
    ensures var r := Assemble(log, st, b);
      var parts := st.bodyParts;
      && (NextSession(AddUpperBodyNext) in r.recommendations <==> |parts| == 1 && parts[0].0 == "하체")
      && (NextSession(AddLowerBodyNext) in r.recommendations <==> |parts| == 1 && parts[0].0 == "상체")
  {
    InRecommendations(b, NextSession(AddUpperBodyNext));
    InRecommendations(b, NextSession(AddLowerBodyNext));
  }

  /** A non-empty memo is quoted in the insights. */
  lemma MemoQuoteRule(log: WorkoutLog, st: Statistics, b: Blocks)
    requires b.WellTagged() && b.memo == MemoNotes(OrElse(log.memo, ""))
    ensures var r := Assemble(log, st, b);
      var memo := OrElse(log.memo, "");
      Memo(MemoQuoted(memo)) in r.insights <==> memo != ""
  {
    InInsights(b, Memo(MemoQuoted(OrElse(log.memo, ""))));
  }

  /** A memo with a tough word draws the warm-up advice; otherwise one with a satisfied word
      draws the encouragement. */
  lemma MemoToneRule(log: WorkoutLog, st: Statistics, b: Blocks)
    requires b.WellTagged() && b.memo == MemoNotes(OrElse(log.memo, ""))
    ensures var r := Assemble(log, st, b);
      var memo := OrElse(log.memo, "");
      && (Memo(WarmUpAndCoolDown) in r.recommendations <==> memo != "" && AnyIn(memo, ToughWords))
      && (Memo(MemoSatisfied) in r.insights <==> memo != "" && !AnyIn(memo, ToughWords) && AnyIn(memo, SatisfiedWords))
  {
    InRecommendations(b, Memo(WarmUpAndCoolDown));
    InInsights(b, Memo(MemoSatisfied));
  }

  /** The highlights of a non-empty log name a body part and a tool that occur in its
      counters with the largest count. */
  lemma HighlightsFacts(exs: seq<LoggedExercise>)
    requires |exs| > 0
    ensures var st := StatsOf(exs);
      var h := HighlightsOf(st);
      && h.mostFrequentBodyPart in st.bodyParts
      && h.mostUsedTool in st.tools
      && (forall i :: 0 <= i < |st.bodyParts| ==> st.bodyParts[i].1 <= h.mostFrequentBodyPart.1)
      && (forall i :: 0 <= i < |st.tools| ==> st.tools[i].1 <= h.mostUsedTool.1)
  {
    var st := StatsOf(exs);
    assert |st.bodyParts| > 0 by {
      BodyPartCounter(exs);
      assert Tally.Total(st.bodyParts) > 0;
    }
    assert |st.tools| > 0 by {
      ToolCounter(exs);
      assert Tally.Total(st.tools) > 0;
    }
  }

  /** The dominant intensity is "없음" exactly when no entry carries a graded level. */
  lemma DominantIntensityFacts(exs: seq<LoggedExercise>)
    ensures var st := StatsOf(exs);
      HighlightsOf(st).dominantIntensity == ("없음", 0) <==> |Tally.Filter(exs, Graded)| == 0
  {
    HistogramTotal(exs);
    NoDominantIntensity(StatsOf(exs));
  }

  lemma NoDominantIntensity(st: Statistics)
    ensures HighlightsOf(st).dominantIntensity == ("없음", 0) <==> HistTotal(st.intensity) == 0
  {
    if HistTotal(st.intensity) > 0 {
      var levels := [("상", st.intensity.high), ("중", st.intensity.medium), ("하", st.intensity.low)];
      var e := MostCommon(levels);
      assert e.0 in {"상", "중", "하"};
    }
  }

  // --------------------------------------------------- the loops in place

  lemma TimeStep(exs: seq<LoggedExercise>, i: nat)
    requires i < |exs|
    ensures Tally.Sum(Tally.MapSeq(exs[..i + 1], TimeOf)) == Tally.Sum(Tally.MapSeq(exs[..i], TimeOf)) + TimeOf(exs[i])
  {
    var m := Tally.MapSeq(exs[..i], TimeOf);
    assert exs[..i + 1] == exs[..i] + [exs[i]];
    Tally.MapSeqSnoc(exs[..i], exs[i], TimeOf);
    assert (m + [TimeOf(exs[i])])[..|m|] == m;
  }

  method SumTimes(exs: seq<LoggedExercise>) returns (total: int)
    ensures total == Tally.Sum(Tally.MapSeq(exs, TimeOf))
  {
    total := 0;
    var i := 0;
    while i < |exs|
      invariant 0 <= i <= |exs|
      invariant total == Tally.Sum(Tally.MapSeq(exs[..i], TimeOf))
    {
      TimeStep(exs, i);
      total := total + TimeOf(exs[i]);
      i := i + 1;
    }
    assert exs[..i] == exs;
  }

  method CountIntensities(exs: seq<LoggedExercise>) returns (d: IntensityDist)
    ensures d == Histogram(exs)
  {
    d := IntensityDist(0, 0, 0);
    var i := 0;
    while i < |exs|
      invariant 0 <= i <= |exs|
      invariant d == Histogram(exs[..i])
    {
      assert exs[..i + 1][..i] == exs[..i];
      var level := IntensityOf(exs[i]);
      if level == High {
        d := d.(high := d.high + 1);
      } else if level == Medium {
        d := d.(medium := d.medium + 1);
      } else if level == Low {
        d := d.(low := d.low + 1);
      }
      i := i + 1;
    }
    assert exs[..i] == exs;
  }

  /** One entry's turn of the counter loop. */
  method TallyEntry(ex: LoggedExercise, parts: seq<(string, nat)>, tools: seq<(string, nat)>, muscles: set<string>)
    returns (parts': seq<(string, nat)>, tools': seq<(string, nat)>, muscles': set<string>)
    ensures parts' == Tally.Bump(parts, PartOfEntry(ex))
    ensures tools' == Tally.Bump(tools, ToolOfEntry(ex))
    ensures muscles' == muscles + MuscleSet(InfoOf(ex).muscles)
  {
    var info := InfoOf(ex);
    var part := info.bodyPart.GetOr("");
    if part == "" {
      part := Classify(info);
    }
    parts' := Tally.Bump(parts, part);
    tools' := Tally.Bump(tools, OrElse(info.exerciseTool, "기타"));
    muscles' := muscles;
    var j := 0;
    while j < |info.muscles|
      invariant 0 <= j <= |info.muscles|
      invariant muscles' == muscles + MuscleSet(info.muscles[..j])
    {
      assert info.muscles[..j + 1] == info.muscles[..j] + [info.muscles[j]];
      muscles' := muscles' + {info.muscles[j]};
      j := j + 1;
    }
    assert info.muscles[..j] == info.muscles;
  }

  method TallyEntries(exs: seq<LoggedExercise>)
    returns (parts: seq<(string, nat)>, tools: seq<(string, nat)>, muscles: set<string>)
    ensures parts == Tally.TallyOf(Tally.MapSeq(exs, PartOfEntry))
    ensures tools == Tally.TallyOf(Tally.MapSeq(exs, ToolOfEntry))
    ensures muscles == MusclesOf(exs)
  {
    parts, tools, muscles := [], [], {};
    var i := 0;
    while i < |exs|
      invariant 0 <= i <= |exs|
      invariant parts == Tally.TallyOf(Tally.MapSeq(exs[..i], PartOfEntry))
      invariant tools == Tally.TallyOf(Tally.MapSeq(exs[..i], ToolOfEntry))
      invariant muscles == MusclesOf(exs[..i])
    {
      Tally.TallyOfMapStep(exs, i, PartOfEntry);
      Tally.TallyOfMapStep(exs, i, ToolOfEntry);
      assert MusclesOf(exs[..i + 1]) == MusclesOf(exs[..i]) + MuscleSet(InfoOf(exs[i]).muscles) by {
        assert exs[..i + 1][..i] == exs[..i];
      }
      parts, tools, muscles := TallyEntry(exs[i], parts, tools, muscles);
      i := i + 1;
    }
    assert exs[..i] == exs;
  }

  method ExerciseDetails(exs: seq<LoggedExercise>) returns (ds: seq<Message>)
    ensures ds == Details(exs)
  {
    ds := [];
    var i := 0;
    while i < |exs|
      invariant 0 <= i <= |exs|
      invariant ds == Details(exs[..i])
    {
      assert exs[..i + 1][..i] == exs[..i];
      var d := Detail(exs[i]);
      if d.Some? {
        ds := ds + [d.value];
      }
      i := i + 1;
    }
    assert exs[..i] == exs;
  }

  lemma TitleStep(exs: seq<LoggedExercise>, i: nat)
    requires i < |exs| && AllTitled(exs[..i]) && TitleOf(exs[i]).Some?
    ensures AllTitled(exs[..i + 1])
    ensures Titles(exs[..i + 1]) == Titles(exs[..i]) + [TitleOf(exs[i]).value]
  {
    assert exs[..i + 1] == exs[..i] + [exs[i]];
    assert exs[..i + 1][..i] == exs[..i];
  }

  /** The composition loop: the compound and isolation titles, or None at the first entry
      whose title is missing. */
  method SplitCompound(exs: seq<LoggedExercise>) returns (res: Option<(seq<string>, seq<string>)>)
    ensures res.None? <==> !AllTitled(exs)
    ensures res.Some? ==>
      && AllTitled(exs)
      && res.value.0 == Tally.Filter(Titles(exs), IsCompound)
      && res.value.1 == Tally.Filter(Titles(exs), IsIsolation)
  {
    var compound, isolation := [], [];
    var i := 0;
    while i < |exs|
      invariant 0 <= i <= |exs|
      invariant AllTitled(exs[..i])
      invariant compound == Tally.Filter(Titles(exs[..i]), IsCompound)
      invariant isolation == Tally.Filter(Titles(exs[..i]), IsIsolation)
    {
      var t := TitleOf(exs[i]);
      if t.None? {
        return None;
      }
      TitleStep(exs, i);
      if IsCompound(t.value) {
        compound := compound + [t.value];
      } else {
        isolation := isolation + [t.value];
      }
      i := i + 1;
    }
    assert exs[..i] == exs;
    return Some((compound, isolation));
  }

  /** The order and composition pass: None when a log of two or more entries has an untitled
      entry, otherwise the order line and the composition notes. */
  method OrderPass(exs: seq<LoggedExercise>) returns (order: Option<Notes>)
    ensures order.None? <==> |exs| >= 2 && !AllTitled(exs)
    ensures order.Some? ==> order.value == OrderNotes(exs)
  {
    if |exs| < 2 {
      return Some(NoNotes);
    }
    var split := SplitCompound(exs);
    if split.None? {
      return None;
    }
    var first, last := TitleOf(exs[0]).value, TitleOf(exs[|exs| - 1]).value;
    var comp := CompositionNotes(|split.value.0|, |split.value.1|);
    order := Some(Notes([Composition(ExerciseOrder(first, last))] + comp.insights, [], []));
  }

  /** The whole analysis, pass by pass; a missing title in a log of two or more entries
      ends it with the error object. */
  method AnalyzeDailyWorkout(log: WorkoutLog) returns (r: Analysis)
    ensures r == Analyze(log)
  {
    var exs := log.exercises;
    if |exs| == 0 {
      return NoRecords;
    }
    var totalTime := SumTimes(exs);
    var hist := CountIntensities(exs);
    var parts, tools, muscles := TallyEntries(exs);
    var st := Statistics(|exs|, totalTime, hist, Percentages(hist), parts, tools, muscles);
    assert st == StatsOf(exs);
    var details := ExerciseDetails(exs);
    var order := OrderPass(exs);
    if order.None? {
      return AnalysisFailed;
    }
    r := Assemble(log, st, BlocksOf(log, st, details, order.value));
  }
}
