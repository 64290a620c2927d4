/**
 * Request validation of the recommendation API: the `split_type`, `primary_goal` and
 * `experience_level` validators of the recommendation request, its integer bounds, and the
 * range constraints of the stored user goal and of user feedback.
 * A validator either returns its argument unchanged or raises ValueError; pydantic collects
 * the failures of every field, so a validation returns the list of failing fields.
 */
module Schemas {
  import opened Wrappers

  const SplitTypes: seq<string> := ["2분할", "3분할", "전신"]
  const PrimaryGoals: seq<string> := ["근육 증가", "다이어트", "체력 향상", "재활", "유지"]
  const ExperienceLevels: seq<string> := ["초급", "중급", "고급"]

  /** The field whose constraint failed. */
  datatype Field =
    | UserId | WeeklyFrequency | SplitType | PrimaryGoal | ExperienceLevel | AvailableTime
    | Rating | DifficultyRating | EnjoymentRating | EffectivenessRating

  /** A ValueError raised by a validator or a failed `Field(...)` constraint. */
  datatype ValidationError = ValidationError(field: Field)

  datatype RecommendationRequest = RecommendationRequest(
    userId: string,
    weeklyFrequency: int,
    splitType: string,
    primaryGoal: string,
    experienceLevel: string,
    availableTime: int,
    preferredEquipment: Option<string>,
    excludeExercises: Option<seq<string>>)

  datatype UserGoal = UserGoal(
    userId: string,
    weeklyFrequency: int,
    splitType: string,
    primaryGoal: string,
    secondaryGoal: Option<string>,
    experienceLevel: string,
    availableTime: int,
    preferredEquipment: Option<string>,
    healthConditions: Option<string>)

  datatype FeedbackCreate = FeedbackCreate(
    userId: string,
    exerciseId: int,
    rating: int,
    difficultyRating: Option<int>,
    enjoymentRating: Option<int>,
    effectivenessRating: Option<int>,
    feedbackText: Option<string>)

  /** A validator over a fixed list of allowed values. */
  function ValidateMember(v: string, allowed: seq<string>, field: Field): (r: Result<string, ValidationError>)
    ensures r.Ok? <==> v in allowed
    ensures r.Ok? ==> r.value == v
    ensures r.Err? ==> r.error.field == field
  {
    if v in allowed then Ok(v) else Err(ValidationError(field))
  }

  function ValidateSplitType(v: string): (r: Result<string, ValidationError>)
    ensures r.Ok? <==> v == "2분할" || v == "3분할" || v == "전신"
    ensures r.Ok? ==> r.value == v
    ensures r.Err? ==> r.error == ValidationError(SplitType)
  {
    ValidateMember(v, SplitTypes, SplitType)
  }

  function ValidatePrimaryGoal(v: string): (r: Result<string, ValidationError>)
    ensures r.Ok? <==> v == "근육 증가" || v == "다이어트" || v == "체력 향상" || v == "재활" || v == "유지"
    ensures r.Ok? ==> r.value == v
    ensures r.Err? ==> r.error == ValidationError(PrimaryGoal)
  {
    ValidateMember(v, PrimaryGoals, PrimaryGoal)
  }

  function ValidateExperienceLevel(v: string): (r: Result<string, ValidationError>)
    ensures r.Ok? <==> v == "초급" || v == "중급" || v == "고급"
    ensures r.Ok? ==> r.value == v
    ensures r.Err? ==> r.error == ValidationError(ExperienceLevel)
  {
    ValidateMember(v, ExperienceLevels, ExperienceLevel)
  }

  predicate InRange(x: int, lo: int, hi: int) { lo <= x <= hi }

  /** The field `f` as an error list of its own: listed exactly when its check fails. */
  function Failing(ok: bool, f: Field): (errs: seq<Field>)
    ensures forall g :: g in errs <==> !ok && g == f
  {
    if ok then [] else [f]
  }

  /** Whether the constraint on field `f` of the request fails. */
  predicate Fails(req: RecommendationRequest, f: Field) {
    match f
    case UserId => |req.userId| < 1
    case WeeklyFrequency => !InRange(req.weeklyFrequency, 1, 7)
    case SplitType => req.splitType !in SplitTypes
    case PrimaryGoal => req.primaryGoal !in PrimaryGoals
    case ExperienceLevel => req.experienceLevel !in ExperienceLevels
    case AvailableTime => !InRange(req.availableTime, 15, 180)
    case _ => false
  }

  /** The fields of a recommendation request that fail validation, in declaration order. */
  function RequestErrors(req: RecommendationRequest): (errs: seq<Field>)
    ensures forall f :: f in errs <==> Fails(req, f)
  {
    var a := Failing(|req.userId| >= 1, UserId);
    var b := Failing(InRange(req.weeklyFrequency, 1, 7), WeeklyFrequency);
    var c := Failing(ValidateMember(req.splitType, SplitTypes, SplitType).Ok?, SplitType);
    var d := Failing(ValidateMember(req.primaryGoal, PrimaryGoals, PrimaryGoal).Ok?, PrimaryGoal);
    var e := Failing(ValidateMember(req.experienceLevel, ExperienceLevels, ExperienceLevel).Ok?, ExperienceLevel);
    var f := Failing(InRange(req.availableTime, 15, 180), AvailableTime);
    a + b + c + d + e + f
  }

  /** A request the API accepts. */
  predicate ValidRequest(req: RecommendationRequest) {
    && |req.userId| >= 1
    && InRange(req.weeklyFrequency, 1, 7)
    && req.splitType in SplitTypes
    && req.primaryGoal in PrimaryGoals
    && req.experienceLevel in ExperienceLevels
    && InRange(req.availableTime, 15, 180)
  }

  /** Construction of a request: the request itself, or a ValidationError listing every failing field. */
  function ValidateRequest(req: RecommendationRequest): (r: Result<RecommendationRequest, seq<Field>>)
    ensures r.Ok? <==> ValidRequest(req)
    ensures r.Ok? ==> r.value == req
    ensures r.Err? ==> |r.error| > 0
  {
    var errs := RequestErrors(req);
    if |errs| == 0 then Ok(req) else Err(errs)
  }

  /** The stored user goal: its pattern fields take the same values as the request validators,
      and its integer bounds are the request's. */
  predicate ValidUserGoal(g: UserGoal) {
    && InRange(g.weeklyFrequency, 1, 7)
    && g.splitType in SplitTypes
    && g.primaryGoal in PrimaryGoals
    && g.experienceLevel in ExperienceLevels
    && InRange(g.availableTime, 15, 180)
  }

  function UserGoalErrors(g: UserGoal): (errs: seq<Field>)
    ensures |errs| == 0 <==> ValidUserGoal(g)
    ensures WeeklyFrequency in errs <==> !InRange(g.weeklyFrequency, 1, 7)
    ensures SplitType in errs <==> g.splitType !in SplitTypes
    ensures PrimaryGoal in errs <==> g.primaryGoal !in PrimaryGoals
    ensures ExperienceLevel in errs <==> g.experienceLevel !in ExperienceLevels
    ensures AvailableTime in errs <==> !InRange(g.availableTime, 15, 180)
  {
    (if InRange(g.weeklyFrequency, 1, 7) then [] else [WeeklyFrequency])
    + (if g.splitType in SplitTypes then [] else [SplitType])
    + (if g.primaryGoal in PrimaryGoals then [] else [PrimaryGoal])
    + (if g.experienceLevel in ExperienceLevels then [] else [ExperienceLevel])
    + (if InRange(g.availableTime, 15, 180) then [] else [AvailableTime])
  }

  /** A stored goal whose user id is non-empty passes the request validation as a request. */
  lemma GoalIsValidRequest(g: UserGoal, exclude: Option<seq<string>>)
    requires ValidUserGoal(g) && |g.userId| >= 1
    ensures ValidateRequest(RecommendationRequest(g.userId, g.weeklyFrequency, g.splitType, g.primaryGoal,
      g.experienceLevel, g.availableTime, g.preferredEquipment, exclude)).Ok?
  {
  }

  predicate OptionalRating(r: Option<int>) { r.None? || InRange(r.value, 1, 5) }

  function FeedbackErrors(fb: FeedbackCreate): (errs: seq<Field>)
    ensures |errs| == 0 <==>
      (InRange(fb.rating, 1, 5) && OptionalRating(fb.difficultyRating)
       && OptionalRating(fb.enjoymentRating) && OptionalRating(fb.effectivenessRating))
    ensures Rating in errs <==> !InRange(fb.rating, 1, 5)
    ensures DifficultyRating in errs <==> !OptionalRating(fb.difficultyRating)
    ensures EnjoymentRating in errs <==> !OptionalRating(fb.enjoymentRating)
    ensures EffectivenessRating in errs <==> !OptionalRating(fb.effectivenessRating)
  {
    (if InRange(fb.rating, 1, 5) then [] else [Rating])
    + (if OptionalRating(fb.difficultyRating) then [] else [DifficultyRating])
    + (if OptionalRating(fb.enjoymentRating) then [] else [EnjoymentRating])
    + (if OptionalRating(fb.effectivenessRating) then [] else [EffectivenessRating])
  }
}
