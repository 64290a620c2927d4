# ExRecAI rule layers in Dafny

ExRecAI is an exercise-recommendation backend. Users send a weekly routine request (split type, goal, experience level, frequency, session time) or a workout log. The service answers with day-by-day exercise plans, statistics, rule-based insights and tips. A small offline pipeline turns a CSV exercise catalogue into a text-embedding index, and that index backs a similarity search.

This project models the deterministic rule layers of that backend and proves what those rules promise:

- `Schemas`: the request validators, with the allowed split types, goals and levels.
- `DatabaseService`: the plan saver's parsing of rep and rest texts, the catalogue filter used for recommendations, and the feedback statistics.
- `ExternalApi`: the client of the public exercise-video API.
  - Its one-hour cache, modelled as a class whose `cache` and `expiry` fields the methods update.
  - The cache keys.
  - The first-per-id video deduplication.
- `ExternalRecommendation`: the video-based weekly recommendation.
  - Pool deduplication, day assignment and the deterministic part of the score.
  - The greedy time-budget selection, the per-goal sets/reps/rest tables, the summary, the tips and the difficulty score.
- `Recommendation`: the catalogue-based weekly recommendation.
  - Preferences from feedback, the day query with its fallback, and the score.
  - The two-round selection: one primary per target part, then secondaries until 80% of the budget.
  - The per-exercise tables, the summary, the tips and the difficulty score.
- `DailyAnalysis`: the analysis of one day's workout log.
  - Counters, the intensity histogram and percentages, and the keyword body-part classifier.
  - The ten rule blocks that emit insights, recommendations and warnings, and the highlights.
- `WorkoutAnalysis`: the pattern analysis of a period's logs (per-part rows sorted by share, the ten most frequent exercises, intensity counts) and the insight rules built on it.
- `RagSearch`: filtering and truncation of the similarity-search results.
- `Preprocess`: CSV cell cleaning, the labelled text chunk built for each exercise, column selection, duplicate removal by chunk, and the JSONL export.
- `IndexBuild`: JSONL loading, batching, the embedding loop and the metadata list stored beside the index.

Shared helpers:

- `Strings`: Python string operations such as `strip`, `split`, `join` and `int()`.
- `Tally`: insertion-ordered counters, first-kept deduplication and stable descending sort.
- `Wrappers`: `Option` and `Result`.

Loops in the source are methods with invariants. Each is proved to compute what a specification function determines: the whole result, or, for the day loops of a week, every field of each day's record. The properties are stated about those functions. Python dictionaries whose insertion order can be observed are modelled as association lists. Generated messages are datatype tags that carry the values they interpolate. Scores and percentages are integers in thousandths or tenths.

## Model

| member | source | states |
|---|---|---|
| Schemas.ValidateMember | models/schemas.py:153-173 | a choice validator accepts exactly the allowed values, returns the value unchanged, and otherwise reports an error on its own field |
| Schemas.ValidateSplitType | models/schemas.py:153-158 | the split type is accepted iff it is 2분할, 3분할 or 전신; the accepted value is unchanged |
| Schemas.ValidatePrimaryGoal | models/schemas.py:160-165 | the goal is accepted iff it is one of the five goals; the accepted value is unchanged |
| Schemas.ValidateExperienceLevel | models/schemas.py:167-172 | the level is accepted iff it is 초급, 중급 or 고급; the accepted value is unchanged |
| Schemas.Failing | models/schemas.py:142-151 | one field's error list holds that field exactly when its check fails |
| Schemas.RequestErrors | models/schemas.py:142-172 | a request field is reported iff its constraint (non-empty user id, frequency 1-7, allowed split/goal/level, time 15-180) fails |
| Schemas.ValidateRequest | models/schemas.py:142-172 | building a request succeeds iff every field constraint holds, returns the request unchanged, and a failure names at least one field |
| Schemas.UserGoalErrors | models/schemas.py:42-52 | a goal has no errors iff it is valid; each of weekly frequency, split type, goal, level and available time is reported exactly when its pattern or bound fails |
| Schemas.GoalIsValidRequest | models/schemas.py:42-52 | a valid stored goal with a user id always makes a valid recommendation request |
| Schemas.FeedbackErrors | models/schemas.py:219-227 | feedback has no errors iff the rating is 1-5 and every optional sub-rating is absent or 1-5; each of the four ratings is reported exactly when it fails |
| DatabaseService.RepsRangeRoundTrip | services/database_service.py:390-411 | a stored "a-b" reps range parses back to minimum a and maximum b |
| DatabaseService.RepsSingleNumber | services/database_service.py:390-411 | a plain digit string is both the minimum and the maximum |
| DatabaseService.RepsOtherwiseNone | services/database_service.py:390-411 | a string with no '-' that is not all digits gives no minimum and no maximum |
| DatabaseService.SplitRange | services/database_service.py:394 | splitting "a-b" at '-' gives the two numerals |
| DatabaseService.RestMinutes | services/database_service.py:417-419 | "n분" is n*60 seconds |
| DatabaseService.RestMinuteRange | services/database_service.py:417-419 | "a-b분" counts the lower bound: a*60 seconds |
| DatabaseService.RestSeconds | services/database_service.py:420-421 | "n초" is n seconds |
| DatabaseService.RestDefault | services/database_service.py:414-424 | a rest text with neither 분 nor 초 falls back to 120 seconds |
| DatabaseService.AllowedDifficulties | services/database_service.py:297-302 | 초급 allows [초급], 고급 allows [초급, 중급, 고급], and 중급 or any unknown level allows [초급, 중급] |
| DatabaseService.MaxDuration | services/database_service.py:310 | the duration cap is at most 60 and at most half the session (floor), and is exactly the floor half below 120 minutes |
| DatabaseService.ExercisesForRecommendation | services/database_service.py:289-313 | the query returns catalog rows with the requested goal, an allowed difficulty, a duration within the cap and not excluded, and every row meeting all four is returned |
| DatabaseService.ForRecommendationKeepsOrder | services/database_service.py:289-313 | the query keeps catalog order (it distributes over concatenation) |
| DatabaseService.Ratings | services/database_service.py:253 | the rating list lines up with the feedback rows |
| DatabaseService.Ids | services/database_service.py:254-255 | the id list lines up with the feedback rows |
| DatabaseService.Stats | services/database_service.py:251-256 | the total is the number of rows, the average is 0 without feedback and otherwise the sum of the ratings over the number of rows, the preferred list is the ids of exactly the rows rated >= 4 in row order, the disliked list those of exactly the rows rated <= 2 |
| DatabaseService.Mean | services/database_service.py:253 | the average times the count is the sum, and 0 for no rows |
| DatabaseService.PartitionSizes | services/database_service.py:254-255 | every row is exactly one of liked (>= 4), disliked (<= 2) or neutral (3) |
| DatabaseService.AverageInRange | services/database_service.py:253 | with ratings 1-5 the average lies in [1, 5] |
| DatabaseService.SumBounds | services/database_service.py:253 | the rating sum lies between n and 5n |
| DatabaseService.MeanBounds | services/database_service.py:253 | an average of values within [lo, hi] lies in [lo, hi] |
| DatabaseService.StatsCoverRatings | services/database_service.py:254-255 | an id is preferred iff one of its rows is rated >= 4, and disliked iff one of its rows is rated <= 2 |
| DatabaseService.PreferredDislikedDisjoint | services/database_service.py:254-255 | with one row per exercise no id is both preferred and disliked |
| DatabaseService.PreferredDislikedOverlap | services/database_service.py:254-255 | two rows for one exercise rated 5 and 1 put it in both lists |
| ExternalApi.StoredEntryFreshForAnHour | services/external_api.py:80-81 | an entry stored at time t is served from the cache exactly until t + 3600 s |
| ExternalApi.CacheHit | services/external_api.py:54-55 | a fresh key is answered from the cache without using the fetch, and the cache is unchanged |
| ExternalApi.RepeatWithinHourHits | services/external_api.py:54-83 | a successful search repeated within the hour returns the stored data whatever the second fetch would give |
| ExternalApi.FailureCachesNothing | services/external_api.py:85-93 | an HTTP failure returns empty content, zero pages and elements and the error text, and leaves the cache unchanged |
| ExternalApi.OtherKeysUntouched | services/external_api.py:51-93 | a search changes the cache entry and expiry of its own key only |
| ExternalApi.MuscleKeyOrderFree | services/external_api.py:114 | the muscle cache key does not depend on the order of the muscles |
| ExternalApi.SearchKeyCollision | services/external_api.py:51 | two different keyword/target-group pairs share one cache key, because fields are joined with '_' |
| ExternalApi.MuscleSearchAsWrittenNeverCaches | services/external_api.py:121-154 | as written, an uncached muscle search raises a TypeError and caches nothing, so a later one raises again |
| ExternalApi.MuscleSearchRepeatHits | services/external_api.py:114-154 | with the query parameters built as intended, a muscle search repeated within the hour (muscles in any order) is answered from the cache |
| ExternalApi.UniqueVideosFacts | services/external_api.py:284-292 | the returned videos number at most `limit`, have distinct ids, keep the input order, and each is the first video with its id |
| ExternalApi.UniqueVideosDistinct | services/external_api.py:284-292 | at most `limit` videos with pairwise distinct ids |
| ExternalApi.UniqueVideosInOrder | services/external_api.py:284-292 | the videos keep their collected order |
| ExternalApi.UniqueVideosFirsts | services/external_api.py:284-289 | every kept video is the first one collected with its id |
| ExternalApi.DedupedIsFirst | services/external_api.py:284-289 | each deduplicated video sits at a first occurrence of its id |
| ExternalApi.UniqueVideos | services/external_api.py:284-292 | the seen-set loop and slice compute the first-per-id list cut to `limit` |
| ExternalApi.FetchAll | services/external_api.py:266-282 | one search outcome per body part |
| ExternalApi.BodyPartKeys | services/external_api.py:269-274 | body part i is searched with keyword = that part, the target group, the tool, page 0 and size = limit |
| ExternalApi.ContentsSnoc | services/external_api.py:276-277 | the collected content grows by each result's content in order |
| ExternalApi.ExerciseApiClient.constructor | services/external_api.py:15-23 | a new client starts with an empty cache |
| ExternalApi.ExerciseApiClient.SearchExercises | services/external_api.py:26-93 | the result and the new cache are those of a cached fetch under the search key |
| ExternalApi.ExerciseApiClient.SearchByMuscleAsWritten | services/external_api.py:95-154 | as written: a cache hit is returned, otherwise the call raises a TypeError and the cache is unchanged |
| ExternalApi.ExerciseApiClient.SearchByMuscle | services/external_api.py:95-154 | corrected: the result and new cache are those of a cached fetch under the sorted-muscle key |
| ExternalApi.ExerciseApiClient.ClearCache | services/external_api.py:237-240 | the cache and the expiry table are emptied |
| ExternalApi.ExerciseApiClient.RecommendationsWithVideos | services/external_api.py:243-292 | one search per body part through the cache, then first-per-id videos of all results cut to `limit` |
| ExternalRecommendation.SplitGroups | services/external_recommendation.py:18-31 | 2분할 has two day groups, 3분할 three and 전신 one, with distinct day names |
| ExternalRecommendation.TargetGroup | services/external_recommendation.py:42-46 | every level, known or not, maps to a non-empty audience group |
| ExternalRecommendation.UniquePool | services/external_recommendation.py:162-168 | the id-keyed dictionary loop computes: videos with a truthy id, first per id, in order |
| ExternalRecommendation.UniquePoolStep | services/external_recommendation.py:164-166 | one video of the loop keeps the dictionary equal to the specification on the prefix |
| ExternalRecommendation.FilterThenDedup | services/external_recommendation.py:162-168 | dropping id-less videos before or after first-per-id removal gives the same list |
| ExternalRecommendation.UniquePoolFacts | services/external_recommendation.py:162-168 | the pool has distinct ids, only truthy ids, keeps input order, covers every id seen, and keeps the first video of each id |
| ExternalRecommendation.UniquePoolOnlyTrueIds | services/external_recommendation.py:165 | no kept video has a missing or zero id |
| ExternalRecommendation.UniquePoolInOrder | services/external_recommendation.py:162-168 | the pool keeps the collected order |
| ExternalRecommendation.UniquePoolCovers | services/external_recommendation.py:162-168 | every truthy id collected is in the pool |
| ExternalRecommendation.UniquePoolKeepsFirst | services/external_recommendation.py:165-166 | the first video with a given id is the one kept |
| ExternalRecommendation.DayPool | services/external_recommendation.py:183-186 | a day's videos are exactly the pool videos assigned to that day |
| ExternalRecommendation.GenerateDailyPlans | services/external_recommendation.py:171-197 | min(frequency, groups) plans, plan i being exactly the plan for day i: keyed "Day i+1", with the group's name and parts, its assigned videos, a budget of session time minus 20 and 10-minute warm-up and cool-down |
| ExternalRecommendation.DayPoolsDisjoint | services/external_recommendation.py:183-186 | no video is offered on two different days |
| ExternalRecommendation.VideoScore | services/external_recommendation.py:298-338 | the deterministic part of the score lies in [0, 1.0] (thousandths); a case-insensitive equipment match adds at least 0.1 and the level's audience group at least 0.2 |
| ExternalRecommendation.ScoreIgnoresCase | services/external_recommendation.py:302-333 | the text matches ignore case: lower-casing a video's title and tool changes no score |
| ExternalRecommendation.ScoreTargetGroupEffect | services/external_recommendation.py:317-320 | a video for the level's audience group scores exactly 0.2 more than the same video without one |
| ExternalRecommendation.Ranked | services/external_recommendation.py:271-276 | the ranking is a permutation of the candidates sorted by descending score |
| ExternalRecommendation.PickMinutes | services/external_recommendation.py:284-286 | a video counts at least 3 minutes when selecting |
| ExternalRecommendation.Considered | services/external_recommendation.py:280 | at most six of the ranked videos are considered |
| ExternalRecommendation.SelectBest | services/external_recommendation.py:256-295 | the result is exactly the greedy walk over the first six ranked videos (none for no candidates): at most 4 picks, in rank order, within the budget, and while the walk did not stop early every skipped video would have overrun the budget |
| ExternalRecommendation.WalkRanked | services/external_recommendation.py:282-293 | the loop computes exactly the greedy walk (take a video when it fits, stop at 4 picks or 80% of the budget): at most 4, in order, within budget, and skipping only videos that do not fit unless it stopped |
| ExternalRecommendation.WalkStep | services/external_recommendation.py:282-291 | one video of the walk: taken exactly when it fits; when it stops its selection is the walk's result, otherwise the rest of the walk from the next video gives the same result |
| ExternalRecommendation.WalkSkip | services/external_recommendation.py:288 | skipping a video that does not fit keeps the walk's invariant |
| ExternalRecommendation.WalkTake | services/external_recommendation.py:288-290 | taking a video adds its minutes and keeps the walk's invariant |
| ExternalRecommendation.Sets | services/external_recommendation.py:370-378 | sets lie in 2..4, and an unknown goal gives 3 |
| ExternalRecommendation.RepsRange | services/external_recommendation.py:381-389 | every rep range runs from a to b with 6 <= a < b <= 25 |
| ExternalRecommendation.RepsStoredAsRange | services/external_recommendation.py:381-389 | the plan saver reads every rep text back as its two ends, smaller first |
| ExternalRecommendation.RestStoredSeconds | services/external_recommendation.py:392-400 | the stored rest is 60 s for diet and fitness goals and 120 s otherwise |
| ExternalRecommendation.WeightGuidance | services/external_recommendation.py:403-410 | weight guidance exists exactly for the three known levels |
| ExternalRecommendation.ConvertAll | services/external_recommendation.py:232-235 | one exercise entry per selected video, in order |
| ExternalRecommendation.ConvertKeepsVideo | services/external_recommendation.py:341-367 | the entry keeps the video's id, URL and length, uses the goal's sets, stores 60 s of rest for diet and fitness and 120 s otherwise, has weight guidance iff the level is known, and is named 운동 without a title |
| ExternalRecommendation.EstimateMinutes | services/external_recommendation.py:238-239 | a selected video is estimated at least 5 minutes and at least its selection minutes |
| ExternalRecommendation.ConvertSelection | services/external_recommendation.py:231-239 | the loop converts every pick and adds up the estimated minutes |
| ExternalRecommendation.CreateDay | services/external_recommendation.py:200-253 | the day keeps the plan's name, parts and warm-up/cool-down, holds exactly the greedy walk over its ranked available videos converted (at most 4, ranked, within budget), and lasts warm-up + cool-down + estimates capped at the session time |
| ExternalRecommendation.DayEstimate | services/external_recommendation.py:235-250 | a day's estimate never exceeds the session time, and equals warm-up + cool-down + the videos' minutes when that fits |
| ExternalRecommendation.EstimateCoversSelection | services/external_recommendation.py:236-239 | the estimated total is at least the selection minutes and at least 5 per video |
| ExternalRecommendation.ExerciseCountBound | services/external_recommendation.py:415 | a week whose days hold at most 4 exercises each holds at most 4 times its day count |
| ExternalRecommendation.Summarize | services/external_recommendation.py:413-427 | the summary counts days and exercises, carries the weekly total, and the average session is the floor of total/days (0 without days) |
| ExternalRecommendation.Tips | services/external_recommendation.py:430-452 | the two video tips come first, the beginner, advanced, muscle-gain and diet tips appear exactly for their level or goal, and there are 2 to 5 tips |
| ExternalRecommendation.DifficultyTenths | services/external_recommendation.py:455-466 | the difficulty is the level's base plus 0.5 for a pool over 20, minus 0.5 under 10, and stays in [1.0, 5.0] |
| ExternalRecommendation.WeeklyDurationBound | services/external_recommendation.py:84 | a week of days capped at the session time lasts at most that much per day |
| ExternalRecommendation.WeeklySnoc | services/external_recommendation.py:84 | adding a day adds its duration to the weekly total |
| ExternalRecommendation.DayEntry | services/external_recommendation.py:78-84 | each day entry answers its plan: key, name, parts, warm-up and cool-down, the converted greedy selection as exercises (at most 4), and the capped estimate within session time |
| ExternalRecommendation.RecommendWeek | services/external_recommendation.py:74-84 | entry i answers plan i with the day its selection determines, and the total is the sum of their durations |
| ExternalRecommendation.GenerateExternalRecommendation | services/external_recommendation.py:49-113 | fails exactly when no video with an id was collected; otherwise day i answers the plan for day i over the deduplicated pool (key, name, converted greedy selection of at most 4, capped duration), with the weekly total (at most session time per day), summary, tips and difficulty of the pool |
| Recommendation.SplitGroups | services/recommendation.py:21-34 | 2분할 has two day groups, 3분할 three and 전신 one, and no group names a body part twice |
| Recommendation.DayCount | services/recommendation.py:162 | min(frequency, groups) days, never more than the split has |
| Recommendation.DayKeysDistinct | services/recommendation.py:168 | "Day i+1" keys of different days differ, so no plan overwrites another |
| Recommendation.GenerateDailyPlans | services/recommendation.py:157-177 | one plan per generated day, plan i being exactly the plan for day i: keyed "Day i+1", with the group's name and parts, the session time as budget, 10-minute warm-up and cool-down, and main time making up the rest of the budget |
| Recommendation.LevelDifficulties | services/recommendation.py:65-69 | the allowed difficulties are the plan saver's table for the level, all of them known levels |
| Recommendation.AnalyzePreferences | services/recommendation.py:121-154 | the level's difficulties, goal, equipment, session time and exclusion list (empty when absent) are the request's; feedback ids are present iff the user has feedback, and an id is preferred iff one of its rows is rated 4 or more, disliked iff one is rated 2 or less |
| Recommendation.PreferencesDisjoint | services/recommendation.py:138-147 | with one rating per exercise, no exercise is both preferred and disliked |
| Recommendation.DayQuery | services/recommendation.py:192-208 | the day query returns exactly the catalog rows matching part, difficulty, goal, exclusions and equipment, in catalog order, and is empty only when none match |
| Recommendation.FallbackQuery | services/recommendation.py:212-215 | the fallback returns the first ten (or all, when fewer) catalog rows of the day's parts and allowed difficulties, in catalog order |
| Recommendation.DayCandidates | services/recommendation.py:208-215 | when any catalog row matches the full query the candidates are exactly those rows in catalog order; otherwise they are the first ten fallback rows in catalog order |
| Recommendation.CategoryWeight | services/recommendation.py:328-330 | the category's share of the score (weight times 0.2, in thousandths) lies in [0.01, 0.14]; an unlisted category contributes 0.02, from its default weight 0.1 |
| Recommendation.Score | services/recommendation.py:310-348 | the deterministic score lies in [-0.14, 0.94] (thousandths) |
| Recommendation.ScoreFeedbackEffect | services/recommendation.py:333-337 | with feedback, a preferred exercise scores 0.15 more, a disliked one 0.1 less, any other the same as without feedback |
| Recommendation.Ranked | services/recommendation.py:269-276 | the ranking is a permutation of the candidates sorted by descending score |
| Recommendation.Picked | services/recommendation.py:288 | the exercises of a selection, in order |
| Recommendation.PickAppend | services/recommendation.py:290-301 | appending a pick appends its exercise, adds its duration and counts a primary |
| Recommendation.FirstFitFrom | services/recommendation.py:285-293 | the index found is the first from the start position whose exercise is of the part, not picked and fits the room left, or the end |
| Recommendation.SelectionStartsWithPrimaries | services/recommendation.py:283-305 | the second phase only appends: the selection begins with exactly the primaries of the first phase |
| Recommendation.SecondaryPicksExtends | services/recommendation.py:296-305 | the second phase, from any rank position, keeps what was picked before as a prefix |
| Recommendation.SecondaryPicksStep | services/recommendation.py:296-305 | one rank position of the second phase: a fitting unpicked exercise is appended, ending the phase at 80% of the budget; any other is passed over |
| Recommendation.SelectOptimal | services/recommendation.py:258-307 | the result is exactly the two-phase greedy selection over the ranking; it is distinct ranked exercises within the budget; primaries first, each of a target part and at most one per distinct part; it stops only at 80% of the budget or when no unpicked exercise fits |
| Recommendation.FirstFit | services/recommendation.py:285-293 | the first ranked exercise of the part that fits and is not yet picked, or none; the same index as the search from the first rank |
| Recommendation.PrimaryTake | services/recommendation.py:290-292 | taking a fitting exercise for the part keeps the primary round's invariant |
| Recommendation.PrimarySkip | services/recommendation.py:284-293 | a part without a fitting exercise keeps the invariant |
| Recommendation.PrimaryRound | services/recommendation.py:285-293 | one part's search adds exactly that part's pick of the first phase, if any, and keeps the used time |
| Recommendation.PrimaryNextKeeps | services/recommendation.py:285-293 | one part's pick keeps the first phase's invariant: distinct ranked primaries within the budget, each of a part seen so far, one per distinct part |
| Recommendation.PrimaryPicksKeeps | services/recommendation.py:284-293 | the first phase keeps that invariant from any part to the last |
| Recommendation.PrimaryPicksFacts | services/recommendation.py:284-293 | the first phase picks at most one primary per target part, distinct exercises from the ranking, each of a target part and one per distinct part, within the budget |
| Recommendation.PickPrimaries | services/recommendation.py:284-293 | exactly the first phase over all target parts: at most one primary per part, distinct, ranked, of target parts, within budget |
| Recommendation.DistinctSnoc | services/recommendation.py:288-297 | adding an exercise not yet picked keeps the picks distinct |
| Recommendation.InPartsGrow | services/recommendation.py:284 | picks of earlier parts stay among the parts seen so far |
| Recommendation.PrimaryStep | services/recommendation.py:286-290 | a primary of the current part keeps picks within the parts seen and one per distinct part |
| Recommendation.SecondaryStep | services/recommendation.py:296-301 | a secondary pick extends the selection, adds its duration and keeps it distinct |
| Recommendation.SecondaryRound | services/recommendation.py:296-305 | one rank position advances the second phase, keeping its invariants; when it stops, the selection is final and 80% of the budget is used |
| Recommendation.FillSecondaries | services/recommendation.py:296-305 | exactly the second phase from the primaries; secondaries extend the primaries within budget; it stops only at 80% of the budget or when no unpicked exercise fits |
| Recommendation.NoneFitsSkip | services/recommendation.py:297-298 | an exercise already picked or too long does not break "nothing else fits" |
| Recommendation.NoneFitsGrow | services/recommendation.py:300-301 | picking an exercise keeps "nothing before it fits" for non-negative durations |
| Recommendation.RepsRange | services/recommendation.py:353-376 | every strength rep range runs from a to b with 6 <= a < b <= 25 |
| Recommendation.RepsStoredAsRange | services/recommendation.py:376 | the plan saver reads a strength rep text back as its two ends, smaller first |
| Recommendation.CardioRepsNotCounted | services/recommendation.py:371-372 | a cardio rep text ("N분") has no rep range for the plan saver |
| Recommendation.Sets | services/recommendation.py:379-390 | one set exactly for cardio and stretching, four exactly for other exercises at 고급, otherwise three |
| Recommendation.RestStoredSeconds | services/recommendation.py:393-406 | the plan saver stores 120 s for cardio, 10 s for stretching, and 60 s or 120 s by goal for the rest |
| Recommendation.WeightGuidance | services/recommendation.py:409-420 | weight guidance exists exactly for weight exercises |
| Recommendation.ToRecommendation | services/recommendation.py:231-243 | the entry keeps the exercise's name, part and difficulty and takes the computed sets and weight |
| Recommendation.RecommendForDay | services/recommendation.py:180-255 | the picks are exactly the two-phase selection over the day's ranked candidates: distinct catalog exercises within the main time; one entry per pick, in order; duration is picks' time plus warm-up and cool-down, hence within the budget when something is picked |
| Recommendation.ConvertPicks | services/recommendation.py:223-246 | the loop converts each pick and sums their durations |
| Recommendation.BodyParts | services/recommendation.py:439 | the body part of each exercise, in order |
| Recommendation.Categories | services/recommendation.py:440 | 웨이트 for an exercise with equipment, 체중 otherwise, in order |
| Recommendation.Summarize | services/recommendation.py:423-453 | day and exercise counts; both distributions have distinct keys and count every exercise once: each part's count is its number of exercises, 웨이트's the number naming equipment and 체중's the rest; the weekly total and the request's split, goal and level are carried; the average is floor(total/days), 0 without days |
| Recommendation.FloorDivBounds | services/recommendation.py:447 | floor division brackets the total |
| Recommendation.DifficultyPoints | services/recommendation.py:496-507 | each exercise counts 1 to 5 points (3 for an unknown difficulty) |
| Recommendation.DifficultyTotalBounds | services/recommendation.py:505-508 | the points of n exercises lie between n and 5n |
| Recommendation.DifficultyScoreInRange | services/recommendation.py:494-513 | the difficulty score lies in [1, 5] |
| Recommendation.DifficultyTotalSnoc | services/recommendation.py:507 | one more exercise adds its points |
| Recommendation.AllExercisesSnoc | services/recommendation.py:505-506 | one more day adds its exercises |
| Recommendation.CalculateDifficultyScore | services/recommendation.py:494-513 | the nested loop computes the mean points of all exercises, 3.0 without any |
| Recommendation.Tips | services/recommendation.py:456-491 | the level tips, goal tips and time tip in that order, cut to five |
| Recommendation.TipsTruncation | services/recommendation.py:491 | the cut drops a tip exactly for a beginner with a muscle-gain or diet goal and a short or long session, and then drops only the last |
| Tally.SortDescStable | services/workout_analysis.py:113 | the descending sort is stable: the elements with any one key come out in their input order |
| Tally.Values | services/recommendation.py:85-90 | the days of a response are its values in order: one per entry, the entry's day record |
| Recommendation.DaysSnoc | services/recommendation.py:90 | adding a day adds its duration to the weekly total |
| Recommendation.DayEntry | services/recommendation.py:85-89 | each entry answers its plan: key, name, parts, warm-up and cool-down, the day's selection converted in order, its time plus warm-up and cool-down as estimate, within the session time when something is picked |
| Recommendation.RecommendWeek | services/recommendation.py:82-90 | entry i answers plan i with the day its selection determines, and the total is the sum of their durations |
| Recommendation.GenerateRecommendation | services/recommendation.py:72-106 | always succeeds; day i answers the plan for day i under the analysed preferences (key, name, parts, selected exercises, estimate), days with exercises stay within session time; the weekly total, summary, tips and difficulty score of those days |
| DailyAnalysis.AnyMentionedIff | main.py:93-100 | the keyword loop finds a keyword exactly when one of the list is in the title, description or training name |
| DailyAnalysis.Classify | main.py:81-103 | 하체 exactly when a lower-body keyword is mentioned, 상체 exactly when none is but an upper-body keyword is, 전신 exactly when neither is |
| DailyAnalysis.BodyPartOf | main.py:109-111 | a non-empty stated body part is used as is; otherwise the keyword class |
| DailyAnalysis.AddIntensityTotal | main.py:71-74 | a graded entry adds one to the histogram, an ungraded one nothing |
| DailyAnalysis.HistogramCounts | main.py:70-74 | each intensity slot counts exactly the entries of that grade |
| DailyAnalysis.HistogramTotal | main.py:128 | the histogram total is the number of graded entries, at most the number of entries |
| DailyAnalysis.BodyPartCounter | main.py:105-112 | the part counter has each part once, counts its entries exactly and adds up to the entry count |
| DailyAnalysis.ToolCounter | main.py:115-116 | the tool counter has each tool once, counts its entries exactly and adds up to the entry count |
| DailyAnalysis.AllFromMember | main.py:134-136 | every message of a block belongs to that block's rule |
| DailyAnalysis.AllFromAppend | main.py:134-136 | joining two lists of one rule's messages keeps them that rule's |
| DailyAnalysis.NotFromOther | main.py:138-259 | a rule block holds no message of another rule |
| DailyAnalysis.IntensityNotes | main.py:138-151 | the intensity rule emits only intensity messages |
| DailyAnalysis.TimeNotes | main.py:153-161 | the average-time rule emits only its own messages |
| DailyAnalysis.PartNotes | main.py:163-173 | the body-part balance rule emits only its own messages |
| DailyAnalysis.ToolNotes | main.py:175-181 | the tool variety rule emits only its own messages |
| DailyAnalysis.MuscleNotes | main.py:183-188 | the target-muscle rule emits only its own messages |
| DailyAnalysis.Detail | main.py:199-210 | a per-exercise comment belongs to the detail rule |
| DailyAnalysis.Details | main.py:190-212 | the detail comments belong to the detail rule |
| DailyAnalysis.DetailsCover | main.py:191-210 | every entry's comment is listed, and every listed comment is some entry's |
| DailyAnalysis.Titles | main.py:225 | the title of each entry, in order |
| DailyAnalysis.CompoundPartition | main.py:224-229 | every title is either compound or isolation, so the two lists add up to the entries |
| DailyAnalysis.CompositionNotes | main.py:231-234 | the composition comment belongs to the order rule |
| DailyAnalysis.OrderNotes | main.py:214-234 | the order rule emits only its own messages |
| DailyAnalysis.MemoNotes | main.py:236-244 | the memo rule emits only its own messages |
| DailyAnalysis.FollowUpNotes | main.py:246-251 | the follow-up rule emits only its own messages |
| DailyAnalysis.NextPlanNotes | main.py:253-259 | the next-plan rule emits only its own messages |
| DailyAnalysis.InInsights | main.py:134-259 | a message is among the report's insights exactly when it is among its own rule's insights |
| DailyAnalysis.InRecommendations | main.py:134-259 | the same for recommendations |
| DailyAnalysis.InWarnings | main.py:134-259 | the same for warnings |
| DailyAnalysis.BlocksOf | main.py:134-259 | the ten rule blocks, each holding only its own messages |
| DailyAnalysis.MostCommon | main.py:124-125 | the highest count, the first such entry in insertion order, ("없음", 0) for none |
| DailyAnalysis.Assemble | main.py:263-283 | a report carrying the statistics |
| DailyAnalysis.Analyze | main.py:43-291 | no records exactly for an empty log; failure exactly when two or more entries include one without a title; otherwise a report over all entries |
| DailyAnalysis.TimeTier | main.py:154-161 | exactly one average-time message: very good above 45 min per entry, good above 30, short above 15, too short otherwise |
| DailyAnalysis.VeryHighIntensityRule | main.py:143-145 | the very-high warning and the moderate-next advice appear exactly above 70% high intensity |
| DailyAnalysis.HighIntensityRule | main.py:146-147 | the high warning appears exactly for a high share in (50%, 70%] |
| DailyAnalysis.LowIntensityRule | main.py:148-149 | the low-intensity advice appears exactly when high <= 50% and low > 70% |
| DailyAnalysis.BalancedIntensityRule | main.py:150-151 | the balanced insight appears exactly when high <= 50%, low <= 70% and medium > 60% |
| DailyAnalysis.ProteinRule | main.py:247-248 | the protein advice appears exactly above 50% high intensity |
| DailyAnalysis.HydrationRule | main.py:250-251 | the hydration advice appears exactly above 90 minutes in total |
| DailyAnalysis.SinglePartRule | main.py:165-168 | a single trained part gives the focus warning and the upper-body advice |
| DailyAnalysis.NextPlanRule | main.py:254-259 | the upper-body next plan appears exactly after lower body alone, the lower-body one exactly after upper body alone |
| DailyAnalysis.MemoQuoteRule | main.py:237-239 | the memo is quoted exactly when it is non-empty |
| DailyAnalysis.MemoToneRule | main.py:240-244 | the warm-up advice appears exactly for a tough memo; the satisfied insight exactly for a satisfied memo that is not tough |
| DailyAnalysis.HighlightsFacts | main.py:124-125 | the highlighted part and tool are counted entries with the highest counts |
| DailyAnalysis.DominantIntensityFacts | main.py:281 | the dominant intensity is ("없음", 0) exactly when no entry is graded |
| DailyAnalysis.NoDominantIntensity | main.py:281 | ("없음", 0) exactly when the histogram is empty |
| DailyAnalysis.TimeStep | main.py:66 | one more entry adds its time |
| DailyAnalysis.SumTimes | main.py:66 | the loop sums the entries' times |
| DailyAnalysis.CountIntensities | main.py:70-74 | the loop builds the intensity histogram |
| DailyAnalysis.TallyEntry | main.py:105-121 | one entry bumps its part and tool and adds its muscles |
| DailyAnalysis.TallyEntries | main.py:105-121 | the loop builds the part and tool counters and the muscle set |
| DailyAnalysis.ExerciseDetails | main.py:191-210 | the loop collects the detail comments |
| DailyAnalysis.TitleStep | main.py:224-225 | one more titled entry extends the titles |
| DailyAnalysis.SplitCompound | main.py:221-229 | fails exactly when an entry has no title; otherwise the compound and isolation titles in order |
| DailyAnalysis.OrderPass | main.py:215-234 | fails exactly for two or more entries with one untitled; otherwise the order rule's messages |
| DailyAnalysis.AnalyzeDailyWorkout | main.py:43-291 | the procedure computes the analysis function |
| WorkoutAnalysis.AllExercisesCount | services/workout_analysis.py:66-70 | gathering the logs' exercises keeps every one: the total is the sum of the logs' counts |
| WorkoutAnalysis.PartsOf | services/workout_analysis.py:102 | the part of each statistics entry, in order |
| WorkoutAnalysis.AddExerciseLookup | services/workout_analysis.py:89-92 | recording an exercise changes only its own part's entry, which it creates or updates |
| WorkoutAnalysis.AddExerciseParts | services/workout_analysis.py:75-92 | a new part is appended at the end, a known one keeps its place; the counts grow by one |
| WorkoutAnalysis.AbsentPart | services/workout_analysis.py:75-92 | a part never logged has no names and no minutes |
| WorkoutAnalysis.PartStatsParts | services/workout_analysis.py:75-92 | the parts come in first-logged order, each once, and the counts add up to the number of exercises |
| WorkoutAnalysis.CountForFacts | services/workout_analysis.py:89 | a part's count is its number of occurrences, positive exactly when the part was logged |
| WorkoutAnalysis.PartEntryOther | services/workout_analysis.py:89-92 | another part's entry is unchanged by an exercise |
| WorkoutAnalysis.PartEntryFirst | services/workout_analysis.py:75-92 | the first exercise of a part creates its entry from zero |
| WorkoutAnalysis.PartEntryAgain | services/workout_analysis.py:89-92 | a later exercise of the part updates its entry |
| WorkoutAnalysis.PartStatsLookup | services/workout_analysis.py:75-92 | a part's entry holds its count, minutes and distinct names in first-logged order, and there is none for a part never logged |
| WorkoutAnalysis.LookupIndex | services/workout_analysis.py:102 | with distinct parts, looking a row's part up finds that row |
| WorkoutAnalysis.NamesForMembers | services/workout_analysis.py:91-92 | a name is listed for a part exactly when an exercise of that name was logged for it |
| WorkoutAnalysis.Analyses | services/workout_analysis.py:101-110 | one row per part entry, in order |
| WorkoutAnalysis.AnalysesDescribe | services/workout_analysis.py:101-110 | each row has a logged part, its count, its minutes, its share in tenths of a percent and its first five distinct names |
| WorkoutAnalysis.DistributionFacts | services/workout_analysis.py:100-113 | the rows are sorted by descending share and each describes its part |
| WorkoutAnalysis.PermutedRows | services/workout_analysis.py:113 | sorting keeps every row describing its part |
| WorkoutAnalysis.PermutedPart | services/workout_analysis.py:113 | sorting keeps every part |
| WorkoutAnalysis.AnalysesCount | services/workout_analysis.py:104-106 | the rows' counts add up to the entries' counts |
| WorkoutAnalysis.DistributionCount | services/workout_analysis.py:100-113 | the distribution's counts add up to the number of exercises |
| WorkoutAnalysis.DistributionParts | services/workout_analysis.py:100-113 | a part has a row exactly when it was logged |
| WorkoutAnalysis.RowOfPart | services/workout_analysis.py:100-113 | a logged part has a row |
| WorkoutAnalysis.PartIndex | services/workout_analysis.py:89 | a logged part has a statistics entry |
| WorkoutAnalysis.SamePartSameRow | services/workout_analysis.py:101-110 | two rows for the same part are equal |
| WorkoutAnalysis.DistributionDistinct | services/workout_analysis.py:100-113 | each part has one row |
| WorkoutAnalysis.RowsDistinct | services/workout_analysis.py:101-110 | the unsorted rows are distinct |
| WorkoutAnalysis.RowNames | services/workout_analysis.py:91-109 | a row lists at most five distinct names, each logged for its part |
| WorkoutAnalysis.CounterEntry | services/workout_analysis.py:95 | a counter entry counts its (name, part) key's occurrences |
| WorkoutAnalysis.MostFrequentLength | services/workout_analysis.py:116-123 | ten entries, or one per distinct key when fewer were logged |
| WorkoutAnalysis.MostFrequentOrder | services/workout_analysis.py:122 | the entries come by non-increasing count |
| WorkoutAnalysis.MostFrequentCounts | services/workout_analysis.py:116-123 | each entry is a logged key with its exact count |
| WorkoutAnalysis.MostFrequentTop | services/workout_analysis.py:122 | a logged key left out is counted no more than any listed entry |
| WorkoutAnalysis.SortedPosition | services/workout_analysis.py:122 | every logged key appears with its count in the sorted counter |
| WorkoutAnalysis.IntensityFacts | services/workout_analysis.py:126-130 | each intensity slot is that grade's number of exercises |
| WorkoutAnalysis.PatternTotals | services/workout_analysis.py:51-72 | the period, the number of logs, the number of exercises, the sum of their minutes, and the average time per workout: that sum over the number of logs, or 0 without logs |
| WorkoutAnalysis.PatternWithoutExercises | services/workout_analysis.py:51-62 | a period without exercises has no time, no rows, no top entries and zero intensities |
| WorkoutAnalysis.PatternDistribution | services/workout_analysis.py:100-113 | the rows are sorted by share, describe their parts, cover exactly the logged parts once each, and count every exercise |
| WorkoutAnalysis.AnalyzePattern | services/workout_analysis.py:26-141 | the procedure computes the pattern function, whose totals, average workout time, distribution, top entries and intensity counts are stated by PatternTotals, PatternDistribution, MostFrequentCounts and IntensityFacts |
| WorkoutAnalysis.CollectExercises | services/workout_analysis.py:66-68 | the loop gathers every log's exercises in order |
| WorkoutAnalysis.SumMinutes | services/workout_analysis.py:71 | the loop sums the minutes |
| WorkoutAnalysis.MinutesStep | services/workout_analysis.py:71 | one more exercise adds its minutes |
| WorkoutAnalysis.TallyExercises | services/workout_analysis.py:84-98 | the loop builds the part statistics, the (name, part) counter and the intensity counter |
| WorkoutAnalysis.PartStatsStep | services/workout_analysis.py:89-92 | one more exercise is recorded into the statistics |
| WorkoutAnalysis.DistributionRows | services/workout_analysis.py:101-110 | the loop builds one row per entry |
| WorkoutAnalysis.FrequentList | services/workout_analysis.py:116-123 | the comprehension builds one entry per top key |
| WorkoutAnalysis.ShareTableKeys | services/workout_analysis.py:173-176 | the share table has each row's part once, in first-row order |
| WorkoutAnalysis.ShareTableLast | services/workout_analysis.py:173-176 | the last row of a part gives its share |
| WorkoutAnalysis.ShareTableMissing | services/workout_analysis.py:187 | a part without a row counts as 0% |
| WorkoutAnalysis.OverworkedRule | services/workout_analysis.py:179-182 | a part is overworked exactly when it is in the table with at least 30% |
| WorkoutAnalysis.UnderworkedRule | services/workout_analysis.py:185-188 | a part is underworked exactly when it is a major part under 10% |
| WorkoutAnalysis.ShareOfPart | services/workout_analysis.py:173-176 | a part is in the table exactly when logged, with its share of the exercises |
| WorkoutAnalysis.ShareOfLoggedPart | services/workout_analysis.py:173-176 | a row's part has its share of the exercises |
| WorkoutAnalysis.ShareOfMissingPart | services/workout_analysis.py:187 | a part without a row has share 0, its (zero) share of the exercises |
| WorkoutAnalysis.RowIndex | services/workout_analysis.py:174 | a part in the rows has a row |
| WorkoutAnalysis.KeepALogRule | services/workout_analysis.py:160-167 | the keep-a-log advice appears exactly for a period without exercises, and then alone |
| WorkoutAnalysis.OverworkedParts | services/workout_analysis.py:158-182 | a part is overworked exactly when logged with at least 30% of the exercises |
| WorkoutAnalysis.UnderworkedParts | services/workout_analysis.py:158-188 | with exercises, a part is underworked exactly when it is major and under 10%, a missing part counting 0% |
| WorkoutAnalysis.PartAdviceRules | services/workout_analysis.py:207-215 | the focus advice and the rest warning appear exactly when there are parts to name |
| WorkoutAnalysis.IntensityRules | services/workout_analysis.py:218-227 | the recovery warning exactly above 70% high, the raise-intensity advice exactly above 70% low |
| WorkoutAnalysis.BalanceRules | services/workout_analysis.py:190-235 | the balance score is not negative; great from 80, good from 60 to 80, improve below 60 |
| WorkoutAnalysis.FrequencyRule | services/workout_analysis.py:238-239 | the train-more-often advice appears exactly with fewer than two workouts a week over the period |
| WorkoutAnalysis.AdviceParts | services/workout_analysis.py:204-239 | the recommendations are focus, intensity, balance, frequency in that order, each present under its own condition |
| WorkoutAnalysis.AdviceKinds | services/workout_analysis.py:207-239 | each advice appears exactly under its condition, and keep-a-log never does |
| WorkoutAnalysis.BalanceKinds | services/workout_analysis.py:230-235 | exactly the balance advice for the score's band |
| WorkoutAnalysis.CautionKinds | services/workout_analysis.py:212-225 | the rest warning exactly with overworked parts, the recovery warning exactly when mostly high |
| WorkoutAnalysis.SinglePartBalance | services/workout_analysis.py:191-201 | with one part only, the balance score is 50 and the improve-balance advice is given |
| WorkoutAnalysis.GenerateInsights | services/workout_analysis.py:143-247 | the procedure computes the insight function |
| WorkoutAnalysis.AdviceLists | services/workout_analysis.py:204-239 | the procedure builds the recommendation and warning lists |
| WorkoutAnalysis.ShareTableOf | services/workout_analysis.py:173-176 | the loop builds the share table |
| WorkoutAnalysis.OverworkedList | services/workout_analysis.py:179-182 | the loop collects the overworked parts |
| WorkoutAnalysis.UnderworkedList | services/workout_analysis.py:185-188 | the loop collects the underworked parts |
| RagSearch.FetchSize | services/exercise_rag_service.py:71-74 | with any filter, max(3k, 30) neighbours are fetched; without one, k |
| RagSearch.Search | services/exercise_rag_service.py:43-146 | the loop returns the search function's hits |
| RagSearch.Admit | services/exercise_rag_service.py:92-112 | an entry is kept exactly when it passes the four filters |
| RagSearch.HitsStep | services/exercise_rag_service.py:86-140 | one more neighbour appends its hit exactly when its index is valid and it passes the filters |
| RagSearch.HitsPrefix | services/exercise_rag_service.py:143-144 | stopping early yields a prefix of the full hit list |
| RagSearch.BlankQuery | services/exercise_rag_service.py:64-65 | a blank query returns no results |
| RagSearch.ResultCount | services/exercise_rag_service.py:67-144 | at most k results (one when k < 1); fewer only when every accepted neighbour was returned |
| RagSearch.SourcesGiveHits | services/exercise_rag_service.py:86-140 | each hit comes from a ranking position with a valid index whose entry passes the filters, with its score and projected metadata |
| RagSearch.SourceInPrefix | services/exercise_rag_service.py:86 | a source in a prefix of the ranking is a source of the ranking |
| RagSearch.SourcesIncrease | services/exercise_rag_service.py:86 | the hits keep the ranking order |
| RagSearch.SourcesComplete | services/exercise_rag_service.py:86-112 | every accepted ranking position gives a hit |
| RagSearch.PassesFilters | services/exercise_rag_service.py:96-112 | a kept hit has the wanted group and factor when asked, and no set group or factor that is excluded |
| RagSearch.UnsetSurvivesExclusion | services/exercise_rag_service.py:99-112 | an entry with no group and no factor survives any exclusion list |
| Preprocess.LoadCell | scripts/preprocess_exercises.py:63-65 | a cell is stripped to a trimmed piece of itself, and is empty exactly when missing or blank |
| Preprocess.LoadRow | scripts/preprocess_exercises.py:62-66 | every column is kept and every cell is loaded that way |
| Preprocess.Title | scripts/preprocess_exercises.py:100 | the title, else the standard title, else 알 수 없는 운동; never empty |
| Preprocess.BuildChunk | scripts/preprocess_exercises.py:96-132 | the procedure builds the chunk: the title line, then one labelled line per present field, joined by newlines |
| Preprocess.OptionalLinesShape | scripts/preprocess_exercises.py:103-130 | one line per present field, in field order, each the field's label and value |
| Preprocess.ChunkLineCount | scripts/preprocess_exercises.py:97-130 | the chunk has the title line plus one line exactly per present field, in order |
| Preprocess.OptionalLinesSingle | scripts/preprocess_exercises.py:103-130 | with single-line cells every optional line is a single line |
| Preprocess.ChunkSplitsIntoLines | scripts/preprocess_exercises.py:132 | with single-line cells, splitting the chunk at newlines gives back its lines |
| Preprocess.LabelsSingleLine | scripts/preprocess_exercises.py:101-130 | no label and not the fallback title holds a newline |
| Preprocess.JoinEndsWithLast | scripts/preprocess_exercises.py:132 | a joined text ends with its last part |
| Preprocess.ChunkEndsWithoutBreak | scripts/preprocess_exercises.py:96-132 | with trimmed cells the chunk is non-empty and does not end in a newline |
| Preprocess.LastLineEnd | scripts/preprocess_exercises.py:101-130 | with trimmed cells the last line is non-empty and does not end in a newline |
| Preprocess.AvailableColumns | scripts/preprocess_exercises.py:138-139 | exactly the known fields that the table has, in field order |
| Preprocess.WithChunks | scripts/preprocess_exercises.py:140-142 | one processed row per input row, in order: each is its input row cut to the columns, with its chunk |
| Preprocess.PreprocessKeepsKnownColumns | scripts/preprocess_exercises.py:135-146 | every kept row has only known fields of the table, and carries its own chunk |
| Preprocess.PreprocessChunksDistinct | scripts/preprocess_exercises.py:144-145 | kept chunks are distinct, and every row's chunk is among them |
| Preprocess.PreprocessKeepsFirst | scripts/preprocess_exercises.py:144-145 | the first row of each chunk is kept, and the kept rows keep their order |
| Preprocess.MetadataStep | scripts/preprocess_exercises.py:156-161 | one more field adds itself exactly when present and not blank |
| Preprocess.ExportMetadata | scripts/preprocess_exercises.py:154-161 | the loop builds the metadata of the row |
| Preprocess.MetadataRule | scripts/preprocess_exercises.py:154-161 | a key is in the metadata exactly when it is a known field of the row with a non-blank value, which is kept as is |
| Preprocess.ExportJsonl | scripts/preprocess_exercises.py:149-168 | one record per row, numbered from 0, with the chunk as text and the row's metadata |
| Preprocess.ExportedMetadata | scripts/preprocess_exercises.py:152-161 | the chunk column never enters the metadata |
| IndexBuild.FlattenCons | scripts/build_exercise_index.py:91-94 | flattening a leading batch puts its items first |
| IndexBuild.SlicesJoin | scripts/build_exercise_index.py:82-84 | the slices from a start position join back to the rest of the data |
| IndexBuild.SlicesSizes | scripts/build_exercise_index.py:82-84 | every slice but the last is full, and the last is non-empty and at most full |
| IndexBuild.SlicesCount | scripts/build_exercise_index.py:82-84 | there are no slices exactly at the end, otherwise just enough slices of the size to cover the rest |
| IndexBuild.CeilDivUnique | scripts/build_exercise_index.py:83 | the bracket fixes the count as the rounded-up quotient |
| IndexBuild.ChunkIterFacts | scripts/build_exercise_index.py:82-84 | for a positive size the batches join back to the data, all full but a non-empty last, ceil(n/size) of them, none for no data |
| IndexBuild.BuildEmbeddings | scripts/build_exercise_index.py:87-95 | the nested loop gathers the embeddings of every batch in order, and fails like the batching for a zero size |
| IndexBuild.FlattenMapLength | scripts/build_exercise_index.py:91-94 | a length-keeping embedding of each batch gives as many vectors as items |
| IndexBuild.EmbeddingsCount | scripts/build_exercise_index.py:87-95 | with a positive batch size one embedding comes back per text |
| IndexBuild.NonBlankLines | scripts/build_exercise_index.py:70-73 | the stripped lines kept are never empty |
| IndexBuild.ParsedErrStays | scripts/build_exercise_index.py:74 | after the first line that fails to parse, later lines change nothing |
| IndexBuild.ParsedStep | scripts/build_exercise_index.py:70-74 | one more line is skipped when blank, fails the load when unparsable, and appends its record otherwise |
| IndexBuild.LoadRecords | scripts/build_exercise_index.py:64-79 | a missing file fails; otherwise the loop computes the load function |
| IndexBuild.ParsedOk | scripts/build_exercise_index.py:68-74 | parsing succeeds exactly when every non-blank line parses, and fails only with an invalid-line error |
| IndexBuild.ParsedRecords | scripts/build_exercise_index.py:68-74 | the records are the non-blank lines' parses, in order |
| IndexBuild.NoRecordsRule | scripts/build_exercise_index.py:76-77 | the no-data error comes exactly when every line is blank |
| IndexBuild.AllBlankLines | scripts/build_exercise_index.py:71-73 | no line is kept exactly when every line is blank |
| IndexBuild.MetadataEntry | scripts/build_exercise_index.py:121-123 | the entry has the id key and the record's metadata keys; the metadata wins over the id |
| IndexBuild.MetadataList | scripts/build_exercise_index.py:121-123 | one entry per record, in order |
| IndexBuild.IndexLinesUp | scripts/build_exercise_index.py:109-123 | with a positive batch size there are as many vectors as metadata entries as records |

## Left out

- Network, database and file I/O, the clock, FastAPI routing and async execution.
  - HTTP outcomes, query results, file contents, the current time, embedding calls and the similarity index are parameters of the model.
  - The database date window of the pattern analysis is assumed to be applied by the caller: the model takes the logs of the period.
- Randomness: the `random.random()` term in both exercise scores is a parameter `jitter`. The ranking is therefore a permutation sorted by score plus jitter.
- Floating point.
  - Scores are kept in thousandths and percentages in tenths, rounded half up.
  - Python's `round` on binary floats can round a tie the other way; that difference is not modelled.
  - Averages are exact rationals or floor quotients as the source writes them.
- Recommendation.CalculateDifficultyScore: the final `round(…, 1)` is not applied; the mean is exact.
- WorkoutAnalysis.InsightsOf: the standard-deviation balance score (square root and float arithmetic) is the parameter `spreadTenths`.
  - The model keeps the source's floor at 0.
  - It keeps the value 50 for fewer than two parts.
- WorkoutAnalysis.GenerateInsights: `spreadTenths` stands for the floor of ten times the score 100 - 3.33·σ (services/workout_analysis.py:199). Since 10·x >= 800 exactly when its floor is, the 80 and 60 bands (:230-235) agree with the source's comparisons of the unrounded score. The reported `balance_score` is that floor in tenths, not `round(balance_score, 1)` (:244), so a score of 79.96 is reported as 79.9 where the source returns 80.0.
- WorkoutAnalysis.AnalyzePattern: `avg_workout_time` (services/workout_analysis.py:72, :137) is the exact quotient of total time by workouts; the `round(…, 1)` applied when it is returned is not modelled.
- DailyAnalysis.Analyze: `avg_time_per_exercise` is compared through cross-multiplication.
  - Its one-decimal display rounding is not modelled.
  - The human-readable message texts are tags, not Korean strings.
- Python exceptions other than the ones modelled are a single failure value:
  - the daily analysis of an entry without a title;
  - the `TypeError` of the muscle search.
- DailyAnalysis.Analyze: a JSON `null` is modelled as a missing key, and the model uses the key's default. In the source `get` returns `None` for a present `null`:
  - a `null` `exerciseTime` makes the sum raise `TypeError` (main.py:66);
  - a `null` `title`, `description` or `trainingName` makes `.lower()` raise `AttributeError` (main.py:83-85);
  - a `null` `exercise` object makes `.get` raise `AttributeError` (main.py:109);
  - a `null` `title` with a truthy `bodyPart` skips the lower-casing and reaches `"스쿼트" in None`, a `TypeError` (main.py:200);
  - both end in the error dictionary (main.py:287-291);
  - a `null` `intensity` is not counted, where the model counts it as 중;
  - a `null` `exerciseTool` is counted under the key `None`, where the model counts it under 기타.
- ExternalRecommendation.VideoScore: a `null` title or tool is read as the empty text and a `null` length as 0. In the source, a `null` title raises at services/external_recommendation.py:303, a `null` length at :324, and a `null` tool at :332 when equipment is preferred.
- ExternalRecommendation.PickMinutes: a `null` `videoLengthSeconds` is read as 180 seconds; in the source `None // 60` raises at services/external_recommendation.py:284.
- ExternalRecommendation.GenerateExternalRecommendation: the exceptions above are caught at services/external_recommendation.py:102 and give `success` False; the model's success condition holds for videos without `null` fields.
- Strings.Strip, Strings.ParseInt and Strings.Lower: only ASCII white space, ASCII digits and ASCII letters are handled. Python also strips other Unicode white space, lets `int()` and `str.isdigit()` accept other decimal digits such as full-width ones, and lower-cases other scripts; the catalogue texts are Korean, which has no case.
- The pydantic request model is assumed valid where the service relies on it (`Schemas.ValidRequest`).
- get_comprehensive_analysis in services/workout_analysis.py and the OpenAI-based analysis endpoints in main.py are not part of this model; they only combine the modelled results with external calls.
- CSV reading and encoding detection in scripts/preprocess_exercises.py are left out: rows arrive as maps from column to optional cell.
- build_chunk is modelled as a loop over a table of (column, label) pairs in the source's order. The source writes fourteen `if` statements; the model has the same lines in the same order.
- `json.loads` and `json.dumps` are left out. Parsing a line is the parameter `parse`; a record always carries its text, and metadata values are strings.
- `create_faiss_index`, `faiss.write_index` and the metadata file write are left out. `IndexLinesUp` states the length agreement the index relies on.
- IndexBuild.ChunkIter: Python raises the zero-step `range` error lazily, at the first iteration. The model returns the error up front, and a negative batch size gives no batches.
- ExternalRecommendation.VideoScore and Recommendation.Score: only the deterministic part is modelled. The jitter is added in the ranking.
- The sorted order of the muscle names in the external API's cache key is modelled with a lexicographic sort on strings of characters. Python's code-point order agrees with it.
- In-place `list.sort` calls are modelled as functions returning a stable sorted permutation.

## Findings

| source | as written | input that shows it | evidently intended | confidence | as-written member | corrected member |
|---|---|---|---|---|---|---|
| services/external_api.py:121-135 | `params + muscle_params` adds a dict and a list, which raises `TypeError`; only `httpx.HTTPError` is caught, so the call raises and nothing is cached | any `search_by_muscle(["대퇴사두근"])` that misses the cache | pass the page, the size and the repeated `muscles` pairs as one list of query parameters, then cache the response for an hour like `search_exercises` | not executed | ExternalApi.MuscleSearchAsWrittenNeverCaches | ExternalApi.MuscleSearchRepeatHits |
