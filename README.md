# Calibration and content pipeline of a maths learning platform

This project models the server-side core of an ed-tech application in which learners enrol in
*worlds* (subjects), each made of *domains*, each made of *archetypes* (problem families). A learner
holds a *standing* per archetype: a rating, starting at 200, and an attempt count. Calibration serves
a problem near the learner's rating, scores the answer with an Elo-style update and records the
change in an append-only ledger of rating events. A content pipeline seeds subjects, domains and
archetypes in all-or-nothing batches, generates problems with a bounded retry policy, stores them
with per-type answer fields, and rolls problem counts up the hierarchy.

The model is organised like the program:

- `Common`: JSON values as `JSON.parse` yields them, JavaScript truthiness, `String.prototype.trim`, `filter` and `take`.
- `Sorting`: the stable sort `Array.prototype.sort` performs with a consistent comparator.
- `Rating`: `calculateRatingDelta`.
- `ProblemViews`: choice normalisation and the two learner-facing problem views.
- `Worlds`: tiers and the world, domain and archetype views.
- `PipelineSchema`: the subject ingestion schema.
- `ProblemInsert`: the mapping of generated problems to stored rows.
- `Generation`: the generation body schema, its errors, the retry rule and the status mapping.
- `Enumeration`: the problem-count roll-ups and the level switch.
- `Tables`: the rows of the store, its queries and invariants, and the pure steps of the routes.
- `Store`: class `Database`. It holds the tables, and each API route that reads or writes the store is one of its methods.

A route's `$transaction` is one atomic step. Every route that answers with an error leaves every
table as it was. The class invariant `Valid()` is kept by every route. It says:

- ids and slugs are unique;
- (stream, order) is unique among archetypes that have a stream;
- there is at most one attempt per user and problem;
- every event satisfies `before + delta == after`;
- every attempt belongs to a standing;
- every standing counts exactly its attempts.

Problem selection (`src/app/api/play/problem/route.ts`) is modelled as the route code does it:

- It picks among up to ten of the archetype's problems rated within 200 of the learner, or falls back to the archetype's first problem (lines 64-77). It does not exclude problems the learner has already attempted.
- When the learner has no standing for the archetype, it answers 403 and creates none (lines 52-57).

## Model

| member | source | states |
|---|---|---|
| `Common.Lookup` | src/domain/problem.ts:34 | A property read finds a member exactly when the object has one with that key, and returns a value stored under that key. |
| `Common.LookupDistinct` | src/domain/problem.ts:28-39 | In an object as JSON.parse builds it, where no key repeats, a property read returns the one value stored under that key. |
| `Common.Trim` | src/lib/pipeline/enumerate.ts:23 | The trimmed query is a contiguous block of the input. Everything before and after it is ECMAScript white space or a line terminator, and it neither starts nor ends with one. |
| `Common.StrLeTotal` | src/domain/world.ts:109 | The title comparison standing in for `localeCompare` ranks any two titles one way or the other. |
| `Common.StrLeTransitive` | src/domain/world.ts:109 | The title comparison is transitive. |
| `Common.Filter` | src/app/api/worlds/enroll/route.ts:49 | `filter` keeps exactly the elements satisfying the predicate, in order. It is empty exactly when no element satisfies it. |
| `Common.Take` | src/lib/db/enumeration.ts:29 | `take: n` yields the first `min(n, length)` rows. |
| `Sorting.Insert` | src/domain/world.ts:107-110 | Inserting into a list adds exactly that element (multiset). |
| `Sorting.Sort` | src/domain/world.ts:107-110 | The sort result is a permutation of its input. |
| `Sorting.InsertSorted` | src/domain/world.ts:107-110 | For a total-preorder comparator, inserting into a sorted list keeps it sorted. |
| `Sorting.SortSorted` | src/domain/world.ts:107-110 | For a total-preorder comparator, the sort result is sorted. |
| `Sorting.SortMembers` | src/domain/world.ts:107-110 | The sorted list has exactly the elements of its input. |
| `Sorting.SortStable` | src/domain/world.ts:107-110 | The sort is stable. For every x, the elements the comparator ranks equal to x appear in the result in their input order. |
| `Rating.Growth` | src/domain/problem.ts:148 | The stand-in for `10^(d/400)` is positive, and it equals `10^(d/400)` whenever d is a multiple of 400. |
| `Rating.Expected` | src/domain/problem.ts:148 | The expected score lies strictly between 0 and 1. It is 1/2 for equal ratings and exact at rating gaps that are multiples of 400. |
| `Rating.Round` | src/domain/problem.ts:151 | `Math.round` gives the integer nearest the argument, rounding halves up. |
| `Rating.CalculateRatingDelta` | src/domain/problem.ts:139-157 | A correct answer gives a change in [1, 32]. An incorrect one gives a change in [-32, -1]. |
| `Rating.DeltaNeverZero` | src/domain/problem.ts:154 | The change is never 0, and its sign is the outcome: a rounded 0 becomes +1 or -1. |
| `Rating.EqualRatings` | src/domain/problem.ts:148-151 | With equal ratings the change is +16 on success and -16 on failure. |
| `Rating.UnderdogSuccess` | src/domain/problem.ts:148-156 | A learner rated 200 who solves a problem rated 600 gains 29. |
| `Rating.GrowthStep` | src/domain/problem.ts:148 | The curve does not decrease from one integer gap to the next. |
| `Rating.GrowthMonotone` | src/domain/problem.ts:148 | The curve is non-decreasing in the rating gap. |
| `Rating.ExpectedDecreasing` | src/domain/problem.ts:148 | A harder problem is never more likely to be solved. |
| `Rating.DeltaMonotoneInProblem` | src/domain/problem.ts:148-156 | For the same learner and outcome, a harder problem never gives a smaller change. |
| `ProblemViews.FromCharCode` | src/domain/problem.ts:42 | `String.fromCharCode(n)` is one character, and it is the character with code n below the surrogate range. |
| `ProblemViews.NormalizeChoices` | src/domain/problem.ts:23-54 | A non-MCQ problem, a falsy choices value, or a value that is neither array nor object gives no choices. An object gives one choice per entry, keyed by the entry name in entry order. An array gives one choice per element, keyed by `fromCharCode(65 + i)`. |
| `ProblemViews.MemberChoices` | src/domain/problem.ts:28-39 | Object choices: one per entry, id the key, content from its value, with length preserved. |
| `ProblemViews.ItemChoices` | src/domain/problem.ts:40-53 | Array choices: one per element, id the letter with code 65 + i, with length preserved. |
| `ProblemViews.FormatProblemView` | src/domain/problem.ts:22-68 | The view carries the normalised choices, and the problem's id, type, prompt, topic, tags, rating and solutions. It also takes the given user rating and attempt count. A non-zero subject order is kept. A missing order and an order of 0 both become 1 (`||`), so the order is never 0. |
| `ProblemViews.FormatProblemViewFromRow` | src/domain/problem.ts:74-133 | The row view carries the normalised choices, and the row's user rating and attempt count. Only a missing subject order becomes 1 (`??`). |
| `ProblemViews.ArrayChoiceLetters` | src/domain/problem.ts:40-42 | The i-th array choice is keyed by the i-th capital letter: 'A', 'B', and so on. |
| `ProblemViews.StringChoicesPassThrough` | src/domain/problem.ts:28-52 | A string choice value, in an array or an object, is its own content. |
| `ProblemViews.ViewHidesAnswer` | src/domain/problem.ts:55-67 | The view is the same whatever the correct choice, numeric answer or expression answer, so it never discloses them. |
| `ProblemViews.SubjectOrderZero` | src/domain/problem.ts:131 | The two builders disagree on an order of 0. `formatProblemView` (line 66) shows 1, while `formatProblemViewFromRow` keeps 0. |
| `Worlds.CalculateTier` | src/domain/world.ts:55-61 | The tier is the highest one whose threshold (800, 1400, 1700, 2000) the rating reaches. |
| `Worlds.TierMonotone` | src/domain/world.ts:55-61 | A higher rating never gives a lower tier. |
| `Worlds.BestRatingsSpec` | src/domain/world.ts:78-85 | A subject has a rating entry iff one of its standings has a positive rating. The entry is then the largest rating among its standings. |
| `Worlds.WorldOf` | src/domain/world.ts:87-98 | A world is enrolled iff it has a rating, and it then carries that rating's tier. |
| `Worlds.ComparatorsArePreorders` | src/domain/world.ts:107-110 | Both comparators are consistent, so the sorts are well defined. The comparators are: best rating first; order, then title. |
| `Worlds.AllWorlds` | src/domain/world.ts:87-105 | One world per subject, in subject order. |
| `Worlds.PartSplits` | src/domain/world.ts:87-105 | The enrolled and available lists together hold each subject's world exactly once. |
| `Worlds.PartKinds` | src/domain/world.ts:100-104 | Each list holds only consistent worlds of its own kind. |
| `Worlds.BuildBestRatings` | src/domain/world.ts:78-85 | The loop builds the best-rating map `BestRatings` specifies. |
| `Worlds.Partition` | src/domain/world.ts:87-105 | The loop pushes each subject's world onto the list its enrolment selects, in subject order. |
| `Worlds.FormatWorlds` | src/domain/world.ts:63-111 | Every subject lands in exactly one list. Enrolled worlds have a rating and its tier, and are sorted by rating, descending. Available worlds have neither, and are sorted by order, then title. Each list equals `Sorting.Sort` of its part, a sort that is stable by `Sorting.SortStable`. |
| `Worlds.WorldOfSpec` | src/domain/world.ts:78-98 | A subject's world is enrolled iff one of its standings has a positive rating. Its rating is then the maximum, and its tier is that maximum's tier. |
| `Worlds.LatestRatingsSpec` | src/domain/world.ts:118-119 | The rating map has exactly the standings' archetypes as keys. Each key holds the rating of the last standing for it. |
| `Worlds.BuildLatestRatings` | src/domain/world.ts:118-119 | The forEach builds exactly that map. |
| `Worlds.EnrolledCount` | src/domain/world.ts:126-137 | `enrolledCount` is bounded by the number of archetypes, and positive iff some archetype has a rating. |
| `Worlds.EnrolledCountIsCount` | src/domain/world.ts:126-137 | `enrolledCount` is exactly the number of archetypes that have a user rating. |
| `Worlds.MaxRating` | src/domain/world.ts:128-137 | `maxRating` is at least 0, bounds every archetype rating, and is 0 or one of them. |
| `Worlds.DomainViewOf` | src/domain/world.ts:121-153 | `enrolledCount <= archetypeCount`, one per archetype. The domain is enrolled iff `enrolledCount > 0`, and has a rating iff enrolled. |
| `Worlds.SummarizeDomain` | src/domain/world.ts:121-153 | The counting loop computes exactly `DomainViewOf`. |
| `Worlds.DomainViews` | src/domain/world.ts:121-153 | One view per domain, in order. |
| `Worlds.FormatWorldDetail` | src/domain/world.ts:113-162 | The detail has the subject's fields, and its domain views are `Sorting.Sort` by order, which is stable by `Sorting.SortStable`. Every view counts no more enrolled archetypes than it has, and is enrolled iff it counts one. |
| `Worlds.DomainViewsCounts` | src/domain/world.ts:125-140 | Each domain view satisfies the count invariants. |
| `Worlds.SummarizeDomains` | src/domain/world.ts:121-153 | The map over domains yields `DomainViews`. |
| `Worlds.DomainViewSpec` | src/domain/world.ts:125-152 | A domain is enrolled iff one of its archetypes has a user rating. Its rating is then the maximum of those ratings, floored at 0: it is at least 0, bounds every archetype rating, and is 0 or one of them. |
| `Worlds.ArchetypeViewOf` | src/domain/world.ts:171-181 | An archetype view passes the id, slug, title and summary through. It shows the user's rating when there is a standing, and 0 with NOVICE when there is none. Its tier is its rating's tier. |
| `Worlds.MaxOf` | src/domain/world.ts:186 | `Math.max` returns one of the ratings, and bounds them all. |
| `Worlds.ArchetypeViews` | src/domain/world.ts:171-181 | One view per archetype, in the domain's order. |
| `Worlds.FormatDomainDetail` | src/domain/world.ts:164-198 | The detail carries the domain's id, slug, title and summary. The archetype views are `Sorting.Sort` by archetype order, which is stable by `Sorting.SortStable`. The domain is enrolled iff some view has a positive rating, and has a rating iff enrolled. That rating is the largest view rating. |
| `Worlds.ReorderedRatings` | src/domain/world.ts:183-196 | Sorting the views changes neither whether a rating is positive nor the maximum rating. |
| `PipelineSchema.ParseOrder` | src/domain/pipeline.ts:9 | `order` defaults to 1 when absent, is accepted iff it is an integral number, and keeps its value. |
| `PipelineSchema.ParseSummary` | src/domain/pipeline.ts:10 | `summary` may be absent or null (no summary) or a string (kept). Anything else fails. |
| `PipelineSchema.ParseString` | src/domain/pipeline.ts:7-8 | A required string member passes iff it is a string meeting its condition, and keeps its value. |
| `PipelineSchema.ParseSubject` | src/domain/pipeline.ts:6-11 | A subject is accepted iff it is an object whose slug matches `^[a-z0-9-]+$`, whose title is non-empty, and whose order and summary are valid. The parsed fields are those members. |
| `PipelineSchema.Slugs` | src/domain/pipeline.ts:18 | The slug list has one slug per subject, in order. |
| `PipelineSchema.SetSizeDistinct` | src/domain/pipeline.ts:19 | `new Set(slugs).size === slugs.length` holds exactly when the slugs are pairwise distinct. |
| `PipelineSchema.DistinctSnoc` | src/domain/pipeline.ts:19 | One more slug keeps the list distinct iff the list was distinct and lacked it. |
| `PipelineSchema.ParseEach` | src/domain/pipeline.ts:17 | An array parses iff every element does, and the results keep their order. |
| `PipelineSchema.ParseIngestion` | src/domain/pipeline.ts:17-23 | A payload is accepted iff it is an array of valid subjects with pairwise distinct slugs. |
| `PipelineSchema.SubjectDefaults` | src/domain/pipeline.ts:6-11 | A subject given only slug and title gets order 1 and no summary. |
| `PipelineSchema.UpperCaseSlugRejected` | src/domain/pipeline.ts:7 | A slug with an upper-case letter is refused. |
| `ProblemInsert.JsonOrNull` | src/lib/db/insertProblems.ts:29 | A missing JSON member is stored as JSON null, and a present one as itself. |
| `ProblemInsert.ToCreateInput` | src/lib/db/insertProblems.ts:9-57 | `type` defaults to MCQ, `requireForm` to [] and `solutions` to null, and `archetypeId` is the given one. MCQ keeps choices and correct choice, NUMERIC only the numeric answer, EXPRESSION only the expression answer. Every other answer field is null. |
| `ProblemInsert.ToCreateInputs` | src/lib/db/insertProblems.ts:70 | One row per generated problem, in order. |
| `ProblemInsert.AnswerFieldsMatchType` | src/lib/db/insertProblems.ts:26-56 | A stored row sets only the answer field of its type. An OPEN row sets none. |
| `ProblemInsert.UntypedIsMcq` | src/lib/db/insertProblems.ts:21-30 | A problem without a type is stored as MCQ with its correct choice. |
| `ProblemInsert.StoredViewHidesAnswer` | src/lib/db/insertProblems.ts:26-56 | The learner view of a stored row does not depend on the generated answer fields. |
| `Generation.ParseType` | src/app/api/pipeline/generate/route.ts:12 | `type` defaults to MCQ and must otherwise be one of the four names. |
| `Generation.ParseCount` | src/app/api/pipeline/generate/route.ts:14 | `count` defaults to 5, and is accepted iff it is an integer in [1, 20]. |
| `Generation.ParseNonEmpty` | src/app/api/pipeline/generate/route.ts:11-13 | `archetypeId` and `band` must be non-empty strings. |
| `Generation.ParseGenerateBody` | src/app/api/pipeline/generate/route.ts:10-30 | The body is accepted iff it is an object whose members meet the schema: a non-empty `archetypeId` and `band`, a valid type, an integer count in [1, 20], `model` absent or a string, and `useReasoning` absent or a boolean. Each field is then the member's value or its default. |
| `Generation.FailureResponse` | src/app/api/pipeline/generate/route.ts:78-95 | A ZodError and a json_parse AiBatchError give 422, and every other error 500. The stage is validation, the batch stage, or unknown. |
| `Generation.BodyDefaults` | src/app/api/pipeline/generate/route.ts:10-17 | A body with only the two required members gets MCQ, count 5, no model and no reasoning. |
| `Generation.CountAboveLimitRefused` | src/app/api/pipeline/generate/route.ts:14 | A count of 21 refuses the body. |
| `Enumeration.SumAppend` | src/lib/db/enumeration.ts:32-40 | The sum of a concatenation is the sum of the sums. |
| `Enumeration.NestedSumFlatten` | src/lib/db/enumeration.ts:32-40 | Summing domain by domain equals summing all of a subject's archetype counts together. |
| `Enumeration.SumZero` | src/lib/db/enumeration.ts:32-40 | A total is 0 iff every count is 0. In particular, an entity without children counts 0. |
| `Enumeration.AddCounts` | src/lib/db/enumeration.ts:35-37 | The inner forEach adds the sum of the counts to the running total. |
| `Enumeration.SubjectCounts` | src/lib/db/enumeration.ts:32-40 | One result per fetched subject, in order, with id and title kept. The count is the sum over all its domains' archetypes. |
| `Enumeration.DomainCounts` | src/lib/db/enumeration.ts:62-68 | One result per fetched domain, in order, counting its archetypes' problems. |
| `Enumeration.ArchetypeCounts` | src/lib/db/enumeration.ts:86-90 | One result per fetched archetype, with its own problem count. |
| `Enumeration.ParseLevel` | src/lib/pipeline/enumerate.ts:25-34 | The switch accepts exactly SUBJECT, DOMAIN and ARCHETYPE. |
| `Enumeration.Lower` | src/lib/db/enumeration.ts:12 | Lower-casing maps each ASCII capital to its small letter and keeps every other character. |
| `Enumeration.EmptyQueryMatchesAll` | src/lib/db/enumeration.ts:12 | An empty (trimmed) query matches every title. |
| `Enumeration.MatchIgnoresCase` | src/lib/db/enumeration.ts:12 | The title match ignores the case of letters on both sides. |
| `Tables.FindBy` | src/app/api/play/submit/route.ts:30-33 | `findUnique` on a key (a problem's id, or an archetype's slug at play/problem/route.ts:19-22) returns a stored row with that key, and nothing iff there is none. |
| `Tables.FindUnique` | src/app/api/play/submit/route.ts:30-33 | With unique keys, the lookup returns the very row with that key. |
| `Tables.CountAfterAttempt` | src/app/api/play/submit/route.ts:103-110 | Recording an attempt adds one to the attempt count of exactly the standing its problem belongs to. |
| `Tables.RecordPreserves` | src/app/api/play/submit/route.ts:76-111 | The submit transaction keeps the invariants. One attempt per user and problem; every event balanced; every attempt belongs to a standing; counts agree. |
| `Tables.AdjustPreserves` | src/app/api/pipeline/rating-change/route.ts:36-76 | Overwriting a standing's rating, keeping its attempt count, and appending a balanced event keeps all table invariants. |
| `Tables.NewStandingHasNoAttempts` | src/app/api/worlds/enroll/route.ts:51-62 | A standing created by enrolment has no attempts counted against it. |
| `Tables.AppendProblemsPreserves` | src/lib/db/insertProblems.ts:72-75 | Inserting problems changes no attempt's archetype and no standing's count. |
| `Tables.Score` | src/app/api/play/submit/route.ts:70-110 | Correct iff the chosen id is the stored correct choice. The attempt has `deltaUser = delta`, `deltaProblem = 0` and the time or 0. The event has `before = old`, `after = old + delta` and reason CALIBRATION_ATTEMPT. The new standing has rating `after` and one more attempt. The change is in [1, 32] or [-32, -1]. |
| `Tables.ManualAdjustment` | src/app/api/pipeline/rating-change/route.ts:51-73 | The standing takes the requested rating and keeps its attempt count. The event has `before = old`, `after = rating` and `before + delta = after`, with no problem and reason PIPELINE_MANUAL_ADJUSTMENT. |
| `Tables.ArchetypesOfDomain` | src/app/api/worlds/enroll/route.ts:28-30 | The query returns exactly the stored archetypes of the domain. |
| `Tables.ToCreate` | src/app/api/worlds/enroll/route.ts:40-49 | Exactly the domain's archetypes the user has no standing for. |
| `Tables.NewStandings` | src/app/api/worlds/enroll/route.ts:51-62 | `createMany` adds one standing per archetype to create, each at rating 200 with no attempts. |
| `Tables.EnrollIdempotent` | src/app/api/worlds/enroll/route.ts:40-62 | After enrolment every archetype of the domain has a standing, so a second run creates nothing. |
| `Tables.EnrollKeepsExisting` | src/app/api/worlds/enroll/route.ts:48-49 | Existing standings keep their values. |
| `Tables.EnrollPreserves` | src/app/api/worlds/enroll/route.ts:51-62 | The new standings are for stored archetypes and keep the attempt and count invariants. |
| `Tables.EnrollStep` | src/app/api/worlds/enroll/route.ts:40-62 | Enrolment as a whole keeps the tables consistent. Afterwards every archetype of the domain has a standing, and old standings are unchanged. |
| `Tables.BandCandidates` | src/app/api/play/problem/route.ts:64-73 | The candidates are the first `min(n, 10)` of the n stored problems of the archetype rated within 200 of the learner, in table order. The list is empty iff no such problem exists. |
| `Tables.Pick` | src/app/api/play/problem/route.ts:76 | The random pick is one of the candidates. |
| `Tables.FirstOfArchetype` | src/app/api/play/problem/route.ts:77 | The fallback is a problem of the archetype, of any rating. It is absent iff the archetype has none. |
| `Store.SubjectRows` | src/app/api/pipeline/subjects/route.ts:58-70 | One row per parsed subject, in order. An empty or missing summary is stored as null. |
| `Store.ExistingSlugs` | src/app/api/pipeline/subjects/route.ts:39-42 | The conflict query returns exactly the submitted slugs already stored. |
| `Store.DomainRows` | src/app/api/pipeline/domains/route.ts:75-84 | One row per input, in order, each with the requested subject id and a `dom_` id. |
| `Store.ArchetypeRows` | src/app/api/pipeline/archetypes/route.ts:91-103 | One row per input, in order, each with the requested domain id and an `arch_` id. A missing or empty stream is stored as null. |
| `Store.SlugTitles` | src/app/api/pipeline/subjects/route.ts:76 | The response lists (slug, title) per created subject, in order. |
| `Store.SubjectSeedingAccepted` | src/app/api/pipeline/subjects/route.ts:57-89 | Once the schema and conflict checks pass, only an id collision can make the store refuse the batch. |
| `Store.DomainBatchAccepted` | src/app/api/pipeline/domains/route.ts:63-88 | With fresh ids, the loop gets through the batch iff its slugs are pairwise distinct and none is stored. That includes slugs created earlier in the same batch. |
| `Store.DomainSlugsFreshIfUnique` | src/app/api/pipeline/domains/route.ts:63-88 | An accepted batch has distinct, new slugs. |
| `Store.DomainsUniqueIfFresh` | src/app/api/pipeline/domains/route.ts:63-88 | A batch with distinct, new slugs and fresh ids is accepted. |
| `Store.ArchetypeBatchFitsIfUnique` | src/app/api/pipeline/archetypes/route.ts:63-107 | An accepted archetype batch clashes nowhere on slug or on a present (stream, order). |
| `Store.ArchetypesUniqueIfFits` | src/app/api/pipeline/archetypes/route.ts:63-107 | A batch that clashes nowhere, with fresh ids, is accepted. |
| `Store.ArchetypeBatchAccepted` | src/app/api/pipeline/archetypes/route.ts:63-107 | With fresh ids, an archetype batch is accepted iff it clashes with no stored or earlier row. A clash is a shared slug, or a shared present stream with the same order. |
| `Store.AttemptEffectOf` | src/app/api/pipeline/generate/route.ts:40-62 | An attempt fails with what it threw. Otherwise its batch is inserted (its rows, in order) unless the store refuses a non-empty batch, which is an error of neither kind. |
| `Store.GenerateFailure` | src/app/api/pipeline/generate/route.ts:78-95 | The failure response carries the status and stage of the last error. |
| `Store.MatchingSubjects` | src/lib/db/enumeration.ts:10-30 | At most 20 subjects, in table order, each stored and with a title containing the query, ignoring case. |
| `Store.MatchingDomains` | src/lib/db/enumeration.ts:44-60 | At most 20 matching domains, in table order. |
| `Store.MatchingArchetypes` | src/lib/db/enumeration.ts:72-84 | At most 20 matching archetypes, in table order. |
| `Store.ProblemCount` | src/lib/db/enumeration.ts:21-23 | An archetype's problem count is 0 iff no stored problem links to it. |
| `Store.DomainsOfSubject` | src/lib/db/enumeration.ts:17 | Exactly the subject's domains. |
| `Store.ArchetypeProblemCounts` | src/lib/db/enumeration.ts:19-25 | One problem count per archetype. |
| `Store.DomainProblemCounts` | src/lib/db/enumeration.ts:17-27 | For each domain, the counts of its archetypes. |
| `Store.SubjectCountRows` | src/lib/db/enumeration.ts:10-30 | Each fetched subject with the counts below it. |
| `Store.DomainCountRows` | src/lib/db/enumeration.ts:44-60 | Each fetched domain with its archetypes' counts. |
| `Store.ArchetypeCountRows` | src/lib/db/enumeration.ts:72-84 | Each fetched archetype with its count. |
| `Store.Database.Submit` | src/app/api/play/submit/route.ts:7-128 | The checks run in this order, each leaving the store unchanged: unreadable body 500; missing problemId or chosenId 400; no session 401; problem absent or without an archetype 404; no standing 403; an existing attempt 409. Otherwise it writes exactly one attempt, one event and the standing update from `Score`, and returns the new rating. |
| `Store.Database.Record` | src/app/api/play/submit/route.ts:76-111 | The transaction appends the attempt and the event and replaces the standing, keeping `Valid`. |
| `Store.Database.SelectProblem` | src/app/api/play/problem/route.ts:6-99 | The checks run in this order: missing slug 400; unknown archetype 404, before the session is looked at; no session 401; no standing 403. Then it returns a band candidate, else the archetype's first problem, else 404 NO_PROBLEMS. The view carries the standing's rating. Nothing is written. |
| `Store.Database.Enroll` | src/app/api/worlds/enroll/route.ts:6-76 | The checks are: no session 401; unreadable body 500; missing domainId 400; a domain without archetypes 404. Otherwise it creates standings at 200 only for the archetypes the user lacks, keeps existing ones, and reports the created count. `enrolledCount` reports all of the domain's archetypes. |
| `Store.Database.AddStandings` | src/app/api/worlds/enroll/route.ts:51-62 | `createMany` adds exactly the missing standings. Afterwards every given archetype has one, and the tables stay valid. |
| `Store.Database.RatingChange` | src/app/api/pipeline/rating-change/route.ts:6-101 | Unreadable JSON gives 400 SYNTAX_ERROR, a schema failure 400 VALIDATION_ERROR, and a missing standing 404; each writes nothing. Otherwise the standing takes the requested rating and one manual-adjustment event is appended. |
| `Store.Database.Adjust` | src/app/api/pipeline/rating-change/route.ts:36-76 | The transaction replaces the standing and appends the event, keeping `Valid`. |
| `Store.Database.ValidatePrefetch` | src/app/api/play/validate-prefetch/route.ts:5-69 | The checks are: missing problemId 400; no session 401; no problem 404; no standing for the problem's archetype (looked up under "" when it has none) 403. Otherwise it returns only the correct choice. It reads the store without writing. In a valid store the success case implies the problem has an archetype. |
| `Store.Database.SeedSubjects` | src/app/api/pipeline/subjects/route.ts:6-100 | Unreadable JSON gives 400, and a schema failure 400. A stored slug gives 409 listing exactly the stored slugs. An id collision gives 500 DATABASE_REFUSAL. Otherwise it appends the whole batch and reports its count and (slug, title) pairs. |
| `Store.Database.SeedDomains` | src/app/api/pipeline/domains/route.ts:7-126 | The checks are: unreadable JSON 400; a null body 500; a falsy subjectId 400; a non-string one 500; an unknown subject 404; a schema failure 400. Then all rows are appended, or on any slug or id clash it answers 409 and keeps nothing. |
| `Store.Database.AddDomains` | src/app/api/pipeline/domains/route.ts:63-88 | The transactional loop succeeds iff the rows keep ids and slugs unique, and then appends them all. Otherwise nothing changes. |
| `Store.Database.SeedArchetypes` | src/app/api/pipeline/archetypes/route.ts:7-145 | The early checks match the domain route. Then all rows are appended, or on a slug, (stream, order) or id clash it answers 409 and keeps nothing. |
| `Store.Database.AddArchetypes` | src/app/api/pipeline/archetypes/route.ts:63-107 | The loop succeeds iff the rows keep ids, slugs and present (stream, order) pairs unique, and then appends them all. Otherwise nothing changes. |
| `Store.Database.ArchetypeClash` | src/app/api/pipeline/archetypes/route.ts:67-89 | A clash of one row with those before it rules out the whole batch. |
| `Store.Database.InsertGeneratedProblems` | src/lib/db/insertProblems.ts:62-78 | An empty batch inserts nothing and reports 0. Otherwise it appends one row per problem, in order, or the store refuses it and nothing changes. |
| `Store.Database.Generate` | src/app/api/pipeline/generate/route.ts:19-103 | Unreadable JSON gives 500, and an invalid body 400. Otherwise it runs the retry loop: at most two attempts, the second only after a json_parse failure of the first. It reports the successful attempt (1 or 2), or the response of the last error. |
| `Store.Database.RetryGeneration` | src/app/api/pipeline/generate/route.ts:34-95 | The loop meets `Retried`. A first success keeps its rows. After a json_parse failure the second attempt decides. Any other failure ends the loop, and failures change nothing. |
| `Store.Database.RunAttempt` | src/app/api/pipeline/generate/route.ts:40-74 | One attempt has the effect `AttemptEffectOf` gives: the rows are added on success, and failure changes nothing. |
| `Store.Database.EnumerateProblems` | src/lib/pipeline/enumerate.ts:19-35 | An unknown level throws. SUBJECT, DOMAIN and ARCHETYPE give the matching roll-up over the first 20 rows whose title contains the trimmed query, with the counts summed from the tables. |
| `Store.SubmitTwice` | src/app/api/play/submit/route.ts:59-68 | In a sequential run, a second submission of an accepted answer is refused with 409. |
| `Store.EnrollTwice` | src/app/api/worlds/enroll/route.ts:49-62 | A second enrolment in the same domain succeeds, creates nothing and reports the same `enrolledCount`. |

## Left out

- Rating.Growth: `Math.pow(10, d / 400)` is floating point. The model uses a curve that is exact at multiples of 400 and linear in between, so between multiples of 400 a concrete change can differ by up to 4 points from the one the program computes (for example, a learner rated 0 solving a problem rated 100 gains 24 in the model and 20 in the program). At multiples of 400 the changes agree exactly. The sign, bounds, equal-rating and monotonicity properties do not depend on the curve.
- Common.StrLe: `localeCompare` is locale-dependent. Code-point order stands in for it, and only its totality and transitivity are used.
- Enumeration.Lower: the database's case-insensitive match is modelled as ASCII lower-casing only.
- ProblemViews.FromCharCode: a lone UTF-16 surrogate cannot be a character here, so codes in the surrogate range give U+FFFD.
- ProblemViews.ContentOf: the JSON.stringify and String(value) renderings of a choice are named, not spelled out.
- Typed bodies: the bodies of the submit and enroll routes are typed records. A member of an unexpected JSON type is treated as absent, and `timeMs` as a number or absent.
- Treated as parameters: request ids (`randomUUID`, `nanoid`), `Math.random`, the session cookie and the clock. `updatedAt` and `lastPlayedAt` are not modelled.
- Unseen schemas: `DomainIngestionSchema`, `ArchetypeIngestionSchema`, `RatingChangeSchema`, the generated-problem schema and `parseAndValidateAiBatch` are not part of this model. They are parameters, or abstract outcomes of a generation attempt.
- Generation: `buildPrompt`, the language-model call and its `usage` report are not part of this model. Each attempt is an abstract outcome, and the response does not carry `usage`.
- Concurrency: requests are sequential and each `$transaction` is atomic. The race between the duplicate-attempt check and the submit transaction is not modelled.
- Store failures: unexpected database errors (the catch-all 500 answers) are modelled only where a table constraint explains them, namely an id or slug collision.
- Foreign keys: not modelled beyond the invariants listed above.
- Messages: error messages, `details` payloads and logging are not modelled. A response is its status and error code.
- Other routes and files: the authentication routes, the worlds listing and lookup routes, and the user-interface pages are not part of this model. The colour helper, the band descriptions and the generation test script are not either.
