# Multi-role-app core, modelled in Dafny

This project models the logic core of a multi-role employee-wellbeing
backend. Employees upload videos. An emotion model scores each video, and
the service stores one prediction row per emotion label. HR users of a
company read dashboards that aggregate those predictions. The model covers
three parts:

- **The HR dashboard** (`hr_Dashboard/router.py`). This is the emotion
  taxonomy: `map_emotion` folds free-text labels into seven standard
  emotions. It also covers every live dashboard endpoint: the distribution,
  pie, trend, histogram, summary, employee history and paginated roster. All
  of them share the `assert_hr` role check.
  - Each endpoint is a method over snapshots of the tables: users, videos
    and prediction rows as sequences in store order.
  - Each accumulation loop of the source is a loop proved against a
    specification function. Lemmas state what that function means: key sets,
    sums, means, bucket bounds, orderings, page slices and the top emotion.
- **The video processing lifecycle** (`core/AI_Service.py`,
  `routers/ai_router.py`, `core/scheduler.py`).
  - A `Store` object holds the tables and is changed in place.
  - A `TaskQueue` object records the background tasks a request enqueues.
  - The emotion model is an oracle: a function from a video's storage
    locator to a `{label: score}` dict. It is passed in as a parameter, and
    its contract is a predicate.
  - Processing, the on-demand trigger, the bulk trigger and the periodic
    sweep are methods. Each is proved against a function of the old state.
  - Nothing claims a video before processing it. Processing a video twice
    therefore stores two batches, and the model states this as a lemma.
- **The company and user registry** (`auth/utils.py`, `auth/router.py`,
  `auth/hr_router.py`).
  - Employee signup rejects a taken username.
  - HR signup registers a company under its lower-cased name together with
    its first HR user. `Store.Valid()` keeps the stored company names
    lower-case and distinct, and every method preserves it.
  - Login decisions are pure functions. Password hashing and verification
    are uninterpreted functions passed in as parameters.
  - A token is modelled by the claims it carries.

Notes on the code as written:

- HR signup does not check the username (the HR user's email) against the
  existing users. It can therefore create a second user with a taken
  username. Employee signup preserves `UniqueUsernames`, but the HR signup
  method does not promise it.
- `Database/database.py` declares only `Users(id, username, hashed_password,
  role)`. The records here carry the fields the logic files read and write:
  `user_id`, `company_id`, `email`, and the `Video`, `Prediction` and
  `Company` tables.

Representation choices:

- Python dicts whose iteration order matters are `seq<(string, real)>`
  with distinct keys (module `PyDict`). That order matters for the top
  emotion: `max` keeps the first key with the largest score.
- Scores are exact `real`s.
- Days and timestamps are integers. The current day is a parameter.
- Ids are natural numbers.
- SQLAlchemy's `column == None` is `IS NULL`, so comparing a company id is
  `Option` equality.
- FastAPI's query bounds (`ge`/`le`) are checked before the endpoint body
  runs. They give a 422 error ahead of the role check.

## Model

| member | source | states |
|---|---|---|
| Emotions.MapEmotion | hr_Dashboard/router.py:47-51 | an empty label maps to nothing; a non-empty label maps iff its stripped, lower-cased form is a key of the synonym table, and then to that key's standard emotion |
| Emotions.StandardMapsToItself | hr_Dashboard/router.py:13-39 | every standard emotion's name is a table key mapping back to that emotion |
| Emotions.MapEmotionIdempotent | hr_Dashboard/router.py:47-51 | normalising the name of a normalised label gives the same emotion |
| Emotions.MapEmotionIgnoresCase | hr_Dashboard/router.py:50-51 | labels equal after lower-casing normalise alike |
| Emotions.MapEmotionIgnoresSurroundingSpace | hr_Dashboard/router.py:50-51 | whitespace around a label does not change its normalisation |
| Emotions.FromName | hr_Dashboard/router.py:13-21 | `name in STANDARD_EMOTIONS`: the emotion with that name, and nothing iff no emotion has it |
| CompanyScope.AssertHr | hr_Dashboard/router.py:42-44 | no error iff the role is "hr"; otherwise 403 "HR role required" |
| CompanyScope.CompanyUserIds | hr_Dashboard/router.py:54-55 | exactly the ids of the users whose company equals the caller's (NULL matches NULL) |
| CompanyScope.ScopedPredictions | hr_Dashboard/router.py:68-72 | the join: exactly the rows whose video belongs to one of the ids; none for no ids |
| CompanyScope.ScopedVideos | hr_Dashboard/router.py:192 | exactly the videos uploaded by one of the ids |
| CompanyScope.CollectScores | hr_Dashboard/router.py:156-159 | the scores loop returns, in row order, the scores of the rows whose label maps to the emotion |
| CompanyScope.MeanOfUnitScores | hr_Dashboard/router.py:216 | the mean (0 for none) of scores in [0, 1] is in [0, 1] |
| Distribution.EmotionDistribution | hr_Dashboard/router.py:58-79 | 403 unless HR; otherwise the per-emotion score sums of the company's rows |
| Distribution.SumScoresByEmotion | hr_Dashboard/router.py:66-76 | the accumulation loop yields exactly `DistributionOf` of the rows |
| Distribution.DistributionOf | hr_Dashboard/router.py:66 | the result holds all seven standard keys |
| Distribution.TallyAt | hr_Dashboard/router.py:73-76 | after the loop over any rows, each emotion holds the sum of the scores of the rows mapped to it |
| Distribution.TallyIsDistribution | hr_Dashboard/router.py:66-76 | the map the loop builds is the distribution |
| Distribution.MappedRowGrows | hr_Dashboard/router.py:73-76 | one iteration over a mapped row is the map update `counts[std] += score` of the distribution |
| Distribution.NoRowsAllZero | hr_Dashboard/router.py:62-63 | with no rows every emotion is 0 |
| Distribution.UnmappedRowIgnored | hr_Dashboard/router.py:74-75 | a row whose label maps to no standard emotion changes nothing |
| Distribution.MappedRowAdds | hr_Dashboard/router.py:74-76 | a row mapped to `e` adds its score to `e` and to no other emotion |
| Distribution.NoUsersAllZero | hr_Dashboard/router.py:61-63 | a company without users gets every emotion at 0 |
| Distribution.DistributionNonNegative | hr_Dashboard/router.py:73-76 | non-negative scores give non-negative sums |
| Distribution.PieDivisor | hr_Dashboard/router.py:87 | the divisor is the total, or 1.0 when the total is 0; never 0 |
| Distribution.Pie | hr_Dashboard/router.py:88 | the pie holds all seven keys |
| Distribution.PieSumsToOne | hr_Dashboard/router.py:87-88 | with a non-zero total the slices add up to 1 |
| Distribution.PieOfZeroTotal | hr_Dashboard/router.py:87-88 | with non-negative values and a zero total every slice is 0 |
| Distribution.PieSlicesAreFractions | hr_Dashboard/router.py:87-88 | with non-negative values every slice is in [0, 1] |
| Distribution.EmotionPieDistribution | hr_Dashboard/router.py:82-89 | 403 unless HR; otherwise the pie of the company's distribution |
| Trend.DaySumCount | hr_Dashboard/router.py:121-123 | the running sum and count of a day and emotion are the sum and number of that day's matching scores |
| Trend.DayMeanIsMean | hr_Dashboard/router.py:130-131 | a day's value is the mean of its matching scores, 0 when there are none |
| Trend.DayTallyAppend | hr_Dashboard/router.py:116-123 | a row adds its score, and one to the count, for its own day and emotion only |
| Trend.DayTallyOfWindow | hr_Dashboard/router.py:112-113 | the date filter loses nothing of a day inside the window |
| Trend.DayMeans | hr_Dashboard/router.py:128-131 | one entry per standard emotion, each that day's mean |
| Trend.TrendSeries | hr_Dashboard/router.py:100-132 | `days` points, point `k` being day `today - (days - 1) + k` with that day's means |
| Trend.TrendSeriesDays | hr_Dashboard/router.py:100-104 | the series has `days` points with consecutive ascending days, from `today - (days - 1)` to today |
| Trend.TrendMeansAreUnit | hr_Dashboard/router.py:130-131 | scores in [0, 1] give every mean in [0, 1] |
| Trend.NoScoresZeroMean | hr_Dashboard/router.py:131 | a day with no matching row reports 0 for that emotion |
| Trend.SlotOf | hr_Dashboard/router.py:117-121 | a row has a slot iff its day is in the window and its label maps; the slot is its day offset and emotion |
| Trend.TallySums | hr_Dashboard/router.py:105 | `days` per-day tables, each holding every emotion |
| Trend.TallyCounts | hr_Dashboard/router.py:106 | `days` per-day tables, each holding every emotion |
| Trend.TallySumsAt | hr_Dashboard/router.py:122 | each slot of `sums` holds the running sum of its day and emotion |
| Trend.TallyCountsAt | hr_Dashboard/router.py:123 | each slot of `counts` holds the running count of its day and emotion |
| Trend.TallyByDay | hr_Dashboard/router.py:105-123 | the first loop yields exactly `TallySums` and `TallyCounts` of the rows |
| Trend.DayEntry | hr_Dashboard/router.py:128-131 | each emotion's entry is the slot's sum over its count, 0 for an empty slot |
| Trend.EntryIsDayMeans | hr_Dashboard/router.py:128-131 | an entry built from the tables equals that day's means |
| Trend.BuildSeries | hr_Dashboard/router.py:125-132 | the second loop yields one point per day in day order, each with that day's means |
| Trend.DayMeansOfWindow | hr_Dashboard/router.py:112-113 | the date filter changes no day's means inside the window |
| Trend.SeriesOfWindow | hr_Dashboard/router.py:108-132 | the series built from the filtered rows is the promised series of all the company's rows |
| Trend.EmotionTrend | hr_Dashboard/router.py:92-134 | 422 unless 1 <= days <= 180, then 403 unless HR, otherwise `TrendSeries` of the company's rows |
| Histogram.SelectEmotion | hr_Dashboard/router.py:145 | the mapped emotion when the label maps; otherwise the standard emotion named by the stripped, lower-cased text, if any |
| Histogram.FallbackRedundant | hr_Dashboard/router.py:145-147 | the fallback never admits an emotion the synonym table rejects |
| Histogram.BucketIndex | hr_Dashboard/router.py:162-165 | `floor(s * bins)` clamped to [0, bins - 1] |
| Histogram.BucketHoldsScore | hr_Dashboard/router.py:162-169 | a score in [0, 1] lies in its bucket's range; 1.0 lies in the closed last bucket |
| Histogram.OneInLastBucket | hr_Dashboard/router.py:165 | a score of 1.0 goes to the last bucket |
| Histogram.Counts | hr_Dashboard/router.py:163-166 | `bins` counts, each the number of scores in that bucket |
| Histogram.CountsAddUp | hr_Dashboard/router.py:163-166 | the counts add up to the number of scores |
| Histogram.HistogramOf | hr_Dashboard/router.py:168-171 | `bins` buckets, bucket `i` spanning `i / bins` to `(i + 1) / bins` with its count |
| Histogram.BucketsTile | hr_Dashboard/router.py:168-171 | the buckets start at 0, end at 1, and each starts where the previous ends |
| Histogram.CountBuckets | hr_Dashboard/router.py:163-166 | the counting loop on a fresh array yields exactly `Counts` |
| Histogram.EmotionHistogram | hr_Dashboard/router.py:137-173 | 422 unless 2 <= bins <= 20, then 403 unless HR, then 400 "Unsupported emotion", otherwise the emotion's name and the histogram of the company's matching scores |
| Summary.Processed | hr_Dashboard/router.py:193 | exactly the processed videos, no more than all videos |
| Summary.Owners | hr_Dashboard/router.py:196-201 | exactly the distinct uploaders |
| Summary.SummaryBounds | hr_Dashboard/router.py:191-216 | processed <= total; active <= total and <= company users; no active employees iff no videos, for all inputs; average stress in [0, 1] when every score is in [0, 1] |
| Summary.Summarize | hr_Dashboard/router.py:188-223 | 403 unless HR; otherwise the counts and the stress mean of the company (0 without stress rows) |
| Employees.StdMap | hr_Dashboard/router.py:296-300 | keys are distinct standard emotion names |
| Employees.StdMapGet | hr_Dashboard/router.py:296-300 | each emotion holds the score of the last item mapping to it (a later label overwrites), and is absent when none maps |
| Employees.Standardize | hr_Dashboard/router.py:297-300 | the folding loop yields exactly `StdMap` of the items |
| Employees.ByTimeDescSorts | hr_Dashboard/router.py:286-291 | `order_by(upload_timestamp.desc())` is a permutation of the videos, newest first |
| Employees.SortByUsernameSorts | hr_Dashboard/router.py:343-344 | `order_by(username.asc())` is a permutation of the users, in username order |
| Employees.FindEmployee | hr_Dashboard/router.py:282-284 | a user with that id in the caller's company, or nothing iff there is none |
| Employees.VideosOf | hr_Dashboard/router.py:286-291 | exactly the employee's videos |
| Employees.BuildEntry | hr_Dashboard/router.py:295-312 | one history entry: the standardised map and its top emotion and score |
| Employees.EmployeeDetail | hr_Dashboard/router.py:279-318 | 403 unless HR, 404 "Employee not found", otherwise the employee's id, name and `EntriesOf` their videos newest first |
| Employees.EntriesOf | hr_Dashboard/router.py:293-312 | one history entry per video, in the videos' order, the k-th built from the k-th video |
| Employees.BuildHistory | hr_Dashboard/router.py:293-312 | the loop builds exactly `EntriesOf` the videos |
| Employees.HistoryCoversVideos | hr_Dashboard/router.py:286-294 | the history lists exactly the employee's videos, newest first |
| Employees.CompanyEmployees | hr_Dashboard/router.py:333-339 | exactly the non-HR users of the caller's company |
| Employees.Page | hr_Dashboard/router.py:342-347 | the slice from `(page - 1) * page_size`, at most `page_size` items; empty past the end |
| Employees.Window | hr_Dashboard/router.py:344-345 | `offset`/`limit`: at most `limit` items, the slice from `offset` on, empty past the end |
| Employees.LatestProcessed | hr_Dashboard/router.py:351-356 | a processed video of the employee at least as recent as all of them, or nothing iff there is none |
| Employees.ProcessedOf | hr_Dashboard/router.py:353 | exactly the employee's processed videos |
| Employees.BuildItem | hr_Dashboard/router.py:351-387 | one roster item: last processed video, its standardised map when it has rows, and its top emotion |
| Employees.ListEmployees | hr_Dashboard/router.py:322-389 | 422 unless page >= 1 and 1 <= page_size <= 100, then 403 unless HR, otherwise the company's non-HR count as total and `ItemsOf` the page's employees |
| Employees.ItemsOf | hr_Dashboard/router.py:349-387 | one roster item per employee, in the page's order, the k-th built from the k-th employee |
| Employees.RosterPageShape | hr_Dashboard/router.py:333-347 | the page has at most `page_size` users, all non-HR users of the caller's company, in username order |
| Employees.PagesTile | hr_Dashboard/router.py:344-345 | for any page starting within the list, the last partial page included, that page and the next one are exactly the stretch they span: no overlap, no gap |
| Employees.WindowsTile | hr_Dashboard/router.py:344-345 | two consecutive `offset`/`limit` windows cover the stretch from the first offset without overlap |
| Employees.ByUsernameWindow | hr_Dashboard/router.py:343-346 | an `offset`/`limit` window of a username-sorted list is username-sorted and holds only the list's users |
| AiService.ComputeDerivedFields | core/AI_Service.py:23-30 | nothing iff the dict is empty; otherwise a key with its own score, at least every score, the first such in iteration order |
| AiService.ProcessKnown | core/AI_Service.py:36-55 | processing a stored video appends one row per returned item after the untouched rows, and flags that video and no other |
| AiService.ProcessFlags | core/AI_Service.py:36-55 | an unknown id changes nothing; any id keeps the tables' shape, flags exactly its videos and only appends its own rows |
| AiService.ProcessTwice | core/AI_Service.py:32-55 | processing a video twice appends the first answer's rows and then the second answer's rows, whatever the model answers each time; nothing is replaced |
| AiService.ProcessStoresThreeLabels | core/AI_Service.py:15-55 | under the model's contract a processed video gains three rows with distinct labels from the 8-label list |
| AiService.ProcessVideoWithAi | core/AI_Service.py:32-55 | the new tables are `Process` of the old ones; users and companies are unchanged; the store stays valid |
| AiRouter.OwnedVideo | routers/ai_router.py:19-22 | a video with that id and owner, or nothing iff there is none |
| AiRouter.OwnedVideoIsTheVideo | routers/ai_router.py:19-22 | with distinct ids, the owner's lookup finds the stored video itself |
| AiRouter.TriggerVideoProcessing | routers/ai_router.py:9-37 | 404 iff the caller owns no such video, 400 iff it is processed, and no other error: otherwise Ok with one task for it and status "processing"; nothing queued on error |
| AiRouter.GetVideoPredictions | routers/ai_router.py:40-80 | 404 iff not owned and no other error, so an owned video always answers; the dict is empty iff there are no rows; each label holds its last row's score; labels keep the order of their first row; top fields from `compute_derived_fields` |
| PyDict.Put | hr_Dashboard/router.py:300 | `d[k] = v`: `k` now holds `v`, every other key keeps its value, keys stay distinct, existing keys keep their places and a new key goes at the end |
| PyDict.FromItemsGet | routers/ai_router.py:71 | in a dict built by a comprehension, every key holds the value of its last item |
| PyDict.FromItemsOrder | routers/ai_router.py:71 | the keys of a dict built by a comprehension come in the order of each key's first item |
| AiRouter.PendingOf | routers/ai_router.py:92-95 | exactly the caller's unprocessed videos |
| AiRouter.ProcessAllPending | routers/ai_router.py:83-111 | nothing iff no pending video; otherwise count and ids of the pending videos, one task each, in store order |
| AiRouter.PendingOfOnce | routers/ai_router.py:92-105 | with distinct ids no video is queued twice |
| Scheduler.PendingAll | core/scheduler.py:9 | exactly the unprocessed videos of every user |
| Scheduler.ProcessEachFlags | core/scheduler.py:15-17 | processing a list of ids flags exactly the listed videos and keeps every other column |
| Scheduler.ProcessEachRows | core/scheduler.py:15-17 | processing a list of ids only appends rows, each for a listed id |
| Scheduler.AutoProcessPendingVideos | core/scheduler.py:5-17 | the new tables are the pending ids processed in selection order; none pending changes nothing |
| Scheduler.SweepLeavesNonePending | core/scheduler.py:9-17 | after a sweep every video is processed |
| Scheduler.SweepSparesProcessed | core/scheduler.py:9-17 | a video processed before a sweep gains no rows |
| AuthUtils.GetUserByUsername | auth/utils.py:5-6 | the first user with that username, or nothing iff there is none |
| AuthUtils.CreateUser | auth/utils.py:8-17 | appends exactly one user: next id, the username, the hash of the password and the role ("employee" by default) |
| AuthUtils.AuthenticateUser | auth/utils.py:19-25 | nothing without a user of that name; the first such user (the one `get_user_by_username` returns) iff the password verifies against its hash |
| AuthUtils.AuthenticateUnique | auth/utils.py:19-25 | with unique usernames, a user authenticates iff its password verifies |
| AuthRouter.Signup | auth/router.py:13-19 | 400 "Username already registered" iff taken, with users unchanged, and no other error; otherwise Ok with one "employee" user added; unique usernames are preserved |
| AuthRouter.AddFreshUsername | auth/router.py:15-19 | adding a user whose username nobody holds keeps usernames unique |
| AuthRouter.Login | auth/router.py:22-29 | 401 "Invalid username or password" iff authentication fails, and no other error; otherwise Ok with claims `sub` = username and the role of the first user with that username, whose hash the password verifies against |
| HrAuth.FindCompany | auth/hr_router.py:18 | a company with that name, or nothing iff there is none |
| HrAuth.RegisterCompany | auth/hr_router.py:18-24 | adding a company under a fresh lower-cased name keeps names lower-case and distinct |
| HrAuth.SignupHr | auth/hr_router.py:16-37 | 400 "Company already exists" iff the lower-cased name is taken, with nothing stored, and no other error; otherwise Ok with one company and one HR user of it, username = email |
| HrAuth.FindHr | auth/hr_router.py:42 | a user with that username and role "hr" with no such user before it, or nothing iff there is none |
| HrAuth.LoginHr | auth/hr_router.py:40-48 | 401 "Invalid HR credentials" unless an HR user has the username and the password verifies; claims `sub`, `role` and `company_id` |
| HrAuth.SignupThenLogin | auth/hr_router.py:27-47 | a new HR user whose username no earlier HR holds can log in, and the token names its company |
| Database.TaskQueue.AddTask | routers/ai_router.py:31 | appends one task for the video id |

## Left out

- Floating point: scores are exact reals. `round(..., 3)` in the bucket edges and in the model's scores is not modelled, and neither is the `float()` conversion of scores.
- Histogram.BucketIndex: float floor division `s // step` is modelled as `floor(s * bins)` over reals. The two can differ on rounding at bucket edges.
- Unicode: `str.lower()` is modelled on ASCII letters only. `str.strip()` removes the Python whitespace characters.
- Timestamps: upload and creation times are day or tick numbers that are always present. A NULL `upload_timestamp` (the `isoformat()` guard) is not modelled, and neither is the date formatting.
- Database ordering: rows with equal sort keys keep store order, which the database does not guarantee. Usernames sort by code point, not by a database collation.
- `employee_department` is left out. It reads an undefined `Department` table, and a trailing comma turns its count into a tuple.
- The commented-out roster endpoint is left out.
- The `Users` id default calls no uuid function; the database hands out ids, modelled as a counter.
- `auth/Pydantic_model.py` declares no `HRSignup` or `HRLogin` model. The HR signup and login take the fields `auth/hr_router.py` reads.
- Password hashing (bcrypt, with its random salt) and verification are uninterpreted function parameters.
- Token signing, expiry and decoding are not modelled: a token is its claims. The current user (`get_current_user`) is a parameter.
- `EmotionModel`'s random choice and sleep are not modelled: the model is an oracle parameter. Its contract (three distinct labels from its list, scores in [0, 1]) is a hypothesis of the lemmas that need it. Each call of the processing functions takes its own oracle, so two calls may get different answers; within one sweep the same oracle serves every video.
- Concurrency and scheduling are not modelled: background tasks run after the response, the sweep runs every minute, and the two can race. The task queue is an output list, and processing runs one call at a time.
- The sweep's `try`/`except`, the session close and every `print` are left out: the modelled steps cannot fail.
- AiRouter.ProcessAllPending: the "Started processing N videos" message text is not modelled. The response holds the count and the ids.
- AiRouter.GetVideoPredictions: the empty case returns a list `[]` in the source and an empty dict here.
- Unordered queries: `.all()` without `order_by` (hr_Dashboard/router.py:295, hr_Dashboard/router.py:363, routers/ai_router.py:57-59) is modelled as store order. Which row's score a repeated label keeps, and the key order that breaks top-emotion ties, follow from that order.
- Query defaults: the FastAPI defaults (`days=30`, `emotion="stress"`, `bins=10`, `page=1`, `page_size=10` at hr_Dashboard/router.py:94, 139, 140, 324, 325) are not modelled; callers pass every value.
- AiRouter.PendingOf: states membership, not order. The order is store order by its definition as an ordered filter.
- AuthRouter.Signup: SQL uniqueness constraints are not modelled. Only the check the endpoint itself makes is.
- HrAuth.SignupHr: does not promise unique usernames, because the endpoint does not check the email against existing usernames.
