# Memegoat engagement core in Dafny

This project models the engagement service of memegoat (`src/app.service.ts`). The service
tracks how the tweets of campaign participants perform and builds three things from them:

- **The public leaderboard.** Each user's impressions are the scores of their window tweets
  added together. A tweet scores `like + retweet + reply + impression + quote` when it is
  `referenced`, and 0 otherwise. Only users with positive impressions get a row. The rows are
  sorted highest first by a stable sort, so tied users keep their input order.
- **A user's dashboard data (`info`).** This is the user, a five-field metadata breakdown and
  the user's 1-based rank on the same leaderboard, or null. The breakdown sums every window
  tweet, referenced or not.
- **The smart-key check (`verifySmartKey`).** It finds the user by username, then decrypts the
  submitted key and the stored smart key, both under `secret + "-" + profileId`. It compares
  the two plaintexts, and on a match returns the dashboard data found by the submitted key.

Layout:

- `Wrappers.dfy` holds `Option`.
- `Snapshot.dfy` holds tweets and users, the window predicate, and the store's filtered reads
  as functions (`Fetch`, `Lookup`).
- `Scoring.dfy` holds the score, impressions and metadata, with the two accumulation loops as
  methods.
- `Ranking.dfy` holds the leaderboard rows and the aggregation loop. It also holds the in-place
  insertion sort on an `array`, specified by the functional stable sort `SortDesc`, and the
  rank lookup.
- `Service.dfy` holds `info`, `dashboard`, `leaderboard` and `verifySmartKey`, and the
  properties that relate them.

Each loop method is proved equal to a specification function. The properties are proved as
lemmas about those functions. Store reads are functions of a snapshot (a sequence of users,
each with a sequence of tweets). The current time, the client secret and `decryptKey` are
parameters.

The time window is modelled exactly as the code computes it. `sevenDays` is `now` plus seven
days, and the store is asked for `createdAt >= sevenDays && createdAt <= now`. No timestamp
satisfies that. The model therefore proves that the leaderboard is always empty, that every
metadata field is 0 and that the rank is always null. The lemmas about positive impressions
and about ranks are stated over any fetched snapshot (`Service.SummaryConsistent`), so they
describe the aggregation for whatever tweets a window admits.

Two features of the code shape what the model proves:

- The `createdAt` filter is `gte: sevenDays, lte: now`, and `sevenDays` is seven days after
  `now` (`app.service.ts:23-25`, `:31-34`). No timestamp is in that range. The name `sevenDays`
  suggests the last seven days were meant; the model keeps the bounds as written.
- The metadata loop (`app.service.ts:156-162`) has no `referenced` check, unlike the score
  (`:53-55`). The breakdown therefore sums every window tweet.

## Model

| member | source | states |
|---|---|---|
| `Scoring.ScoreRule` | src/app.service.ts:53-55 | a referenced tweet scores the sum of its five metrics; an unreferenced tweet scores 0 whatever its metrics |
| `Scoring.ImpressionsAreReferencedEngagement` | src/app.service.ts:50-56 | a user's impressions equal the five-metric engagement of exactly their referenced tweets (reference definition) |
| `Scoring.UnreferencedScoreNothing` | src/app.service.ts:52-58 | a user whose tweets are all unreferenced has 0 impressions, so no row |
| `Scoring.UserImpressions` | src/app.service.ts:50-56 | the accumulation loop returns the user's impressions |
| `Scoring.MetadataIsTotalEngagement` | src/app.service.ts:156-162 | the five metadata fields add up to the engagement of every tweet, with no `referenced` check |
| `Scoring.MetadataCoversImpressions` | src/app.service.ts:142-162 | the metadata total is at least the impressions; the two are equal when every tweet is referenced |
| `Scoring.CollectMetadata` | src/app.service.ts:142-162 | the five `+=` accumulators end at the per-metric totals over all the tweets |
| `Snapshot.WindowStart` | src/app.service.ts:23-25 | the computed `sevenDays` bound lies strictly after `now` |
| `Snapshot.WindowIsEmpty` | src/app.service.ts:31-34 | no timestamp satisfies `createdAt >= now + 7d && createdAt <= now` |
| `Snapshot.Window` | src/app.service.ts:29-35 | a tweet is fetched iff it is stored and inside the window, and each window tweet is fetched as many times as it is stored |
| `Snapshot.WindowAlwaysEmpty` | src/app.service.ts:89-96 | the tweet filter as written returns no tweets for any user |
| `Snapshot.FetchUser` | src/app.service.ts:88-97 | a fetched user keeps id, names, profile id and smart key, and has exactly its window tweets, each with its stored multiplicity |
| `Snapshot.Fetch` | src/app.service.ts:102-114 | `findMany` returns every stored user, in order, each with its window tweets |
| `Snapshot.FetchKeepsUniqueIds` | src/app.service.ts:102-114 | fetching keeps user ids unique |
| `Snapshot.Lookup` | src/app.service.ts:82-100 | `findUnique` finds nobody iff no user holds the key; a found user holds the key |
| `Snapshot.LookupUnique` | src/app.service.ts:178-180 | under the column's unique constraint, looking up a user's own key finds that user |
| `Ranking.Entries` | src/app.service.ts:58-65 | every positive-impression user gets a row; every row has impressions > 0 |
| `Ranking.EntrySource` | src/app.service.ts:59-64 | every row was built for some user, with `tweets` equal to that user's count of window tweets, scored or not |
| `Ranking.EntriesNone` | src/app.service.ts:131-137 | when nobody scores, there are no rows |
| `Ranking.BuildEntries` | src/app.service.ts:49-66 | the aggregation loop pushes exactly the rows of `Entries`, in user order |
| `Ranking.InsertPermutes` | src/app.service.ts:68 | inserting one row loses and duplicates nothing |
| `Ranking.InsertSorted` | src/app.service.ts:68 | inserting into a list sorted highest first keeps it sorted |
| `Ranking.InsertPosition` | src/app.service.ts:68 | a row is inserted after every row with at least its impressions and before the rest |
| `Ranking.SortDescSorted` | src/app.service.ts:68 | the sorted rows are non-increasing in impressions |
| `Ranking.SortDescPermutes` | src/app.service.ts:68 | the sorted rows are a permutation of the input rows |
| `Ranking.InsertStable` | src/app.service.ts:68 | inserting a row keeps the order of the rows that share any given impressions value |
| `Ranking.SortDescStable` | src/app.service.ts:140 | stability: for every impressions value, the rows with that value appear in input order |
| `Ranking.BoardProperties` | src/app.service.ts:49-68 | the leaderboard is sorted, positive, a permutation of the rows and stable |
| `Ranking.InsertRow` | src/app.service.ts:68 | one in-place step: the array prefix becomes the old prefix with row `i` inserted; later cells are unchanged |
| `Ranking.SortByImpressions` | src/app.service.ts:140 | the in-place array sort leaves exactly the stable descending order of the old contents |
| `Ranking.BuildBoard` | src/app.service.ts:116-140 | aggregate, copy into an array and sort in place: the result is the leaderboard |
| `Ranking.RankOf` | src/app.service.ts:164-165 | the rank is null iff the id is absent; otherwise it is at least 1, the row at rank-1 has the id, and no earlier row has it |
| `Ranking.FindRank` | src/app.service.ts:164 | the `findIndex` loop plus one returns that rank |
| `Ranking.RankedWhenPositive` | src/app.service.ts:131-137 | a user with positive impressions is found on the leaderboard |
| `Ranking.RankedRowIsUsers` | src/app.service.ts:131-165 | with unique ids, the row at a user's rank is that user's own row |
| `Ranking.RankOfUser` | src/app.service.ts:122-165 | with unique ids, a user is ranked iff their impressions are positive |
| `Service.Summarize` | src/app.service.ts:116-167 | the aggregation, in-place sort, metadata loop and `findIndex` produce the user, their metadata and their rank on the leaderboard of the given users |
| `Service.Info` | src/app.service.ts:77-168 | `info` returns null when no user holds the key; otherwise it returns the user with window tweets, the metadata over them, and the rank on the leaderboard of the same snapshot |
| `Service.InfoUser` | src/app.service.ts:82-114 | when the lookup finds a user, `info` is that user's fetched copy summarized against the fetched snapshot of every user |
| `Service.Dashboard` | src/app.service.ts:170-174 | the dashboard is `info` by profile id; it is absent (the crash path) iff no user has that profile id |
| `Service.Leaderboard` | src/app.service.ts:21-75 | the leaderboard response is the sorted positive rows of every stored user |
| `Service.LeaderboardAlwaysEmpty` | src/app.service.ts:23-40 | with the window as written, the leaderboard is empty for every snapshot |
| `Service.InfoAlwaysEmpty` | src/app.service.ts:78-165 | with the window as written, `info` reports no tweets, all-zero metadata and a null rank |
| `Service.SummaryConsistent` | src/app.service.ts:122-165 | over any fetched snapshot with unique ids, `userRank` is non-null iff the user's impressions are positive; the row at `userRank` is the user's own row, and the metadata total is at least its impressions |
| `Service.InfoConsistent` | src/app.service.ts:77-167 | for `info` itself, with unique ids: the found user is ranked iff their impressions are positive, and the row at the rank is their own, with impressions at most the metadata total |
| `Service.StatusCode` | enums/statusCodes.ts:1-19 | a response carries 200 exactly when it is the success case |
| `Service.VerifySmartKey` | src/app.service.ts:176-200 | the smart-key flow returns NotFound, InternalServerError, Unauthorized or the dashboard, exactly as `SmartKeyOutcome` decides |
| `Service.UnknownUserNotFound` | src/app.service.ts:178-184 | an unknown username yields NotFound (status 404) whatever `decryptKey` does, so it is never consulted |
| `Service.SmartKeyOutcomeCases` | src/app.service.ts:186-198 | Unauthorized iff both decryptions succeed with unequal plaintexts; a failed decryption gives 500; status 401 exactly for Unauthorized; success means equal plaintexts and a user holding the submitted key |
| `Service.StoredKeyAccepted` | src/app.service.ts:186-195 | with unique usernames and smart keys, submitting the stored smart key (when it decrypts) returns that user's dashboard |
| `Service.ReencryptedKeyRejected` | src/app.service.ts:189-198 | as written: a different ciphertext of the same plaintext passes the comparison but ends in the 500 response |
| `Service.IntendedAcceptsMatchingPlaintext` | src/app.service.ts:189-195 | corrected flow: with unique profile ids, matching plaintexts always return the named user's dashboard |
| `Service.MixedTweetsScenario` | src/app.service.ts:58-65 | a referenced tweet (5 likes, 2 retweets) plus an unreferenced one (100 likes) give impressions 7 and tweets 2 |

## Findings

| source | as written | input that shows it | evidently intended | confidence | as-written member | corrected member |
|---|---|---|---|---|---|---|
| src/app.service.ts:189-198 | after the two decrypted plaintexts compare equal, the dashboard is fetched with `info(key, 'smartKey')`, i.e. by the submitted ciphertext string; when no user stores that exact string, `info` returns `undefined`, destructuring it throws, and the catch sends 500 "Error decrypting key" | user `alice` with smart key `token-a`; submitted key `token-b`, which decrypts to the same plaintext under alice's derived key | once the plaintexts match, return the dashboard of the user found by username | medium, not executed; it needs `decryptKey` to accept more than one ciphertext per plaintext, which a cipher with a random IV or salt allows | `Service.ReencryptedKeyRejected` | `Service.IntendedAcceptsMatchingPlaintext` |

## Left out

- Store access (Prisma `findMany` and `findUnique`) and its async suspension. These reads are
  pure functions of one snapshot. Both of `info`'s reads see the same snapshot, so read skew
  is not modelled.
- A failing store read is not modelled: the snapshot always exists. So the 500 response
  "Something went wrong" in `leaderboard`'s catch never occurs.
- The `ResponseService` and Express transport. Outcomes are a `Response` datatype (OK,
  NotFound, Unauthorized, InternalServerError). The message strings and `console.error` are
  not modelled.
- `decryptKey` from helpers/smartKey is not part of this model. It is a parameter: a function
  that returns a plaintext, or None where it would throw. `process.env.X_CLIENT_SECRET` is a
  parameter too.
- `Date.setDate` calendar arithmetic. Timestamps are integer milliseconds, and seven days is the
  constant 604800000. Daylight-saving and month-end effects are not modelled.
- JavaScript numbers are doubles. The model uses unbounded naturals, so sums above 2^53 do not
  lose precision in the model. Metrics are assumed non-negative; the schema is not part of this
  model.
- `Array.prototype.sort` is modelled by a stable insertion sort with the same comparator. The
  ECMAScript 2019 standard requires the sort to be stable.
- The two copies of the aggregation loop (`leaderboard` and `info`) are modelled once.
  `Entry` holds the union of the two row shapes. `leaderboard` sends no id, and `info` keeps
  no username or display name.
- `dashboard` reads the profile id from the session. The path where `info` returns `undefined`
  and the destructuring crashes is modelled as `None`.
- The unique constraints on id, username, profile id and smart key are hypotheses of the lemmas
  that need them. `Lookup` returns the first match.
- `getHello`, the controllers and the OAuth flow, CORS, sessions and Swagger, and the methods
  the controllers name that are not in this file: `verifyRef`, `fetchTasks` and the
  campaign-request methods.
