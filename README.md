# GlowRate scoring and scan store, modelled in Dafny

GlowRate is a selfie-rating app. This project models the logic under its
screens:

- **The scan and profile store** (`GlowContext` module, `glow_context.dfy`).
  The store keeps two records in storage: a history of scans, newest first and
  capped at 50, and a user profile with the daily quota, counters and premium
  flag. A profile loaded on a new day gets its daily counter reset. Profile
  updates are a shallow merge. `canScan` and `scansRemaining` are the quota
  views. `processSelfie` scores a selfie, saves it and counts it.
  `upgradeToPremium` and `clearCurrentScan` complete the store. The provider's
  state is the class `GlowStore`. It holds what storage holds
  (`storedHistory`, `storedProfile`), what the two queries have read back
  (`historyData`, `profileData`), the scan on screen and the busy flag. Each
  mutation writes storage and then re-runs its query, because the mutation's
  success handler invalidates that query.
- **The mock generator and the pickers** (`GlowData`, `glow_data.dfy`). The
  generator draws a base score and four perturbations, clamps each category to
  [5, 10] and rounds to tenths. The pickers take tips from a shuffled copy of a
  fixed pool of twelve and pick one of twelve roasts.
- **The remote scoring client** (`AiScoring`, `ai_scoring.dfy`). This covers
  the chain of checks `analyzeSelfiWithAI` makes, the extraction of the JSON
  object from the model's free text (`/\{[\s\S]*\}/`), and the `getMockScore`
  fallback.
- **The results screen's classifiers** (`Results`, `results.dfy`). These are
  the emoji and headline bands, the celebration threshold and the width of a
  breakdown bar.
- Shared pieces: the records of `types/index.ts` (`Types`, `types.dfy`), the
  JavaScript built-ins `Math.round(x*10)/10`, `Math.min`, `Math.max` and
  `slice` (`Js`, `js.dfy`), and `Option`/`Result` (`Wrappers`, `wrappers.dfy`).

Numbers are exact reals. `Math.round(x * 10) / 10` is `Round1(x) =
floor(10x + 1/2) / 10`. Each `Math.random()` call is a parameter in [0, 1). A
`ScoreDraw` holds the five draws one score consumes, in JavaScript's evaluation
order. The random-comparator `sort` is an arbitrary permutation of the pool's
indices. The shuffle works on a copy, and the model's pool is an immutable
value, so no pick can change it. A tip's category is one of the four
constructors of `TipCategory`. "Today", scan ids and timestamps are parameters.

The two score generators differ in where they round.
`generateMockScore` (mocks/glowData.ts:51-54) averages the clamped categories
before rounding them. `getMockScore` (lib/ai-scoring.ts:92-99) rounds each
category first and averages the rounded values. `GeneratedScoreNearRoundedMean`
proves the two rules give scores at most 0.1 apart.
`GeneratedScoreCanMissRoundedMean` gives genuine draws where they differ (6.0
against 6.1).

## Model

| member | source | states |
|---|---|---|
| `Js.Round1` | mocks/glowData.ts:54 | Rounding to tenths moves a value by more than -0.05 and at most +0.05 |
| `Js.SliceEnd` | mocks/glowData.ts:66 | `slice(0, end)` keeps `end` items, at most the length; a negative end counts from the back |
| `GlowData.PoolIdsDistinct` | mocks/glowData.ts:3-16 | The tip pool has twelve tips with pairwise distinct ids |
| `GlowData.BaseScore` | mocks/glowData.ts:41 | A draw in [0,1) gives a base score in [6.5, 9.5) |
| `GlowData.Variance` | mocks/glowData.ts:42 | A draw in [0,1) gives a perturbation in [-0.75, 0.75) |
| `GlowData.ClampScore` | mocks/glowData.ts:45-48 | The clamp lands in [5,10], leaves values inside alone, and sends values outside to the nearer end |
| `GlowData.GenerateMockScore` | mocks/glowData.ts:40-62 | Every returned category and the score lie in [5,10] with one decimal |
| `GlowData.LowerClampInactive` | mocks/glowData.ts:41-48 | With genuine draws every unclamped category lies in [5.75, 10.25), so only the upper clamp can act |
| `GlowData.GeneratedScoreInRange` | mocks/glowData.ts:40-62 | Every generated category and the score lie in [5,10] with one decimal; with genuine draws the score is at least 5.8 |
| `GlowData.GeneratedScoreNearRoundedMean` | mocks/glowData.ts:51-60 | The score is within 0.1 of the rounded mean of the rounded categories |
| `GlowData.GeneratedScoreCanMissRoundedMean` | mocks/glowData.ts:51-60 | Genuine draws exist for which the score differs from the rounded mean of the rounded categories |
| `GlowData.GetRandomTips` | mocks/glowData.ts:64-67 | The result has as many tips as `slice(0, count)` keeps, every tip comes from the pool, and no id appears twice |
| `GlowData.DefaultTipsAreThreeDistinct` | mocks/glowData.ts:64 | The default call returns three tips with pairwise distinct ids |
| `GlowData.FullShuffleCoversPool` | mocks/glowData.ts:64-67 | Asking for at least twelve tips returns every tip of the pool, so the result is a permutation of the pool |
| `GlowData.DistinctValuesBounded` | mocks/glowData.ts:65 | Pigeonhole: k slots hold at most k distinct values |
| `GlowData.PermutationCovers` | mocks/glowData.ts:65 | A shuffle order takes every index of the pool |
| `GlowData.RoastIndex` | mocks/glowData.ts:70 | The roast index lies in [0, 11] and equals floor(12r) |
| `GlowData.GetRandomRoast` | mocks/glowData.ts:69-71 | The roast is an element of the pool, and roast k is picked exactly when k <= 12r < k+1 |
| `GlowData.EveryRoastReachable` | mocks/glowData.ts:69-71 | Every roast is picked by some draw |
| `AiScoring.FirstIndexOf` | lib/ai-scoring.ts:78 | Returns the position of the first occurrence, or none when the character is absent |
| `AiScoring.LastIndexOf` | lib/ai-scoring.ts:78 | Returns the position of the last occurrence, or none when the character is absent |
| `AiScoring.ExtractJson` | lib/ai-scoring.ts:78-81 | A match exists exactly when some `{` precedes some `}` |
| `AiScoring.ExtractJsonIsGreedyMatch` | lib/ai-scoring.ts:78 | The match runs from a `{` to a later `}` and contains every other such span: the leftmost, longest match |
| `AiScoring.ExtractJsonIdempotent` | lib/ai-scoring.ts:78-83 | Extracting again from the extracted text returns the same text |
| `AiScoring.AnalyzeSelfie` | lib/ai-scoring.ts:31-84 | Without a configured key the result is the missing-key error; a success means every guard passed and is the parse of the extracted span |
| `AiScoring.NoKeyFailsBeforeRequest` | lib/ai-scoring.ts:32-36 | Without a configured key the call fails with the missing-key error, whatever the API would have answered |
| `AiScoring.AnalyzeSelfieErrors` | lib/ai-scoring.ts:65-83 | A non-ok response, missing or empty content, content with no `{`…`}`, and extracted text that does not parse each raise their own error, in that order |
| `AiScoring.AnalyzeSelfieSucceedsIff` | lib/ai-scoring.ts:31-84 | The call succeeds iff the key is set, the response is ok, the content is non-empty, the braces match and the span parses; the result is the parsed value |
| `AiScoring.GetMockScore` | lib/ai-scoring.ts:87-107 | Categories and score lie in [5,10] with one decimal; the tips and roast are the fixed fallback ones |
| `AiScoring.MockScoreInRange` | lib/ai-scoring.ts:87-99 | Fallback categories and score lie in [5,10] with one decimal, and the score is the rounded mean of the returned categories |
| `AiScoring.FallbackAgreesWithGenerator` | lib/ai-scoring.ts:88-99 | On the same draws the fallback's categories equal the generator's, and the two scores are within 0.1 |
| `AiScoring.FallbackTextIsFixed` | lib/ai-scoring.ts:101-106 | The fallback always returns tips "1", "2", "3" and the pool's first roast, whatever the draws |
| `Results.Band` | app/results.tsx:44-60 | The band counts the cut-points 6, 7, 8, 9 and 9.5 that the score has reached, so it lies between 0 and 5 |
| `Results.BandIntervals` | app/results.tsx:44-60 | The bands are < 6, [6,7), [7,8), [8,9), [9,9.5) and >= 9.5 |
| `Results.ScoreEmoji` | app/results.tsx:44-51 | The emoji is the one for the score's band (💪 🌟 💫 ✨ 🔥 👑) |
| `Results.ScoreMessage` | app/results.tsx:53-60 | The headline is the one for the score's band, using the same cut-points as the emoji |
| `Results.CutsReachedMonotone` | app/results.tsx:44-60 | A higher score never reaches fewer cut-points |
| `Results.BandMonotone` | app/results.tsx:44-60 | The band never decreases as the score increases |
| `Results.EmojiDeterminesMessage` | app/results.tsx:44-60 | Equal emojis mean the same band and therefore the same headline |
| `Results.Celebrates` | app/results.tsx:115 | The celebration condition `score >= 8` holds exactly in bands 3 to 5 |
| `Results.CelebratesInTopBands` | app/results.tsx:115-118 | Confetti fires exactly for the headlines from "Looking Amazing!" up |
| `Results.BarWidth` | app/results.tsx:288 | Values in [0,10] give widths in [0,100] |
| `Results.GeneratedBarWidth` | app/results.tsx:288 | A generated category fills between 50 and 100 percent of its bar |
| `GlowContext.LoadProfile` | contexts/GlowContext.tsx:13-49 | Nothing stored gives the defaults; a profile from another day has its daily count reset and today's date, all other fields kept; today's profile is returned as stored |
| `GlowContext.LoadHistory` | contexts/GlowContext.tsx:30-33 | The stored list when one is stored, otherwise the empty list |
| `GlowContext.LoadProfileStable` | contexts/GlowContext.tsx:40-46 | Reading back a loaded profile on the same day returns it unchanged, and it carries today's date |
| `GlowContext.NewDayRestoresQuota` | contexts/GlowContext.tsx:41-45 | On a new day the full daily limit is available again |
| `GlowContext.PrependScan` | contexts/GlowContext.tsx:55 | The new scan comes first, then the old history in order; the length is min(old + 1, 50) |
| `GlowContext.PrependScanEvicts` | contexts/GlowContext.tsx:55 | Below 50 nothing is lost; at 50 exactly the oldest scan is dropped |
| `GlowContext.SaveAllKeepsNewest` | contexts/GlowContext.tsx:52-58 | After any run of saves the history is the 50 newest scans, newest first |
| `GlowContext.MergeProfile` | contexts/GlowContext.tsx:66-67 | Every field the update sets wins, and every other field keeps its current value |
| `GlowContext.MergeLaws` | contexts/GlowContext.tsx:66-67 | An empty update is the identity, an update is idempotent, and two updates compose into one |
| `GlowContext.CanScan` | contexts/GlowContext.tsx:79-82 | Premium users can always scan; others can exactly while today's count is below the limit |
| `GlowContext.ScansRemaining` | contexts/GlowContext.tsx:84-87 | Unlimited exactly for premium users; otherwise limit - used while under the limit and 0 at or over it, never negative and never above the limit |
| `GlowContext.CanScanIffRemaining` | contexts/GlowContext.tsx:79-87 | `canScan` holds exactly when `scansRemaining` is not zero |
| `GlowContext.RunningAverage` | contexts/GlowContext.tsx:114-121 | The new average has one decimal and is within 0.05 of (average·total + score)/(total + 1), where `average` is the stored, already rounded average |
| `GlowContext.AverageCanDriftFromMean` | contexts/GlowContext.tsx:114-121 | Because the stored average is rounded each time, scores 7.0, 7.1, 7.0 store 7.1 while their mean rounds to 7.0 |
| `GlowContext.ScanUpdate` | contexts/GlowContext.tsx:117-122 | The update sets the daily count and the total one higher and the date to today, and leaves premium, limit and streak unset |
| `GlowContext.ScanUpdateEffect` | contexts/GlowContext.tsx:114-122 | A scan adds one to the total and to today's count, sets today's date and the rounded running average, keeps premium, limit and streak, and does not check the quota |
| `GlowContext.ScanUsesOneFromQuota` | contexts/GlowContext.tsx:117-122 | For a free user with scans left, a scan uses exactly one of them |
| `GlowContext.RunningAverageInRange` | contexts/GlowContext.tsx:114-121 | Averaging scores in [0,10] keeps the average in [0,10] with one decimal |
| `GlowContext.FirstScanAverage` | contexts/GlowContext.tsx:114-121 | After the first scan the average is that scan's score |
| `GlowContext.RunningAverageExample` | contexts/GlowContext.tsx:115-121 | An average of 7.0 over two scans plus a 9.0 gives 7.7 |
| `GlowContext.UpgradeSetsOnlyPremium` | contexts/GlowContext.tsx:128-130 | Upgrading sets only the premium flag, a second upgrade changes nothing, and an upgraded profile can always scan |
| `GlowContext.GlowStore.History` | contexts/GlowContext.tsx:76 | The exported history is the query's data once loaded, and the empty list before |
| `GlowContext.GlowStore.Profile` | contexts/GlowContext.tsx:77 | The exported profile is the query's data once loaded, and DEFAULT_PROFILE before |
| `GlowContext.GlowStore.constructor` | contexts/GlowContext.tsx:23-26 | A freshly mounted provider has nothing loaded, no scan on screen and is not busy |
| `GlowContext.GlowStore.RefetchHistory` | contexts/GlowContext.tsx:28-34 | The history query returns the stored list, or an empty list |
| `GlowContext.GlowStore.RefetchProfile` | contexts/GlowContext.tsx:36-50 | The profile query returns the loaded profile, with the daily reset applied |
| `GlowContext.GlowStore.SaveScan` | contexts/GlowContext.tsx:52-62 | Stores the prepended and truncated history and reads it back; the scan is first and there are at most 50 |
| `GlowContext.GlowStore.UpdateProfile` | contexts/GlowContext.tsx:64-74 | Stores the current profile merged with the update, or the defaults merged when none is loaded, then reads it back |
| `GlowContext.GlowStore.ProcessSelfie` | contexts/GlowContext.tsx:92-126 | Builds the scan from the generator and the pickers, shows it, saves it to the history and stores the scan's profile update; ends not busy |
| `GlowContext.GlowStore.UpgradeToPremium` | contexts/GlowContext.tsx:128-130 | Stores the current profile with only the premium flag set; the profile can scan afterwards |
| `GlowContext.GlowStore.ClearCurrentScan` | contexts/GlowContext.tsx:132-134 | Removes the scan on screen and changes nothing else |
| `GlowContext.FirstScanOnFreshInstall` | contexts/GlowContext.tsx:92-126 | On a fresh install one scan gives total 1, daily 1, today's date, the scan's score as average, and a one-entry history |

## Left out

- Storage, the queries and the network are asynchronous in the app. Here they are sequential steps. Failed writes, a query that errors, and stored JSON that does not parse are not modelled.
- The race between overlapping `processSelfie` calls, and callbacks that capture a stale `profile`, are not modelled. This is concurrency.
- `GlowStore.ProcessSelfie`: the 2.5 s delay is not modelled. The busy flag is set and cleared within one step, so its intermediate `true` is not observable.
- The request `analyzeSelfiWithAI` sends is not modelled: the URL, model name, prompt, image payload and token limits. The `fetch`, `response.text()`, `response.json()` and `JSON.parse` are inputs. A `data.choices` missing altogether (a TypeError in the app) is not modelled.
- `AiScoring.AnalyzeSelfie`: the parser's result is typed as an analysis result. In the app, `JSON.parse` may return any JSON value, such as `[]` or `{"score":"8"}`. The type cast does not check it, so such a value is returned as a success. The model does not capture that.
- `AiScoring.AnalyzeSelfie`: `response.json()` throwing on an ok response whose body is not JSON is not modelled. `ApiResponse` starts from the parsed body's content.
- Clock values are parameters: `Date.now()`, `toISOString()` and `toDateString()`.
- Floating point is not modelled: reals replace IEEE doubles, with no NaN and no Infinity. `scansRemaining`'s `Infinity` is the `Unlimited` case.
- Profile counters are natural numbers. The app only ever writes non-negative integers to them.
- `getRandomTips` takes an integer count. A fractional count, which `slice` truncates, is not modelled.
- The `streak` field is kept by every operation. No code in the app changes it.
- `DAILY_CHALLENGES`, the system prompt text and `setCurrentScan` are not modelled. They are either static data or a plain setter of the scan on screen.
- `isLoading` is not modelled.
- The server copies of the generator in the backend are not modelled. They repeat the code modelled from `mocks/glowData.ts` and `lib/ai-scoring.ts`.
- The screens, navigation, theming, image reading and toasts are not modelled. They are UI and I/O.
