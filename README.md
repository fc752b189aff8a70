# Freediving theory quiz — verified model of the quiz core

The quiz page (`script.js`) loads a bank of multiple-choice questions per
certification level. It draws a quiz from a level's pool: the whole pool
shuffled when it is small, otherwise a stratified sample of Easy, Medium
and Hard questions, shuffled once more. It then walks the player through
the questions and scores the answers. At the end it shows a rounded
percentage, marks the level as completed at 75 % or more, and offers a
place on the level's top-ten leaderboard. A settings dialog chooses how
many questions of each difficulty a quiz asks for.

This project models that core in Dafny:

- `wrappers.dfy` (`Wrappers`): an `Option` type for absent JSON fields and empty storage slots.
- `sequences.dfy` (`Sequences`): small facts about slicing sequences, and the `Distinct` predicate with its sub-multiset lemma.
- `text.dfy` (`Text`): the ECMAScript string built-ins the script relies on.
  - `String.prototype.trim`.
  - ASCII `toUpperCase` / `toLowerCase`.
  - `parseInt(s, 10)`.
  - The decimal rendering of a number.
- `questions.dfy` (`Questions`): the question record, difficulty normalisation and the three sampling buckets.
- `settings.dfy` (`Settings`): the difficulty configuration, its default {15, 30, 15} and the settings-form validation.
- `shuffle.dfy` (`Shuffle`): `shuffleArray`, a Fisher-Yates pass over an array copy.
  - `Math.random` is an injected stream of draws.
  - `random(k, n)` is the scaled result of the k-th call, some index below `n`.
  - A cursor counts the calls, so every property holds for every sequence of draws.
- `quiz_set.dfy` (`QuizSet`): `generateQuizSet` as a method, proved equal to the specification function `QuizSet`.
  - The lemmas prove counts and sub-multiset facts about `QuizSet`.
- `scoring.dfy` (`Scoring`): the rounded percentage and the pass mark.
- `leaderboard.dfy` (`Leaderboard`): `saveScore`'s stable sort, cut to ten, and the qualification test.
- `progress.dfy` (`Progress`): the completed-levels list.
- `app.dfy` (`App`): class `QuizApp`.
  - Its fields are the page's module-level globals plus `localStorage`.
  - `localStorage` is a `Storage` value: one key per leaderboard, the progress key and the configuration key.
  - Its methods are the event handlers.
  - `Valid()` is the session invariant every handler keeps.

The pass mark is the code's. A score ratio of 0.75 would be the plain
reading of "75 %", but the code (`script.js:325`, `script.js:366`)
compares the *rounded* percentage with 75. So 149 correct out of 200
(74.5 %, rounded to 75) passes. `Scoring.PassedIff` states the exact rule:
passed iff 200·score ≥ 149·total.

Settings validation is also the code's. It is not a strict check for
non-negative integers: the code accepts whatever `parseInt` reads, so
"12abc" counts as 12 and "3.7" as 3. `Text.ParseInt` models that.

## Model

| member | source | states |
|---|---|---|
| Shuffle.Pick | script.js:16 | the partner drawn for position i is an index no greater than i |
| Shuffle.SwapIsPermutation | script.js:17 | the destructuring swap neither adds nor drops an entry |
| Shuffle.ShuffledIsPermutation | script.js:13-20 | for every sequence of draws, the shuffled list has the input's length and multiset |
| Shuffle.ShuffleArray | script.js:13-20 | the loop over the array copy returns exactly the specified shuffle, a permutation of the input, and the input is a value that stays as it was; the loop makes one Math.random call per turn, so the next call number is from + n − 1 for n > 0 items and from for none |
| Text.TrimStart | script.js:42 | trimming the front drops only white space and leaves a suffix that starts with non-space |
| Text.TrimEnd | script.js:42 | trimming the end drops only white space and leaves a prefix that ends with non-space |
| Text.Trim | script.js:440 | the trimmed string is no longer than the input and has no white space at either end |
| Text.TrimBlankIff | script.js:440-442 | a name is blank once trimmed exactly when it is empty or white space only |
| Text.Lower | script.js:43 | lower-casing keeps the length |
| Text.LeadingDigits | script.js:689-691 | parseInt reads the longest run of decimal digits: a prefix, all digits, followed by a non-digit or the end |
| Text.ParseInt | script.js:689-691 | a blank field reads as NaN; a negative result needs a leading minus sign after the white space |
| Text.ParseIntReadsPrefix | script.js:689-691 | parseInt reads a written number and ignores what follows a non-digit: "12abc" reads as 12 |
| Text.ShowNat | script.js:681-683 | a count is written as a non-empty string of decimal digits |
| Text.ParseShowRoundTrip | script.js:681-691 | parseInt(·, 10) of the decimal rendering of n gives n back |
| Questions.TitleCase | script.js:43 | upper-casing the first character and lower-casing the rest keeps the length |
| Questions.TitleCaseMatches | script.js:43 | the title-cased value equals "Easy" (or "Hard") exactly when its lower-cased form equals "easy" (or "hard") |
| Questions.NormalizedLabel | script.js:42-46 | a missing or empty difficulty normalises to "Medium", and no label stays "Normal" |
| Questions.MissingDifficultyIsMedium | script.js:42 | a question without a difficulty, or with an empty one, is sampled as Medium |
| Questions.BucketOf | script.js:47-51 | a label selects Easy iff it is "Easy", Hard iff it is "Hard", and Medium otherwise |
| Questions.BucketIgnoresCase | script.js:41-52 | a present difficulty goes to Easy iff, trimmed, it spells "easy" in any case; to Hard iff it spells "hard"; and otherwise to Medium, including "Normal" and unknown labels |
| Questions.BucketOfAgreesAsWritten | script.js:47-51 | the corrected bucket choice agrees with the script's object lookup for every label except "__proto__"; an unknown label falls back to Medium |
| Questions.SlotAsWritten | script.js:47-48 | the plain-object lookup finds a bucket exactly for "Easy", "Medium" and "Hard", and the prototype exactly for "__proto__" |
| Questions.ProtoLabelReachesPrototype | script.js:42-48 | the difficulty "__proto__" normalises to itself, and the lookup finds the object's prototype, not a bucket |
| Questions.Bucket | script.js:41-52 | a bucket holds only pool questions of its own difficulty and is no longer than the pool |
| Questions.BucketMultiset | script.js:41-52 | a bucket keeps every copy of each question of its difficulty and nothing else |
| Questions.BucketsPartition | script.js:41-52 | every question lands in exactly one bucket: the three buckets' multisets add up to the pool, and their sizes to its length |
| Questions.BucketSizeOfPermutation | script.js:63 | reordering a list (the final shuffle) does not change how many questions of each difficulty it holds |
| Questions.BucketAppend | script.js:60 | the questions of one difficulty in a concatenation are those of each part, in order |
| Questions.BucketOfUniform | script.js:56-60 | a selection drawn from one bucket is its own bucket of that difficulty and has none of the others |
| Settings.ValidateSettings | script.js:688-698 | the form is accepted iff all three fields parse as numbers that are ≥ 0, and then the configuration holds exactly the parsed numbers |
| Settings.SettingsFormRoundTrip | script.js:680-698 | saving the settings dialog as it was opened keeps the configuration unchanged |
| QuizSet.Take | script.js:59 | slice(0, n) gives the first min(n, length) entries |
| QuizSet.SortIntoBuckets | script.js:35-52 | the forEach pushes each question onto the array of its bucket: the three arrays are the buckets, in pool order |
| QuizSet.SelectFromBucket | script.js:57-59 | one turn of the bucket loop returns the first `target` questions of the shuffled bucket, and the shuffle's draw count moves the cursor |
| QuizSet.StratifiedPaper | script.js:54-61 | the loop concatenates the Easy, Medium and Hard selections, and the cursor is where the three bucket shuffles leave it |
| QuizSet.GenerateQuizSet | script.js:27-64 | generateQuizSet returns exactly the specified quiz set, and the cursor counts the Math.random calls its shuffles made |
| QuizSet.SmallPoolIsPermutation | script.js:28-33 | when the pool is no larger than Easy+Medium+Hard, the quiz is a permutation of the whole pool |
| QuizSet.TakeIsSubMultiset | script.js:59 | a slice from the front never holds more copies of an entry than the list |
| QuizSet.SelectionFacts | script.js:56-60 | one bucket contributes min(target, bucket size) questions, all of that difficulty, forming a sub-multiset of the bucket |
| QuizSet.PaperIsConcatenation | script.js:54-61 | the exam paper is the Easy, Medium and Hard selections, in that order |
| QuizSet.ConcatenationCounts | script.js:60 | the concatenation of three single-difficulty runs holds exactly each run's length of its difficulty |
| QuizSet.StratifiedCount | script.js:35-63 | for a large pool, each difficulty appears in the quiz exactly min(target, bucket size) times |
| QuizSet.StratifiedWithinPool | script.js:35-63 | for a large pool, the quiz is a sub-multiset of the pool |
| QuizSet.StratifiedCounts | script.js:35-63 | for a large pool, every difficulty contributes min(target, bucket size), the quiz length is the sum of those minima, and the quiz is a sub-multiset of the pool |
| QuizSet.QuizSetWithinPool | script.js:27-64 | on either branch, no question appears in the quiz more often than in the pool |
| QuizSet.QuizSetDistinct | script.js:27-64 | a pool without repeated questions gives a quiz without repeated questions |
| QuizSet.ZeroTargetsGiveEmptyQuiz | script.js:28-63 | with every target at 0, the quiz is empty for every pool |
| Scoring.Percentage | script.js:324-325 | an empty quiz scores 0 %, a score no larger than the total gives at most 100, and a perfect score gives exactly 100 |
| Scoring.PercentageIsNearest | script.js:325 | the percentage is the integer nearest to 100·score/total, with a half rounding up as Math.round does |
| Scoring.Passed | script.js:366 | an empty quiz is never passed, and a perfect score always passes |
| Scoring.PassedIff | script.js:366-368 | a quiz is passed (rounded percentage ≥ 75) exactly when 200·score ≥ 149·total |
| Leaderboard.Rank | script.js:433 | the stable insertion point: every entry before it ranks ahead of the new entry, and the entry at it does not |
| Leaderboard.RanksBefore | script.js:433 | `a` may stay ahead of `b` exactly when the comparator `b.score - a.score \|\| date(a) - date(b)` is not positive |
| Leaderboard.Insert | script.js:433 | inserting one entry lengthens the list by one and adds exactly that entry |
| Leaderboard.InsertAtRank | script.js:433 | the inserted entry lands at its rank, with the rest of the list in order around it |
| Leaderboard.InsertSorted | script.js:433 | inserting into a list ordered by score descending, then date ascending, keeps it ordered |
| Leaderboard.SortEntries | script.js:433 | the sort returns a permutation ordered by score descending, then date ascending |
| Leaderboard.SortSortedIsIdentity | script.js:433 | sorting an already ordered list changes nothing |
| Leaderboard.InsertAfterAll | script.js:433 | an entry ranked behind every other goes to the end |
| Leaderboard.Top | script.js:434 | slice(0, 10) keeps the first min(10, length) entries |
| Leaderboard.SavedScores | script.js:430-436 | the stored list holds min(old length + 1, 10) entries, is ordered by score descending then date ascending, and holds only old entries and the new one |
| Leaderboard.SortAppendedIsInsert | script.js:432-433 | sorting a stored list with the new entry pushed on is inserting that entry at its rank |
| Leaderboard.RankInFullList | script.js:433-434 | against ten older entries, the new one lands among the first ten iff its score beats the tenth score |
| Leaderboard.KeptIffRankedInTop | script.js:433-434 | the new entry survives the cut to ten iff it is inserted among the first ten |
| Leaderboard.KeptIffBeatsLast | script.js:430-436 | for a stored list of older entries, the new entry is kept iff the list had fewer than ten entries or its score beats the last score |
| Leaderboard.Qualifies | script.js:373 | only a positive score qualifies, and any positive score qualifies while the list has fewer than ten entries |
| Leaderboard.QualifiesIffKept | script.js:373 | the qualification test of showResult holds iff the score is positive and saveScore would keep the entry |
| Progress.WithLevel | script.js:389-394 | afterwards the level is present, occurring as often as before or once if it was new; earlier levels keep their place and every other level its count |
| Progress.WithLevelIdempotent | script.js:389-394 | recording a level twice is the same as recording it once |
| Progress.WithLevelKeepsDistinct | script.js:389-394 | a completed-levels list without repeats stays without repeats, and the recorded level occurs exactly once |
| App.ExplanationText | script.js:247 | the review entry shows the explanation when it is present and non-empty, and otherwise the placeholder "해설 없음" |
| App.Scores | script.js:425-428 | getScores returns the stored list for the level, or the empty list when none is stored |
| App.QuizApp.Pool | script.js:178 | a level missing from the bank has an empty pool |
| App.QuizApp.constructor | script.js:100-107 | the page starts on the home screen with an empty session, the stored configuration (or the default) and the stored progress (or none) |
| App.QuizApp.DrawQuiz | script.js:183 | the session's quiz is generateQuizSet's result with the active configuration, and the draw cursor moves past the draws it used |
| App.QuizApp.Begin | script.js:182-187 | the new session is on the level's first question, with score 0, no wrong answers and no remembered name, on the quiz screen |
| App.QuizApp.StartQuiz | script.js:177-199 | with no pool (or an empty generated quiz) no session state changes; otherwise the quiz is stored with index 0, score 0 and no wrong answers; the session invariant holds |
| App.QuizApp.StartQuizAsWritten | script.js:177-198 | as written, a non-empty pool always starts the quiz screen; when the generated quiz is empty the session invariant is broken |
| App.QuizApp.RestartQuiz | script.js:272-274 | restart is startQuiz on the current level: the fresh quiz is stored with index 0, score 0, no wrong answers or name, on the quiz screen, and the draws move on; with no quiz for the level no session state changes |
| App.QuizApp.CheckAnswer | script.js:230-255 | a right answer adds exactly 1 to the score and leaves the wrong answers; a wrong one keeps the score and appends exactly one review record (question text, chosen text, correct option, explanation or placeholder); the buttons lock |
| App.QuizApp.NextQuestion | script.js:257-264 | the index advances only while it is below the last question, so it never leaves the quiz; after the last, the result screen is shown with showResult's effects: the level recorded iff passed, and the name prompt iff the score qualifies |
| App.QuizApp.FinishQuiz | script.js:266-270 | once confirmed, the quiz ends now with showResult's effects: the result screen, the level recorded iff passed, and the name prompt iff the score qualifies; unconfirmed, nothing changes |
| App.QuizApp.GoHome | script.js:276-279 | the home screen is shown and the name prompt closes |
| App.QuizApp.ShowResult | script.js:314-376 | the percentage is the rounded score (≤ 100); the level is recorded as completed iff the quiz is passed; the name prompt opens iff the score qualifies for the stored leaderboard |
| App.QuizApp.RecordCompletion | script.js:366-368 | a passed quiz records the current level as completed, and writes the progress only when the list changed |
| App.QuizApp.UpdateProgress | script.js:389-394 | the level is appended only when absent, and the progress is stored only then |
| App.QuizApp.SaveScore | script.js:430-436 | the level's stored list becomes the sorted, cut-to-ten list with the new entry; no other key changes |
| App.QuizApp.SaveScoreAndCloseModal | script.js:438-485 | a name that is blank once trimmed saves nothing; otherwise the trimmed name is remembered and saved with the score and quiz length, and the prompt closes |
| App.QuizApp.LoadDifficultyConfig | script.js:666-673 | the active configuration is the stored one, or the default {15, 30, 15} when none is stored |
| App.QuizApp.SaveDifficultyConfig | script.js:675-678 | the configuration is stored and becomes the active one |
| App.QuizApp.SaveSettings | script.js:688-702 | an invalid form (a field that is not a number, or is negative) changes nothing; a valid one stores and activates exactly the parsed counts |
| App.QuizApp.ResetSettings | script.js:704-710 | once confirmed, the default {15, 30, 15} is stored and active; unconfirmed, nothing changes |

## Left out

- Rendering is not modelled. That covers `renderQuestion`, `showScreen` beyond which screen is on show, `renderReview`, `renderLeaderboard`, `showLeaderboard`, `populateLevelSelector`, `updateUIForProgress`, the theme functions, `showNotification` and `updateTotalQuestionsDisplay`.
- The tier messages, icons and colours of `showResult` (script.js:334-364) are cosmetic and not modelled.
- The `fetch` of the question bank is not modelled: the constructor receives the bank as a parameter.
- `alert` is not modelled.
- `confirm` is a boolean parameter (`FinishQuiz`, `ResetSettings`).
- The 500 ms `setTimeout` before the name prompt opens is not modelled: the prompt opens at once.
- `shareScore` is not modelled. It is asynchronous image capture and Web Share plumbing.
- The easter egg of `saveScoreAndCloseModal` (script.js:443-464) is not modelled. It overrides the score for one special name. The name is saved with the score the quiz produced.
- JSON serialisation and `localStorage` are one in-memory `Storage` value. Corrupt or hand-edited storage contents are not modelled.
- A leaderboard date is an integer timestamp, not an ISO string. `now` is a parameter, the clock is not read.
- The settings dialog's open or closed state is not modelled. Neither is the refill of its fields by `openSettingsModal`; `Settings.SettingsFormRoundTrip` covers what that refill writes.
- `convert.py` is not part of this model. It converts a spreadsheet into the JSON question bank with a library.
- Difficulty values that are not strings (numbers in the JSON) are not modelled: a difficulty is absent or a string.
- Case mapping covers ASCII letters only; other scripts' case mappings are not modelled.
- Scoring.Percentage: computed exactly on integers. The floating-point evaluation of `score / total * 100` before `Math.round` is not modelled.
- Text.ParseInt: the result is an unbounded integer. Precision loss of huge numbers in a double is not modelled.
- App.QuizApp.Valid: the invariant bounds right plus wrong answers by the questions reached, not equality. The always-visible next button (script.js:219, 233) lets the player move on without answering.
- App.QuizApp.CheckAnswer: requires the stored answer index to name an option (1 ≤ answer ≤ number of options). With a bad index the script fails at `buttons[correctIdx - 1]`; the converter is trusted to write good indices.
- App.QuizApp.CheckAnswer: requires an unlocked question on the quiz screen and a chosen option that exists. These are the states in which the option buttons can be clicked at all.

## Findings

| source | as written | input that shows it | evidently intended | confidence | as-written member | corrected member |
|---|---|---|---|---|---|---|
| script.js:54-63, 177-198 | `generateQuizSet` can return an empty list for a non-empty pool, and `startQuiz` still shows the quiz screen, whose `renderQuestion` reads `currentQuestions[0]` (undefined) | saved settings Easy 0, Medium 0, Hard 0 (accepted by `saveSettings`), then starting any level with at least one question | an empty generated quiz is refused like a level without questions | not executed | App.QuizApp.StartQuizAsWritten, QuizSet.ZeroTargetsGiveEmptyQuiz | App.QuizApp.StartQuiz |
| script.js:42-48 | a difficulty that normalises to "__proto__" makes `buckets[normalizedDiff]` find the object's prototype, which is truthy but has no `push`, so `generateQuizSet` throws | a question with difficulty "__proto__" in a pool larger than Easy+Medium+Hard | an unknown label goes to the Medium bucket | not executed | Questions.SlotAsWritten, Questions.ProtoLabelReachesPrototype | Questions.BucketOf, Questions.BucketOfAgreesAsWritten |
