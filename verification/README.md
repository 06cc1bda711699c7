# Memory game: the game state machine, the leaderboard store and the entry schema

This project models three parts of a browser memory game.

- **The game hook** (`client/src/hooks/useGameState.ts`). The player watches a
  sequence of green and red lights and repeats it.
  - In *levels* mode a level asks for `min(3 + level, 10)` colours within
    `30 + 5 * level` seconds. Completing it earns
    `round(length * 10 * max(0.5, t / 30) * level)` points, unlocks the next
    level and stores a random four-character code for it. Submitting that code
    later jumps to the level after it.
  - In *challenge* mode the pattern starts with three colours. It grows by one
    colour, worth ten points, every time the player reproduces all of it.
  - A wrong click, or running out of time in levels mode, ends the round.

  The hook is modelled as the class `GameStateMachine.GameState`, whose fields
  are the hook's state. Every handler is a method with `modifies` and
  `ensures` clauses.
  - Timer firings are events the environment raises:
    - `Tick` is the one-second countdown;
    - `RevealStep(h)` is the 800 ms reveal callback with handle `h`;
    - `RevealDone(h)` is the 2000 ms pause after the reveal.
  - The pending reveal callbacks are a map from handle to callback. The hook's
    reveal ref is the handle of the latest one. `handleGameOver` clears only
    that handle. `startNewPattern` clears nothing, so a new pattern started
    while the previous one is `waiting` leaves the old "begin playing"
    callback pending. The model keeps that behaviour.
  - The countdown timer is derived: it is scheduled exactly when
    `CountdownArmed()` holds. The effect's other branch, which loses a levels
    round when the clock reads zero, is `ExpireIfOutOfTime`.
  - Random choices are parameters: the colours of a new pattern, the colour a
    challenge run grows by and the code a completed level receives.
- **The in-memory store** (`server/storage.ts`), modelled as the class
  `Storage.MemStorage`.
  - A JavaScript `Map` iterates in insertion order, so each map is kept as the
    sequence of its values in insertion order.
  - Ids come from counters that only grow. The class invariant says the stored
    ids are positive, below the counter and strictly increasing.
  - `getLeaderboard` is modelled as a stable insertion sort by score followed
    by the first ten entries.
- **The entry schema** (`shared/schema.ts`). `insertLeaderboardEntrySchema` is
  modelled as a function from the submitted entry to either the entry to store
  or the list of checks that failed:
  - the name is 1 to 20 characters of `[a-zA-Z0-9\s\-_\.]` and is stored
    trimmed;
  - the score is an integer from 0 to 1,000,000;
  - the level is an integer from 1 to 50.

  A name of whitespace only passes every check and is stored as the empty
  string (`Schema.BlankNameStoredEmpty`).

Scores are computed on exact rationals rather than IEEE doubles. The product
is a multiple of 1/3, and rounding it is proved equal to the integer
`(2 * length * level * max(15, t) + 3) / 6`. For every level below a million
the double product rounds to the same integer; at far larger levels and
times the two can differ, and the model does not capture that.

Details of the game hook the model keeps:
- the time budget is `30 + 5 * level` seconds (useGameState.ts line 130);
- the pattern is capped at ten colours (line 124);
- a completed level's code is drawn at random (lines 100-103 and 153);
- the submitted text is upper-cased and not trimmed (line 298);
- a code stored under level `k` opens level `k + 1` (line 301);
- challenge mode grows the pattern by one colour once it is reproduced
  (lines 235-240);
- each colour of a pattern is drawn independently (line 96).

Files:
- `common.dfy`: `Option` and `Result`;
- `game_rules.dfy`: the pure rules;
- `game_state.dfy`: the hook as a class, plus a scripted round of level 1;
- `schema.dfy`: the record types and the entry schema;
- `storage.dfy`: the store.

## Model

| member | source | states |
|---|---|---|
| GameRules.PatternLength | client/src/hooks/useGameState.ts:124 | a level asks for 3 + level colours up to level 7 and for 10 from level 7 on; the length is always 4 to 10 |
| GameRules.TimeBudget | client/src/hooks/useGameState.ts:130 | a level allows at least 35 seconds, a multiple of five |
| GameRules.TimeBudgetGrows | client/src/hooks/useGameState.ts:292 | a higher level never allows less time, and each level up adds exactly five seconds |
| GameRules.JsRound | client/src/hooks/useGameState.ts:180 | Math.round returns the integer within half a unit, with a half rounded up |
| GameRules.TimeMultiplier | client/src/hooks/useGameState.ts:178 | the time multiplier max(0.5, t/30) equals max(15, t)/30 |
| GameRules.EarnedScore | client/src/hooks/useGameState.ts:176-180 | the rounded score is never negative and equals the integer (2·length·level·max(15,t)+3) div 6 |
| GameRules.EarnedScoreExact | client/src/hooks/useGameState.ts:176-180 | rounding the exact product length·10·max(0.5,t/30)·level gives that integer |
| GameRules.EarnedScoreAtFloor | client/src/hooks/useGameState.ts:178 | with 15 seconds or fewer left the multiplier floors at one half: 5 points per colour per level |
| GameRules.EarnedScoreMonotone | client/src/hooks/useGameState.ts:176-180 | more time left never earns fewer points |
| GameRules.TimeBonus | client/src/hooks/useGameState.ts:158 | the time bonus is exactly five points per second left |
| GameRules.UnlockAfter | client/src/hooks/useGameState.ts:162-165 | completing a level leaves the unlocked count at max(unlocked, level+1): never lower, always past the level |
| GameRules.MatchingClickExtendsPrefix | client/src/hooks/useGameState.ts:244-258 | a right click on input that is a prefix of the pattern keeps it a prefix, and at full length the input is the pattern |
| GameRules.ToUpper | client/src/hooks/useGameState.ts:298 | upper-casing keeps the length, turns each lower-case ASCII letter into its own capital and keeps every other character |
| GameRules.AnyCaseMatchesCode | client/src/hooks/useGameState.ts:298 | a generated code typed with any of its letters in lower case upper-cases to the code itself |
| GameRules.ToUpperIdempotent | client/src/hooks/useGameState.ts:298 | upper-casing twice is upper-casing once |
| GameRules.ToUpperKeepsCodes | client/src/hooks/useGameState.ts:100-103 | a generated code is unchanged by upper-casing, so typing it exactly matches |
| GameRules.WrongLengthNeverMatches | client/src/hooks/useGameState.ts:298 | under ASCII upper-casing, typed text of any length other than four never matches a generated code |
| GameRules.LookupLevelCode | client/src/hooks/useGameState.ts:298 | the lookup finds nothing exactly when no level holds the code, otherwise the least level holding it |
| GameStateMachine.GameState.constructor | client/src/hooks/useGameState.ts:16-39 | every piece of hook state starts at its initial value, with no reveal callback pending |
| GameStateMachine.GameState.ArmReveal | client/src/hooks/useGameState.ts:203-211 | scheduling a reveal callback adds it under a fresh handle and stores that handle in the reveal ref |
| GameStateMachine.GameState.ShowNext | client/src/hooks/useGameState.ts:200-212 | past the end of the pattern the phase turns to waiting and the pause is scheduled; otherwise the progress becomes index+1 and the next step is scheduled |
| GameStateMachine.GameState.ShowPatternSequence | client/src/hooks/useGameState.ts:196-215 | the reveal lights the first colour at once and schedules the second step |
| GameStateMachine.GameState.RevealStep | client/src/hooks/useGameState.ts:209-211 | a fired step is removed from the pending callbacks and runs the next step of its own pattern |
| GameStateMachine.GameState.RevealDone | client/src/hooks/useGameState.ts:203-205 | the pause ends with input accepted (playing), or with the round lost when a levels clock already reads zero |
| GameStateMachine.GameState.HandleGameOver | client/src/hooks/useGameState.ts:140-149 | the round is failed, the score and levels completed (unlocked−1) are recorded, the dialog opens and only the reveal ref's callback is cancelled |
| GameStateMachine.GameState.ExpireIfOutOfTime | client/src/hooks/useGameState.ts:82-84 | a levels round being played with zero seconds is lost; any other state is left unchanged |
| GameStateMachine.GameState.Tick | client/src/hooks/useGameState.ts:77-81 | the countdown takes off one second; reaching zero loses the round, otherwise play and the game-over results are untouched |
| GameStateMachine.GameState.StartNewPattern | client/src/hooks/useGameState.ts:106-135 | blocked while showing or playing; otherwise the new pattern is shown from its first colour with an empty input, the level's time budget (or zero and a zero score in challenge mode) and one new reveal callback |
| GameStateMachine.GameState.HandleLevelComplete | client/src/hooks/useGameState.ts:152-173 | the code is stored under the level, the bonuses are 5·t and 100, the total is their sum with the score earned, the next level is unlocked and the dialog opens |
| GameStateMachine.GameState.HandlePatternComplete | client/src/hooks/useGameState.ts:176-193 | the earned score is added, the phase is complete and the level's results are recorded |
| GameStateMachine.GameState.HandleColorClick | client/src/hooks/useGameState.ts:218-260 | ignored unless playing; otherwise the colour is appended. A wrong click loses the round; a right click short of the end changes nothing else; the last right click completes the level or grows the challenge pattern by one colour for ten points. Input that is a prefix of the pattern stays one, and it equals the pattern on completion. Unlocked levels never decrease |
| GameStateMachine.GameState.RestartGame | client/src/hooks/useGameState.ts:263-274 | the board is idle and empty with 30 seconds and the game-over dialog closes; only levels mode returns to level 1 |
| GameStateMachine.GameState.NextLevel | client/src/hooks/useGameState.ts:277-283 | the level goes up by one, on an idle, empty board, and the dialog closes |
| GameStateMachine.GameState.SelectLevel | client/src/hooks/useGameState.ts:286-294 | a locked level changes nothing; an unlocked one becomes current on an idle, empty board with its full time budget |
| GameStateMachine.GameState.SetGameMode | client/src/hooks/useGameState.ts:77-91 | the mode is set, and the countdown effect then loses a levels round being played with zero seconds |
| GameStateMachine.GameState.SetSecretCode | client/src/hooks/useGameState.ts:25 | the code field holds the typed text |
| GameStateMachine.GameState.ShowInstructions | client/src/hooks/useGameState.ts:356-358 | the instructions dialog opens |
| GameStateMachine.GameState.SubmitSecretCode | client/src/hooks/useGameState.ts:297-318 | unknown text changes nothing; for the least level k holding the upper-cased text, the current level becomes k+1, unlocked becomes max(unlocked, k+1), the field is cleared and the board is idle |
| GameStateMachine.ExampleReveal | client/src/hooks/useGameState.ts:196-215 | on a new game, level 1's reveal of four colours runs through four steps and the pause, ending in play with 35 seconds |
| Schema.LeadingWhitespace | shared/schema.ts:34 | counts exactly the whitespace run at the start of a string |
| Schema.TrailingWhitespace | shared/schema.ts:34 | counts exactly the whitespace run at the end of a string |
| Schema.Trim | shared/schema.ts:34 | the result is a slice of the input with only whitespace cut from each end, and it neither starts nor ends with whitespace |
| Schema.TrimIdempotent | shared/schema.ts:34 | trimming a trimmed name changes nothing |
| Schema.TrimBlank | shared/schema.ts:34 | a whitespace-only string trims to the empty string |
| Schema.NameIssues | shared/schema.ts:30-33 | the too-short, too-long and invalid-character issues are each reported exactly when their check fails |
| Schema.NumberIssues | shared/schema.ts:35-36 | the not-integer, below-minimum and above-maximum issues are each reported exactly when their check fails |
| Schema.EntryIssues | shared/schema.ts:24-37 | an entry's issues are exactly those of its name, score and level, and there are none exactly when every field passes |
| Schema.ParseLeaderboardEntry | shared/schema.ts:24-37 | parsing succeeds exactly when the name is 1–20 name characters, the score an integer in 0..1000000 and the level an integer in 1..50. On success it yields the trimmed name and the same numbers. On failure it yields a non-empty list in which each of the nine issues appears exactly when its check fails |
| Schema.BlankNameStoredEmpty | shared/schema.ts:30-34 | a name of whitespace only is accepted and stored as the empty string |
| Storage.IssueNext | server/storage.ts:52-57 | issuing the counter's value keeps the ids positive, increasing and below the counter, and the new id is fresh |
| Storage.InsertByScore | server/storage.ts:61 | inserting into a score-sorted list keeps it sorted, adds exactly that entry and grows the list by one |
| Storage.SortByScore | server/storage.ts:61 | the result is sorted by score, highest first, and is a permutation of the input |
| Storage.TopOfSorted | server/storage.ts:62 | the first k entries of a sorted list are sorted, drawn from it and score at least as much as every entry left out |
| Storage.FindFirst | server/storage.ts:47-49 | the result is the first position whose element satisfies the predicate, or nothing when none does |
| Storage.MemStorage.constructor | server/storage.ts:17-25 | a new store has no users, the five sample entries in order and the next entry id 6 |
| Storage.MemStorage.InitializeLeaderboard | server/storage.ts:27-40 | the sample entries are stored in order and the counter moves past them |
| Storage.MemStorage.GetUser | server/storage.ts:42-44 | the result is a stored user with that id, or nothing when no stored user has it |
| Storage.MemStorage.GetUserByUsername | server/storage.ts:46-50 | the result is the first user, in insertion order, with that username, or nothing when none has it |
| Storage.MemStorage.CreateUser | server/storage.ts:52-57 | the user is stored under the counter's value, an id no stored user has; the user is appended and the counter moves on |
| Storage.MemStorage.GetLeaderboard | server/storage.ts:59-63 | the result has min(n, 10) entries, highest score first, all drawn from the store, and all of them when there are ten or fewer. No entry left out scores more than one returned |
| Storage.MemStorage.AddLeaderboardEntry | server/storage.ts:65-70 | the entry is stored under the counter's value, an id no stored entry has; the entry is appended and the counter moves on |

## Left out

- Loading and saving progress in `localStorage` (useGameState.ts lines 45-74) is browser I/O and is not modelled.
- Submitting a score (lines 320-353) is not modelled: it covers the name prompt, the HTTP mutation, the query invalidation and the toast. Toasts elsewhere are left out too.
- The challenge branch of `handlePatternComplete` (lines 179 and 187-191) is not modelled. Its only caller is the levels branch of `handleColorClick`, so it never runs. `GameStateMachine.GameState.HandlePatternComplete` requires levels mode for that reason.
- The dialog-close setters returned by the hook (`setIsGameOverModalOpen` and the others) each assign one boolean. They are not modelled.
- The random draws of `generatePattern` and `generateSecretCode` are parameters of the methods. Random colours are not modelled, and neither is a uniform distribution. A code is only required to be four characters of the code alphabet.
- Real time is not modelled: the 800 ms, 2000 ms and 1000 ms delays become events the environment may raise while their callbacks are pending.
- React's batching of state updates and its stale closures are not modelled: each handler runs atomically on the current state.
- The unmount cleanup (lines 360-366) is not modelled, because the model has no unmounting.
- GameRules.ToUpper: upper-cases the ASCII letters only; JavaScript's full Unicode case mapping is not modelled. That mapping can change length (`'ß'` becomes `"SS"`) and maps some non-ASCII letters onto ASCII capitals (`'ſ'` to `'S'`, `'ı'` to `'I'`).
- GameRules.WrongLengthNeverMatches: holds for the ASCII model only. In JavaScript the three-character text `"ßAB"` upper-cases to `"SSAB"` and matches that code. GameStateMachine.GameState.SubmitSecretCode therefore rejects such texts (and texts like `"ſSAB"`) where the hook accepts them.
- Schema.ParseLeaderboardEntry: string lengths count characters, not UTF-16 code units. Type errors for non-string or non-number JSON are not modelled.
- Schema.ParseLeaderboardEntry: timeCompleted is taken as an already-checked integer. The generated column check depends on the drizzle-zod version, which is not part of this model.
- `insertUserSchema` (schema.ts lines 19-22) has no checks beyond the field types. It is represented only by the `InsertUser` record.
- Storage.SortByScore: the ensures states sortedness and permutation but not stability (the order of equal scores), although the definition is a stable insertion sort.
- Storage.MemStorage.GetLeaderboard: for the same reason the ensures does not state the order among equal scores.
- The asynchronous `Promise` wrappers of the store's methods are not modelled: each method runs to completion on the current state.
- The HTTP routes, the page and the game components are not part of this model.
