# MathQuest core in Dafny

MathQuest is a times-tables practice game. This project models its core
logic. It also proves properties of that logic:

- **Scoring.** `calculateScore` turns one answer into points. The points
  are a base value per difficulty plus a bonus for the time left, times a
  streak multiplier capped at 5.
- **Question generator.** `generateQuestion` draws a table and a factor,
  then rolls a question kind: standard `a × b = ?`, missing factor, or
  reversed as a division. It renders the text and hint and computes the
  answer. It can be driven by `Math.random` or by a string seed. The seed
  is hashed with a 32-bit wrap-around hash, and the draws then come from
  successive seeded values. Boss mode uses its own tables (7, 8, 9 and
  11 to 15) and factors (6 to 15).
- **Progression reducer.** `gameReducer` handles five actions: add XP,
  update mastery, complete a game, set a theme, and reset progress. Every
  transition ends with `checkUnlocks`. This scan appends newly earned
  badges and newly unlocked themes to the player's statistics, and reports
  them for this transition only.
- **Rule tables.** These are the XP per level, the theme and achievement
  unlock predicates, and the per-difficulty rules.

Modules:

- `Types`: the shared records.
- `Constants`: the rule tables. Fractional weights are scaled integers.
- `Numerals`: decimal rendering of whole numbers, as template strings print
  them.
- `GameLogic`: scoring and the question generator.
- `GameContext`: the unlock scan and the reducer.

How the model relates to the code:

- **Methods and specification functions.** The generator and the unlock
  scan work by loops and step-by-step updates, so each is a method. Each
  method is proved equal to a specification function: `GameLogic.Generate`
  and `GameContext.UnlockScan`. The properties are then proved about those
  functions. The reducer and the scoring function only compute values, so
  they are functions.
- **Random draws.** Draws are modelled as a stream `nat -> real` of values
  in [0, 1). The i-th draw becomes an index with `floor(r * n)`.
- **Question kinds.** `generateQuestion` does not read `DIFFICULTY_RULES`.
  It picks the kind from the difficulty configuration's `types` list, with
  the fixed thresholds 0.7 (reverse) and 0.6 (missing); in boss mode the
  thresholds are 0.6 and 0.2 (`GameLogic.KindRule`). `DIFFICULTY_RULES`
  is modelled as a table with its own well-formedness lemmas.
- **Reset progress.** `RESET_PROGRESS` rebuilds the statistics from what
  the storage layer loads, then clears XP and mastery. What is loaded is
  the last saved snapshot, so level, badges and totals survive a reset
  unless storage is empty (`GameContext.ResetKeepsSavedLevel`,
  `GameContext.ResetToInitial`).

## Model

| member | source | states |
|---|---|---|
| Constants.ThemeValues | constants.ts:7-50 | `Object.values(THEMES)` lists three themes, jungle, ocean and space in that order, each stored under the key that is its id |
| Constants.LevelXpBase | constants.ts:4 | one level is 500 XP |
| Constants.ThemeKeysAreIds | constants.ts:7-50 | each THEMES key equals the id of its theme, and the keys are distinct |
| Constants.EveryRuleHasCaption | constants.ts:7-88 | every theme and every achievement has display text |
| Constants.ThemeConditions | constants.ts:7-50 | jungle is always unlockable, ocean from level 3, space from 100 answered questions |
| Constants.AchievementIds | constants.ts:52-88 | the five achievement ids, in table order, pairwise distinct |
| Constants.AchievementConditions | constants.ts:52-88 | each achievement's predicate: 1 answer, a streak of 10, mastery 100 of table 7, 500 correct answers, a 3-day daily streak |
| Constants.DifficultyRulesWellFormed | constants.ts:90-128 | every difficulty has a positive, non-empty operand range, a positive time limit, a label, and a missing rate between 0 and 100 % |
| Constants.DivisionWeights | constants.ts:90-128 | the weights are non-negative with a positive sum; division has weight exactly for advanced and expert |
| Numerals.NatToString | services/gameLogic.ts:64-83 | a whole number renders as a non-empty digit string with no leading zero |
| Numerals.IntToString | services/gameLogic.ts:64-83 | an integer renders as digits, with a leading '-' exactly when it is negative |
| Numerals.ParseNatToString | services/gameLogic.ts:64-83 | reading the digits of a rendering back gives the number |
| Numerals.IntToStringRoundTrip | services/gameLogic.ts:64-83 | reading an integer's rendering back gives the integer, so distinct numbers render differently in question texts |
| Numerals.IntToStringHasNoQuestionMark | services/gameLogic.ts:64-83 | a rendered number never contains the '?' that marks the unknown |
| GameLogic.BasePoints | services/gameLogic.ts:106-109 | the base points lie between 100 and 300 |
| GameLogic.TimeBonus | services/gameLogic.ts:112 | the bonus is the floor of twice the time left |
| GameLogic.StreakMultiplier | services/gameLogic.ts:115 | below a streak of 20 the multiplier m is the one with 5(m-1) <= streak < 5m, so it grows by one every 5 answers; it is 5 exactly from a streak of 20 and never more |
| GameLogic.CalculateScore | services/gameLogic.ts:98-118 | a wrong answer scores 0; a right answer with time and streak not negative scores at least the base points |
| GameLogic.BasePointsByTier | services/gameLogic.ts:106-109 | the base is 100/150/200/300 and strictly increases with difficulty |
| GameLogic.StreakMultiplierMonotone | services/gameLogic.ts:115 | a longer streak never lowers the multiplier |
| GameLogic.ScoreMonotoneInTime | services/gameLogic.ts:112-117 | more time left never lowers the score |
| GameLogic.ScoreMonotoneInStreak | services/gameLogic.ts:115-117 | a longer streak never lowers the score while base plus bonus is not negative |
| GameLogic.ScoreCap | services/gameLogic.ts:115-117 | from a streak of 20 on, the score is exactly 5 times base plus bonus |
| GameLogic.ScoreExamples | test/__tests__/scoring.test.ts:5-40 | the tested scores: 0 for wrong answers; bases 100/150/200/300; 102 with 1 s left; 100, 100, 200, 200, 300, 500, 500 for streaks 0, 4, 5, 9, 10, 20, 30; 98 for negative time; 630 and 1500 from the other score tests |
| GameLogic.ToInt32 | services/gameLogic.ts:31 | `hash \|= 0` yields a signed 32-bit value congruent to its input modulo 2^32 |
| GameLogic.HashOf | services/gameLogic.ts:28-32 | the seed hash is always a signed 32-bit value |
| GameLogic.SeedHash | services/gameLogic.ts:28-32 | the hashing loop computes HashOf of the seed |
| GameLogic.HashStepIsTimes31 | services/gameLogic.ts:30-31 | `(hash << 5) - hash + c` wrapped to 32 bits is `hash * 31 + c` wrapped to 32 bits |
| GameLogic.HashOfIsWrappedPolynomial | services/gameLogic.ts:28-32 | the seed hash is the base-31 polynomial of the character codes, wrapped once to 32 bits |
| GameLogic.SeededStream | services/gameLogic.ts:33 | the seeded draws lie in [0, 1) whenever the mixer's values do |
| GameLogic.DrawStream | services/gameLogic.ts:25-34 | the stream the generator reads, seeded or `Math.random`, has every draw in [0, 1) |
| GameLogic.Cycled | test/utils/testUtils.ts:8-17 | the mocked `Math.random` returns the list in order, then repeats with period its length; its draws lie in [0, 1) when the list's values do |
| GameLogic.Pick | services/gameLogic.ts:36-39 | `Math.floor(r * n)` of a draw in [0, 1) is a valid index below n |
| GameLogic.DrawKind | services/gameLogic.ts:42-55 | the kind-rolling branch computes RollKind, including how many draws it used |
| GameLogic.ComposeQuestion | services/gameLogic.ts:36-95 | drawing the factors, the kind and the text computes Compose |
| GameLogic.GenerateQuestion | services/gameLogic.ts:16-96 | the generator fails exactly when Generate does and otherwise returns its question |
| GameLogic.RollKind | services/gameLogic.ts:42-55 | boss mode reads exactly one roll; otherwise 0 to 2 rolls are read and the kind is standard or one the configuration allows |
| GameLogic.Compose | services/gameLogic.ts:36-95 | the question keeps its id, takes its first factor from the tables, its second from 6..15 in boss mode or 1..12 otherwise, and has a kind the mode allows |
| GameLogic.Generate | services/gameLogic.ts:16-96 | generation fails exactly outside boss mode when the difficulty has no configuration; otherwise the question carries the given id |
| GameLogic.FactorsInRange | services/gameLogic.ts:21-40 | boss questions use a boss table and a factor from 6 to 15; other questions use a configured table and a factor from 1 to 12 |
| GameLogic.AnswerMatchesKind | services/gameLogic.ts:62-85 | standard asks for the product; missing hides one factor and asks for it; reverse shows the product divided by a and asks for b, which is an exact quotient |
| GameLogic.DisplayHasOneUnknown | services/gameLogic.ts:62-85 | every question text contains exactly one '?' |
| GameLogic.TimesTextsHaveOneUnknown | services/gameLogic.ts:71-83 | each of the three multiplication layouts has exactly one '?' |
| GameLogic.DivideTextHasOneUnknown | services/gameLogic.ts:64 | the division text has exactly one '?' |
| GameLogic.ExactQuotient | services/gameLogic.ts:63-66 | a product divided by a non-zero factor leaves no remainder and gives the other factor |
| GameLogic.KindRule | services/gameLogic.ts:42-55 | boss: reverse above 0.6, missing above 0.2; otherwise reverse only if configured and above 0.7, then missing only if configured and above 0.6, else standard |
| GameLogic.DrawCount | services/gameLogic.ts:36-69 | a question uses 2 to 5 draws, exactly as many as its branches consume |
| GameLogic.OnlyUsedDrawsMatter | services/gameLogic.ts:36-69 | two streams that agree on the draws used yield the same question |
| GameLogic.SeededIsDeterministic | services/gameLogic.ts:26-34 | seeds with the same hash give the same question, whatever `Math.random` returns |
| GameLogic.UnseededUsesMathRandom | services/gameLogic.ts:25 | without a seed the question depends only on `Math.random` |
| GameLogic.BossExample | test/game-logic.test.ts:28-44 | with draws 0, 0, 0.1 a boss question is `7 × 6 = ?` with answer 42 and hint "Add 7 to itself 6 times." |
| GameContext.Scan | context/GameContext.tsx:31-44 | a pass appends the reported ids, changes nothing else, and reports only ids not owned before |
| GameContext.ScanKeepsNoDuplicates | context/GameContext.tsx:31-44 | a pass keeps an id list free of duplicates |
| GameContext.ScanAddsEligible | context/GameContext.tsx:31-44 | a pass reports exactly the unowned rules whose predicate holds, in table order |
| GameContext.ScanSaturates | context/GameContext.tsx:31-44 | after a pass every rule is owned or its predicate fails |
| GameContext.ScanOfSaturated | context/GameContext.tsx:31-44 | a pass over statistics where every rule is owned or failing changes and reports nothing |
| GameContext.ScanIdempotent | context/GameContext.tsx:31-44 | a second pass adds nothing |
| GameContext.EligibleMembers | context/GameContext.tsx:32 | a rule is reported exactly when it is in the table, not owned, and its predicate holds |
| GameContext.EligibleAgrees | context/GameContext.tsx:31-44 | what a pass reports depends only on the owned ids and the statistics outside the unlock lists |
| GameContext.ScanOwnsExactly | context/GameContext.tsx:31-44 | after a pass a rule's id is owned exactly when it was owned before or its predicate held |
| GameContext.AchievementRulesIgnoreUnlocks | constants.ts:52-88 | the achievement predicates do not read the unlock lists, and their ids are distinct |
| GameContext.ThemeRulesIgnoreUnlocks | constants.ts:7-50 | the theme predicates do not read the unlock lists, and their ids are distinct |
| GameContext.UnlockScan | context/GameContext.tsx:25-47 | the scan appends exactly the reported badges and themes, reports only ones not owned before, and leaves all other statistics unchanged |
| GameContext.AwardAchievement | context/GameContext.tsx:32-35 | one achievement step appends the id and reports the achievement exactly when unowned and earned |
| GameContext.PassAchievements | context/GameContext.tsx:31-36 | the achievement loop computes the pass over ACHIEVEMENTS |
| GameContext.UnlockTheme | context/GameContext.tsx:40-43 | one theme step appends the id and reports it exactly when locked and earned |
| GameContext.PassThemes | context/GameContext.tsx:39-44 | the theme loop computes the pass over the themes and reports their ids |
| GameContext.CheckUnlocks | context/GameContext.tsx:25-47 | `checkUnlocks` computes UnlockScan |
| GameContext.UnlockScanReportsEligible | context/GameContext.tsx:25-47 | the scan reports exactly the eligible achievements and themes, in table order |
| GameContext.BadgeOwnedIff | context/GameContext.tsx:31-36 | after the scan an achievement is owned exactly when it was owned before or its predicate holds |
| GameContext.ThemeOwnedIff | context/GameContext.tsx:39-44 | after the scan a theme is unlocked exactly when it was unlocked before or its predicate holds |
| GameContext.UnlockScanBadges | context/GameContext.tsx:31-36 | each of the five badges is owned after the scan exactly when it was owned before or its threshold is met |
| GameContext.UnlockScanThemes | context/GameContext.tsx:39-44 | jungle is always unlocked after the scan; ocean exactly when it already was or at level 3; space exactly when it already was or at 100 answers |
| GameContext.UnlockScanIdempotent | context/GameContext.tsx:25-47 | scanning the scan's result changes and reports nothing |
| GameContext.UnlockScanNoDuplicates | context/GameContext.tsx:25-47 | the scan keeps the badge and theme lists free of duplicates |
| GameContext.UnlockScanWrittenOut | context/GameContext.tsx:25-47 | the scan's reports are the rules taken one by one in table order |
| GameContext.ThemeIncludes | context/GameContext.tsx:39-44 | each theme is reported exactly when locked and its threshold is met |
| GameContext.BadgeIncludes | context/GameContext.tsx:31-36 | each achievement is reported exactly when unowned and its threshold is met |
| GameContext.FreshPlayerUnlocksNothing | context/GameContext.tsx:25-47 | a fresh player below every threshold gains and reports nothing |
| GameContext.FirstStepsAloneIncluded | context/GameContext.tsx:31-36 | after a first round below the other thresholds, only first_steps is reported |
| GameContext.NoThemeIncluded | context/GameContext.tsx:39-44 | below level 3 and 100 answers, with jungle unlocked, no theme is reported |
| GameContext.OceanAloneIncluded | context/GameContext.tsx:39-44 | from level 3 with fewer than 100 answers, only ocean is reported |
| GameContext.FirstRoundEarnsFirstSteps | context/GameContext.tsx:25-47 | a first round earns exactly the first_steps badge and no theme |
| GameContext.LevelThreeUnlocksOcean | context/GameContext.tsx:25-47 | reaching level 3 with fewer than 100 answers unlocks exactly ocean |
| GameContext.ApplyAction | context/GameContext.tsx:52-102 | before the scan, only a reset replaces the badge and theme lists, and any other action keeps the selected theme or selects an unlocked one |
| GameContext.ClampMastery | context/GameContext.tsx:64 | mastery is clamped to [0, 100] and values already in range are kept |
| GameContext.GameReducer | context/GameContext.tsx:49-115 | the next state is the action's result plus exactly the reported badges and themes, with the rest of the progress unchanged |
| GameContext.Reduce | context/GameContext.tsx:49-115 | the reducer step computes GameReducer |
| GameContext.AddXpRederivesLevel | context/GameContext.tsx:53-57 | adding XP adds the amount and puts the level on the 500-XP step that contains the new total; nothing else changes |
| GameContext.UpdateMasteryClamps | context/GameContext.tsx:59-69 | a right answer adds 5 and a wrong one removes 2, clamped to [0, 100]; other tables and fields are unchanged |
| GameContext.UpdateMasteryDirection | context/GameContext.tsx:59-69 | a right answer never lowers mastery and a wrong one never raises it |
| GameContext.CompleteGameTotals | context/GameContext.tsx:71-91 | completing a game adds to the totals and keeps the larger streak record; only those and the daily fields change |
| GameContext.DailyChallengeOncePerDay | context/GameContext.tsx:82-88 | a daily game counts once per day: it sets today's date and adds 1 to the daily streak only when today is not yet recorded |
| GameContext.SetThemeGated | context/GameContext.tsx:93-97 | a theme can be selected only once it is unlocked; otherwise nothing changes |
| GameContext.ResetProgressFromLoaded | context/GameContext.tsx:98-102 | a reset takes the loaded statistics with XP 0 and empty mastery |
| GameContext.AddXpExample | test/__tests__/progression.test.ts:43-49 | 490 XP plus 1000 gives 1490 XP at level 3 |
| GameContext.OceanUnlockExample | test/game-context.test.ts:26-38 | reaching level 3 through XP unlocks and reports ocean |
| GameContext.UpdateMasteryExamples | test/__tests__/progression.test.ts:51-70 | 98 goes up to 100, 100 goes down to 98, and 1 goes down to 0 |
| GameContext.DailyChallengeIdempotent | test/__tests__/achievements.test.ts:96-107 | a second daily game on the same day leaves the daily date and streak unchanged |
| GameContext.SetThemeLockedIsScanOnly | test/__tests__/progression.test.ts:88-98 | selecting a locked theme only runs the scan |
| GameContext.ResetToInitial | test/__tests__/progression.test.ts:100-108 | with nothing saved, a reset returns the initial statistics and empty session lists |
| GameContext.ResetKeepsSavedLevel | context/GameContext.tsx:98-102 | a reset against the saved snapshot zeroes XP but keeps the level, totals and badges, so the level no longer matches the XP |
| GameContext.UnlocksOnlyGrow | context/GameContext.tsx:49-111 | without a reset, badges and themes only grow, by exactly the reported new ids |
| GameContext.SessionListsAreExact | context/GameContext.tsx:107-111 | the session lists hold exactly the eligible achievements and themes after the action |
| GameContext.RescanAddsNothing | context/GameContext.tsx:107-111 | after any transition a further scan finds nothing |
| GameContext.ReportedBadgesAreOwned | context/GameContext.tsx:107-111 | every reported achievement is owned in the new statistics |
| GameContext.BadgeReportedOnce | test/__tests__/achievements.test.ts:85-95 | an achievement reported by one transition is not reported again by the next one unless the next one is a reset |
| GameContext.BadgesPersist | context/GameContext.tsx:49-115 | along a run of transitions without a reset, earlier badges stay a prefix of later badges |
| GameContext.BadgeNeverReportedAgain | context/GameContext.tsx:107-111 | along a run of transitions, an achievement reported once is never reported by any later transition unless a reset comes in between |
| GameContext.ThemeUnlockRules | context/GameContext.tsx:107-111 | after a transition, jungle is unlocked, and ocean and space are unlocked exactly when they already were or their threshold is met |
| GameContext.BadgeUnlockRules | context/GameContext.tsx:107-111 | after a transition, each badge is owned exactly when it already was or its threshold is met |
| GameContext.FirstStepsExample | test/game-context.test.ts:40-55 | a first completed game earns and reports first_steps and no theme |
| GameContext.InitialStatsValid | services/storage.ts:5-16 | the initial statistics satisfy the invariant: the theme is unlocked, jungle is unlocked, no duplicates, mastery in range |
| GameContext.ActionKeepsValid | context/GameContext.tsx:53-102 | every action keeps the selected theme unlocked, the id lists free of duplicates and mastery within [0, 100] |
| GameContext.ReducerKeepsValid | context/GameContext.tsx:49-115 | every transition preserves the invariant, given valid loaded statistics for a reset |

## Left out

- `seededRandom`'s integer mixer (32-bit multiplications, xor-shifts and a final division by 2^32) is a parameter `mix` with values in [0, 1). The model does not compute its values.
- The question id, built from `Date.now()` and `Math.random()`, is an opaque parameter. The extra `Math.random()` call it makes is not among the modelled draws.
- `new Date()` is the `today` parameter.
- Local storage:
  - `loadUserStats` becomes the `loaded` parameter of the reducer.
  - Saving the new statistics is not modelled.
  - Merging the saved JSON with the initial statistics is not modelled.
- `charCodeAt` is read as the code of a Dafny `char`. UTF-16 code units are assumed.
- Floating-point behaviour (NaN, infinities, rounding):
  - the time left is an exact real;
  - XP amounts, totals and mastery are integers, so fractional XP is not modelled.
- The React context provider, the views, the timers, icons and colour classes are not part of this model.
- The reducer's default arm is unreachable for the five modelled actions, so it is not modelled.
- `DIFFICULTY_CONFIG` is not part of this model. It is a map parameter with non-empty tables for every entry (`ConfigsWellFormed`), and a missing entry outside boss mode makes generation fail.
- `DIFFICULTY_RULES` is not read by the generator. Its weights and missing rates are modelled as a table only.
- The generator's `operation` field and its `a`/`b` aliases are not modelled; the question carries `factorA`, `factorB` and the kind.
- Only the cyclic `mockRngSequence` mock of `Math.random` is modelled (`Cycled`); other test mocks are not.
- The two unlock loops take their rule table as a parameter; `CheckUnlocks` passes `ACHIEVEMENTS` and the theme values.
