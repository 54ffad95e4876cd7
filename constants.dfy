/**
 * The game's rule tables (constants.ts): the XP per level, the cosmetic
 * themes with their unlock predicates, the achievements with theirs, and the
 * per-difficulty rules. Display text is kept beside the rule tables,
 * keyed by id; icons and colour classes are left out.
 */
module Constants {
  import opened Types

  const LEVEL_XP_BASE: int := 500

  /**
   * A cosmetic theme as the unlock scan sees it: its id and its unlock
   * predicate. The display text is in ThemeCaption and the colour classes
   * are left out.
   */
  datatype Theme = Theme(id: string, unlockCondition: UserStats -> bool)

  /** The THEMES record as its entries (key, theme), in declaration order. */
  const THEMES: seq<(string, Theme)> := [
    ("jungle", Theme("jungle", (stats: UserStats) => true)),
    ("ocean", Theme("ocean", (stats: UserStats) => stats.level >= 3)),
    ("space", Theme("space", (stats: UserStats) => stats.totalQuestionsAnswered >= 100))
  ]

  /**
   * `Object.values(THEMES)`: the themes in declaration order, each under
   * the key that is its own id.
   */
  function ThemeValues(): (ts: seq<Theme>)
    ensures |ts| == |THEMES| == 3
    ensures forall i :: 0 <= i < |ts| ==> ts[i].id == THEMES[i].0
    ensures ts[0].id == "jungle" && ts[1].id == "ocean" && ts[2].id == "space"
  {
    seq(|THEMES|, i requires 0 <= i < |THEMES| => THEMES[i].1)
  }

  /** The display text of a theme: its name, description and how it is unlocked. */
  datatype ThemeText = ThemeText(name: string, description: string, unlockDescription: string)

  function ThemeCaption(id: string): Option<ThemeText>
  {
    if id == "jungle" then Some(ThemeText("Wild Jungle", "A fresh, green start for your journey.", "Unlocked by default"))
    else if id == "ocean" then Some(ThemeText("Ocean Depth", "Dive deep into knowledge.", "Reach Level 3"))
    else if id == "space" then Some(ThemeText("Cosmic Explorer", "Reach for the stars.", "Answer 100 questions total"))
    else None
  }

  /**
   * An achievement as the unlock scan sees it: its id and its predicate.
   * The title and description are in AchievementCaption and the icon is left out.
   */
  datatype Achievement = Achievement(id: string, condition: UserStats -> bool)

  const ACHIEVEMENTS: seq<Achievement> := [
    Achievement("first_steps", (stats: UserStats) => stats.totalQuestionsAnswered > 0),
    Achievement("streak_starter", (stats: UserStats) => stats.streakRecord >= 10),
    Achievement("table_tamer_7", (stats: UserStats) => MasteryOf(stats, 7) >= 100),
    Achievement("speed_demon", (stats: UserStats) => stats.totalCorrect >= 500),
    Achievement("daily_devotee", (stats: UserStats) => stats.dailyStreak >= 3)
  ]

  /** The display text of an achievement: its title and description. */
  datatype AchievementText = AchievementText(title: string, description: string)

  function AchievementCaption(id: string): Option<AchievementText>
  {
    if id == "first_steps" then Some(AchievementText("First Steps", "Complete your first round"))
    else if id == "streak_starter" then Some(AchievementText("Hot Streak", "Get a streak of 10"))
    else if id == "table_tamer_7" then Some(AchievementText("Lucky 7s", "Master the 7 times table"))
    else if id == "speed_demon" then Some(AchievementText("Speed Demon", "Answer 500 questions correctly total"))
    else if id == "daily_devotee" then Some(AchievementText("Daily Devotee", "Complete a 3-day streak"))
    else None
  }

  /**
   * One row of DIFFICULTY_RULES. The fractional weights and the missing rate
   * are kept as scaled integers: weights in tenths, the rate in percent.
   */
  datatype DifficultyRule = DifficultyRule(
    min: int,
    max: int,
    timeLimit: int,
    mulTenths: int,
    divTenths: int,
    missingPercent: int,
    labelText: string
  )

  function DifficultyRules(d: Difficulty): DifficultyRule
  {
    match d
    case Beginner => DifficultyRule(1, 5, 90, 10, 0, 0, "1-5 multiplication")
    case Intermediate => DifficultyRule(2, 10, 60, 10, 0, 35, "2-10 multiplication")
    case Advanced => DifficultyRule(1, 12, 45, 6, 4, 25, "Up to 12, multiplication + division")
    case Expert => DifficultyRule(1, 20, 30, 3, 7, 20, "Up to 20, division-focused")
  }

  // ---------------------------------------------------------------------
  // Facts about the tables

  /** The level step is 500 XP. */
  lemma LevelXpBase()
    ensures LEVEL_XP_BASE == 500
  {
  }

  /** Every THEMES key equals the id of the theme stored under it, and keys are distinct. */
  lemma ThemeKeysAreIds()
    ensures forall i :: 0 <= i < |THEMES| ==> THEMES[i].0 == THEMES[i].1.id
    ensures forall i, j :: 0 <= i < j < |THEMES| ==> THEMES[i].0 != THEMES[j].0
  {
  }

  /** Every theme and every achievement has its display text. */
  lemma EveryRuleHasCaption()
    ensures forall i :: 0 <= i < |THEMES| ==> ThemeCaption(THEMES[i].1.id).Some?
    ensures forall i :: 0 <= i < |ACHIEVEMENTS| ==> AchievementCaption(ACHIEVEMENTS[i].id).Some?
  {
  }

  /** The themes' unlock predicates: jungle always, ocean from level 3, space from 100 answers. */
  lemma ThemeConditions(stats: UserStats)
    ensures |THEMES| == 3
    ensures THEMES[0].1.id == "jungle" && THEMES[0].1.unlockCondition(stats)
    ensures THEMES[1].1.id == "ocean" && (THEMES[1].1.unlockCondition(stats) <==> stats.level >= 3)
    ensures THEMES[2].1.id == "space"
         && (THEMES[2].1.unlockCondition(stats) <==> stats.totalQuestionsAnswered >= 100)
  {
  }

  /** The achievement ids, in table order; they are pairwise distinct. */
  lemma AchievementIds()
    ensures |ACHIEVEMENTS| == 5
    ensures ACHIEVEMENTS[0].id == "first_steps" && ACHIEVEMENTS[1].id == "streak_starter"
    ensures ACHIEVEMENTS[2].id == "table_tamer_7" && ACHIEVEMENTS[3].id == "speed_demon"
    ensures ACHIEVEMENTS[4].id == "daily_devotee"
    ensures forall i, j :: 0 <= i < j < |ACHIEVEMENTS| ==> ACHIEVEMENTS[i].id != ACHIEVEMENTS[j].id
  {
  }

  /** The achievement predicates, one per rule. */
  lemma AchievementConditions(stats: UserStats)
    ensures |ACHIEVEMENTS| == 5
    ensures ACHIEVEMENTS[0].condition(stats) <==> stats.totalQuestionsAnswered > 0
    ensures ACHIEVEMENTS[1].condition(stats) <==> stats.streakRecord >= 10
    ensures ACHIEVEMENTS[2].condition(stats) <==> (7 in stats.mastery && stats.mastery[7] >= 100)
    ensures ACHIEVEMENTS[3].condition(stats) <==> stats.totalCorrect >= 500
    ensures ACHIEVEMENTS[4].condition(stats) <==> stats.dailyStreak >= 3
  {
  }

  /** Every rule has a positive, non-empty operand range, a positive timer and a label. */
  lemma DifficultyRulesWellFormed(d: Difficulty)
    ensures DifficultyRules(d).min > 0
    ensures DifficultyRules(d).max >= DifficultyRules(d).min
    ensures DifficultyRules(d).timeLimit > 0
    ensures |DifficultyRules(d).labelText| > 0
    ensures 0 <= DifficultyRules(d).missingPercent <= 100
  {
  }

  /** Division is off for the two easiest tiers and on for the two hardest; some operation always has weight. */
  lemma DivisionWeights(d: Difficulty)
    ensures DifficultyRules(d).mulTenths >= 0 && DifficultyRules(d).divTenths >= 0
    ensures DifficultyRules(d).mulTenths + DifficultyRules(d).divTenths > 0
    ensures DifficultyRules(d).divTenths == 0 <==> d in {Beginner, Intermediate}
  {
  }
}
