/**
 * Shapes shared by the game logic and the progression reducer (types.ts).
 * These carry no behaviour of their own.
 */
module Types {

  /** A value that may be absent (an optional field, or an operation that threw). */
  datatype Option<+T> = None | Some(value: T)

  datatype Difficulty = Beginner | Intermediate | Advanced | Expert

  datatype GameMode = Sprint | Journey | Chill | Boss | Daily

  /** The three framings of a multiplication fact. */
  datatype QuestionKind = Standard | Missing | Reverse

  /**
   * A generated question, with exactly the fields the generator fills in.
   * The identifier is opaque: the source builds it from the clock.
   */
  datatype Question = Question(
    id: string,
    kind: QuestionKind,
    factorA: int,
    factorB: int,
    answer: int,
    textDisplay: string,
    hint: string
  )

  /**
   * The persisted per-player aggregate. `mastery` maps a times table to its
   * mastery score; `badges` and `unlockedThemes` are ordered id lists.
   */
  datatype UserStats = UserStats(
    xp: int,
    level: int,
    totalQuestionsAnswered: int,
    totalCorrect: int,
    streakRecord: int,
    mastery: map<int, int>,
    badges: seq<string>,
    lastDailyChallenge: Option<string>,
    dailyStreak: int,
    theme: string,
    unlockedThemes: seq<string>
  )

  /** The mastery score of `table`, with a missing entry read as 0. */
  function MasteryOf(stats: UserStats, table: int): int
  {
    if table in stats.mastery then stats.mastery[table] else 0
  }
}
