/**
 * The question generator and the score calculator (services/gameLogic.ts).
 *
 * Randomness is an explicit stream of draws in [0,1): `random` stands for
 * the successive values of Math.random, `mix` for the seeded generator's bit
 * mixer. A non-empty seed string is hashed to a 32-bit integer h0 and the
 * seeded stream is then draw(i) = mix(h0 + i), one draw per call.
 */
module GameLogic {
  import opened Types
  import opened Numerals

  const BOSS_TABLES: seq<int> := [7, 8, 9, 11, 12, 13, 14, 15]
  const BOSS_FACTOR_MIN: int := 6
  const BOSS_FACTOR_MAX: int := 15

  // =====================================================================
  // Scoring

  /** Harder tiers rank higher. */
  function Rank(d: Difficulty): nat
  {
    match d
    case Beginner => 0
    case Intermediate => 1
    case Advanced => 2
    case Expert => 3
  }

  /** The base points ladder: 100 unless overridden by the tier. */
  function BasePoints(d: Difficulty): (points: int)
    ensures 100 <= points <= 300
  {
    var p0 := 100;
    var p1 := if d == Intermediate then 150 else p0;
    var p2 := if d == Advanced then 200 else p1;
    if d == Expert then 300 else p2
  }

  /** `Math.floor(timeLeft * 2)`: the largest whole number not above twice the time left. */
  function TimeBonus(timeLeft: real): (bonus: int)
    ensures bonus as real <= 2.0 * timeLeft < bonus as real + 1.0
  {
    (timeLeft * 2.0).Floor
  }

  /** `Math.min(1 + Math.floor(streak / 5), 5)`; for a positive divisor Dafny's `/` is floor division. */
  function StreakMultiplier(streak: int): (m: int)
    ensures m <= 5
    ensures streak >= 0 ==> 1 <= m
    ensures m == 5 <==> streak >= 20
    ensures streak < 20 ==> 5 * (m - 1) <= streak < 5 * m
  {
    var steps := 1 + streak / 5;
    if steps < 5 then steps else 5
  }

  /** Points for one answer: nothing for a wrong answer, else (base + time bonus) times the streak multiplier. */
  function CalculateScore(isCorrect: bool, timeLeft: real, streak: int, difficulty: Difficulty): (score: int)
    ensures !isCorrect ==> score == 0
    ensures isCorrect && streak >= 0 && timeLeft >= 0.0 ==> score >= BasePoints(difficulty)
  {
    if !isCorrect then 0
    else (BasePoints(difficulty) + TimeBonus(timeLeft)) * StreakMultiplier(streak)
  }

  /** The base points per tier, strictly increasing with the tier. */
  lemma BasePointsByTier(d: Difficulty, e: Difficulty)
    ensures BasePoints(Beginner) == 100 && BasePoints(Intermediate) == 150
    ensures BasePoints(Advanced) == 200 && BasePoints(Expert) == 300
    ensures Rank(d) < Rank(e) ==> BasePoints(d) < BasePoints(e)
  {
  }

  /** The multiplier never decreases as the streak grows. */
  lemma {:induction false} StreakMultiplierMonotone(s1: int, s2: int)
    requires s1 <= s2
    ensures StreakMultiplier(s1) <= StreakMultiplier(s2)
  {
    assert s1 / 5 <= s2 / 5 by {
      DivMonotone(s1, s2, 5);
    }
  }

  lemma {:induction false} DivMonotone(a: int, b: int, d: int)
    requires a <= b && d > 0
    ensures a / d <= b / d
  {
    assert d * (a / d) <= a && b < d * (b / d + 1);
    MulMonotoneIf(d, b / d + 1, a / d);
  }

  /** Multiplying by a non-negative factor keeps order, stated as an implication. */
  lemma MulMonotoneIf(d: int, x: int, y: int)
    requires d >= 0
    ensures x <= y ==> d * x <= d * y
  {
    if x <= y {
      MulMonotone(d, x, y);
    }
  }

  lemma {:induction false} MulMonotone(d: int, x: int, y: int)
    requires d >= 0 && x <= y
    ensures d * x <= d * y
  {
    assert d * y - d * x == d * (y - x);
  }

  /** With a non-negative streak, more time left never scores less. */
  lemma {:induction false} ScoreMonotoneInTime(t1: real, t2: real, streak: int, d: Difficulty)
    requires t1 <= t2 && streak >= 0
    ensures CalculateScore(true, t1, streak, d) <= CalculateScore(true, t2, streak, d)
  {
    var b1, b2 := TimeBonus(t1), TimeBonus(t2);
    assert b1 <= b2;
    MulMonotone(StreakMultiplier(streak), BasePoints(d) + b1, BasePoints(d) + b2);
  }

  /** While base plus bonus is not negative, a longer streak never scores less. */
  lemma {:induction false} ScoreMonotoneInStreak(timeLeft: real, s1: int, s2: int, d: Difficulty)
    requires s1 <= s2
    requires BasePoints(d) + TimeBonus(timeLeft) >= 0
    ensures CalculateScore(true, timeLeft, s1, d) <= CalculateScore(true, timeLeft, s2, d)
  {
    StreakMultiplierMonotone(s1, s2);
    MulMonotone(BasePoints(d) + TimeBonus(timeLeft), StreakMultiplier(s1), StreakMultiplier(s2));
  }

  /** From a streak of 20 on, a correct answer is worth exactly five times base plus bonus. */
  lemma ScoreCap(timeLeft: real, streak: int, d: Difficulty)
    requires streak >= 20
    ensures CalculateScore(true, timeLeft, streak, d) == 5 * (BasePoints(d) + TimeBonus(timeLeft))
  {
  }

  /** Worked values of the scoring formula. */
  lemma ScoreExamples()
    ensures CalculateScore(false, 99.0, 10, Beginner) == 0
    ensures CalculateScore(false, 0.0, 0, Expert) == 0
    ensures CalculateScore(true, 0.0, 0, Beginner) == 100
    ensures CalculateScore(true, 0.0, 0, Intermediate) == 150
    ensures CalculateScore(true, 0.0, 0, Advanced) == 200
    ensures CalculateScore(true, 0.0, 0, Expert) == 300
    ensures CalculateScore(true, 0.0, 4, Beginner) == 100
    ensures CalculateScore(true, 1.0, 0, Beginner) == 102
    ensures CalculateScore(true, 0.0, 5, Beginner) == 200
    ensures CalculateScore(true, 0.0, 9, Beginner) == 200
    ensures CalculateScore(true, 0.0, 10, Beginner) == 300
    ensures CalculateScore(true, 0.0, 20, Beginner) == 500
    ensures CalculateScore(true, 0.0, 30, Beginner) == 500
    ensures CalculateScore(true, -1.0, 0, Beginner) == 98
    ensures CalculateScore(true, 5.0, 10, Advanced) == 630
    ensures CalculateScore(true, 0.0, 30, Expert) == 1500
  {
  }

  // =====================================================================
  // Seed hashing

  const TWO_32: int := 0x1_0000_0000
  const TWO_31: int := 0x8000_0000

  /** JavaScript's ToInt32: the signed 32-bit integer congruent to x modulo 2^32. */
  function ToInt32(x: int): (r: int)
    ensures -TWO_31 <= r < TWO_31
    ensures (x - r) % TWO_32 == 0
  {
    (x + TWO_31) % TWO_32 - TWO_31
  }

  /** `hash << 5` on a 32-bit hash: the low 32 bits of hash * 32, read as signed. */
  function ShiftLeft5(hash: int): int
  {
    ToInt32(hash * 32)
  }

  /** One round of the seed hash: `hash = ((hash << 5) - hash) + code; hash |= 0`. */
  function HashStep(hash: int, c: char): int
  {
    ToInt32(ShiftLeft5(hash) - hash + c as int)
  }

  /** The hash of a whole seed string, folded from the left. */
  function HashOf(seed: string): (h: int)
    ensures -TWO_31 <= h < TWO_31
    decreases |seed|
  {
    if seed == [] then 0 else HashStep(HashOf(seed[..|seed| - 1]), seed[|seed| - 1])
  }

  /** The seed-hashing loop. */
  method SeedHash(seed: string) returns (hash: int)
    ensures hash == HashOf(seed)
  {
    hash := 0;
    var i := 0;
    while i < |seed|
      invariant 0 <= i <= |seed|
      invariant hash == HashOf(seed[..i])
    {
      assert seed[..i + 1][..i] == seed[..i];
      hash := ShiftLeft5(hash) - hash + seed[i] as int;
      hash := ToInt32(hash);
      i := i + 1;
    }
    assert seed[..i] == seed;
  }

  /** The unwrapped rolling polynomial: code units weighted by powers of 31. */
  function Polynomial(seed: string): int
    decreases |seed|
  {
    if seed == [] then 0 else Polynomial(seed[..|seed| - 1]) * 31 + seed[|seed| - 1] as int
  }

  lemma {:induction false} ToInt32Congruent(x: int, y: int)
    requires (x - y) % TWO_32 == 0
    ensures ToInt32(x) == ToInt32(y)
  {
    var k := (x - y) / TWO_32;
    assert x == y + k * TWO_32;
    assert (x + TWO_31) % TWO_32 == (y + TWO_31) % TWO_32 by {
      ModAddMultiple(y + TWO_31, k, TWO_32);
    }
  }

  lemma {:induction false} ModAddMultiple(a: int, k: int, n: int)
    requires n > 0
    ensures (a + k * n) % n == a % n
  {
    var q := a / n;
    var r := a % n;
    assert a == q * n + r;
    assert a + k * n == (q + k) * n + r;
    DivModUnique(a + k * n, q + k, r, n);
  }

  lemma {:induction false} DivModUnique(x: int, q: int, r: int, n: int)
    requires n > 0 && 0 <= r < n && x == q * n + r
    ensures x % n == r
  {
    var q', r' := x / n, x % n;
    assert x == q' * n + r';
    assert (q - q') * n == r' - r;
    MulMonotoneIf(n, 1, q - q');
    MulMonotoneIf(n, q - q', -1);
  }

  /** One hash round is `hash * 31 + code` wrapped to 32 bits: the shift's own wrap-around is harmless. */
  lemma {:induction false} HashStepIsTimes31(hash: int, c: char)
    ensures HashStep(hash, c) == ToInt32(hash * 31 + c as int)
  {
    var s := hash * 32;
    assert (ShiftLeft5(hash) - hash + c as int) - (hash * 31 + c as int) == ToInt32(s) - s;
    assert (s - ToInt32(s)) % TWO_32 == 0;
    var k := (s - ToInt32(s)) / TWO_32;
    assert ToInt32(s) - s == (-k) * TWO_32;
    assert ((ShiftLeft5(hash) - hash + c as int) - (hash * 31 + c as int)) % TWO_32 == 0 by {
      ModAddMultiple(0, -k, TWO_32);
    }
    ToInt32Congruent(ShiftLeft5(hash) - hash + c as int, hash * 31 + c as int);
  }

  /**
   * The seed hash is the rolling polynomial `h * 31 + code` wrapped to 32 bits
   * once at the end, so it depends on the seed and nothing else.
   */
  lemma {:induction false} HashOfIsWrappedPolynomial(seed: string)
    ensures HashOf(seed) == ToInt32(Polynomial(seed))
    decreases |seed|
  {
    if seed != [] {
      var init, c := seed[..|seed| - 1], seed[|seed| - 1];
      var h, p := HashOf(init), Polynomial(init);
      HashOfIsWrappedPolynomial(init);
      HashStepIsTimes31(h, c);
      // h and p agree modulo 2^32, hence so do h * 31 + c and p * 31 + c
      var k := (p - h) / TWO_32;
      assert (p - h) % TWO_32 == 0;
      assert p - h == k * TWO_32;
      assert (p * 31 + c as int) - (h * 31 + c as int) == (31 * k) * TWO_32;
      assert ((p * 31 + c as int) - (h * 31 + c as int)) % TWO_32 == 0 by {
        ModAddMultiple(0, 31 * k, TWO_32);
      }
      ToInt32Congruent(p * 31 + c as int, h * 31 + c as int);
    }
  }

  // =====================================================================
  // Draw streams

  /** Every draw lies in [0,1), as Math.random and the seeded generator promise. */
  ghost predicate IsUnitStream(draw: nat -> real)
  {
    forall i :: 0.0 <= draw(i) < 1.0
  }

  ghost predicate IsUnitMix(mix: int -> real)
  {
    forall x :: 0.0 <= mix(x) < 1.0
  }

  /**
   * The seeded stream: the closure increments the hash after every draw, so
   * the i-th draw mixes hash + i. Its draws lie in [0,1) when the mixer's do.
   */
  function SeededStream(hash: int, mix: int -> real): (draw: nat -> real)
    ensures IsUnitMix(mix) ==> IsUnitStream(draw)
  {
    i => mix(hash + i)
  }

  /** The stream the generator reads: seeded when the seed is non-empty (an empty string is falsy). */
  function DrawStream(seed: string, mix: int -> real, random: nat -> real): (draw: nat -> real)
    ensures IsUnitMix(mix) && IsUnitStream(random) ==> IsUnitStream(draw)
  {
    if |seed| > 0 then SeededStream(HashOf(seed), mix) else random
  }

  /**
   * A fixed list of values replayed in a cycle, as the test helper mocks
   * Math.random: the list in order, then again from its start.
   */
  function Cycled(values: seq<real>): (draw: nat -> real)
    requires |values| > 0
    ensures forall k :: 0 <= k < |values| ==> draw(k) == values[k]
    ensures forall i: nat :: draw(i + |values|) == draw(i)
    ensures (forall k :: 0 <= k < |values| ==> 0.0 <= values[k] < 1.0) ==> IsUnitStream(draw)
  {
    assert forall k :: 0 <= k < |values| ==> k % |values| == k by {
      forall k | 0 <= k < |values| {
        DivModUnique(k, 0, k, |values|);
      }
    }
    assert forall i: nat :: (i + |values|) % |values| == i % |values| by {
      forall i: nat {
        ModAddMultiple(i, 1, |values|);
      }
    }
    i => values[i % |values|]
  }

  /** `Math.floor(r * n)`: a draw turned into an index below n. */
  function Pick(r: real, n: nat): (k: int)
    requires 0.0 <= r < 1.0 && n > 0
    ensures 0 <= k < n
  {
    assert r * n as real < n as real by {
      assert (1.0 - r) * n as real > 0.0;
    }
    (r * n as real).Floor
  }

  // =====================================================================
  // Question generation

  /** The per-difficulty configuration the generator reads: its tables and allowed question kinds. */
  datatype DifficultyConfig = DifficultyConfig(tables: seq<int>, types: set<QuestionKind>)

  predicate ConfigsWellFormed(configs: map<Difficulty, DifficultyConfig>)
  {
    forall d :: d in configs ==> |configs[d].tables| > 0
  }

  /** `l × r = res`, the multiplication display. */
  function TimesText(l: string, r: string, res: string): string
  {
    l + " \U{00D7} " + r + " = " + res
  }

  /** `dividend ÷ divisor = ?`, the division display. */
  function DivideText(dividend: int, divisor: int): string
  {
    IntToString(dividend) + " \U{00F7} " + IntToString(divisor) + " = ?"
  }

  function ReverseHint(factorA: int, product: int): string
  {
    "Think: " + IntToString(factorA) + " x ? = " + IntToString(product)
  }

  function CountByHint(step: int, product: int): string
  {
    "Count by " + IntToString(step) + "s until you reach " + IntToString(product)
  }

  function AddHint(factorA: int, factorB: int): string
  {
    "Add " + IntToString(factorA) + " to itself " + IntToString(factorB) + " times."
  }

  /**
   * The kind roll, reading draws from index 2 on; returns the kind and the
   * index of the next unread draw. Outside boss mode each roll is drawn only
   * when its kind is allowed, because `&&` stops at a false left operand.
   */
  function RollKind(isBoss: bool, types: set<QuestionKind>, draw: nat -> real): (res: (QuestionKind, nat))
    ensures isBoss ==> res.1 == 3
    ensures !isBoss ==> 2 <= res.1 <= 4 && (res.0 == Standard || res.0 in types)
  {
    if isBoss then
      var roll := draw(2);
      (if roll > 0.6 then Reverse else if roll > 0.2 then Missing else Standard, 3)
    else if Reverse in types && draw(2) > 0.7 then (Reverse, 3)
    else
      var next := if Reverse in types then 3 else 2;
      if Missing in types && draw(next) > 0.6 then (Missing, next + 1)
      else (Standard, if Missing in types then next + 1 else next)
  }

  /** The question built from a draw stream, with the number of draws it read. */
  function Compose(id: string, tables: seq<int>, isBoss: bool, types: set<QuestionKind>, draw: nat -> real)
    : (res: (Question, nat))
    requires |tables| > 0 && IsUnitStream(draw)
    ensures res.0.id == id && res.0.factorA in tables
    ensures if isBoss then BOSS_FACTOR_MIN <= res.0.factorB <= BOSS_FACTOR_MAX else 1 <= res.0.factorB <= 12
    ensures res.0.kind == Standard || isBoss || res.0.kind in types
  {
    var factorA := tables[Pick(draw(0), |tables|)];
    var factorB := if isBoss then Pick(draw(1), BOSS_FACTOR_MAX - BOSS_FACTOR_MIN + 1) + BOSS_FACTOR_MIN
                   else Pick(draw(1), 12) + 1;
    var product := factorA * factorB;
    var (kind, next) := RollKind(isBoss, types, draw);
    match kind
    case Reverse =>
      (Question(id, Reverse, factorA, factorB, factorB,
                DivideText(product, factorA), ReverseHint(factorA, product)), next)
    case Missing =>
      if draw(next) > 0.5 then
        (Question(id, Missing, factorA, factorB, factorA,
                  TimesText("?", IntToString(factorB), IntToString(product)),
                  CountByHint(factorB, product)), next + 1)
      else
        (Question(id, Missing, factorA, factorB, factorB,
                  TimesText(IntToString(factorA), "?", IntToString(product)),
                  CountByHint(factorA, product)), next + 1)
    case Standard =>
      (Question(id, Standard, factorA, factorB, product,
                TimesText(IntToString(factorA), IntToString(factorB), "?"),
                AddHint(factorA, factorB)), next)
  }

  /**
   * `generateQuestion`: None when the call throws, which happens exactly when
   * the difficulty has no configuration and the mode is not boss (boss mode
   * never reads the configuration). Otherwise the question and the number of
   * draws it consumed.
   */
  function Generate(configs: map<Difficulty, DifficultyConfig>, difficulty: Difficulty, mode: GameMode,
                    seed: string, mix: int -> real, random: nat -> real, id: string)
    : (res: Option<(Question, nat)>)
    requires ConfigsWellFormed(configs) && IsUnitMix(mix) && IsUnitStream(random)
    ensures res.None? <==> mode != Boss && difficulty !in configs
    ensures res.Some? ==> res.value.0.id == id
  {
    var isBoss := mode == Boss;
    if !isBoss && difficulty !in configs then None
    else
      var tables := if isBoss then BOSS_TABLES else configs[difficulty].tables;
      var types := if isBoss then {} else configs[difficulty].types;
      Some(Compose(id, tables, isBoss, types, DrawStream(seed, mix, random)))
  }

  /**
   * The kind roll as the source runs it: `type` starts as standard and is
   * reassigned by the rolls, each draw advancing the cursor from `next`.
   */
  method DrawKind(isBoss: bool, types: set<QuestionKind>, rng: nat -> real) returns (kind: QuestionKind, next: nat)
    ensures (kind, next) == RollKind(isBoss, types, rng)
  {
    next := 2;
    kind := Standard;
    if isBoss {
      var roll := rng(next);
      next := next + 1;
      if roll > 0.6 {
        kind := Reverse;
      } else if roll > 0.2 {
        kind := Missing;
      }
    } else {
      var reverseRolled := false;
      if Reverse in types {
        reverseRolled := rng(next) > 0.7;
        next := next + 1;
      }
      if reverseRolled {
        kind := Reverse;
      } else {
        var missingRolled := false;
        if Missing in types {
          missingRolled := rng(next) > 0.6;
          next := next + 1;
        }
        if missingRolled {
          kind := Missing;
        }
      }
    }
  }

  /** Draws the factors, rolls the kind and fills in text, hint and answer. */
  method ComposeQuestion(id: string, tables: seq<int>, isBoss: bool, types: set<QuestionKind>, rng: nat -> real)
    returns (q: Question, drawsUsed: nat)
    requires |tables| > 0 && IsUnitStream(rng)
    ensures (q, drawsUsed) == Compose(id, tables, isBoss, types, rng)
  {
    var factorA := tables[Pick(rng(0), |tables|)];
    var factorBRange := if isBoss then BOSS_FACTOR_MAX - BOSS_FACTOR_MIN + 1 else 12;
    var factorBBase := if isBoss then BOSS_FACTOR_MIN else 1;
    var factorB := Pick(rng(1), factorBRange) + factorBBase;
    var product := factorA * factorB;

    var kind, next := DrawKind(isBoss, types, rng);

    var textDisplay := "";
    var hint := "";
    var expectedAnswer := product;
    match kind {
      case Reverse =>
        textDisplay := DivideText(product, factorA);
        hint := ReverseHint(factorA, product);
        expectedAnswer := factorB;
      case Missing =>
        var missingFactorA := rng(next) > 0.5;
        next := next + 1;
        if missingFactorA {
          textDisplay := TimesText("?", IntToString(factorB), IntToString(product));
          expectedAnswer := factorA;
          hint := CountByHint(factorB, product);
        } else {
          textDisplay := TimesText(IntToString(factorA), "?", IntToString(product));
          expectedAnswer := factorB;
          hint := CountByHint(factorA, product);
        }
      case Standard =>
        textDisplay := TimesText(IntToString(factorA), IntToString(factorB), "?");
        hint := AddHint(factorA, factorB);
        expectedAnswer := product;
    }
    q := Question(id, kind, factorA, factorB, expectedAnswer, textDisplay, hint);
    drawsUsed := next;
  }

  /** `generateQuestion` as the source runs it: look up the tables, hash the seed, then compose. */
  method GenerateQuestion(configs: map<Difficulty, DifficultyConfig>, difficulty: Difficulty, mode: GameMode,
                          seed: string, mix: int -> real, random: nat -> real, id: string)
    returns (q: Option<Question>, drawsUsed: nat)
    requires ConfigsWellFormed(configs) && IsUnitMix(mix) && IsUnitStream(random)
    ensures q.None? <==> Generate(configs, difficulty, mode, seed, mix, random, id).None?
    ensures q.Some? ==> (q.value, drawsUsed) == Generate(configs, difficulty, mode, seed, mix, random, id).value
  {
    var isBoss := mode == Boss;
    if !isBoss && difficulty !in configs {
      // reading `tables` of an undefined configuration throws
      return None, 0;
    }
    var tables := if isBoss then BOSS_TABLES else configs[difficulty].tables;
    var types := if isBoss then {} else configs[difficulty].types;

    var rng := random;
    if |seed| > 0 {
      var hash := SeedHash(seed);
      rng := SeededStream(hash, mix);
    }
    assert rng == DrawStream(seed, mix, random);

    var question;
    question, drawsUsed := ComposeQuestion(id, tables, isBoss, types, rng);
    q := Some(question);
  }

  // =====================================================================
  // Properties of the generator

  /** The first factor comes from the table list, the second from 1..12, or 6..15 in boss mode. */
  lemma FactorsInRange(configs: map<Difficulty, DifficultyConfig>, difficulty: Difficulty,
                       mode: GameMode, seed: string, mix: int -> real, random: nat -> real, id: string)
    requires ConfigsWellFormed(configs) && IsUnitMix(mix) && IsUnitStream(random)
    requires Generate(configs, difficulty, mode, seed, mix, random, id).Some?
    ensures var q := Generate(configs, difficulty, mode, seed, mix, random, id).value.0;
            if mode == Boss then q.factorA in BOSS_TABLES && BOSS_FACTOR_MIN <= q.factorB <= BOSS_FACTOR_MAX
            else q.factorA in configs[difficulty].tables && 1 <= q.factorB <= 12
  {
  }

  /** How many question marks a string holds. */
  function QuestionMarks(s: string): nat
  {
    multiset(s)['?']
  }

  lemma {:induction false} QuestionMarksOfTimes(l: string, r: string, res: string)
    ensures QuestionMarks(TimesText(l, r, res)) == QuestionMarks(l) + QuestionMarks(r) + QuestionMarks(res)
  {
    var sep1, sep2 := " \U{00D7} ", " = ";
    assert TimesText(l, r, res) == l + sep1 + r + sep2 + res;
    assert multiset(sep1)['?'] == 0 && multiset(sep2)['?'] == 0;
  }

  /**
   * The answer fits the kind: a standard question asks for the product, a
   * missing-factor question for the factor shown as `?` beside the product,
   * and a reverse question for the quotient of the product by the first
   * factor, which is exact.
   */
  lemma {:induction false} AnswerMatchesKind(id: string, tables: seq<int>, isBoss: bool, types: set<QuestionKind>,
                                             draw: nat -> real)
    requires |tables| > 0 && IsUnitStream(draw)
    ensures var q := Compose(id, tables, isBoss, types, draw).0;
            var a, b, product := q.factorA, q.factorB, q.factorA * q.factorB;
            && (q.kind == Standard ==>
                  q.answer == product && q.textDisplay == TimesText(IntToString(a), IntToString(b), "?"))
            && (q.kind == Missing ==>
                  || (q.answer == a && q.textDisplay == TimesText("?", IntToString(b), IntToString(product)))
                  || (q.answer == b && q.textDisplay == TimesText(IntToString(a), "?", IntToString(product))))
            && (q.kind == Reverse ==>
                  && q.answer == b && q.textDisplay == DivideText(product, a)
                  && product == a * q.answer
                  && (a != 0 ==> product % a == 0 && product / a == q.answer))
  {
    var q := Compose(id, tables, isBoss, types, draw).0;
    if q.kind == Reverse && q.factorA != 0 {
      ExactQuotient(q.factorA, q.factorB);
    }
  }

  /** Whatever the kind, the display holds exactly one `?`: the unknown. */
  lemma {:induction false} DisplayHasOneUnknown(id: string, tables: seq<int>, isBoss: bool, types: set<QuestionKind>,
                                                draw: nat -> real)
    requires |tables| > 0 && IsUnitStream(draw)
    ensures QuestionMarks(Compose(id, tables, isBoss, types, draw).0.textDisplay) == 1
  {
    var q := Compose(id, tables, isBoss, types, draw).0;
    var a, b, product := q.factorA, q.factorB, q.factorA * q.factorB;
    AnswerMatchesKind(id, tables, isBoss, types, draw);
    TimesTextsHaveOneUnknown(a, b, product);
    DivideTextHasOneUnknown(product, a);
  }

  /** Each multiplication display the generator builds has one `?`. */
  lemma TimesTextsHaveOneUnknown(a: int, b: int, product: int)
    ensures QuestionMarks(TimesText(IntToString(a), IntToString(b), "?")) == 1
    ensures QuestionMarks(TimesText("?", IntToString(b), IntToString(product))) == 1
    ensures QuestionMarks(TimesText(IntToString(a), "?", IntToString(product))) == 1
  {
    NumberHasNoUnknown(a);
    NumberHasNoUnknown(b);
    NumberHasNoUnknown(product);
    assert QuestionMarks("?") == 1;
    assert QuestionMarks(TimesText(IntToString(a), IntToString(b), "?")) == 1 by {
      QuestionMarksOfTimes(IntToString(a), IntToString(b), "?");
    }
    assert QuestionMarks(TimesText("?", IntToString(b), IntToString(product))) == 1 by {
      QuestionMarksOfTimes("?", IntToString(b), IntToString(product));
    }
    QuestionMarksOfTimes(IntToString(a), "?", IntToString(product));
  }

  lemma NumberHasNoUnknown(n: int)
    ensures QuestionMarks(IntToString(n)) == 0
  {
    IntToStringHasNoQuestionMark(n);
  }

  /** The division display has one `?`. */
  lemma DivideTextHasOneUnknown(dividend: int, divisor: int)
    ensures QuestionMarks(DivideText(dividend, divisor)) == 1
  {
    var sep := " \U{00F7} ";
    assert DivideText(dividend, divisor) == IntToString(dividend) + sep + IntToString(divisor) + " = ?";
    NumberHasNoUnknown(dividend);
    NumberHasNoUnknown(divisor);
    assert multiset(sep)['?'] == 0 && multiset(" = ?")['?'] == 1;
  }

  lemma {:induction false} ExactQuotient(a: int, b: int)
    requires a != 0
    ensures (a * b) % a == 0 && (a * b) / a == b
  {
    var q, r := (a * b) / a, (a * b) % a;
    assert a * b == a * q + r;
    assert 0 <= r < if a > 0 then a else -a;
    assert a * (b - q) == r;
    var m := if a > 0 then a else -a;
    assert m * (b - q) == r || m * (b - q) == -r by {
      if a > 0 {
        assert m * (b - q) == a * (b - q);
      } else {
        assert m * (b - q) == -(a * (b - q));
      }
    }
    assert m * (q - b) == -(m * (b - q));
    MulMonotoneIf(m, 1, b - q);
    MulMonotoneIf(m, 1, q - b);
    assert b == q;
  }

  /**
   * Which kind is rolled. In boss mode one roll decides: above 0.6 reverse,
   * above 0.2 missing. Otherwise reverse needs the kind configured and a roll
   * above 0.7; missing needs reverse not chosen, the kind configured and its
   * own roll above 0.6; everything else is standard.
   */
  lemma KindRule(isBoss: bool, types: set<QuestionKind>, draw: nat -> real)
    ensures var kind := RollKind(isBoss, types, draw).0;
            var reverseChosen := Reverse in types && draw(2) > 0.7;
            if isBoss then
              && (kind == Reverse <==> draw(2) > 0.6)
              && (kind == Missing <==> 0.2 < draw(2) <= 0.6)
            else
              && (kind == Reverse <==> reverseChosen)
              && (kind == Missing <==>
                    !reverseChosen && Missing in types && draw(if Reverse in types then 3 else 2) > 0.6)
  {
  }

  /**
   * The number of draws a question reads: two factors, one roll per
   * configured kind that is reached (one in boss mode), and a coin for a
   * missing-factor question; between 2 and 5 in all.
   */
  lemma DrawCount(id: string, tables: seq<int>, isBoss: bool, types: set<QuestionKind>, draw: nat -> real)
    requires |tables| > 0 && IsUnitStream(draw)
    ensures var (q, used) := Compose(id, tables, isBoss, types, draw);
            && 2 <= used <= 5
            && (isBoss ==> used == if q.kind == Missing then 4 else 3)
            && (!isBoss ==>
                  used == 2 + (if Reverse in types then 1 else 0)
                            + (if Missing in types && q.kind != Reverse then 1 else 0)
                            + (if q.kind == Missing then 1 else 0))
  {
  }

  /**
   * Draws are read in a fixed order and only the first `used` of them
   * matter: two streams that agree on those give the same question.
   */
  lemma {:induction false} OnlyUsedDrawsMatter(id: string, tables: seq<int>, isBoss: bool, types: set<QuestionKind>,
                                               d1: nat -> real, d2: nat -> real)
    requires |tables| > 0 && IsUnitStream(d1) && IsUnitStream(d2)
    requires forall i: nat :: i < Compose(id, tables, isBoss, types, d1).1 ==> d1(i) == d2(i)
    ensures Compose(id, tables, isBoss, types, d1) == Compose(id, tables, isBoss, types, d2)
  {
    var used := Compose(id, tables, isBoss, types, d1).1;
    assert d1(0) == d2(0) && d1(1) == d2(1) by {
      DrawCount(id, tables, isBoss, types, d1);
    }
    var (k1, n1) := RollKind(isBoss, types, d1);
    assert RollKind(isBoss, types, d1) == RollKind(isBoss, types, d2) by {
      DrawCount(id, tables, isBoss, types, d1);
      if isBoss {
        assert d1(2) == d2(2);
      } else if Reverse in types {
        assert d1(2) == d2(2);
        if !(d1(2) > 0.7) && Missing in types {
          assert d1(3) == d2(3);
        }
      } else if Missing in types {
        assert d1(2) == d2(2);
      }
    }
    if k1 == Missing {
      assert d1(n1) == d2(n1) by {
        DrawCount(id, tables, isBoss, types, d1);
        assert n1 < used;
      }
    }
    ComposeReads(id, tables, isBoss, types, d1, d2);
  }

  /** Compose reads the two factor draws, the kind roll and, for a missing factor, one draw after the roll. */
  lemma ComposeReads(id: string, tables: seq<int>, isBoss: bool, types: set<QuestionKind>,
                     d1: nat -> real, d2: nat -> real)
    requires |tables| > 0 && IsUnitStream(d1) && IsUnitStream(d2)
    requires d1(0) == d2(0) && d1(1) == d2(1) && RollKind(isBoss, types, d1) == RollKind(isBoss, types, d2)
    requires var (k, n) := RollKind(isBoss, types, d1); k == Missing ==> d1(n) == d2(n)
    ensures Compose(id, tables, isBoss, types, d1) == Compose(id, tables, isBoss, types, d2)
  {
  }

  /**
   * A non-empty seed makes generation reproducible: the result does not
   * depend on Math.random, and seeds with the same 32-bit hash (in
   * particular the same seed twice) give the same question.
   */
  lemma SeededIsDeterministic(configs: map<Difficulty, DifficultyConfig>, difficulty: Difficulty, mode: GameMode,
                              seed1: string, seed2: string, mix: int -> real,
                              random1: nat -> real, random2: nat -> real, id: string)
    requires ConfigsWellFormed(configs) && IsUnitMix(mix) && IsUnitStream(random1) && IsUnitStream(random2)
    requires |seed1| > 0 && |seed2| > 0 && HashOf(seed1) == HashOf(seed2)
    ensures Generate(configs, difficulty, mode, seed1, mix, random1, id)
         == Generate(configs, difficulty, mode, seed2, mix, random2, id)
  {
  }

  /** Without a seed (or with the empty string) the draws are the successive Math.random values. */
  lemma UnseededUsesMathRandom(configs: map<Difficulty, DifficultyConfig>, difficulty: Difficulty, mode: GameMode,
                               mix1: int -> real, mix2: int -> real, random: nat -> real, id: string)
    requires ConfigsWellFormed(configs) && IsUnitMix(mix1) && IsUnitMix(mix2) && IsUnitStream(random)
    ensures Generate(configs, difficulty, mode, "", mix1, random, id)
         == Generate(configs, difficulty, mode, "", mix2, random, id)
    ensures mode == Boss || difficulty in configs ==>
              (Generate(configs, difficulty, mode, "", mix1, random, id).value
               == Compose(id, if mode == Boss then BOSS_TABLES else configs[difficulty].tables, mode == Boss,
                          if mode == Boss then {} else configs[difficulty].types, random))
  {
  }

  /** Boss mode with Math.random returning 0, 0, 0.1: the first boss table times 6, asked as a standard question. */
  lemma BossExample(configs: map<Difficulty, DifficultyConfig>, mix: int -> real, id: string)
    requires ConfigsWellFormed(configs) && IsUnitMix(mix)
    ensures Generate(configs, Beginner, Boss, "", mix, Cycled([0.0, 0.0, 0.1]), id)
         == Some((Question(id, Standard, 7, 6, 42, "7 \U{00D7} 6 = ?", "Add 7 to itself 6 times."), 3))
  {
    var values := [0.0, 0.0, 0.1];
    var random := Cycled(values);
    assert random(0) == 0.0 && random(1) == 0.0 && random(2) == 0.1;
    assert IsUnitStream(random) by {
      assert forall k :: 0 <= k < |values| ==> 0.0 <= values[k] < 1.0;
    }
    assert DrawStream("", mix, random) == random;
    BossDraws(id, random);
  }

  /** A boss question whose first three draws are 0, 0 and 0.1. */
  lemma BossDraws(id: string, draw: nat -> real)
    requires IsUnitStream(draw) && draw(0) == 0.0 && draw(1) == 0.0 && draw(2) == 0.1
    ensures Compose(id, BOSS_TABLES, true, {}, draw)
         == (Question(id, Standard, 7, 6, 42, "7 \U{00D7} 6 = ?", "Add 7 to itself 6 times."), 3)
  {
    assert Pick(0.0, 8) == 0 && Pick(0.0, 10) == 0;
    assert RollKind(true, {}, draw) == (Standard, 3);
    assert IntToString(7) == "7" && IntToString(6) == "6";
    assert TimesText("7", "6", "?") == "7 \U{00D7} 6 = ?";
    assert AddHint(7, 6) == "Add 7 to itself 6 times.";
  }
}
