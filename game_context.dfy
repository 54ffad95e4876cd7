/**
 * The progression reducer (context/GameContext.tsx): five actions over the
 * player's statistics, each followed by an unlock scan that appends newly
 * earned badges and newly unlocked themes and reports them for this
 * transition only.
 *
 * The current date and the statistics the storage layer would load are
 * parameters; saving the new statistics is not modelled.
 */
module GameContext {
  import opened Types
  import opened Constants

  datatype Action =
    | AddXp(amount: int)
    | UpdateMastery(table: int, wasCorrect: bool)
    | CompleteGame(correct: int, total: int, bestStreak: int, mode: GameMode)
    | SetTheme(themeId: string)
    | ResetProgress

  datatype GameState = GameState(
    user: UserStats,
    achievedThisSession: seq<Achievement>,
    themesUnlockedThisSession: seq<string>
  )

  // =====================================================================
  // The unlock pass over one rule table

  /** Which id list of the statistics an unlock pass appends to. */
  datatype Slot = BadgeSlot | ThemeSlot

  function Owned(u: UserStats, slot: Slot): seq<string>
  {
    match slot
    case BadgeSlot => u.badges
    case ThemeSlot => u.unlockedThemes
  }

  function WithOwned(u: UserStats, slot: Slot, ids: seq<string>): UserStats
  {
    match slot
    case BadgeSlot => u.(badges := ids)
    case ThemeSlot => u.(unlockedThemes := ids)
  }

  /** The ids of a list of rules. */
  function Ids<R>(rules: seq<R>, idOf: R -> string): (ids: seq<string>)
    ensures |ids| == |rules|
    ensures forall k :: 0 <= k < |rules| ==> ids[k] == idOf(rules[k])
    decreases |rules|
  {
    if rules == [] then [] else Ids(rules[..|rules| - 1], idOf) + [idOf(rules[|rules| - 1])]
  }

  /** The ids of a list extended by one rule are the old ids and that rule's id. */
  lemma IdsAppend<R>(rules: seq<R>, rule: R, idOf: R -> string)
    ensures Ids(rules + [rule], idOf) == Ids(rules, idOf) + [idOf(rule)]
  {
    assert (rules + [rule])[..|rules|] == rules;
  }

  predicate NoDuplicates(ids: seq<string>)
  {
    forall i, j :: 0 <= i < j < |ids| ==> ids[i] != ids[j]
  }

  /**
   * One iteration of a `forEach` pass: a rule whose id is not yet in the
   * slot and whose predicate holds of the statistics as they stand is
   * appended to the slot and to the list of the pass's additions.
   */
  function Step<R>(acc: (UserStats, seq<R>), rule: R, idOf: R -> string, holds: (R, UserStats) -> bool, slot: Slot)
    : (UserStats, seq<R>)
  {
    if idOf(rule) !in Owned(acc.0, slot) && holds(rule, acc.0)
    then (WithOwned(acc.0, slot, Owned(acc.0, slot) + [idOf(rule)]), acc.1 + [rule])
    else acc
  }

  /** The `forEach` pass over `rules` in order, starting from `user` and no additions. */
  function Scan<R>(rules: seq<R>, idOf: R -> string, holds: (R, UserStats) -> bool, slot: Slot, user: UserStats)
    : (res: (UserStats, seq<R>))
    ensures Owned(res.0, slot) == Owned(user, slot) + Ids(res.1, idOf)
    ensures res.0 == WithOwned(user, slot, Owned(res.0, slot))
    ensures forall k :: 0 <= k < |res.1| ==> idOf(res.1[k]) !in Owned(user, slot) && res.1[k] in rules
    decreases |rules|
  {
    if rules == [] then (user, [])
    else
      var acc := Scan(rules[..|rules| - 1], idOf, holds, slot, user);
      StepShape(acc, rules[..|rules| - 1], rules[|rules| - 1], idOf, holds, slot, user);
      assert rules[..|rules| - 1] + [rules[|rules| - 1]] == rules;
      Step(acc, rules[|rules| - 1], idOf, holds, slot)
  }

  /** One iteration keeps the shape Scan promises, with the rule added to the rules seen. */
  lemma StepShape<R>(acc: (UserStats, seq<R>), seen: seq<R>, rule: R, idOf: R -> string,
                     holds: (R, UserStats) -> bool, slot: Slot, user: UserStats)
    requires Owned(acc.0, slot) == Owned(user, slot) + Ids(acc.1, idOf)
    requires acc.0 == WithOwned(user, slot, Owned(acc.0, slot))
    requires forall k :: 0 <= k < |acc.1| ==> idOf(acc.1[k]) !in Owned(user, slot) && acc.1[k] in seen
    ensures var next := Step(acc, rule, idOf, holds, slot);
            && Owned(next.0, slot) == Owned(user, slot) + Ids(next.1, idOf)
            && next.0 == WithOwned(user, slot, Owned(next.0, slot))
            && forall k :: 0 <= k < |next.1| ==> idOf(next.1[k]) !in Owned(user, slot) && next.1[k] in seen + [rule]
  {
    var next := Step(acc, rule, idOf, holds, slot);
    if next != acc {
      IdsAppend(acc.1, rule, idOf);
      assert next.1 == acc.1 + [rule];
      assert idOf(rule) !in Owned(acc.0, slot);
      match slot
      case BadgeSlot =>
      case ThemeSlot =>
    }
  }

  /** One more rule: the pass over the first i + 1 rules is one iteration after the pass over the first i. */
  lemma ScanExtend<R>(rules: seq<R>, i: int, idOf: R -> string, holds: (R, UserStats) -> bool,
                      slot: Slot, user: UserStats)
    requires 0 <= i < |rules|
    ensures Scan(rules[..i + 1], idOf, holds, slot, user)
            == Step(Scan(rules[..i], idOf, holds, slot, user), rules[i], idOf, holds, slot)
  {
    assert rules[..i + 1][..i] == rules[..i];
  }

  /** A pass never lists an id twice: each addition is checked against the list as it stands. */
  lemma {:induction false} ScanKeepsNoDuplicates<R>(rules: seq<R>, idOf: R -> string,
                                                    holds: (R, UserStats) -> bool, slot: Slot, user: UserStats)
    requires NoDuplicates(Owned(user, slot))
    ensures NoDuplicates(Owned(Scan(rules, idOf, holds, slot, user).0, slot))
    decreases |rules|
  {
    if rules != [] {
      var prefix, rule := rules[..|rules| - 1], rules[|rules| - 1];
      ScanKeepsNoDuplicates(prefix, idOf, holds, slot, user);
      var acc := Scan(prefix, idOf, holds, slot, user);
      assert Scan(rules, idOf, holds, slot, user) == Step(acc, rule, idOf, holds, slot);
      if idOf(rule) !in Owned(acc.0, slot) && holds(rule, acc.0) {
        NoDuplicatesAppend(Owned(acc.0, slot), idOf(rule));
        assert Owned(Step(acc, rule, idOf, holds, slot).0, slot) == Owned(acc.0, slot) + [idOf(rule)] by {
          match slot
          case BadgeSlot =>
          case ThemeSlot =>
        }
      }
    }
  }

  /** Appending an id that is not yet listed keeps a list free of duplicates. */
  lemma NoDuplicatesAppend(ids: seq<string>, id: string)
    requires NoDuplicates(ids) && id !in ids
    ensures NoDuplicates(ids + [id])
  {
  }

  /** Two statistics that differ at most in their badge and theme lists. */
  predicate SameProgress(u: UserStats, v: UserStats)
  {
    && u.xp == v.xp && u.level == v.level
    && u.totalQuestionsAnswered == v.totalQuestionsAnswered && u.totalCorrect == v.totalCorrect
    && u.streakRecord == v.streakRecord && u.mastery == v.mastery
    && u.lastDailyChallenge == v.lastDailyChallenge && u.dailyStreak == v.dailyStreak
    && u.theme == v.theme
  }

  /** The rules' predicates do not look at the badge or theme lists. */
  ghost predicate IgnoresUnlocks<R>(rules: seq<R>, holds: (R, UserStats) -> bool)
  {
    forall i, u, v :: 0 <= i < |rules| && SameProgress(u, v) ==> holds(rules[i], u) == holds(rules[i], v)
  }

  /** Rules that ignore the unlock lists still do after dropping the last one. */
  lemma IgnoresUnlocksPrefix<R>(rules: seq<R>, holds: (R, UserStats) -> bool)
    requires rules != [] && IgnoresUnlocks(rules, holds)
    ensures IgnoresUnlocks(rules[..|rules| - 1], holds)
  {
    var prefix := rules[..|rules| - 1];
    forall i, u, v | 0 <= i < |prefix| && SameProgress(u, v)
      ensures holds(prefix[i], u) == holds(prefix[i], v)
    {
      assert prefix[i] == rules[i];
    }
  }

  predicate DistinctIds<R>(rules: seq<R>, idOf: R -> string)
  {
    forall i, j :: 0 <= i < j < |rules| ==> idOf(rules[i]) != idOf(rules[j])
  }

  /** The rules, in table order, that are not yet owned and whose predicate holds. */
  function Eligible<R>(rules: seq<R>, idOf: R -> string, holds: (R, UserStats) -> bool, slot: Slot, user: UserStats)
    : seq<R>
    decreases |rules|
  {
    if rules == [] then []
    else
      var prefix, rule := rules[..|rules| - 1], rules[|rules| - 1];
      Eligible(prefix, idOf, holds, slot, user) + Include(rule, idOf, holds, slot, user)
  }

  /** The rule as a one-element list when it is not yet owned and its predicate holds, else nothing. */
  function Include<R>(rule: R, idOf: R -> string, holds: (R, UserStats) -> bool, slot: Slot, user: UserStats)
    : seq<R>
  {
    if idOf(rule) !in Owned(user, slot) && holds(rule, user) then [rule] else []
  }

  /**
   * With distinct ids and predicates that ignore the unlock lists, a pass
   * adds exactly the eligible rules, in table order.
   */
  lemma {:induction false} ScanAddsEligible<R>(rules: seq<R>, idOf: R -> string, holds: (R, UserStats) -> bool,
                                               slot: Slot, user: UserStats)
    requires DistinctIds(rules, idOf) && IgnoresUnlocks(rules, holds)
    ensures Scan(rules, idOf, holds, slot, user).1 == Eligible(rules, idOf, holds, slot, user)
    decreases |rules|
  {
    if rules != [] {
      var prefix, rule := rules[..|rules| - 1], rules[|rules| - 1];
      assert DistinctIds(prefix, idOf);
      IgnoresUnlocksPrefix(rules, holds);
      ScanAddsEligible(prefix, idOf, holds, slot, user);
      var (u, added) := Scan(prefix, idOf, holds, slot, user);
      // the rule's own id is not among the earlier additions
      assert idOf(rule) in Owned(u, slot) <==> idOf(rule) in Owned(user, slot);
      assert holds(rule, u) == holds(rule, user) by {
        assert SameProgress(u, user);
        assert rules[|rules| - 1] == rule;
      }
    }
  }

  /** Every rule is owned or its predicate fails. */
  predicate Saturated<R>(rules: seq<R>, idOf: R -> string, holds: (R, UserStats) -> bool, slot: Slot, u: UserStats)
  {
    forall i :: 0 <= i < |rules| ==> idOf(rules[i]) in Owned(u, slot) || !holds(rules[i], u)
  }

  lemma WithOwnedSameProgress(u: UserStats, slot: Slot, ids: seq<string>)
    ensures SameProgress(u, WithOwned(u, slot, ids))
  {
  }

  /** After a pass every rule is owned or its predicate fails. */
  lemma {:induction false} ScanSaturates<R>(rules: seq<R>, idOf: R -> string, holds: (R, UserStats) -> bool,
                                            slot: Slot, user: UserStats)
    requires IgnoresUnlocks(rules, holds)
    ensures Saturated(rules, idOf, holds, slot, Scan(rules, idOf, holds, slot, user).0)
    decreases |rules|
  {
    if rules != [] {
      var prefix, rule := rules[..|rules| - 1], rules[|rules| - 1];
      IgnoresUnlocksPrefix(rules, holds);
      ScanSaturates(prefix, idOf, holds, slot, user);
      var acc := Scan(prefix, idOf, holds, slot, user);
      assert Saturated(rules, idOf, holds, slot, Scan(rules, idOf, holds, slot, user).0) by {
        assert Scan(rules, idOf, holds, slot, user).0 == Step(acc, rule, idOf, holds, slot).0;
        assert prefix + [rule] == rules;
        StepSaturates(prefix, rule, idOf, holds, slot, acc);
      }
    }
  }

  /** One iteration over statistics saturated for the rules seen leaves them saturated for those rules and the next. */
  lemma StepSaturates<R>(seen: seq<R>, rule: R, idOf: R -> string, holds: (R, UserStats) -> bool, slot: Slot,
                         acc: (UserStats, seq<R>))
    requires IgnoresUnlocks(seen + [rule], holds)
    requires Saturated(seen, idOf, holds, slot, acc.0)
    ensures Saturated(seen + [rule], idOf, holds, slot, Step(acc, rule, idOf, holds, slot).0)
  {
    var rules := seen + [rule];
    var u := acc.0;
    var u' := Step(acc, rule, idOf, holds, slot).0;
    var grown := u' != u;
    assert grown ==> u' == WithOwned(u, slot, Owned(u, slot) + [idOf(rule)]);
    assert SameProgress(u, u') by {
      if grown {
        WithOwnedSameProgress(u, slot, Owned(u, slot) + [idOf(rule)]);
      }
    }
    forall i | 0 <= i < |rules|
      ensures idOf(rules[i]) in Owned(u', slot) || !holds(rules[i], u')
    {
      if i < |seen| {
        assert rules[i] == seen[i];
        if idOf(rules[i]) !in Owned(u, slot) {
          assert !holds(rules[i], u);
        }
      }
    }
  }

  /** A pass over statistics where every rule is owned or failing changes nothing and reports nothing. */
  lemma {:induction false} ScanOfSaturated<R>(rules: seq<R>, idOf: R -> string, holds: (R, UserStats) -> bool,
                                              slot: Slot, user: UserStats)
    requires Saturated(rules, idOf, holds, slot, user)
    ensures Scan(rules, idOf, holds, slot, user) == (user, [])
    decreases |rules|
  {
    if rules != [] {
      var prefix := rules[..|rules| - 1];
      assert forall i :: 0 <= i < |prefix| ==> prefix[i] == rules[i];
      ScanOfSaturated(prefix, idOf, holds, slot, user);
    }
  }

  /** Running a pass again on its own output adds nothing: a rule is reported at most once. */
  lemma ScanIdempotent<R>(rules: seq<R>, idOf: R -> string, holds: (R, UserStats) -> bool,
                          slot: Slot, user: UserStats)
    requires IgnoresUnlocks(rules, holds)
    ensures var u := Scan(rules, idOf, holds, slot, user).0;
            Scan(rules, idOf, holds, slot, u) == (u, [])
  {
    ScanSaturates(rules, idOf, holds, slot, user);
    ScanOfSaturated(rules, idOf, holds, slot, Scan(rules, idOf, holds, slot, user).0);
  }

  /** Membership in the eligible list. */
  lemma {:induction false} EligibleMembers<R>(rules: seq<R>, idOf: R -> string, holds: (R, UserStats) -> bool,
                                              slot: Slot, user: UserStats, x: R)
    ensures x in Eligible(rules, idOf, holds, slot, user)
            <==> x in rules && idOf(x) !in Owned(user, slot) && holds(x, user)
    decreases |rules|
  {
    if rules != [] {
      var prefix := rules[..|rules| - 1];
      EligibleMembers(prefix, idOf, holds, slot, user, x);
      assert rules == prefix + [rules[|rules| - 1]];
    }
  }

  /** Eligibility depends only on the slot and on the statistics outside the unlock lists. */
  lemma {:induction false} EligibleAgrees<R>(rules: seq<R>, idOf: R -> string, holds: (R, UserStats) -> bool,
                                             slot: Slot, u: UserStats, v: UserStats)
    requires IgnoresUnlocks(rules, holds) && SameProgress(u, v) && Owned(u, slot) == Owned(v, slot)
    ensures Eligible(rules, idOf, holds, slot, u) == Eligible(rules, idOf, holds, slot, v)
    decreases |rules|
  {
    if rules != [] {
      var prefix := rules[..|rules| - 1];
      IgnoresUnlocksPrefix(rules, holds);
      EligibleAgrees(prefix, idOf, holds, slot, u, v);
    }
  }

  /**
   * After a pass a rule's id is owned exactly when it was owned before or
   * its predicate holds of the statistics the pass started from.
   */
  lemma ScanOwnsExactly<R>(rules: seq<R>, idOf: R -> string, holds: (R, UserStats) -> bool,
                           slot: Slot, user: UserStats, i: int)
    requires DistinctIds(rules, idOf) && IgnoresUnlocks(rules, holds) && 0 <= i < |rules|
    ensures idOf(rules[i]) in Owned(Scan(rules, idOf, holds, slot, user).0, slot)
            <==> idOf(rules[i]) in Owned(user, slot) || holds(rules[i], user)
  {
    var (u, added) := Scan(rules, idOf, holds, slot, user);
    ScanAddsEligible(rules, idOf, holds, slot, user);
    var r := rules[i];
    if idOf(r) in Owned(u, slot) && idOf(r) !in Owned(user, slot) {
      var k :| 0 <= k < |added| && Ids(added, idOf)[k] == idOf(r);
      EligibleMembers(rules, idOf, holds, slot, user, added[k]);
      var j :| 0 <= j < |rules| && rules[j] == added[k];
      assert j == i;
    }
    if holds(r, user) && idOf(r) !in Owned(user, slot) {
      EligibleMembers(rules, idOf, holds, slot, user, r);
      var k :| 0 <= k < |added| && added[k] == r;
      assert Ids(added, idOf)[k] == idOf(r);
    }
  }

  // =====================================================================
  // checkUnlocks: the achievement pass, then the theme pass

  function AchievementId(a: Achievement): string { a.id }

  predicate AchievementHolds(a: Achievement, u: UserStats) { a.condition(u) }

  function ThemeId(t: Theme): string { t.id }

  predicate ThemeHolds(t: Theme, u: UserStats) { t.unlockCondition(u) }

  lemma AchievementRulesIgnoreUnlocks()
    ensures IgnoresUnlocks(ACHIEVEMENTS, AchievementHolds)
    ensures DistinctIds(ACHIEVEMENTS, AchievementId)
  {
    AchievementIds();
    forall i, u, v | 0 <= i < |ACHIEVEMENTS| && SameProgress(u, v)
      ensures AchievementHolds(ACHIEVEMENTS[i], u) == AchievementHolds(ACHIEVEMENTS[i], v)
    {
      AchievementConditions(u);
      AchievementConditions(v);
    }
  }

  lemma ThemeRulesIgnoreUnlocks()
    ensures IgnoresUnlocks(ThemeValues(), ThemeHolds)
    ensures DistinctIds(ThemeValues(), ThemeId)
  {
    ThemeKeysAreIds();
    forall i, u, v | 0 <= i < |ThemeValues()| && SameProgress(u, v)
      ensures ThemeHolds(ThemeValues()[i], u) == ThemeHolds(ThemeValues()[i], v)
    {
      ThemeConditions(u);
      ThemeConditions(v);
    }
  }

  /** What checkUnlocks returns: the new statistics and this pass's additions. */
  datatype Unlocks = Unlocks(user: UserStats, newBadges: seq<Achievement>, newThemes: seq<string>)

  /**
   * The two passes of checkUnlocks. Badges and themes are only appended to,
   * every other field is left alone, and each reported addition was not
   * owned before.
   */
  function UnlockScan(user: UserStats): (res: Unlocks)
    ensures res.user.badges == user.badges + Ids(res.newBadges, AchievementId)
    ensures res.user.unlockedThemes == user.unlockedThemes + res.newThemes
    ensures SameProgress(user, res.user)
    ensures forall k :: 0 <= k < |res.newBadges| ==> res.newBadges[k].id !in user.badges
    ensures forall k :: 0 <= k < |res.newThemes| ==> res.newThemes[k] !in user.unlockedThemes
  {
    var (afterBadges, badges) := Scan(ACHIEVEMENTS, AchievementId, AchievementHolds, BadgeSlot, user);
    var (afterThemes, themes) := Scan(ThemeValues(), ThemeId, ThemeHolds, ThemeSlot, afterBadges);
    Unlocks(afterThemes, badges, Ids(themes, ThemeId))
  }

  /** The body of the achievement loop: award `ach` when it is new and its condition holds. */
  method AwardAchievement(ach: Achievement, user: UserStats, badges: seq<Achievement>)
    returns (newUser: UserStats, newBadges: seq<Achievement>)
    ensures (newUser, newBadges) == Step((user, badges), ach, AchievementId, AchievementHolds, BadgeSlot)
  {
    newUser, newBadges := user, badges;
    if ach.id !in user.badges && ach.condition(user) {
      newUser := user.(badges := user.badges + [ach.id]);
      newBadges := badges + [ach];
    }
  }

  /** The achievement loop of checkUnlocks, over the table it is given. */
  method PassAchievements(achievements: seq<Achievement>, user: UserStats)
    returns (newUser: UserStats, newBadges: seq<Achievement>)
    ensures (newUser, newBadges) == Scan(achievements, AchievementId, AchievementHolds, BadgeSlot, user)
  {
    newUser := user;
    newBadges := [];
    var i := 0;
    while i < |achievements|
      invariant 0 <= i <= |achievements|
      invariant (newUser, newBadges) == Scan(achievements[..i], AchievementId, AchievementHolds, BadgeSlot, user)
    {
      ScanExtend(achievements, i, AchievementId, AchievementHolds, BadgeSlot, user);
      newUser, newBadges := AwardAchievement(achievements[i], newUser, newBadges);
      i := i + 1;
    }
    assert achievements[..i] == achievements;
  }

  /** The body of the theme loop: unlock `theme` when it is new and its condition holds. */
  method UnlockTheme(theme: Theme, user: UserStats, themes: seq<string>, ghost added: seq<Theme>)
    returns (newUser: UserStats, newThemes: seq<string>, ghost newAdded: seq<Theme>)
    requires themes == Ids(added, ThemeId)
    ensures (newUser, newAdded) == Step((user, added), theme, ThemeId, ThemeHolds, ThemeSlot)
    ensures newThemes == Ids(newAdded, ThemeId)
  {
    newUser, newThemes, newAdded := user, themes, added;
    if theme.id !in user.unlockedThemes && theme.unlockCondition(user) {
      IdsAppend(added, theme, ThemeId);
      newUser := user.(unlockedThemes := user.unlockedThemes + [theme.id]);
      newThemes := themes + [theme.id];
      newAdded := added + [theme];
    }
  }

  /** The theme loop of checkUnlocks, over the themes it is given. */
  method PassThemes(themes: seq<Theme>, user: UserStats) returns (newUser: UserStats, newThemes: seq<string>)
    ensures newUser == Scan(themes, ThemeId, ThemeHolds, ThemeSlot, user).0
    ensures newThemes == Ids(Scan(themes, ThemeId, ThemeHolds, ThemeSlot, user).1, ThemeId)
  {
    newUser := user;
    newThemes := [];
    ghost var added: seq<Theme> := [];
    var j := 0;
    while j < |themes|
      invariant 0 <= j <= |themes|
      invariant (newUser, added) == Scan(themes[..j], ThemeId, ThemeHolds, ThemeSlot, user)
      invariant newThemes == Ids(added, ThemeId)
    {
      ScanExtend(themes, j, ThemeId, ThemeHolds, ThemeSlot, user);
      newUser, newThemes, added := UnlockTheme(themes[j], newUser, newThemes, added);
      j := j + 1;
    }
    assert themes[..j] == themes;
  }

  /** checkUnlocks as the source runs it: the achievement loop, then the theme loop on its result. */
  method CheckUnlocks(user: UserStats) returns (res: Unlocks)
    ensures res == UnlockScan(user)
  {
    var afterBadges, newBadges := PassAchievements(ACHIEVEMENTS, user);
    var newUser, newThemes := PassThemes(ThemeValues(), afterBadges);
    res := Unlocks(newUser, newBadges, newThemes);
  }

  /** The badges reported are exactly the eligible achievements, in table order; likewise the themes. */
  lemma UnlockScanReportsEligible(user: UserStats)
    ensures UnlockScan(user).newBadges == Eligible(ACHIEVEMENTS, AchievementId, AchievementHolds, BadgeSlot, user)
    ensures UnlockScan(user).newThemes
            == Ids(Eligible(ThemeValues(), ThemeId, ThemeHolds, ThemeSlot, user), ThemeId)
  {
    AchievementRulesIgnoreUnlocks();
    ThemeRulesIgnoreUnlocks();
    ScanAddsEligible(ACHIEVEMENTS, AchievementId, AchievementHolds, BadgeSlot, user);
    var afterBadges := Scan(ACHIEVEMENTS, AchievementId, AchievementHolds, BadgeSlot, user).0;
    ScanAddsEligible(ThemeValues(), ThemeId, ThemeHolds, ThemeSlot, afterBadges);
    EligibleAgrees(ThemeValues(), ThemeId, ThemeHolds, ThemeSlot, afterBadges, user);
  }

  /** A badge is owned after the pass exactly when it was owned before or its predicate holds. */
  lemma BadgeOwnedIff(user: UserStats, i: int)
    requires 0 <= i < |ACHIEVEMENTS|
    ensures ACHIEVEMENTS[i].id in UnlockScan(user).user.badges
            <==> ACHIEVEMENTS[i].id in user.badges || ACHIEVEMENTS[i].condition(user)
  {
    AchievementRulesIgnoreUnlocks();
    ScanOwnsExactly(ACHIEVEMENTS, AchievementId, AchievementHolds, BadgeSlot, user, i);
  }

  /** A theme is unlocked after the pass exactly when it was before or its predicate holds. */
  lemma ThemeOwnedIff(user: UserStats, i: int)
    requires 0 <= i < |ThemeValues()|
    ensures ThemeValues()[i].id in UnlockScan(user).user.unlockedThemes
            <==> ThemeValues()[i].id in user.unlockedThemes || ThemeValues()[i].unlockCondition(user)
  {
    var afterBadges := Scan(ACHIEVEMENTS, AchievementId, AchievementHolds, BadgeSlot, user).0;
    assert afterBadges.unlockedThemes == user.unlockedThemes;
    assert ThemeHolds(ThemeValues()[i], afterBadges) == ThemeHolds(ThemeValues()[i], user) by {
      ThemeRulesIgnoreUnlocks();
      assert SameProgress(afterBadges, user);
    }
    assert ThemeValues()[i].id in UnlockScan(user).user.unlockedThemes
           <==> ThemeValues()[i].id in afterBadges.unlockedThemes || ThemeHolds(ThemeValues()[i], afterBadges) by {
      ThemeRulesIgnoreUnlocks();
      ScanOwnsExactly(ThemeValues(), ThemeId, ThemeHolds, ThemeSlot, afterBadges, i);
    }
  }

  /** Which badges a pass leaves owned, rule by rule. */
  lemma UnlockScanBadges(user: UserStats)
    ensures var u := UnlockScan(user).user;
      && ("first_steps" in u.badges <==> "first_steps" in user.badges || user.totalQuestionsAnswered > 0)
      && ("streak_starter" in u.badges <==> "streak_starter" in user.badges || user.streakRecord >= 10)
      && ("table_tamer_7" in u.badges <==> "table_tamer_7" in user.badges || MasteryOf(user, 7) >= 100)
      && ("speed_demon" in u.badges <==> "speed_demon" in user.badges || user.totalCorrect >= 500)
      && ("daily_devotee" in u.badges <==> "daily_devotee" in user.badges || user.dailyStreak >= 3)
  {
    AchievementIds();
    AchievementConditions(user);
    BadgeOwnedIff(user, 0);
    BadgeOwnedIff(user, 1);
    BadgeOwnedIff(user, 2);
    BadgeOwnedIff(user, 3);
    BadgeOwnedIff(user, 4);
  }

  /** Which themes a pass leaves unlocked: jungle always, ocean from level 3, space from 100 answers. */
  lemma UnlockScanThemes(user: UserStats)
    ensures var u := UnlockScan(user).user;
      && "jungle" in u.unlockedThemes
      && ("ocean" in u.unlockedThemes <==> "ocean" in user.unlockedThemes || user.level >= 3)
      && ("space" in u.unlockedThemes <==> "space" in user.unlockedThemes || user.totalQuestionsAnswered >= 100)
  {
    ThemeConditions(user);
    ThemeOwnedIff(user, 0);
    ThemeOwnedIff(user, 1);
    ThemeOwnedIff(user, 2);
  }

  /** A second pass over a pass's output changes nothing and reports nothing. */
  lemma UnlockScanIdempotent(user: UserStats)
    ensures var u := UnlockScan(user).user;
            UnlockScan(u) == Unlocks(u, [], [])
  {
    AchievementRulesIgnoreUnlocks();
    ThemeRulesIgnoreUnlocks();
    var afterBadges := Scan(ACHIEVEMENTS, AchievementId, AchievementHolds, BadgeSlot, user).0;
    var u := UnlockScan(user).user;
    ScanSaturates(ACHIEVEMENTS, AchievementId, AchievementHolds, BadgeSlot, user);
    ScanSaturates(ThemeValues(), ThemeId, ThemeHolds, ThemeSlot, afterBadges);
    // the theme pass keeps the badges saturated, as it only touches the theme list
    assert Saturated(ACHIEVEMENTS, AchievementId, AchievementHolds, BadgeSlot, u) by {
      forall i | 0 <= i < |ACHIEVEMENTS|
        ensures AchievementId(ACHIEVEMENTS[i]) in u.badges || !AchievementHolds(ACHIEVEMENTS[i], u)
      {
        assert SameProgress(afterBadges, u);
      }
    }
    ScanOfSaturated(ACHIEVEMENTS, AchievementId, AchievementHolds, BadgeSlot, u);
    ScanOfSaturated(ThemeValues(), ThemeId, ThemeHolds, ThemeSlot, u);
  }

  /** A pass keeps both id lists free of repeats. */
  lemma UnlockScanNoDuplicates(user: UserStats)
    requires NoDuplicates(user.badges) && NoDuplicates(user.unlockedThemes)
    ensures NoDuplicates(UnlockScan(user).user.badges) && NoDuplicates(UnlockScan(user).user.unlockedThemes)
  {
    var afterBadges := Scan(ACHIEVEMENTS, AchievementId, AchievementHolds, BadgeSlot, user).0;
    ScanKeepsNoDuplicates(ACHIEVEMENTS, AchievementId, AchievementHolds, BadgeSlot, user);
    ScanKeepsNoDuplicates(ThemeValues(), ThemeId, ThemeHolds, ThemeSlot, afterBadges);
  }

  /** One more rule: the eligible list of the first i + 1 rules extends that of the first i. */
  lemma EligibleExtend<R>(rules: seq<R>, i: int, idOf: R -> string, holds: (R, UserStats) -> bool,
                          slot: Slot, user: UserStats)
    requires 0 <= i < |rules|
    ensures Eligible(rules[..i + 1], idOf, holds, slot, user)
            == Eligible(rules[..i], idOf, holds, slot, user) + Include(rules[i], idOf, holds, slot, user)
  {
    assert rules[..i + 1][..i] == rules[..i];
  }

  /** The eligible list of a table of three rules, written out rule by rule. */
  lemma EligibleOfThree<R>(rules: seq<R>, idOf: R -> string, holds: (R, UserStats) -> bool,
                           slot: Slot, user: UserStats)
    requires |rules| == 3
    ensures Eligible(rules, idOf, holds, slot, user)
            == Include(rules[0], idOf, holds, slot, user) + Include(rules[1], idOf, holds, slot, user)
             + Include(rules[2], idOf, holds, slot, user)
  {
    var e := (k: int) requires 0 <= k <= |rules| => Eligible(rules[..k], idOf, holds, slot, user);
    var inc := (k: int) requires 0 <= k < |rules| => Include(rules[k], idOf, holds, slot, user);
    assert rules[..0] == [];
    EligibleExtend(rules, 0, idOf, holds, slot, user);
    assert e(1) == inc(0);
    EligibleExtend(rules, 1, idOf, holds, slot, user);
    assert e(2) == inc(0) + inc(1);
    EligibleExtend(rules, 2, idOf, holds, slot, user);
    assert e(3) == inc(0) + inc(1) + inc(2);
    assert rules[..3] == rules;
  }

  /** The eligible list of a table of five rules, written out rule by rule. */
  lemma EligibleOfFive<R>(rules: seq<R>, idOf: R -> string, holds: (R, UserStats) -> bool,
                          slot: Slot, user: UserStats)
    requires |rules| == 5
    ensures Eligible(rules, idOf, holds, slot, user)
            == Include(rules[0], idOf, holds, slot, user) + Include(rules[1], idOf, holds, slot, user)
             + Include(rules[2], idOf, holds, slot, user) + Include(rules[3], idOf, holds, slot, user)
             + Include(rules[4], idOf, holds, slot, user)
  {
    var e := (k: int) requires 0 <= k <= |rules| => Eligible(rules[..k], idOf, holds, slot, user);
    var inc := (k: int) requires 0 <= k < |rules| => Include(rules[k], idOf, holds, slot, user);
    assert rules[..0] == [];
    EligibleExtend(rules, 0, idOf, holds, slot, user);
    assert e(1) == inc(0);
    EligibleExtend(rules, 1, idOf, holds, slot, user);
    assert e(2) == inc(0) + inc(1);
    EligibleExtend(rules, 2, idOf, holds, slot, user);
    assert e(3) == inc(0) + inc(1) + inc(2);
    EligibleExtend(rules, 3, idOf, holds, slot, user);
    assert e(4) == inc(0) + inc(1) + inc(2) + inc(3);
    EligibleExtend(rules, 4, idOf, holds, slot, user);
    assert e(5) == inc(0) + inc(1) + inc(2) + inc(3) + inc(4);
    assert rules[..5] == rules;
  }

  /** The additions of an unlock pass, rule by rule. */
  lemma UnlockScanWrittenOut(user: UserStats)
    ensures UnlockScan(user).newBadges
            == Include(ACHIEVEMENTS[0], AchievementId, AchievementHolds, BadgeSlot, user)
             + Include(ACHIEVEMENTS[1], AchievementId, AchievementHolds, BadgeSlot, user)
             + Include(ACHIEVEMENTS[2], AchievementId, AchievementHolds, BadgeSlot, user)
             + Include(ACHIEVEMENTS[3], AchievementId, AchievementHolds, BadgeSlot, user)
             + Include(ACHIEVEMENTS[4], AchievementId, AchievementHolds, BadgeSlot, user)
    ensures UnlockScan(user).newThemes
            == Ids(Include(ThemeValues()[0], ThemeId, ThemeHolds, ThemeSlot, user)
                 + Include(ThemeValues()[1], ThemeId, ThemeHolds, ThemeSlot, user)
                 + Include(ThemeValues()[2], ThemeId, ThemeHolds, ThemeSlot, user), ThemeId)
  {
    UnlockScanReportsEligible(user);
    EligibleOfFive(ACHIEVEMENTS, AchievementId, AchievementHolds, BadgeSlot, user);
    EligibleOfThree(ThemeValues(), ThemeId, ThemeHolds, ThemeSlot, user);
  }

  /** What each theme rule contributes to a pass starting from `user`. */
  lemma ThemeIncludes(user: UserStats)
    ensures Include(ThemeValues()[0], ThemeId, ThemeHolds, ThemeSlot, user)
            == if "jungle" in user.unlockedThemes then [] else [ThemeValues()[0]]
    ensures Include(ThemeValues()[1], ThemeId, ThemeHolds, ThemeSlot, user)
            == if "ocean" !in user.unlockedThemes && user.level >= 3 then [ThemeValues()[1]] else []
    ensures Include(ThemeValues()[2], ThemeId, ThemeHolds, ThemeSlot, user)
            == if "space" !in user.unlockedThemes && user.totalQuestionsAnswered >= 100 then [ThemeValues()[2]] else []
  {
    ThemeConditions(user);
  }

  /** What each achievement rule contributes to a pass starting from `user`. */
  lemma BadgeIncludes(user: UserStats)
    ensures Include(ACHIEVEMENTS[0], AchievementId, AchievementHolds, BadgeSlot, user)
            == if "first_steps" !in user.badges && user.totalQuestionsAnswered > 0 then [ACHIEVEMENTS[0]] else []
    ensures Include(ACHIEVEMENTS[1], AchievementId, AchievementHolds, BadgeSlot, user)
            == if "streak_starter" !in user.badges && user.streakRecord >= 10 then [ACHIEVEMENTS[1]] else []
    ensures Include(ACHIEVEMENTS[2], AchievementId, AchievementHolds, BadgeSlot, user)
            == if "table_tamer_7" !in user.badges && MasteryOf(user, 7) >= 100 then [ACHIEVEMENTS[2]] else []
    ensures Include(ACHIEVEMENTS[3], AchievementId, AchievementHolds, BadgeSlot, user)
            == if "speed_demon" !in user.badges && user.totalCorrect >= 500 then [ACHIEVEMENTS[3]] else []
    ensures Include(ACHIEVEMENTS[4], AchievementId, AchievementHolds, BadgeSlot, user)
            == if "daily_devotee" !in user.badges && user.dailyStreak >= 3 then [ACHIEVEMENTS[4]] else []
  {
    AchievementIds();
    AchievementConditions(user);
  }

  /** A player with no round played, nothing earned and below level 3 earns nothing. */
  lemma FreshPlayerUnlocksNothing(user: UserStats)
    requires user.badges == [] && user.unlockedThemes == ["jungle"]
    requires user.totalQuestionsAnswered <= 0 && user.streakRecord < 10 && MasteryOf(user, 7) < 100
    requires user.totalCorrect < 500 && user.dailyStreak < 3 && user.level < 3
    ensures UnlockScan(user) == Unlocks(user, [], [])
  {
    UnlockScanWrittenOut(user);
    BadgeIncludes(user);
    ThemeIncludes(user);
  }

  /** After a first round, with no other milestone reached, the first_steps rule alone applies. */
  lemma FirstStepsAloneIncluded(user: UserStats)
    requires user.badges == []
    requires 0 < user.totalQuestionsAnswered && user.streakRecord < 10 && MasteryOf(user, 7) < 100
    requires user.totalCorrect < 500 && user.dailyStreak < 3
    ensures Include(ACHIEVEMENTS[0], AchievementId, AchievementHolds, BadgeSlot, user)
          + Include(ACHIEVEMENTS[1], AchievementId, AchievementHolds, BadgeSlot, user)
          + Include(ACHIEVEMENTS[2], AchievementId, AchievementHolds, BadgeSlot, user)
          + Include(ACHIEVEMENTS[3], AchievementId, AchievementHolds, BadgeSlot, user)
          + Include(ACHIEVEMENTS[4], AchievementId, AchievementHolds, BadgeSlot, user) == [ACHIEVEMENTS[0]]
  {
    BadgeIncludes(user);
    assert [ACHIEVEMENTS[0]] + [] + [] + [] + [] == [ACHIEVEMENTS[0]];
  }

  /** With only jungle unlocked, below level 3 and below 100 answers, no theme rule applies. */
  lemma NoThemeIncluded(user: UserStats)
    requires user.unlockedThemes == ["jungle"] && user.level < 3 && user.totalQuestionsAnswered < 100
    ensures Include(ThemeValues()[0], ThemeId, ThemeHolds, ThemeSlot, user)
          + Include(ThemeValues()[1], ThemeId, ThemeHolds, ThemeSlot, user)
          + Include(ThemeValues()[2], ThemeId, ThemeHolds, ThemeSlot, user) == []
  {
    ThemeIncludes(user);
  }

  /** After a first round, with no other milestone reached, the pass awards first_steps alone. */
  lemma FirstRoundEarnsFirstSteps(user: UserStats)
    requires user.badges == [] && user.unlockedThemes == ["jungle"]
    requires 0 < user.totalQuestionsAnswered < 100 && user.streakRecord < 10 && MasteryOf(user, 7) < 100
    requires user.totalCorrect < 500 && user.dailyStreak < 3 && user.level < 3
    ensures UnlockScan(user).newBadges == [ACHIEVEMENTS[0]]
    ensures UnlockScan(user).user.badges == ["first_steps"]
    ensures UnlockScan(user).newThemes == []
  {
    UnlockScanWrittenOut(user);
    FirstStepsAloneIncluded(user);
    NoThemeIncluded(user);
    AchievementIds();
  }

  /** The id of the second theme rule is ocean. */
  lemma OceanRuleId()
    ensures Ids([ThemeValues()[1]], ThemeId) == ["ocean"]
  {
    ThemeKeysAreIds();
  }

  /** With only jungle unlocked, at level 3 and below 100 answers, the ocean rule alone applies. */
  lemma OceanAloneIncluded(user: UserStats)
    requires user.unlockedThemes == ["jungle"] && user.level >= 3 && user.totalQuestionsAnswered < 100
    ensures Include(ThemeValues()[0], ThemeId, ThemeHolds, ThemeSlot, user)
          + Include(ThemeValues()[1], ThemeId, ThemeHolds, ThemeSlot, user)
          + Include(ThemeValues()[2], ThemeId, ThemeHolds, ThemeSlot, user) == [ThemeValues()[1]]
  {
    ThemeIncludes(user);
    assert [] + [ThemeValues()[1]] + [] == [ThemeValues()[1]];
  }

  /** Reaching level 3 with only jungle unlocked and fewer than 100 answers unlocks ocean alone. */
  lemma LevelThreeUnlocksOcean(user: UserStats)
    requires user.unlockedThemes == ["jungle"] && user.level >= 3 && user.totalQuestionsAnswered < 100
    ensures UnlockScan(user).newThemes == ["ocean"]
  {
    UnlockScanWrittenOut(user);
    OceanAloneIncluded(user);
    OceanRuleId();
  }

  // =====================================================================
  // gameReducer

  /** The statistics the storage layer starts a new player with. */
  const INITIAL_STATS: UserStats := UserStats(
    xp := 0, level := 1, totalQuestionsAnswered := 0, totalCorrect := 0, streakRecord := 0,
    mastery := map[], badges := [], lastDailyChallenge := None, dailyStreak := 0,
    theme := "jungle", unlockedThemes := ["jungle"])

  /** `Math.min(100, Math.max(0, x))`. */
  function ClampMastery(x: int): (m: int)
    ensures 0 <= m <= 100
    ensures 0 <= x <= 100 ==> m == x
    ensures x < 0 ==> m == 0
    ensures x > 100 ==> m == 100
  {
    if x < 0 then 0 else if x > 100 then 100 else x
  }

  /**
   * The switch of gameReducer: the statistics after the action, before the
   * unlock scan. `today` is the calendar date the daily challenge compares
   * against; `loaded` is what loadUserStats returns.
   */
  function ApplyAction(user: UserStats, action: Action, today: string, loaded: UserStats): (r: UserStats)
    ensures !action.ResetProgress? ==> r.badges == user.badges && r.unlockedThemes == user.unlockedThemes
    ensures !action.ResetProgress? ==> r.theme == user.theme || r.theme in user.unlockedThemes
  {
    match action
    case AddXp(amount) =>
      var newXp := user.xp + amount;
      user.(xp := newXp, level := newXp / LEVEL_XP_BASE + 1)
    case UpdateMastery(table, wasCorrect) =>
      var change := if wasCorrect then 5 else -2;
      user.(mastery := user.mastery[table := ClampMastery(MasteryOf(user, table) + change)])
    case CompleteGame(correct, total, bestStreak, mode) =>
      var updated := user.(totalCorrect := user.totalCorrect + correct,
                           totalQuestionsAnswered := user.totalQuestionsAnswered + total,
                           streakRecord := if user.streakRecord >= bestStreak then user.streakRecord else bestStreak);
      if mode == Daily && updated.lastDailyChallenge != Some(today)
      then updated.(lastDailyChallenge := Some(today), dailyStreak := updated.dailyStreak + 1)
      else updated
    case SetTheme(themeId) =>
      if themeId in user.unlockedThemes then user.(theme := themeId) else user
    case ResetProgress =>
      loaded.(xp := 0, mastery := map[])
  }

  /**
   * gameReducer: apply the action, then run the unlock scan; the session
   * lists hold only this transition's additions.
   */
  function GameReducer(state: GameState, action: Action, today: string, loaded: UserStats): (next: GameState)
    ensures SameProgress(ApplyAction(state.user, action, today, loaded), next.user)
    ensures next.user.badges
            == ApplyAction(state.user, action, today, loaded).badges + Ids(next.achievedThisSession, AchievementId)
    ensures next.user.unlockedThemes
            == ApplyAction(state.user, action, today, loaded).unlockedThemes + next.themesUnlockedThisSession
  {
    var scanned := UnlockScan(ApplyAction(state.user, action, today, loaded));
    GameState(scanned.user, scanned.newBadges, scanned.newThemes)
  }

  /** gameReducer as the source runs it, with the loops of checkUnlocks. */
  method Reduce(state: GameState, action: Action, today: string, loaded: UserStats) returns (next: GameState)
    ensures next == GameReducer(state, action, today, loaded)
  {
    var user := ApplyAction(state.user, action, today, loaded);
    var scanned := CheckUnlocks(user);
    next := GameState(scanned.user, scanned.newBadges, scanned.newThemes);
  }

  // ---------------------------------------------------------------------
  // One action at a time (the switch, before the scan; the scan leaves
  // these fields alone, as GameReducer's contract says)

  /** ADD_XP adds to the XP and re-derives the level: the level's band of 500 XP contains the new total. */
  lemma AddXpRederivesLevel(user: UserStats, amount: int, today: string, loaded: UserStats)
    ensures var u := ApplyAction(user, AddXp(amount), today, loaded);
      && u.xp == user.xp + amount
      && (u.level - 1) * LEVEL_XP_BASE <= u.xp < u.level * LEVEL_XP_BASE
      && u == user.(xp := u.xp, level := u.level)
  {
  }

  /**
   * UPDATE_MASTERY moves the table's score by +5 or -2 (a missing entry
   * counts as 0) and clamps it to 0..100; every other table keeps its entry.
   */
  lemma UpdateMasteryClamps(user: UserStats, table: int, wasCorrect: bool, today: string, loaded: UserStats)
    ensures var u := ApplyAction(user, UpdateMastery(table, wasCorrect), today, loaded);
      var before := MasteryOf(user, table);
      && table in u.mastery && 0 <= u.mastery[table] <= 100
      && (wasCorrect ==> u.mastery[table] == if before + 5 > 100 then 100 else if before + 5 < 0 then 0 else before + 5)
      && (!wasCorrect ==> u.mastery[table] == if before - 2 < 0 then 0 else if before - 2 > 100 then 100 else before - 2)
      && (forall t :: t != table ==> (t in u.mastery <==> t in user.mastery))
      && (forall t :: t != table && t in u.mastery ==> u.mastery[t] == user.mastery[t])
      && u == user.(mastery := u.mastery)
  {
  }

  /** A correct answer never lowers a score in range, and a wrong one never raises it. */
  lemma UpdateMasteryDirection(user: UserStats, table: int, wasCorrect: bool, today: string, loaded: UserStats)
    requires 0 <= MasteryOf(user, table) <= 100
    ensures var u := ApplyAction(user, UpdateMastery(table, wasCorrect), today, loaded);
      && (wasCorrect ==> u.mastery[table] >= MasteryOf(user, table))
      && (!wasCorrect ==> u.mastery[table] <= MasteryOf(user, table))
  {
  }

  /** COMPLETE_GAME adds the round to the running totals and keeps the best streak. */
  lemma CompleteGameTotals(user: UserStats, correct: int, total: int, bestStreak: int, mode: GameMode,
                           today: string, loaded: UserStats)
    ensures var u := ApplyAction(user, CompleteGame(correct, total, bestStreak, mode), today, loaded);
      && u.totalCorrect == user.totalCorrect + correct
      && u.totalQuestionsAnswered == user.totalQuestionsAnswered + total
      && u.streakRecord >= user.streakRecord && u.streakRecord >= bestStreak
      && (u.streakRecord == user.streakRecord || u.streakRecord == bestStreak)
      && u == user.(totalCorrect := u.totalCorrect, totalQuestionsAnswered := u.totalQuestionsAnswered,
                    streakRecord := u.streakRecord, lastDailyChallenge := u.lastDailyChallenge,
                    dailyStreak := u.dailyStreak)
  {
  }

  /**
   * The daily challenge counts once per calendar day: a daily round on a new
   * day records the day and extends the streak; any other round leaves both alone.
   */
  lemma DailyChallengeOncePerDay(user: UserStats, correct: int, total: int, bestStreak: int, mode: GameMode,
                                 today: string, loaded: UserStats)
    ensures var u := ApplyAction(user, CompleteGame(correct, total, bestStreak, mode), today, loaded);
      if mode == Daily && user.lastDailyChallenge != Some(today)
      then u.lastDailyChallenge == Some(today) && u.dailyStreak == user.dailyStreak + 1
      else u.lastDailyChallenge == user.lastDailyChallenge && u.dailyStreak == user.dailyStreak
  {
  }

  /** SET_THEME selects a theme only when it is unlocked; otherwise the statistics are unchanged. */
  lemma SetThemeGated(user: UserStats, themeId: string, today: string, loaded: UserStats)
    ensures var u := ApplyAction(user, SetTheme(themeId), today, loaded);
      && (themeId in user.unlockedThemes ==> u == user.(theme := themeId))
      && (themeId !in user.unlockedThemes ==> u == user)
  {
  }

  /**
   * RESET_PROGRESS takes the loaded statistics, zeroes the XP and empties the
   * mastery map; everything else, the level included, comes from the loaded
   * statistics.
   */
  lemma ResetProgressFromLoaded(user: UserStats, today: string, loaded: UserStats)
    ensures var u := ApplyAction(user, ResetProgress, today, loaded);
      && u.xp == 0 && u.mastery == map[]
      && u == loaded.(xp := 0, mastery := map[])
      && u.level == loaded.level && u.badges == loaded.badges && u.theme == loaded.theme
  {
  }

  // ---------------------------------------------------------------------
  // Whole transitions

  /** 490 XP plus 1000 is 1490 XP, level 3. */
  lemma AddXpExample(today: string, loaded: UserStats)
    ensures var next := GameReducer(GameState(INITIAL_STATS.(xp := 490), [], []), AddXp(1000), today, loaded);
            next.user.xp == 1490 && next.user.level == 3
  {
    var u := ApplyAction(INITIAL_STATS.(xp := 490), AddXp(1000), today, loaded);
    assert u.xp == 1490 && u.level == 3;
  }

  /** 900 XP at level 2 plus 200 reaches level 3 and unlocks the ocean theme, and only it. */
  lemma OceanUnlockExample(today: string, loaded: UserStats)
    ensures var next := GameReducer(GameState(INITIAL_STATS.(xp := 900, level := 2), [], []), AddXp(200), today, loaded);
            && next.user.level == 3
            && "ocean" in next.user.unlockedThemes
            && next.themesUnlockedThisSession == ["ocean"]
  {
    var u := INITIAL_STATS.(xp := 1100, level := 3);
    assert ApplyAction(INITIAL_STATS.(xp := 900, level := 2), AddXp(200), today, loaded) == u by {
      assert (900 + 200) / LEVEL_XP_BASE + 1 == 3;
    }
    LevelThreeUnlocksOcean(u);
    UnlockScanThemes(u);
  }

  /** 98 plus a correct answer is 100; 100 minus a wrong one is 98; 1 minus a wrong one is 0. */
  lemma UpdateMasteryExamples(today: string, loaded: UserStats)
    ensures GameReducer(GameState(INITIAL_STATS.(mastery := map[7 := 98]), [], []), UpdateMastery(7, true),
                        today, loaded).user.mastery[7] == 100
    ensures GameReducer(GameState(INITIAL_STATS.(mastery := map[7 := 100]), [], []), UpdateMastery(7, false),
                        today, loaded).user.mastery[7] == 98
    ensures GameReducer(GameState(INITIAL_STATS.(mastery := map[5 := 1]), [], []), UpdateMastery(5, false),
                        today, loaded).user.mastery[5] == 0
  {
  }

  /** Completing a second daily round on the same day leaves the daily fields as the first left them. */
  lemma DailyChallengeIdempotent(state: GameState, correct: int, total: int, bestStreak: int,
                                 today: string, loaded: UserStats)
    ensures var first := GameReducer(state, CompleteGame(correct, total, bestStreak, Daily), today, loaded);
      var second := GameReducer(first, CompleteGame(correct, total, bestStreak, Daily), today, loaded);
      && first.user.lastDailyChallenge == Some(today)
      && second.user.lastDailyChallenge == first.user.lastDailyChallenge
      && second.user.dailyStreak == first.user.dailyStreak
  {
    var first := GameReducer(state, CompleteGame(correct, total, bestStreak, Daily), today, loaded);
    DailyChallengeOncePerDay(state.user, correct, total, bestStreak, Daily, today, loaded);
    DailyChallengeOncePerDay(first.user, correct, total, bestStreak, Daily, today, loaded);
  }

  /** A locked theme request changes nothing but what the unlock scan itself adds. */
  lemma SetThemeLockedIsScanOnly(state: GameState, themeId: string, today: string, loaded: UserStats)
    requires themeId !in state.user.unlockedThemes
    ensures GameReducer(state, SetTheme(themeId), today, loaded).user == UnlockScan(state.user).user
  {
    SetThemeGated(state.user, themeId, today, loaded);
  }

  /** Resetting to the initial statistics gives exactly the initial statistics and reports nothing. */
  lemma ResetToInitial(state: GameState, today: string)
    ensures GameReducer(state, ResetProgress, today, INITIAL_STATS) == GameState(INITIAL_STATS, [], [])
  {
    var u := ApplyAction(state.user, ResetProgress, today, INITIAL_STATS);
    assert u == INITIAL_STATS;
    FreshPlayerUnlocksNothing(u);
  }

  /**
   * When the loaded statistics are the last ones saved, RESET_PROGRESS keeps
   * the level, the totals and the badges: only the XP and the mastery map
   * are cleared, so the level no longer matches the XP.
   */
  lemma ResetKeepsSavedLevel(state: GameState, today: string)
    requires state.user.level > 1
    ensures var next := GameReducer(state, ResetProgress, today, state.user);
      && next.user.xp == 0
      && next.user.level == state.user.level
      && next.user.level != next.user.xp / LEVEL_XP_BASE + 1
      && next.user.totalCorrect == state.user.totalCorrect
      && state.user.badges <= next.user.badges
  {
    var u := ApplyAction(state.user, ResetProgress, today, state.user);
    assert u.xp == 0 && u.level == state.user.level && u.badges == state.user.badges;
    assert u.totalCorrect == state.user.totalCorrect;
  }

  // ---------------------------------------------------------------------
  // The unlock scan after each action

    /** Except for a reset, badges and themes only grow: the old lists are kept as prefixes. */
  lemma UnlocksOnlyGrow(state: GameState, action: Action, today: string, loaded: UserStats)
    requires !action.ResetProgress?
    ensures var next := GameReducer(state, action, today, loaded);
      && next.user.badges == state.user.badges + Ids(next.achievedThisSession, AchievementId)
      && next.user.unlockedThemes == state.user.unlockedThemes + next.themesUnlockedThisSession
      && (forall k :: 0 <= k < |next.achievedThisSession| ==> next.achievedThisSession[k].id !in state.user.badges)
      && (forall k :: 0 <= k < |next.themesUnlockedThisSession| ==>
            next.themesUnlockedThisSession[k] !in state.user.unlockedThemes)
  {
  }

  /**
   * The session lists hold exactly the rules that became eligible after the
   * action, in table order, whatever they held before.
   */
  lemma SessionListsAreExact(state: GameState, action: Action, today: string, loaded: UserStats)
    ensures var u := ApplyAction(state.user, action, today, loaded);
      var next := GameReducer(state, action, today, loaded);
      && next.achievedThisSession == Eligible(ACHIEVEMENTS, AchievementId, AchievementHolds, BadgeSlot, u)
      && next.themesUnlockedThisSession == Ids(Eligible(ThemeValues(), ThemeId, ThemeHolds, ThemeSlot, u), ThemeId)
  {
    UnlockScanReportsEligible(ApplyAction(state.user, action, today, loaded));
  }

  /** After any action the scan has nothing left to add. */
  lemma RescanAddsNothing(state: GameState, action: Action, today: string, loaded: UserStats)
    ensures var next := GameReducer(state, action, today, loaded);
            UnlockScan(next.user) == Unlocks(next.user, [], [])
  {
    UnlockScanIdempotent(ApplyAction(state.user, action, today, loaded));
  }

  /** The badges a transition reports are owned afterwards. */
  lemma ReportedBadgesAreOwned(state: GameState, action: Action, today: string, loaded: UserStats)
    ensures var next := GameReducer(state, action, today, loaded);
      forall i :: 0 <= i < |next.achievedThisSession| ==> next.achievedThisSession[i].id in next.user.badges
  {
    var next := GameReducer(state, action, today, loaded);
    var before := ApplyAction(state.user, action, today, loaded).badges;
    forall i | 0 <= i < |next.achievedThisSession|
      ensures next.achievedThisSession[i].id in next.user.badges
    {
      assert Ids(next.achievedThisSession, AchievementId)[i] == next.achievedThisSession[i].id;
      assert next.achievedThisSession[i].id in Ids(next.achievedThisSession, AchievementId);
    }
  }

  /** A badge reported by one transition is not reported again by the next one, unless that one is a reset. */
  lemma BadgeReportedOnce(state: GameState, first: Action, second: Action, today: string, loaded: UserStats)
    requires !second.ResetProgress?
    ensures var next := GameReducer(state, first, today, loaded);
      var after := GameReducer(next, second, today, loaded);
      forall i, j :: 0 <= i < |next.achievedThisSession| && 0 <= j < |after.achievedThisSession| ==>
        next.achievedThisSession[i].id != after.achievedThisSession[j].id
  {
    var next := GameReducer(state, first, today, loaded);
    ReportedBadgesAreOwned(state, first, today, loaded);
    UnlocksOnlyGrow(next, second, today, loaded);
  }


  /**
   * `states` is the sequence of states a run of dispatched actions passes
   * through: each state is the reducer's result on the one before, the
   * i-th action seeing the date `days[i]`.
   */
  ghost predicate IsRun(states: seq<GameState>, actions: seq<Action>, days: seq<string>, loaded: UserStats)
  {
    && |states| == |actions| + 1 && |days| == |actions|
    && forall n :: 0 <= n < |actions| ==> states[n + 1] == GameReducer(states[n], actions[n], days[n], loaded)
  }

  /** Along a run with no reset between steps k and m, the badges of step k are a prefix of those of step m. */
  lemma {:induction false} BadgesPersist(states: seq<GameState>, actions: seq<Action>, days: seq<string>,
                                         loaded: UserStats, k: int, m: int)
    requires IsRun(states, actions, days, loaded) && 0 <= k <= m <= |actions|
    requires forall n :: k <= n < m ==> !actions[n].ResetProgress?
    ensures states[k].user.badges <= states[m].user.badges
    decreases m - k
  {
    if k < m {
      BadgesPersist(states, actions, days, loaded, k, m - 1);
      UnlocksOnlyGrow(states[m - 1], actions[m - 1], days[m - 1], loaded);
      assert states[m - 1].user.badges <= states[m].user.badges;
    }
  }

  /**
   * An achievement reported by one transition of a run is never reported
   * again by any later transition, as long as no reset comes in between.
   */
  lemma BadgeNeverReportedAgain(states: seq<GameState>, actions: seq<Action>, days: seq<string>, loaded: UserStats,
                                k: int, l: int)
    requires IsRun(states, actions, days, loaded) && 0 <= k < l < |actions|
    requires forall n :: k < n <= l ==> !actions[n].ResetProgress?
    ensures NoIdInCommon(states[k + 1].achievedThisSession, states[l + 1].achievedThisSession)
  {
    var earlier, later := states[k + 1], states[l + 1];
    ReportedBadgesAreOwned(states[k], actions[k], days[k], loaded);
    BadgesPersist(states, actions, days, loaded, k + 1, l);
    UnlocksOnlyGrow(states[l], actions[l], days[l], loaded);
    forall i, j | 0 <= i < |earlier.achievedThisSession| && 0 <= j < |later.achievedThisSession|
      ensures earlier.achievedThisSession[i].id != later.achievedThisSession[j].id
    {
      PrefixMember(earlier.user.badges, states[l].user.badges, earlier.achievedThisSession[i].id);
    }
  }

  /** No achievement of one list has the id of an achievement of the other. */
  predicate NoIdInCommon(xs: seq<Achievement>, ys: seq<Achievement>)
  {
    forall i, j :: 0 <= i < |xs| && 0 <= j < |ys| ==> xs[i].id != ys[j].id
  }

  /** An element of a prefix is an element of the whole. */
  lemma PrefixMember(p: seq<string>, q: seq<string>, x: string)
    requires p <= q && x in p
    ensures x in q
  {
    var t :| 0 <= t < |p| && p[t] == x;
    assert q[t] == x;
  }

  /** After any action the jungle theme is unlocked; ocean exactly from level 3, space from 100 answers. */
  lemma ThemeUnlockRules(state: GameState, action: Action, today: string, loaded: UserStats)
    ensures var u := ApplyAction(state.user, action, today, loaded);
      var next := GameReducer(state, action, today, loaded);
      && "jungle" in next.user.unlockedThemes
      && ("ocean" in next.user.unlockedThemes <==> "ocean" in u.unlockedThemes || next.user.level >= 3)
      && ("space" in next.user.unlockedThemes <==>
            "space" in u.unlockedThemes || next.user.totalQuestionsAnswered >= 100)
  {
    UnlockScanThemes(ApplyAction(state.user, action, today, loaded));
  }

  /** After any action each badge is owned exactly when it was before the scan or its predicate holds. */
  lemma BadgeUnlockRules(state: GameState, action: Action, today: string, loaded: UserStats)
    ensures var u := ApplyAction(state.user, action, today, loaded);
      var next := GameReducer(state, action, today, loaded).user;
      && ("first_steps" in next.badges <==> "first_steps" in u.badges || next.totalQuestionsAnswered > 0)
      && ("streak_starter" in next.badges <==> "streak_starter" in u.badges || next.streakRecord >= 10)
      && ("table_tamer_7" in next.badges <==> "table_tamer_7" in u.badges || MasteryOf(next, 7) >= 100)
      && ("speed_demon" in next.badges <==> "speed_demon" in u.badges || next.totalCorrect >= 500)
      && ("daily_devotee" in next.badges <==> "daily_devotee" in u.badges || next.dailyStreak >= 3)
  {
    UnlockScanBadges(ApplyAction(state.user, action, today, loaded));
  }

  /** The first completed round awards first_steps and nothing else. */
  lemma FirstStepsExample(today: string, loaded: UserStats)
    ensures var next := GameReducer(GameState(INITIAL_STATS, [], []), CompleteGame(1, 2, 3, Journey), today, loaded);
      && next.user.totalQuestionsAnswered == 2
      && next.user.badges == ["first_steps"]
      && Ids(next.achievedThisSession, AchievementId) == ["first_steps"]
      && next.themesUnlockedThisSession == []
  {
    var u := ApplyAction(INITIAL_STATS, CompleteGame(1, 2, 3, Journey), today, loaded);
    assert u == INITIAL_STATS.(totalCorrect := 1, totalQuestionsAnswered := 2, streakRecord := 3);
    FirstRoundEarnsFirstSteps(u);
  }

  // ---------------------------------------------------------------------
  // The invariant every action keeps

  /**
   * Statistics as the game keeps them: the selected theme is unlocked,
   * jungle is unlocked, no id is listed twice and every mastery score is
   * in 0..100.
   */
  predicate Valid(u: UserStats)
  {
    && u.theme in u.unlockedThemes
    && "jungle" in u.unlockedThemes
    && NoDuplicates(u.badges)
    && NoDuplicates(u.unlockedThemes)
    && (forall t :: t in u.mastery ==> 0 <= u.mastery[t] <= 100)
  }

  lemma InitialStatsValid()
    ensures Valid(INITIAL_STATS)
  {
  }

  /** Each action's switch keeps the statistics valid apart from the jungle theme, which the scan restores. */
  lemma ActionKeepsValid(user: UserStats, action: Action, today: string, loaded: UserStats)
    requires Valid(user)
    requires action.ResetProgress? ==> Valid(loaded)
    ensures var u := ApplyAction(user, action, today, loaded);
      && u.theme in u.unlockedThemes
      && NoDuplicates(u.badges) && NoDuplicates(u.unlockedThemes)
      && (forall t :: t in u.mastery ==> 0 <= u.mastery[t] <= 100)
  {
  }

  /** Every action keeps the statistics valid, provided a reset loads valid statistics. */
  lemma ReducerKeepsValid(state: GameState, action: Action, today: string, loaded: UserStats)
    requires Valid(state.user)
    requires action.ResetProgress? ==> Valid(loaded)
    ensures Valid(GameReducer(state, action, today, loaded).user)
  {
    var u := ApplyAction(state.user, action, today, loaded);
    ActionKeepsValid(state.user, action, today, loaded);
    UnlockScanNoDuplicates(u);
    UnlockScanThemes(u);
  }
}
