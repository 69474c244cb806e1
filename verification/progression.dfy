/**
 * The progression step of on_message (main.py:272-289): the integer
 * transition on a user's (level, xp, levelup_xp) for one experience grant.
 */
module Progression {
  import opened Wrappers

  /** A user's standing: current level, experience within it, and the threshold to the next. */
  datatype Progress = Progress(level: int, xp: int, levelupXp: int)

  /** The result of one grant: the standing to store, and whether a level-up fired. */
  datatype Step = Step(progress: Progress, leveledUp: bool)

  /** The values stored for a user the store has never seen. */
  const Starting := Progress(1, 10, 100)

  /** The range of random.randint(1, 20), the amount one message can grant. */
  const MinGrant := 1
  const MaxGrant := 20

  /** The threshold computed for a level reached by levelling up: 50·L² + 100·L + 50. */
  function Threshold(level: int): (t: int)
    ensures t == 50 * (level + 1) * (level + 1)
    ensures t >= 0
  {
    50 * level * level + 100 * level + 50
  }

  /**
   * One grant. An unseen user gets the starting values and the amount is not
   * added; a stored user gets the amount added, and at most one level-up fires,
   * keeping the carry-over.
   */
  function Grant(stored: Option<Progress>, amount: int): (r: Step)
    ensures stored.None? ==> r == Step(Starting, false)
    ensures stored.Some? ==>
      var p := stored.value;
      && (r.leveledUp <==> p.xp + amount >= p.levelupXp)
      && (!r.leveledUp ==> r.progress == Progress(p.level, p.xp + amount, p.levelupXp))
      && (r.leveledUp ==> r.progress == Progress(p.level + 1, p.xp + amount - p.levelupXp, Threshold(p.level + 1)))
  {
    var p := if stored.None? then Starting else stored.value.(xp := stored.value.xp + amount);
    if p.xp >= p.levelupXp then
      Step(Progress(p.level + 1, p.xp - p.levelupXp, Threshold(p.level + 1)), true)
    else
      Step(p, false)
  }

  /** The threshold a user at this level holds: 100 for the starting level, the formula above it. */
  function LevelThreshold(level: int): int {
    if level == 1 then Starting.levelupXp else Threshold(level)
  }

  /** Between messages: experience is non-negative and below the threshold. */
  ghost predicate AtRest(p: Progress) {
    0 <= p.xp < p.levelupXp
  }

  /** An invariant that holds of every standing the engine produces from the starting values by grants of 1..20. */
  ghost predicate Reachable(p: Progress) {
    p.level >= 1 && AtRest(p) && p.levelupXp == LevelThreshold(p.level)
  }

  lemma ThresholdAbove(level: int)
    requires level >= 2
    ensures Threshold(level) >= 450 > MaxGrant
  {
  }

  /**
   * A grant of 1..20 to a stored user at rest leaves the user at rest.
   * Only level >= 1 is needed of the stored level.
   */
  lemma AtRestPreserved(p: Progress, amount: int)
    requires p.level >= 1 && AtRest(p)
    requires MinGrant <= amount <= MaxGrant
    ensures AtRest(Grant(Some(p), amount).progress)
  {
  }

  /** Grants of 1..20 never leave the set of reachable standings. */
  lemma GrantKeepsReachable(stored: Option<Progress>, amount: int)
    requires stored.Some? ==> Reachable(stored.value)
    requires MinGrant <= amount <= MaxGrant
    ensures Reachable(Grant(stored, amount).progress)
  {
  }

  /** Experience that completed the levels below this one. */
  function XpBefore(level: int): (total: int)
    requires level >= 1
    ensures level > 1 ==> total >= Starting.levelupXp
    decreases level
  {
    if level == 1 then 0 else XpBefore(level - 1) + LevelThreshold(level - 1)
  }

  /** All experience a user has earned, including what completed earlier levels. */
  function TotalXp(p: Progress): int
    requires p.level >= 1
  {
    XpBefore(p.level) + p.xp
  }

  /**
   * Nothing is lost at a level-up: the carry-over keeps the excess, so a grant
   * to a stored user raises its total experience by exactly the amount.
   */
  lemma GrantAddsAmount(p: Progress, amount: int)
    requires Reachable(p)
    ensures Grant(Some(p), amount).progress.level >= 1
    ensures TotalXp(Grant(Some(p), amount).progress) == TotalXp(p) + amount
  {
  }

  /**
   * Reference definition that levels up as often as the experience allows
   * (the cascading behaviour on_message does not implement).
   */
  function Settle(p: Progress): (r: Progress)
    requires p.level >= 1 && p.levelupXp > 0
    ensures r.level >= p.level && r.levelupXp > 0
    ensures p.xp >= 0 ==> AtRest(r)
    ensures AtRest(p) ==> r == p
    decreases p.xp
  {
    if p.xp >= p.levelupXp then
      ThresholdAbove(p.level + 1);
      Settle(Progress(p.level + 1, p.xp - p.levelupXp, Threshold(p.level + 1)))
    else
      p
  }

  /**
   * For every amount on_message can roll, its single level-up step agrees with
   * the cascading reference: the cascade on_message lacks is never observable.
   */
  lemma SingleStepSuffices(p: Progress, amount: int)
    requires Reachable(p)
    requires MinGrant <= amount <= MaxGrant
    ensures Grant(Some(p), amount).progress == Settle(p.(xp := p.xp + amount))
  {
  }

  /** Outside the rolled range the single step shows: 1000 points at (1, 95, 100) stop at level 2. */
  lemma LargeGrantDoesNotCascade()
    ensures Grant(Some(Progress(1, 95, 100)), 1000) == Step(Progress(2, 995, 450), true)
    ensures !AtRest(Grant(Some(Progress(1, 95, 100)), 1000).progress)
  {
  }

  /** Level 1 with 95 points and a roll of 10 reaches level 2 with 5 points and threshold 450. */
  lemma CrossingLevelOne()
    ensures Grant(Some(Progress(1, 95, 100)), 10) == Step(Progress(2, 5, 450), true)
  {
  }
}
