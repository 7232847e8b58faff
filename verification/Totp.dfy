/**
 Time steps and code matching (internal/auth/totp.go), after sections 4.2 and 5.2
 of RFC 6238. A code is represented by the set of steps it is right for, which is
 all HOTP contributes; collisions make that more than one step.
 */
module Totp {
  import opened Options

  const PERIOD := 30

  /** t.Unix() / 30 in Go, which truncates toward zero. */
  function Step(t: int): int {
    if t >= 0 then t / PERIOD else -((-t) / PERIOD)
  }

  /** The current step, then the one before, then the one ahead; the step reported is the one that matched. */
  function Match(good: set<int>, now: int): Option<int> {
    if Step(now) in good then Some(Step(now))
    else if Step(now - PERIOD) in good then Some(Step(now - PERIOD))
    else if Step(now + PERIOD) in good then Some(Step(now + PERIOD))
    else None
  }

  /** Steps never run backwards and neighbours in time are neighbours in step. */
  lemma StepMonotone(t: int, u: int)
    requires t <= u
    ensures Step(t) <= Step(u)
    ensures u <= t + PERIOD ==> Step(u) <= Step(t) + 1
  {
  }

  /** After the epoch a step is the half-open window of thirty seconds it numbers; before it, the division truncates. */
  lemma StepIsWindow(t: int)
    ensures t >= 0 ==> 30 * Step(t) <= t < 30 * Step(t) + 30
    ensures t <= 0 ==> 30 * Step(t) - 30 < t <= 30 * Step(t)
  {
  }

  /** A code matches exactly when it is right for a step at most one period away, and is charged to such a step. */
  lemma MatchWithinOne(good: set<int>, now: int)
    ensures Match(good, now).Some? <==> Step(now) in good || Step(now - PERIOD) in good || Step(now + PERIOD) in good
    ensures Match(good, now).Some? ==>
      Match(good, now).value in good && Step(now) - 1 <= Match(good, now).value <= Step(now) + 1
    ensures Match(good, now).Some? && Match(good, now).value != Step(now) ==> Step(now) !in good
    ensures Step(now - PERIOD) in good && Step(now) !in good ==> Match(good, now) == Some(Step(now - PERIOD))
  {
    StepMonotone(now - PERIOD, now);
    StepMonotone(now, now + PERIOD);
  }
}
