/**
 * The growth formula shared by the page and the service: a percentage of a
 * fixed interaction budget, capped at 100.
 */
module Growth {

  /** Interactions needed to reach full growth (the page's `maxInteractions`). */
  const MaxInteractions: int := 50

  /** Full growth, in percent. */
  const Full: int := 100

  /**
   * `min(100, floor(count / 50 * 100))`, computed exactly on integers.
   * Dafny's `/` floors for a positive divisor, as `Math.floor` does.
   */
  function Level(count: int): (g: int)
    ensures g <= Full
    ensures count >= 0 ==> 0 <= g
    ensures count >= MaxInteractions ==> g == Full
  {
    var pct := (count * 100) / MaxInteractions;
    if pct < Full then pct else Full
  }

  /** Below saturation every interaction is worth two percent. */
  lemma LevelBelowBudget(count: int)
    requires count <= MaxInteractions
    ensures Level(count) == 2 * count
  {
  }

  /** The level is full exactly from the interaction budget on. */
  lemma LevelFullIff(count: int)
    ensures Level(count) == Full <==> count >= MaxInteractions
  {
  }

  /** More interactions never give a lower level. */
  lemma LevelMonotone(a: int, b: int)
    requires a <= b
    ensures Level(a) <= Level(b)
  {
  }

  /** One more interaction raises an unsaturated level by exactly two. */
  lemma LevelStep(count: int)
    requires count < MaxInteractions
    ensures Level(count + 1) == Level(count) + 2
  {
  }
}
