/** The ping threshold of `starter_strategy`: escalated by half when the last
    turn's ping cannon left the enemy's health where the agent last saw it. */
module ThresholdController {
  import opened GameTypes

  /** `__init__`: the starting threshold and the enemy health the agent
      compares against (never updated afterwards). */
  const InitialThreshold: int := 6
  const InitialEnemyHealth: int := 40

  /** `int(t * 1.5)` for a non-negative integer t is `(3 * t) / 2`. */
  lemma EscalationIsThreeHalves(t: int)
    requires t >= 0
    ensures Trunc(t as real * 1.5) == (3 * t) / 2
  {
    var q := (3 * t) / 2;
    assert 3 * t == 2 * q || 3 * t == 2 * q + 1;
    assert q as real <= t as real * 1.5 < q as real + 1.0;
  }

  /** `int(t / 6)`, the scrambler count, for a non-negative t is `t / 6`. */
  lemma ScramblerCountIsSixth(t: int)
    requires t >= 0
    ensures Trunc(t as real / 6.0) == t / 6
  {
    var q := t / 6;
    assert q as real <= t as real / 6.0 < q as real + 1.0;
  }

  /** `int(t * 1.5)`: the escalated threshold, half as large again, rounded
      toward zero. */
  function Escalate(t: int): (e: int)
    ensures t >= 0 ==> e == (3 * t) / 2
  {
    var e := Trunc(t as real * 1.5);
    if t >= 0 then EscalationIsThreeHalves(t); e else e
  }

  /** Lines 86-87 of `starter_strategy`: escalate exactly when the ping cannon
      fired last turn and the enemy health equals the stored one. The
      threshold then becomes `(3 * t) / 2`, so it never decreases. */
  function NextThreshold(threshold: int, pingedLastTurn: bool, lastEnemyHealth: int, enemyHealth: int): (t: int)
    ensures !(pingedLastTurn && lastEnemyHealth == enemyHealth) ==> t == threshold
    ensures threshold >= 0 && pingedLastTurn && lastEnemyHealth == enemyHealth ==> t == (3 * threshold) / 2
    ensures threshold >= 0 ==> t >= threshold
    ensures threshold >= 2 && pingedLastTurn && lastEnemyHealth == enemyHealth ==> t > threshold
  {
    if pingedLastTurn && lastEnemyHealth == enemyHealth then Escalate(threshold) else threshold
  }

  /** What one turn shows the controller: own bits and the enemy's health. */
  datatype TurnView = TurnView(myBits: real, enemyHealth: int)

  /** The threshold after a run of turns: each turn escalates by the rule
      above, then records whether the ping cannon fired (own bits at least
      the updated threshold). The stored enemy health never changes. While
      the cannon has not fired and own bits stay below the threshold, the
      threshold does not move. */
  function ThresholdAfter(threshold: int, pingedLastTurn: bool, lastEnemyHealth: int, turns: seq<TurnView>): (t: int)
    ensures !pingedLastTurn && (forall i | 0 <= i < |turns| :: turns[i].myBits < threshold as real) ==> t == threshold
    decreases |turns|
  {
    if turns == [] then threshold
    else
      var t := NextThreshold(threshold, pingedLastTurn, lastEnemyHealth, turns[0].enemyHealth);
      ThresholdAfter(t, turns[0].myBits >= t as real, lastEnemyHealth, turns[1..])
  }

  /** Across any run of turns the threshold never decreases. */
  lemma {:induction false} ThresholdNeverDecreases(threshold: int, pinged: bool, lastEnemyHealth: int, turns: seq<TurnView>)
    requires threshold >= 0
    ensures ThresholdAfter(threshold, pinged, lastEnemyHealth, turns) >= threshold
    decreases |turns|
  {
    if turns != [] {
      var t := NextThreshold(threshold, pinged, lastEnemyHealth, turns[0].enemyHealth);
      ThresholdNeverDecreases(t, turns[0].myBits >= t as real, lastEnemyHealth, turns[1..]);
    }
  }

  /** Because the stored enemy health is never refreshed, once every turn
      shows a different enemy health (say, the enemy has lost health since the
      match began) the threshold is frozen, however often the cannon fires. */
  lemma {:induction false} ThresholdFrozenOnceEnemyHealthMoves(threshold: int, pinged: bool, lastEnemyHealth: int, turns: seq<TurnView>)
    requires forall i | 0 <= i < |turns| :: turns[i].enemyHealth != lastEnemyHealth
    ensures ThresholdAfter(threshold, pinged, lastEnemyHealth, turns) == threshold
    decreases |turns|
  {
    if turns != [] {
      var t := NextThreshold(threshold, pinged, lastEnemyHealth, turns[0].enemyHealth);
      assert t == threshold;
      ThresholdFrozenOnceEnemyHealthMoves(t, turns[0].myBits >= t as real, lastEnemyHealth, turns[1..]);
    }
  }

  /** Escalation from the initial state: 6 becomes 9, then 13. */
  lemma EscalationExample()
    ensures NextThreshold(InitialThreshold, true, InitialEnemyHealth, InitialEnemyHealth) == 9
    ensures NextThreshold(9, true, InitialEnemyHealth, InitialEnemyHealth) == 13
    ensures NextThreshold(InitialThreshold, true, InitialEnemyHealth, 10) == InitialThreshold
  {
  }
}
