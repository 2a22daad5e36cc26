/** The agent: the state `AlgoStrategy` carries across turns, the breach
    handler of `on_action_frame`, and the turn sequence of `starter_strategy`. */
module Strategy {
  import opened GameTypes
  import opened Layouts
  import opened ThreatModel
  import opened SpawnSelector
  import opened BreachLedger
  import opened SideBias
  import opened DefenseBuilder
  import opened ThresholdController

  /** `stall_with_scramblers`: `int(threshold / 6)` scramblers at each of the
      two widened edge spawns, left first. */
  function StallPlan(threshold: int, board: Board): seq<Request>
  {
    var (left, right) := NiceSpawns(board);
    var n := Trunc(threshold as real / 6.0);
    [Request(Scrambler, left, n), Request(Scrambler, right, n)]
  }

  /** The cell the ping cannon fires from: the less damaged of the two
      widened edge spawns, the left one on a tie. */
  function CannonSpawn(board: Board, damage: real): (c: Cell)
    ensures c == NiceSpawns(board).0 || c == NiceSpawns(board).1
  {
    var (left, right) := NiceSpawns(board);
    var d := Scores(board, [left, right], damage);
    [left, right][FirstMinIndex(d)]
  }

  /** `ping_cannon`: `int(pings)` requests of one ping each, all at the
      cannon's spawn. */
  function PingPlan(board: Board, damage: real, pings: real): seq<Request>
  {
    var n := Trunc(pings);
    var c := CannonSpawn(board, damage);
    seq(if n > 0 then n else 0, _ => Request(Ping, c, 1))
  }

  /** The first scrambler pass: the opponent's bits reach the threshold
      in force before the update and the agent trails in health. */
  function EarlyStall(threshold: int, s: Snapshot): seq<Request>
  {
    if s.enemyBits >= threshold as real && s.myHealth < s.enemyHealth then StallPlan(threshold, s.board) else []
  }

  /** The ping cannon, fired when own bits reach the updated threshold. */
  function Cannon(threshold: int, s: Snapshot, damage: real): seq<Request>
  {
    if s.myBits >= threshold as real then PingPlan(s.board, damage, s.myBits) else []
  }

  /** The second scrambler pass: the opponent's bits reach the updated
      threshold and the agent does not trail in health. */
  function LateStall(threshold: int, s: Snapshot): seq<Request>
  {
    if s.enemyBits >= threshold as real && s.myHealth >= s.enemyHealth then StallPlan(threshold, s.board) else []
  }

  /** The mobile units of one turn, in order: the first scrambler pass, the
      ping cannon and the second scrambler pass, from the state before the
      turn (threshold, cannon flag, stored enemy health) and the snapshot. */
  function MobilePlan(threshold: int, pingedLastTurn: bool, lastEnemyHealth: int,
                      s: Snapshot, damage: real): seq<Request>
  {
    var t := NextThreshold(threshold, pingedLastTurn, lastEnemyHealth, s.enemyHealth);
    EarlyStall(threshold, s) + Cannon(t, s, damage) + LateStall(t, s)
  }

  /** Every request of one `starter_strategy` turn, in order: the defence for
      the breach history, then the mobile units. */
  function TurnPlan(threshold: int, pingedLastTurn: bool, lastEnemyHealth: int,
                    history: seq<Cell>, s: Snapshot, damage: real): seq<Request>
  {
    DefensePlan(history) + MobilePlan(threshold, pingedLastTurn, lastEnemyHealth, s, damage)
  }

  class AlgoStrategy {
    var minPingThreshold: int
    var pingCannonLastTurn: bool
    var lastEnemyHealth: int
    var scoredOnLocations: seq<Cell>

    /** The threshold starts at 6 and only grows. */
    ghost predicate Valid()
      reads this
    {
      minPingThreshold >= InitialThreshold
    }

    /** `__init__` (the random seed is not modelled); the breach ledger starts
        empty as `on_game_start` makes it. */
    constructor ()
      ensures Valid()
      ensures minPingThreshold == InitialThreshold && !pingCannonLastTurn
      ensures lastEnemyHealth == InitialEnemyHealth && scoredOnLocations == []
    {
      minPingThreshold := InitialThreshold;
      pingCannonLastTurn := false;
      lastEnemyHealth := InitialEnemyHealth;
      scoredOnLocations := [];
    }

    /** `on_game_start`: the breach ledger is created empty (the unit-type
        configuration is not modelled). */
    method OnGameStart()
      modifies this`scoredOnLocations
      ensures scoredOnLocations == []
    {
      scoredOnLocations := [];
    }

    /** The breach loop of `on_action_frame`: append, in event order, the
        location of every breach whose owner flag is not 1. The ledger only
        grows and its earlier entries are unchanged. */
    method OnActionFrame(breaches: seq<Breach>)
      modifies this`scoredOnLocations
      ensures scoredOnLocations == old(scoredOnLocations) + OpponentBreaches(breaches)
      ensures |scoredOnLocations| >= |old(scoredOnLocations)|
      ensures scoredOnLocations[..|old(scoredOnLocations)|] == old(scoredOnLocations)
    {
      for i := 0 to |breaches|
        invariant scoredOnLocations == old(scoredOnLocations) + OpponentBreaches(breaches[..i])
      {
        assert breaches[..i + 1][..i] == breaches[..i];
        var location := breaches[i].location;
        var unitOwnerSelf := breaches[i].owner == SelfOwner;
        if !unitOwnerSelf {
          scoredOnLocations := scoredOnLocations + [location];
        }
      }
      assert breaches[..|breaches|] == breaches;
    }

    /** `pick_defense_side`: 'left' iff more breaches at x <= 13, 'right' iff
        more at x >= 14, 'center' on a tie, an empty history included. */
    method PickDefenseSide() returns (side: string)
      ensures side == DefenseSide(scoredOnLocations)
      ensures side == "left" <==> CountLeft(scoredOnLocations) > CountRight(scoredOnLocations)
      ensures side == "right" <==> CountRight(scoredOnLocations) > CountLeft(scoredOnLocations)
      ensures side == "center" <==> CountLeft(scoredOnLocations) == CountRight(scoredOnLocations)
    {
      var lefts := 0;
      var rights := 0;
      for i := 0 to |scoredOnLocations|
        invariant lefts == CountLeft(scoredOnLocations[..i])
        invariant rights == CountRight(scoredOnLocations[..i])
      {
        assert scoredOnLocations[..i + 1][..i] == scoredOnLocations[..i];
        var coordinate := scoredOnLocations[i];
        if coordinate.x <= 13 {
          lefts := lefts + 1;
        } else if coordinate.x >= 14 {
          rights := rights + 1;
        }
      }
      assert scoredOnLocations[..|scoredOnLocations|] == scoredOnLocations;
      if lefts > rights {
        side := "left";
      } else if rights > lefts {
        side := "right";
      } else {
        side := "center";
      }
    }

    /** `build_reactive_defense`: for every recorded breach and every
        important point within reach, a destructor at the point and at the
        cell below it, each unless it lies in the exclusion zone; then the
        funnel for the side the breaches favour. */
    method BuildReactiveDefense() returns (reqs: seq<Request>)
      ensures reqs == ReactiveDefense(scoredOnLocations)
    {
      reqs := [];
      for i := 0 to |scoredOnLocations|
        invariant reqs == ReactivePlan(scoredOnLocations[..i], ImportantPoints)
      {
        var location := scoredOnLocations[i];
        assert scoredOnLocations[..i + 1][..i] == scoredOnLocations[..i];
        var destructors := ReactToBreach(location, ImportantPoints);
        reqs := reqs + destructors;
      }
      assert scoredOnLocations[..|scoredOnLocations|] == scoredOnLocations;
      var side := PickDefenseSide();
      reqs := reqs + FunnelPlan(side);
    }

    /** `stall_with_scramblers`: two requests of `int(threshold / 6)`
        scramblers, at the left then the right widened edge spawn. */
    method StallWithScramblers(board: Board) returns (reqs: seq<Request>)
      ensures reqs == StallPlan(minPingThreshold, board)
    {
      var left, right := GetNiceSpawn(board);
      var n := Trunc(minPingThreshold as real / 6.0);
      reqs := [Request(Scrambler, left, n), Request(Scrambler, right, n)];
    }

    /** `ping_cannon`: `int(pings)` single-ping requests, all at the widened
        edge spawn whose path takes the least damage. */
    method PingCannon(board: Board, damage: real, pings: real) returns (reqs: seq<Request>)
      ensures reqs == PingPlan(board, damage, pings)
    {
      var left, right := GetNiceSpawn(board);
      var spawn := LeastDamageSpawnLocation(board, [left, right], damage);
      var cell := spawn.value;
      assert cell == CannonSpawn(board, damage);
      reqs := [];
      var n := Trunc(pings);
      var i := 0;
      while i < n
        invariant 0 <= i <= (if n > 0 then n else 0)
        invariant reqs == seq(i, _ => Request(Ping, cell, 1))
      {
        reqs := reqs + [Request(Ping, cell, 1)];
        i := i + 1;
      }
      assert i == if n > 0 then n else 0;
    }

    /** Lines 82-96 of `starter_strategy`, the mobile units of a turn: a
        scrambler pass when the opponent's bits reach the threshold and the
        agent trails in health, the threshold update, the ping cannon when the
        agent's own bits reach the updated threshold, and a scrambler pass when
        the opponent's bits reach the updated threshold and the agent does not
        trail. */
    method DeployMobileUnits(s: Snapshot, damage: real) returns (reqs: seq<Request>)
      requires Valid()
      modifies this`minPingThreshold, this`pingCannonLastTurn
      ensures Valid()
      ensures minPingThreshold == NextThreshold(old(minPingThreshold), old(pingCannonLastTurn), lastEnemyHealth, s.enemyHealth)
      ensures minPingThreshold >= old(minPingThreshold)
      ensures pingCannonLastTurn <==> s.myBits >= minPingThreshold as real
      ensures reqs == MobilePlan(old(minPingThreshold), old(pingCannonLastTurn), lastEnemyHealth, s, damage)
    {
      ghost var t0, p0 := minPingThreshold, pingCannonLastTurn;
      var early := [];
      if s.enemyBits >= minPingThreshold as real && s.myHealth < s.enemyHealth {
        early := StallWithScramblers(s.board);
      }
      assert early == EarlyStall(t0, s);

      if pingCannonLastTurn && lastEnemyHealth == s.enemyHealth {
        minPingThreshold := Escalate(minPingThreshold);
      }
      ghost var t := NextThreshold(t0, p0, lastEnemyHealth, s.enemyHealth);
      assert minPingThreshold == t;

      var pings := [];
      if s.myBits >= minPingThreshold as real {
        pings := PingCannon(s.board, damage, s.myBits);
        pingCannonLastTurn := true;
      } else {
        pingCannonLastTurn := false;
      }
      assert pings == Cannon(t, s, damage);

      var late := [];
      if s.enemyBits >= minPingThreshold as real && s.myHealth >= s.enemyHealth {
        late := StallWithScramblers(s.board);
      }
      assert late == LateStall(t, s);
      reqs := early + pings + late;
    }

    /** `starter_strategy`: the baseline and reactive defence, then the
        mobile units; every request of the turn is the one `TurnPlan` lists
        for the state before the turn. */
    method StarterStrategy(s: Snapshot, damage: real) returns (reqs: seq<Request>)
      requires Valid()
      modifies this`minPingThreshold, this`pingCannonLastTurn
      ensures Valid()
      ensures minPingThreshold == NextThreshold(old(minPingThreshold), old(pingCannonLastTurn), lastEnemyHealth, s.enemyHealth)
      ensures minPingThreshold >= old(minPingThreshold)
      ensures pingCannonLastTurn <==> s.myBits >= minPingThreshold as real
      ensures reqs == TurnPlan(old(minPingThreshold), old(pingCannonLastTurn), lastEnemyHealth, scoredOnLocations, s, damage)
    {
      reqs := BuildDefences();
      var reactive := BuildReactiveDefense();
      reqs := reqs + reactive;
      var mobile := DeployMobileUnits(s, damage);
      reqs := reqs + mobile;
    }
  }

  /** The cannon fires from the cell `least_damage_spawn_location` picks among
      the two widened spawns: the left one unless the right one's path scores
      strictly less. */
  lemma CannonSpawnIsLeastDamage(board: Board, damage: real)
    ensures var (left, right) := NiceSpawns(board);
      LeastDamageSpawn(board, [left, right], damage) == Success(CannonSpawn(board, damage))
    ensures var (left, right) := NiceSpawns(board);
      var dl := PathDamage(board.attackers, board.pathToEdge(left), damage);
      var dr := PathDamage(board.attackers, board.pathToEdge(right), damage);
      (dl <= dr ==> CannonSpawn(board, damage) == left) && (dr < dl ==> CannonSpawn(board, damage) == right)
  {
    var (left, right) := NiceSpawns(board);
    var d := Scores(board, [left, right], damage);
    assert d[0] == PathDamage(board.attackers, board.pathToEdge(left), damage);
    assert d[1] == PathDamage(board.attackers, board.pathToEdge(right), damage);
  }

  /** A scrambler pass is two requests of `threshold / 6` scramblers, at the
      left then the right widened edge spawn. */
  lemma StallPlanShape(threshold: int, board: Board)
    requires threshold >= 0
    ensures var p := StallPlan(threshold, board);
      |p| == 2 && p[0].cell == NiceSpawns(board).0 && p[1].cell == NiceSpawns(board).1
      && p[0].unit == Scrambler && p[1].unit == Scrambler
      && p[0].count == threshold / 6 && p[1].count == threshold / 6
  {
    ScramblerCountIsSixth(threshold);
  }

  /** For a non-negative bit count the cannon asks for `int(pings)` pings,
      the whole part of the bits, all of them at the cannon's spawn. */
  lemma PingPlanShape(board: Board, damage: real, pings: real)
    requires pings >= 0.0
    ensures var p := PingPlan(board, damage, pings);
      |p| == Trunc(pings) && pings - 1.0 < |p| as real <= pings
      && forall r | r in p :: r == Request(Ping, CannonSpawn(board, damage), 1)
  {
  }

  /** No defence request is a scrambler or a ping. */
  lemma DefenseHasNoMobileUnits(history: seq<Cell>)
    ensures OfUnit(DefensePlan(history), Scrambler) == []
    ensures OfUnit(DefensePlan(history), Ping) == []
  {
    var d := DefensePlan(history);
    forall i | 0 <= i < |d|
      ensures d[i].unit == Encryptor || d[i].unit == Destructor
    {
      DefensePlanAvoidsExclusionZone(history, d[i]);
    }
    OfUnitAbsent(d, Scrambler);
    OfUnitAbsent(d, Ping);
  }

  lemma {:induction false} OfUnitOfThree(a: seq<Request>, b: seq<Request>, c: seq<Request>, unit: UnitType)
    ensures OfUnit(a + b + c, unit) == OfUnit(a, unit) + OfUnit(b, unit) + OfUnit(c, unit)
  {
    OfUnitAppend(a, b, unit);
    OfUnitAppend(a + b, c, unit);
  }

  lemma StallPlanOfUnit(threshold: int, board: Board)
    ensures OfUnit(StallPlan(threshold, board), Scrambler) == StallPlan(threshold, board)
    ensures OfUnit(StallPlan(threshold, board), Ping) == []
  {
    var p := StallPlan(threshold, board);
    OfUnitAll(p, Scrambler);
    OfUnitAbsent(p, Ping);
  }

  lemma PingPlanOfUnit(board: Board, damage: real, pings: real)
    ensures OfUnit(PingPlan(board, damage, pings), Ping) == PingPlan(board, damage, pings)
    ensures OfUnit(PingPlan(board, damage, pings), Scrambler) == []
  {
    var p := PingPlan(board, damage, pings);
    OfUnitAll(p, Ping);
    OfUnitAbsent(p, Scrambler);
  }

  /** A scrambler pass asks only for scramblers, the cannon only for pings. */
  lemma MobileSegmentsOfUnit(threshold: int, s: Snapshot, damage: real)
    ensures OfUnit(EarlyStall(threshold, s), Scrambler) == EarlyStall(threshold, s)
    ensures OfUnit(LateStall(threshold, s), Scrambler) == LateStall(threshold, s)
    ensures OfUnit(Cannon(threshold, s, damage), Scrambler) == []
    ensures OfUnit(EarlyStall(threshold, s), Ping) == []
    ensures OfUnit(LateStall(threshold, s), Ping) == []
    ensures OfUnit(Cannon(threshold, s, damage), Ping) == Cannon(threshold, s, damage)
  {
    StallPlanOfUnit(threshold, s.board);
    PingPlanOfUnit(s.board, damage, s.myBits);
  }

  /** The scramblers of a turn's mobile units are those of its two passes,
      its pings those of the cannon. */
  lemma MobilePlanOfUnit(threshold: int, pingedLastTurn: bool, lastEnemyHealth: int, s: Snapshot, damage: real)
    ensures var t := NextThreshold(threshold, pingedLastTurn, lastEnemyHealth, s.enemyHealth);
      OfUnit(MobilePlan(threshold, pingedLastTurn, lastEnemyHealth, s, damage), Scrambler)
      == EarlyStall(threshold, s) + LateStall(t, s)
    ensures var t := NextThreshold(threshold, pingedLastTurn, lastEnemyHealth, s.enemyHealth);
      OfUnit(MobilePlan(threshold, pingedLastTurn, lastEnemyHealth, s, damage), Ping) == Cannon(t, s, damage)
  {
    var t := NextThreshold(threshold, pingedLastTurn, lastEnemyHealth, s.enemyHealth);
    var early, cannon, late := EarlyStall(threshold, s), Cannon(t, s, damage), LateStall(t, s);
    OfUnitOfThree(early, cannon, late, Scrambler);
    OfUnitOfThree(early, cannon, late, Ping);
    MobileSegmentsOfUnit(threshold, s, damage);
    MobileSegmentsOfUnit(t, s, damage);
    assert early + [] + late == early + late;
    assert [] + cannon + [] == cannon;
  }

  /** Filtering a turn by a mobile kind sees only its mobile units. */
  lemma TurnOfMobileUnit(threshold: int, pingedLastTurn: bool, lastEnemyHealth: int,
                         history: seq<Cell>, s: Snapshot, damage: real, unit: UnitType)
    requires unit == Scrambler || unit == Ping
    ensures OfUnit(TurnPlan(threshold, pingedLastTurn, lastEnemyHealth, history, s, damage), unit)
      == OfUnit(MobilePlan(threshold, pingedLastTurn, lastEnemyHealth, s, damage), unit)
  {
    var mobile := MobilePlan(threshold, pingedLastTurn, lastEnemyHealth, s, damage);
    OfUnitAppend(DefensePlan(history), mobile, unit);
    DefenseHasNoMobileUnits(history);
    assert [] + OfUnit(mobile, unit) == OfUnit(mobile, unit);
  }

  /** At most one scrambler pass runs in a turn: the health tests of the two
      passes are complementary, so the turn's scrambler requests are those of
      the first pass, of the second, or none, and never more than two. */
  lemma AtMostOneStallPass(threshold: int, pingedLastTurn: bool, lastEnemyHealth: int,
                           history: seq<Cell>, s: Snapshot, damage: real)
    ensures var t := NextThreshold(threshold, pingedLastTurn, lastEnemyHealth, s.enemyHealth);
      OfUnit(TurnPlan(threshold, pingedLastTurn, lastEnemyHealth, history, s, damage), Scrambler)
      == EarlyStall(threshold, s) + LateStall(t, s)
    ensures var t := NextThreshold(threshold, pingedLastTurn, lastEnemyHealth, s.enemyHealth);
      EarlyStall(threshold, s) == [] || LateStall(t, s) == []
    ensures |OfUnit(TurnPlan(threshold, pingedLastTurn, lastEnemyHealth, history, s, damage), Scrambler)| <= 2
  {
    var t := NextThreshold(threshold, pingedLastTurn, lastEnemyHealth, s.enemyHealth);
    TurnOfMobileUnit(threshold, pingedLastTurn, lastEnemyHealth, history, s, damage, Scrambler);
    MobilePlanOfUnit(threshold, pingedLastTurn, lastEnemyHealth, s, damage);
    var early, late := EarlyStall(threshold, s), LateStall(t, s);
    assert |early| <= 2 && |late| <= 2;
    assert early == [] || late == [];
  }

  /** The ping cannon fires in a turn exactly when own bits reach the updated
      threshold, and it then asks for `int(bits)` single pings, all at one
      cell; otherwise the turn asks for no ping. */
  lemma PingsOfTurn(threshold: int, pingedLastTurn: bool, lastEnemyHealth: int,
                    history: seq<Cell>, s: Snapshot, damage: real)
    ensures var t := NextThreshold(threshold, pingedLastTurn, lastEnemyHealth, s.enemyHealth);
      OfUnit(TurnPlan(threshold, pingedLastTurn, lastEnemyHealth, history, s, damage), Ping)
      == if s.myBits >= t as real then PingPlan(s.board, damage, s.myBits) else []
    ensures var t := NextThreshold(threshold, pingedLastTurn, lastEnemyHealth, s.enemyHealth);
      s.myBits >= t as real && s.myBits >= 0.0 ==>
        |OfUnit(TurnPlan(threshold, pingedLastTurn, lastEnemyHealth, history, s, damage), Ping)| == Trunc(s.myBits)
  {
    TurnOfMobileUnit(threshold, pingedLastTurn, lastEnemyHealth, history, s, damage, Ping);
    MobilePlanOfUnit(threshold, pingedLastTurn, lastEnemyHealth, s, damage);
  }

  /** The exclusion zone only ever receives mobile units: no encryptor or
      destructor request of a turn targets it, whatever the breach history. */
  lemma TurnKeepsExclusionZoneFree(threshold: int, pingedLastTurn: bool, lastEnemyHealth: int,
                                   history: seq<Cell>, s: Snapshot, damage: real, r: Request)
    requires r in TurnPlan(threshold, pingedLastTurn, lastEnemyHealth, history, s, damage)
    ensures r.unit == Encryptor || r.unit == Destructor ==> r.cell !in ExclusionZone
  {
    var t := NextThreshold(threshold, pingedLastTurn, lastEnemyHealth, s.enemyHealth);
    if r in DefensePlan(history) {
      DefensePlanAvoidsExclusionZone(history, r);
    } else {
      assert r in EarlyStall(threshold, s) || r in Cannon(t, s, damage) || r in LateStall(t, s);
      assert r.unit == Scrambler || r.unit == Ping;
    }
  }

  /** The first turn with own bits 10, opponent bits 3, own health 30 and
      enemy health 10: neither scrambler pass runs (both read the opponent's
      bits, 3 < 6), the threshold stays 6, and the cannon asks for 10 pings. */
  lemma FirstTurnScenario(history: seq<Cell>, board: Board, damage: real)
    ensures var s := Snapshot(board, 10.0, 3.0, 30, 10);
      var plan := TurnPlan(InitialThreshold, false, InitialEnemyHealth, history, s, damage);
      NextThreshold(InitialThreshold, false, InitialEnemyHealth, 10) == InitialThreshold
      && OfUnit(plan, Scrambler) == []
      && |OfUnit(plan, Ping)| == 10
  {
    var s := Snapshot(board, 10.0, 3.0, 30, 10);
    AtMostOneStallPass(InitialThreshold, false, InitialEnemyHealth, history, s, damage);
    PingsOfTurn(InitialThreshold, false, InitialEnemyHealth, history, s, damage);
  }
}
