/** Side selection: the breach tally of `pick_defense_side` and the weighted
    region sums of `pick_attack_side`. */
module SideBias {
  import opened GameTypes
  import opened Layouts

  /** Breaches at x <= 13 (the `if` branch of the tally). */
  function CountLeft(history: seq<Cell>): nat
  {
    if history == [] then 0
    else CountLeft(history[..|history| - 1]) + (if history[|history| - 1].x <= 13 then 1 else 0)
  }

  /** Breaches at x >= 14 that the `if` branch did not take (the `elif`). */
  function CountRight(history: seq<Cell>): nat
  {
    if history == [] then 0
    else
      var c := history[|history| - 1];
      CountRight(history[..|history| - 1]) + (if !(c.x <= 13) && c.x >= 14 then 1 else 0)
  }

  /** x <= 13 and x >= 14 split the integers, so every breach is counted on
      exactly one side. */
  lemma {:induction false} EveryBreachCountedOnce(history: seq<Cell>)
    ensures CountLeft(history) + CountRight(history) == |history|
  {
    if history != [] {
      EveryBreachCountedOnce(history[..|history| - 1]);
    }
  }

  /** The side `pick_defense_side` names for a breach history. */
  function DefenseSide(history: seq<Cell>): string
  {
    var lefts := CountLeft(history);
    var rights := CountRight(history);
    if lefts > rights then "left" else if rights > lefts then "right" else "center"
  }

  /** The weight of one cell's units: the sum of `damage_i * range`. */
  function UnitsWeight(units: seq<Unit>): real
  {
    if units == [] then 0.0
    else UnitsWeight(units[..|units| - 1]) + units[|units| - 1].damage * units[|units| - 1].range
  }

  /** The weight of a region: the sum of the unit weights of its cells. */
  function RegionWeight(board: Board, coords: seq<Cell>): real
  {
    if coords == [] then 0.0
    else RegionWeight(board, coords[..|coords| - 1]) + UnitsWeight(board.unitsAt(coords[|coords| - 1]))
  }

  /** The weight of a region is the sum of the weights of its parts. */
  lemma {:induction false} RegionWeightAppend(board: Board, a: seq<Cell>, b: seq<Cell>)
    ensures RegionWeight(board, a + b) == RegionWeight(board, a) + RegionWeight(board, b)
    decreases |b|
  {
    if b == [] {
      assert a + b == a;
    } else {
      var b' := b[..|b| - 1];
      assert (a + b)[..|a + b| - 1] == a + b';
      assert (a + b)[|a + b| - 1] == b[|b| - 1];
      RegionWeightAppend(board, a, b');
    }
  }

  /** Units with no negative stats give every region a weight of at least 0,
      and an empty board weighs nothing. */
  lemma {:induction false} RegionWeightNonNegative(board: Board, coords: seq<Cell>)
    requires forall i | 0 <= i < |coords| ::
      forall u | u in board.unitsAt(coords[i]) :: u.damage >= 0.0 && u.range >= 0.0
    ensures RegionWeight(board, coords) >= 0.0
  {
    if coords != [] {
      RegionWeightNonNegative(board, coords[..|coords| - 1]);
      UnitsWeightNonNegative(board.unitsAt(coords[|coords| - 1]));
    }
  }

  lemma {:induction false} UnitsWeightNonNegative(units: seq<Unit>)
    requires forall u | u in units :: u.damage >= 0.0 && u.range >= 0.0
    ensures UnitsWeight(units) >= 0.0
  {
    if units != [] {
      var u := units[|units| - 1];
      assert u in units;
      UnitsWeightNonNegative(units[..|units| - 1]);
      assert u.damage * u.range >= 0.0;
    }
  }

  /** `min(a, b, c)`. */
  function Min3(a: real, b: real, c: real): (m: real)
    ensures m <= a && m <= b && m <= c
    ensures m == a || m == b || m == c
  {
    if a <= b && a <= c then a else if b <= c then b else c
  }

  /** One region loop of `pick_attack_side`: for each cell, for each unit on
      it, add `damage_i * range`. */
  method RegionCount(board: Board, coords: seq<Cell>) returns (count: real)
    ensures count == RegionWeight(board, coords)
  {
    count := 0.0;
    for i := 0 to |coords|
      invariant count == RegionWeight(board, coords[..i])
    {
      var units := board.unitsAt(coords[i]);
      var cellCount := 0.0;
      for j := 0 to |units|
        invariant cellCount == UnitsWeight(units[..j])
      {
        assert units[..j + 1][..j] == units[..j];
        cellCount := cellCount + units[j].damage * units[j].range;
      }
      assert units[..|units|] == units;
      assert coords[..i + 1][..i] == coords[..i];
      count := count + cellCount;
    }
    assert coords[..|coords|] == coords;
  }

  /** `pick_attack_side`: the least defended region, ties broken left, then
      right, then mid. */
  method PickAttackSide(board: Board) returns (side: string)
    ensures side == "LEFT" <==>
      RegionWeight(board, LeftRegion) <= RegionWeight(board, RightRegion)
      && RegionWeight(board, LeftRegion) <= RegionWeight(board, MidRegion)
    ensures side == "RIGHT" <==>
      RegionWeight(board, LeftRegion) > RegionWeight(board, RightRegion)
      && RegionWeight(board, RightRegion) <= RegionWeight(board, MidRegion)
    ensures side == "MID" <==>
      RegionWeight(board, MidRegion) < RegionWeight(board, LeftRegion)
      && RegionWeight(board, MidRegion) < RegionWeight(board, RightRegion)
  {
    var leftCount := RegionCount(board, LeftRegion);
    var rightCount := RegionCount(board, RightRegion);
    var midCount := RegionCount(board, MidRegion);
    var minCount := Min3(leftCount, rightCount, midCount);
    if minCount == leftCount {
      side := "LEFT";
    } else if minCount == rightCount {
      side := "RIGHT";
    } else {
      side := "MID";
    }
  }
}
