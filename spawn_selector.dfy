/** The widened edge spawns of `get_nice_spawn` and the occupancy filter
    `filter_blocked_locations`. */
module SpawnSelector {
  import opened GameTypes
  import opened Layouts

  /** The length of the occupied run at the front of the probe list: the
      number of probes the loop of `get_nice_spawn` accepts before it breaks. */
  function OccupiedRun(occupied: Cell -> bool, probes: seq<Cell>): (n: nat)
    ensures n <= |probes|
  {
    if probes == [] || !occupied(probes[0]) then 0
    else 1 + OccupiedRun(occupied, probes[1..])
  }

  /** The run is occupied and, unless it covers every probe, ends at a free
      probe. */
  lemma {:induction false} OccupiedRunIsFrontRun(occupied: Cell -> bool, probes: seq<Cell>)
    ensures var n := OccupiedRun(occupied, probes);
      (forall j | 0 <= j < n :: occupied(probes[j]))
      && (n < |probes| ==> !occupied(probes[n]))
  {
    if probes != [] && occupied(probes[0]) {
      OccupiedRunIsFrontRun(occupied, probes[1..]);
      var n := OccupiedRun(occupied, probes);
      forall j | 0 <= j < n
        ensures occupied(probes[j])
      {
        if j > 0 {
          assert probes[j] == probes[1..][j - 1];
        }
      }
      if n < |probes| {
        assert probes[n] == probes[1..][n - 1];
      }
    }
  }

  /** The cell the probe loop leaves in `*_last`: the anchor when no probe
      was accepted, otherwise the last accepted probe. */
  function NiceSpawn(occupied: Cell -> bool, anchor: Cell, probes: seq<Cell>): Cell
  {
    var n := OccupiedRun(occupied, probes);
    if n == 0 then anchor else probes[n - 1]
  }

  /** The pair `(left_last, right_last)` that `get_nice_spawn` returns. */
  function NiceSpawns(board: Board): (Cell, Cell)
  {
    (NiceSpawn(board.occupied, LeftAnchor, LeftProbes),
     NiceSpawn(board.occupied, RightAnchor, RightProbes))
  }

  /** One probe loop of `get_nice_spawn`: walk the probes in order, keep the
      last occupied one, and stop at the first unoccupied one. The result is
      probe k exactly when probes 0..k are occupied and probe k+1 is not (or
      does not exist), and it is the anchor when probe 0 is free. */
  method ProbeOutward(occupied: Cell -> bool, anchor: Cell, probes: seq<Cell>) returns (last: Cell)
    ensures last == NiceSpawn(occupied, anchor, probes)
    ensures (probes == [] || !occupied(probes[0])) ==> last == anchor
  {
    last := anchor;
    var i := 0;
    while i < |probes|
      invariant 0 <= i <= |probes|
      invariant forall j | 0 <= j < i :: occupied(probes[j])
      invariant last == if i == 0 then anchor else probes[i - 1]
    {
      if occupied(probes[i]) {
        last := probes[i];
      } else {
        break;
      }
      i := i + 1;
    }
    RunIsUnique(occupied, probes, i);
  }

  /** The occupied front run is determined by its two defining properties. */
  lemma RunIsUnique(occupied: Cell -> bool, probes: seq<Cell>, n: nat)
    requires n <= |probes|
    requires forall j | 0 <= j < n :: occupied(probes[j])
    requires n < |probes| ==> !occupied(probes[n])
    ensures OccupiedRun(occupied, probes) == n
    decreases n
  {
    if n > 0 {
      forall j | 0 <= j < n - 1
        ensures occupied(probes[1..][j])
      {
        assert probes[1..][j] == probes[j + 1];
      }
      if n - 1 < |probes| - 1 {
        assert probes[1..][n - 1] == probes[n];
      }
      RunIsUnique(occupied, probes[1..], n - 1);
    }
  }

  /** The probe returned is the last of an occupied run from the first probe:
      it is probe k exactly when probes 0..k are occupied and probe k+1 is
      free or does not exist (for an anchor outside a list of distinct probes,
      as both lists of `get_nice_spawn` are). */
  lemma NiceSpawnIsEndOfRun(occupied: Cell -> bool, anchor: Cell, probes: seq<Cell>, k: nat)
    requires k < |probes|
    requires anchor !in probes
    requires forall i, j | 0 <= i < j < |probes| :: probes[i] != probes[j]
    ensures NiceSpawn(occupied, anchor, probes) == probes[k]
        <==> (forall j | 0 <= j <= k :: occupied(probes[j])) && (k + 1 == |probes| || !occupied(probes[k + 1]))
    ensures NiceSpawn(occupied, anchor, probes) == anchor <==> !occupied(probes[0])
  {
    var n := OccupiedRun(occupied, probes);
    OccupiedRunIsFrontRun(occupied, probes);
    if (forall j | 0 <= j <= k :: occupied(probes[j])) && (k + 1 == |probes| || !occupied(probes[k + 1])) {
      RunIsUnique(occupied, probes, k + 1);
    }
    if NiceSpawn(occupied, anchor, probes) == probes[k] {
      assert n != 0 && probes[n - 1] == probes[k];
      assert n - 1 == k;
    }
  }

  /** `get_nice_spawn`: the right loop then the left loop, returning
      `(left_last, right_last)`. Each result is its anchor or one of its probes. */
  method GetNiceSpawn(board: Board) returns (left: Cell, right: Cell)
    ensures (left, right) == NiceSpawns(board)
    ensures left == LeftAnchor || left in LeftProbes
    ensures right == RightAnchor || right in RightProbes
    ensures !board.occupied(LeftProbes[0]) ==> left == LeftAnchor
    ensures !board.occupied(RightProbes[0]) ==> right == RightAnchor
  {
    right := ProbeOutward(board.occupied, RightAnchor, RightProbes);
    left := ProbeOutward(board.occupied, LeftAnchor, LeftProbes);
  }

  /** The locations without a stationary unit, in their original order. */
  function Unblocked(occupied: Cell -> bool, locations: seq<Cell>): (r: seq<Cell>)
    ensures |r| <= |locations|
    ensures forall c :: c in r <==> c in locations && !occupied(c)
    ensures forall i | 0 <= i < |r| :: !occupied(r[i])
    ensures (forall i | 0 <= i < |locations| :: !occupied(locations[i])) ==> r == locations
  {
    if locations == [] then []
    else
      var front := Unblocked(occupied, locations[..|locations| - 1]);
      var c := locations[|locations| - 1];
      assert locations == locations[..|locations| - 1] + [c];
      if occupied(c) then front else front + [c]
  }

  /** A single location is kept exactly when it is free. */
  lemma UnblockedSingle(occupied: Cell -> bool, c: Cell)
    ensures Unblocked(occupied, [c]) == if occupied(c) then [] else [c]
  {
  }

  /** Filtering commutes with concatenation, so together with the single
      location case it keeps the free locations in order, each as often as it
      appears. */
  lemma {:induction false} UnblockedAppend(occupied: Cell -> bool, a: seq<Cell>, b: seq<Cell>)
    ensures Unblocked(occupied, a + b) == Unblocked(occupied, a) + Unblocked(occupied, b)
    decreases |b|
  {
    if b == [] {
      assert a + b == a;
    } else {
      var b' := b[..|b| - 1];
      assert (a + b)[..|a + b| - 1] == a + b';
      assert (a + b)[|a + b| - 1] == b[|b| - 1];
      UnblockedAppend(occupied, a, b');
    }
  }

  /** `filter_blocked_locations`: append each location without a stationary
      unit to the result, in list order. */
  method FilterBlockedLocations(occupied: Cell -> bool, locations: seq<Cell>) returns (filtered: seq<Cell>)
    ensures filtered == Unblocked(occupied, locations)
  {
    filtered := [];
    for i := 0 to |locations|
      invariant filtered == Unblocked(occupied, locations[..i])
    {
      assert locations[..i + 1][..i] == locations[..i];
      if !occupied(locations[i]) {
        filtered := filtered + [locations[i]];
      }
    }
    assert locations[..|locations|] == locations;
  }
}
