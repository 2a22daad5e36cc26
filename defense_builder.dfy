/** The three defence layers: the fixed baseline of `build_defences`, the
    breach-driven destructors of `build_reactive_defense`, and the directional
    funnel of `build_triangle_funnel`. */
module DefenseBuilder {
  import opened GameTypes
  import opened Layouts
  import opened SideBias

  /** A batch of single encryptors on the cells of `encryptors`, in order,
      followed by single destructors on the cells of `destructors`, in order. */
  ghost predicate EncryptorsThenDestructors(reqs: seq<Request>, encryptors: seq<Cell>, destructors: seq<Cell>)
  {
    |reqs| == |encryptors| + |destructors|
    && (forall i | 0 <= i < |encryptors| :: reqs[i] == Request(Encryptor, encryptors[i], 1))
    && (forall i | 0 <= i < |destructors| :: reqs[|encryptors| + i] == Request(Destructor, destructors[i], 1))
  }

  /** `build_defences`: encryptors first, then destructors, one request per
      fixed cell. */
  function BuildDefences(): (r: seq<Request>)
    ensures EncryptorsThenDestructors(r, BaselineEncryptors, BaselineDestructors)
  {
    Spawns(Encryptor, BaselineEncryptors) + Spawns(Destructor, BaselineDestructors)
  }

  /** The square of `euclidean_distance`. */
  function SquaredDistance(a: Cell, b: Cell): int
  {
    (a.x - b.x) * (a.x - b.x) + (a.y - b.y) * (a.y - b.y)
  }

  /** `euclidean_distance(...) < 4`, compared without the square root. */
  predicate WithinReach(breach: Cell, point: Cell)
  {
    SquaredDistance(breach, point) < 16
  }

  /** Comparing squared distances is exact: a non-negative root r of the
      integer d is below 4 exactly when d is below 16. */
  lemma SqrtBelowFour(r: real, d: int)
    requires r >= 0.0 && r * r == d as real
    ensures r < 4.0 <==> d < 16
  {
    if r >= 4.0 {
      assert r * r >= 4.0 * r >= 16.0;
    } else {
      assert r * r <= 4.0 * r < 16.0;
    }
  }

  /** Reach is symmetric and never spans more than 3 columns or 3 rows. */
  lemma WithinReachBox(a: Cell, b: Cell)
    ensures WithinReach(a, b) <==> WithinReach(b, a)
    ensures WithinReach(a, b) ==> -3 <= a.x - b.x <= 3 && -3 <= a.y - b.y <= 3
  {
    var dx, dy := a.x - b.x, a.y - b.y;
    assert dy * dy >= 0 && dx * dx >= 0;
    if dx >= 4 || dx <= -4 {
      assert dx * dx >= 16;
    }
    if dy >= 4 || dy <= -4 {
      assert dy * dy >= 16;
    }
  }

  /** The cell `[x, y - 1]` the reactive layer also fills. */
  function Below(c: Cell): Cell
  {
    Cell(c.x, c.y - 1)
  }

  /** The two gated destructor requests for one reachable important point. */
  function PointRequests(point: Cell): seq<Request>
  {
    (if point !in ExclusionZone then [Request(Destructor, point, 1)] else [])
    + (if Below(point) !in ExclusionZone then [Request(Destructor, Below(point), 1)] else [])
  }

  /** The inner loop of `build_reactive_defense` for one breach location. */
  function BreachRequests(breach: Cell, points: seq<Cell>): seq<Request>
  {
    if points == [] then []
    else
      var p := points[|points| - 1];
      BreachRequests(breach, points[..|points| - 1])
      + (if WithinReach(breach, p) then PointRequests(p) else [])
  }

  /** The inner loop of `build_reactive_defense`: for each point within reach
      of the breach, a destructor at the point and one at the cell below it,
      each unless it lies in the exclusion zone. */
  method ReactToBreach(breach: Cell, points: seq<Cell>) returns (reqs: seq<Request>)
    ensures reqs == BreachRequests(breach, points)
  {
    reqs := [];
    for j := 0 to |points|
      invariant reqs == BreachRequests(breach, points[..j])
    {
      var point := points[j];
      assert points[..j + 1][..j] == points[..j];
      if SquaredDistance(breach, point) < 16 {
        ghost var before := reqs;
        if point !in ExclusionZone {
          reqs := reqs + [Request(Destructor, point, 1)];
        }
        if Cell(point.x, point.y - 1) !in ExclusionZone {
          reqs := reqs + [Request(Destructor, Cell(point.x, point.y - 1), 1)];
        }
        assert reqs == before + PointRequests(point);
      }
    }
    assert points[..|points|] == points;
  }

  /** The nested loops of `build_reactive_defense` over the whole history,
      for a list of important points. */
  function ReactivePlan(history: seq<Cell>, points: seq<Cell>): seq<Request>
  {
    if history == [] then []
    else ReactivePlan(history[..|history| - 1], points) + BreachRequests(history[|history| - 1], points)
  }

  /** `build_triangle_funnel`: the right layout for a side starting with 'r',
      the left one for a side starting with 'l', nothing otherwise. */
  function FunnelPlan(side: string): (r: seq<Request>)
    ensures |side| > 0 && side[0] == 'r' ==>
      EncryptorsThenDestructors(r, RightFunnelEncryptors, RightFunnelDestructors)
    ensures |side| > 0 && side[0] == 'l' ==>
      EncryptorsThenDestructors(r, LeftFunnelEncryptors, LeftFunnelDestructors)
    ensures (|side| == 0 || (side[0] != 'r' && side[0] != 'l')) ==> r == []
  {
    if |side| > 0 && side[0] == 'r' then
      Spawns(Encryptor, RightFunnelEncryptors) + Spawns(Destructor, RightFunnelDestructors)
    else if |side| > 0 && side[0] == 'l' then
      Spawns(Encryptor, LeftFunnelEncryptors) + Spawns(Destructor, LeftFunnelDestructors)
    else []
  }

  /** `build_reactive_defense`: the breach-driven destructors, then the
      funnel for the side the breaches favour. */
  function ReactiveDefense(history: seq<Cell>): seq<Request>
  {
    ReactivePlan(history, ImportantPoints) + FunnelPlan(DefenseSide(history))
  }

  /** The whole defence of one turn, in request order. */
  function DefensePlan(history: seq<Cell>): seq<Request>
  {
    BuildDefences() + ReactiveDefense(history)
  }

  /** A request of `Spawns(unit, cells)` is a single unit on one of the cells. */
  lemma SpawnsMember(unit: UnitType, cells: seq<Cell>, r: Request)
    requires r in Spawns(unit, cells)
    ensures r.unit == unit && r.count == 1 && r.cell in cells
  {
  }

  /** A request for one breach is a single destructor, outside the exclusion
      zone, at a reachable important point or the cell below it. */
  lemma {:induction false} BreachRequestsSound(breach: Cell, points: seq<Cell>, r: Request)
    requires r in BreachRequests(breach, points)
    ensures r.unit == Destructor && r.count == 1 && r.cell !in ExclusionZone
    ensures exists p | p in points :: WithinReach(breach, p) && (r.cell == p || r.cell == Below(p))
  {
    if points != [] {
      var front := points[..|points| - 1];
      var p := points[|points| - 1];
      assert p in points;
      if r in BreachRequests(breach, front) {
        BreachRequestsSound(breach, front, r);
        var q :| q in front && WithinReach(breach, q) && (r.cell == q || r.cell == Below(q));
        assert q in points;
      }
    }
  }

  /** Whatever the breach history, duplicates included, every reactive
      request is a single destructor outside the exclusion zone, placed at an
      important point within reach of some recorded breach or just below it. */
  lemma {:induction false} ReactivePlanSound(history: seq<Cell>, points: seq<Cell>, r: Request)
    requires r in ReactivePlan(history, points)
    ensures r.unit == Destructor && r.count == 1 && r.cell !in ExclusionZone
    ensures exists i, p | 0 <= i < |history| && p in points ::
      WithinReach(history[i], p) && (r.cell == p || r.cell == Below(p))
  {
    if history != [] {
      var front := history[..|history| - 1];
      var last := history[|history| - 1];
      if r in ReactivePlan(front, points) {
        ReactivePlanSound(front, points, r);
        var i, p :| 0 <= i < |front| && p in points
          && WithinReach(front[i], p) && (r.cell == p || r.cell == Below(p));
        assert history[i] == front[i];
      } else {
        BreachRequestsSound(last, points, r);
        var p :| p in points && WithinReach(last, p) && (r.cell == p || r.cell == Below(p));
        assert history[|history| - 1] == last;
      }
    }
  }

  lemma {:induction false} BreachRequestsComplete(breach: Cell, points: seq<Cell>, k: nat)
    requires k < |points| && WithinReach(breach, points[k])
    ensures points[k] !in ExclusionZone ==> Request(Destructor, points[k], 1) in BreachRequests(breach, points)
    ensures Below(points[k]) !in ExclusionZone ==> Request(Destructor, Below(points[k]), 1) in BreachRequests(breach, points)
  {
    if k < |points| - 1 {
      var front := points[..|points| - 1];
      assert front[k] == points[k];
      BreachRequestsComplete(breach, front, k);
    }
  }

  /** Conversely, for every recorded breach and every important point within
      reach of it, each of the point and the cell below it is requested unless
      it lies in the exclusion zone; the two gates are independent. */
  lemma {:induction false} ReactivePlanComplete(history: seq<Cell>, points: seq<Cell>, i: nat, k: nat)
    requires i < |history| && k < |points|
    requires WithinReach(history[i], points[k])
    ensures points[k] !in ExclusionZone
        ==> Request(Destructor, points[k], 1) in ReactivePlan(history, points)
    ensures Below(points[k]) !in ExclusionZone
        ==> Request(Destructor, Below(points[k]), 1) in ReactivePlan(history, points)
  {
    var front := history[..|history| - 1];
    if i < |history| - 1 {
      assert front[i] == history[i];
      ReactivePlanComplete(front, points, i, k);
    } else {
      BreachRequestsComplete(history[i], points, k);
    }
  }

  /** The reactive layer is recomputed from the whole history: the plan of a
      longer history extends the plan of its prefix, and a repeated breach
      repeats its requests. */
  lemma {:induction false} ReactivePlanAppend(a: seq<Cell>, b: seq<Cell>, points: seq<Cell>)
    ensures ReactivePlan(a + b, points) == ReactivePlan(a, points) + ReactivePlan(b, points)
    decreases |b|
  {
    if b == [] {
      assert a + b == a;
    } else {
      var b' := b[..|b| - 1];
      assert (a + b)[..|a + b| - 1] == a + b';
      var last := b[|b| - 1];
      assert (a + b)[|a + b| - 1] == last;
      var tail := BreachRequests(last, points);
      calc {
        ReactivePlan(a + b, points);
        ReactivePlan(a + b', points) + tail;
        { ReactivePlanAppend(a, b', points); }
        (ReactivePlan(a, points) + ReactivePlan(b', points)) + tail;
        ReactivePlan(a, points) + (ReactivePlan(b', points) + tail);
        ReactivePlan(a, points) + ReactivePlan(b, points);
      }
    }
  }

  /** Above the exclusion zone's rows, or in its top row at column 12 or 15. */
  predicate ClearOfZone(c: Cell)
  {
    c.y >= 4 || (c.y == 3 && (c.x == 12 || c.x == 15))
  }

  lemma BaselineClear()
    ensures forall c | c in BaselineEncryptors :: ClearOfZone(c)
    ensures forall c | c in BaselineDestructors :: ClearOfZone(c)
  {
  }

  lemma FunnelsClear()
    ensures forall c | c in RightFunnelEncryptors :: ClearOfZone(c)
    ensures forall c | c in RightFunnelDestructors :: ClearOfZone(c)
    ensures forall c | c in LeftFunnelEncryptors :: ClearOfZone(c)
    ensures forall c | c in LeftFunnelDestructors :: ClearOfZone(c)
  {
  }

  /** Every fixed layout cell lies above the exclusion zone's rows or at one
      of its gaps. */
  lemma FixedLayoutsClear(c: Cell)
    requires c in BaselineEncryptors || c in BaselineDestructors
          || c in RightFunnelEncryptors || c in RightFunnelDestructors
          || c in LeftFunnelEncryptors || c in LeftFunnelDestructors
    ensures c !in ExclusionZone
  {
    BaselineClear();
    FunnelsClear();
    assert ClearOfZone(c);
    if c in ExclusionZone {
      ExclusionZoneShape(c);
    }
  }

  /** Only a side starting with 'r' or 'l' gets a funnel; in particular the
      funnel is empty exactly when the breach tally is level, an empty
      history included. */
  lemma FunnelOnlyForBiasedSide(history: seq<Cell>)
    ensures FunnelPlan(DefenseSide(history)) == [] <==> CountLeft(history) == CountRight(history)
    ensures FunnelPlan("center") == []
  {
  }

  /** No defence request of a turn targets the exclusion zone, whatever the
      breach history: every request is a single encryptor or destructor. */
  lemma DefensePlanAvoidsExclusionZone(history: seq<Cell>, r: Request)
    requires r in DefensePlan(history)
    ensures r.cell !in ExclusionZone
    ensures r.unit == Encryptor || r.unit == Destructor
    ensures r.count == 1
  {
    var side := DefenseSide(history);
    if r in Spawns(Encryptor, BaselineEncryptors) {
      SpawnsMember(Encryptor, BaselineEncryptors, r);
      FixedLayoutsClear(r.cell);
    } else if r in Spawns(Destructor, BaselineDestructors) {
      SpawnsMember(Destructor, BaselineDestructors, r);
      FixedLayoutsClear(r.cell);
    } else if r in ReactivePlan(history, ImportantPoints) {
      ReactivePlanSound(history, ImportantPoints, r);
    } else {
      assert r in FunnelPlan(side);
      if r in Spawns(Encryptor, RightFunnelEncryptors) {
        SpawnsMember(Encryptor, RightFunnelEncryptors, r);
      } else if r in Spawns(Destructor, RightFunnelDestructors) {
        SpawnsMember(Destructor, RightFunnelDestructors, r);
      } else if r in Spawns(Encryptor, LeftFunnelEncryptors) {
        SpawnsMember(Encryptor, LeftFunnelEncryptors, r);
      } else {
        SpawnsMember(Destructor, LeftFunnelDestructors, r);
      }
      FixedLayoutsClear(r.cell);
    }
  }
}
