/** Threat scoring of a path and the least-damage choice among candidate spawn
    cells (`least_damage_spawn_location`). */
module ThreatModel {
  import opened GameTypes

  /** Expected damage along a path: for every cell, the number of enemy
      destructors able to hit it times a destructor's damage, summed over the
      whole path in order, with no early exit. */
  function PathDamage(attackers: Cell -> nat, path: seq<Cell>, damage: real): real
  {
    if path == [] then 0.0
    else PathDamage(attackers, path[..|path| - 1], damage)
         + attackers(path[|path| - 1]) as real * damage
  }

  /** The total number of attackers seen along the path, counted from the front. */
  function AttackerTotal(attackers: Cell -> nat, path: seq<Cell>): nat
  {
    if path == [] then 0 else attackers(path[0]) + AttackerTotal(attackers, path[1..])
  }

  lemma {:induction false} AttackerTotalAppend(attackers: Cell -> nat, p: seq<Cell>, q: seq<Cell>)
    ensures AttackerTotal(attackers, p + q) == AttackerTotal(attackers, p) + AttackerTotal(attackers, q)
  {
    if p != [] {
      assert (p + q)[1..] == p[1..] + q;
      AttackerTotalAppend(attackers, p[1..], q);
    } else {
      assert p + q == q;
    }
  }

  /** The score is the destructor damage times the number of attackers along
      the whole path; an empty path scores 0. */
  lemma {:induction false} PathDamageIsDamageTimesAttackers(attackers: Cell -> nat, path: seq<Cell>, damage: real)
    ensures PathDamage(attackers, path, damage) == AttackerTotal(attackers, path) as real * damage
  {
    if path != [] {
      var front := path[..|path| - 1];
      var last := path[|path| - 1];
      PathDamageIsDamageTimesAttackers(attackers, front, damage);
      assert path == front + [last];
      AttackerTotalAppend(attackers, front, [last]);
      assert AttackerTotal(attackers, [last]) == attackers(last);
      assert (AttackerTotal(attackers, front) + attackers(last)) as real * damage
          == AttackerTotal(attackers, front) as real * damage + attackers(last) as real * damage;
    }
  }

  /** Scoring is additive over path segments: every cell is counted. */
  lemma {:induction false} PathDamageAppend(attackers: Cell -> nat, p: seq<Cell>, q: seq<Cell>, damage: real)
    ensures PathDamage(attackers, p + q, damage) == PathDamage(attackers, p, damage) + PathDamage(attackers, q, damage)
    decreases |q|
  {
    if q == [] {
      assert p + q == p;
    } else {
      var q' := q[..|q| - 1];
      assert (p + q)[..|p + q| - 1] == p + q';
      assert (p + q)[|p + q| - 1] == q[|q| - 1];
      PathDamageAppend(attackers, p, q', damage);
    }
  }

  /** The score of every candidate, in candidate order. */
  function Scores(board: Board, options: seq<Cell>, damage: real): (d: seq<real>)
    ensures |d| == |options|
  {
    seq(|options|, i requires 0 <= i < |options| => PathDamage(board.attackers, board.pathToEdge(options[i]), damage))
  }

  /** The first index holding the minimum: `d.index(min(d))`. */
  function FirstMinIndex(d: seq<real>): (k: nat)
    requires |d| > 0
    ensures k < |d|
    ensures forall j | 0 <= j < |d| :: d[k] <= d[j]
    ensures forall j | 0 <= j < k :: d[k] < d[j]
  {
    if |d| == 1 then 0
    else
      var k' := FirstMinIndex(d[..|d| - 1]);
      if d[|d| - 1] < d[k'] then |d| - 1 else k'
  }

  /** An index with the two properties of `FirstMinIndex` is that index. */
  lemma FirstMinIndexUnique(d: seq<real>, k: nat)
    requires k < |d|
    requires forall j | 0 <= j < |d| :: d[k] <= d[j]
    requires forall j | 0 <= j < k :: d[k] < d[j]
    ensures FirstMinIndex(d) == k
  {
  }

  /** The choice `least_damage_spawn_location` makes: the first candidate of
      least score; an empty candidate list fails, as `min([])` raises. */
  function LeastDamageSpawn(board: Board, options: seq<Cell>, damage: real): Result<Cell>
  {
    if options == [] then Failure("min() arg is an empty sequence")
    else Success(options[FirstMinIndex(Scores(board, options, damage))])
  }

  /** `least_damage_spawn_location`: build the list of damages, take its
      minimum, and return the candidate at the first index of that minimum. */
  method LeastDamageSpawnLocation(board: Board, options: seq<Cell>, damage: real) returns (r: Result<Cell>)
    ensures r == LeastDamageSpawn(board, options, damage)
    ensures r.Failure? <==> options == []
    ensures r.Success? ==>
      exists k | 0 <= k < |options| ::
        r.value == options[k]
        && (forall j | 0 <= j < |options| :: Scores(board, options, damage)[k] <= Scores(board, options, damage)[j])
        && (forall j | 0 <= j < k :: Scores(board, options, damage)[k] < Scores(board, options, damage)[j])
  {
    var damages: seq<real> := [];
    for i := 0 to |options|
      invariant |damages| == i
      invariant forall j | 0 <= j < i ::
        damages[j] == PathDamage(board.attackers, board.pathToEdge(options[j]), damage)
    {
      var path := board.pathToEdge(options[i]);
      var total := DamageAlong(board.attackers, path, damage);
      damages := damages + [total];
    }
    assert damages == Scores(board, options, damage);
    if |damages| == 0 {
      return Failure("min() arg is an empty sequence");
    }
    var k := IndexOfMin(damages);
    r := Success(options[k]);
  }

  /** The inner loop of `least_damage_spawn_location`: the damage summed cell
      by cell along one path. */
  method DamageAlong(attackers: Cell -> nat, path: seq<Cell>, damage: real) returns (total: real)
    ensures total == PathDamage(attackers, path, damage)
  {
    total := 0.0;
    for n := 0 to |path|
      invariant total == PathDamage(attackers, path[..n], damage)
    {
      assert path[..n + 1][..n] == path[..n];
      total := total + attackers(path[n]) as real * damage;
    }
    assert path[..|path|] == path;
  }

  /** `damages.index(min(damages))`: the minimum, then the first index that
      holds it. */
  method IndexOfMin(damages: seq<real>) returns (k: nat)
    requires |damages| > 0
    ensures k == FirstMinIndex(damages)
  {
    var least := damages[0];
    for i := 1 to |damages|
      invariant exists j | 0 <= j < i :: damages[j] == least
      invariant forall j | 0 <= j < i :: least <= damages[j]
    {
      if damages[i] < least {
        least := damages[i];
      }
    }
    k := 0;
    while damages[k] != least
      invariant 0 <= k < |damages|
      invariant forall j | 0 <= j < k :: damages[j] != least
      invariant exists j | k <= j < |damages| :: damages[j] == least
      decreases |damages| - k
    {
      k := k + 1;
    }
    FirstMinIndexUnique(damages, k);
  }
}
