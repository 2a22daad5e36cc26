/** Values shared by every part of the model: board cells, unit kinds, placement
    requests, breach events, and the read-only view of the board that the
    engine's library provides. */
module GameTypes {

  /** A board cell `[x, y]`; equality is by value, as for the source's
      two-element coordinate lists. */
  datatype Cell = Cell(x: int, y: int)

  /** The six unit kinds whose shorthands are read from the game configuration
      at match start (FILTER, ENCRYPTOR, DESTRUCTOR, PING, EMP, SCRAMBLER). */
  datatype UnitType = Filter | Encryptor | Destructor | Ping | Emp | Scrambler

  /** A unit standing on a cell, with the two stats `pick_attack_side` reads. */
  datatype Unit = Unit(damage: real, range: real)

  /** One call of `attempt_spawn`: a unit kind, a location and the number of
      units asked for (`n`, which defaults to 1). */
  datatype Request = Request(unit: UnitType, cell: Cell, count: int)

  /** A breach reported in an action frame: `breach[0]` is the location and
      `breach[4]` the owner flag (1 denotes the reporting player's own unit). */
  datatype Breach = Breach(location: Cell, owner: int)

  /** The queries the strategy makes of the engine's game state. They are
      foreign code, so they are uninterpreted here:
      - `occupied(c)`: `contains_stationary_unit(c)`;
      - `attackers(c)`: `len(get_attackers(c, 0))`;
      - `pathToEdge(c)`: `find_path_to_edge(c)`;
      - `unitsAt(c)`: `game_map[c.x, c.y]`. */
  datatype Board = Board(
    occupied: Cell -> bool,
    attackers: Cell -> nat,
    pathToEdge: Cell -> seq<Cell>,
    unitsAt: Cell -> seq<Unit>)

  /** One turn's read-only snapshot: the board, both players' bits
      (`_player_resources[0]` is our own, `[1]` the opponent's) and health. */
  datatype Snapshot = Snapshot(
    board: Board,
    myBits: real,
    enemyBits: real,
    myHealth: int,
    enemyHealth: int)

  /** The outcome of an operation that can raise. */
  datatype Result<T> = Success(value: T) | Failure(error: string)

  /** Python's `int(r)` on a float: truncation toward zero. */
  function Trunc(r: real): (n: int)
    ensures r >= 0.0 ==> n >= 0 && n as real <= r < n as real + 1.0
    ensures r < 0.0 ==> n <= 0 && n as real - 1.0 < r <= n as real
  {
    if r >= 0.0 then r.Floor else -((-r).Floor)
  }

  /** `attempt_spawn(unit, cells)`: one request of a single unit per cell, in
      list order. */
  function Spawns(unit: UnitType, cells: seq<Cell>): seq<Request>
  {
    seq(|cells|, i requires 0 <= i < |cells| => Request(unit, cells[i], 1))
  }

  /** The requests of one unit kind, in order. */
  function OfUnit(reqs: seq<Request>, unit: UnitType): seq<Request>
  {
    if reqs == [] then []
    else OfUnit(reqs[..|reqs| - 1], unit)
         + (if reqs[|reqs| - 1].unit == unit then [reqs[|reqs| - 1]] else [])
  }

  lemma {:induction false} OfUnitAppend(a: seq<Request>, b: seq<Request>, unit: UnitType)
    ensures OfUnit(a + b, unit) == OfUnit(a, unit) + OfUnit(b, unit)
    decreases |b|
  {
    if b == [] {
      assert a + b == a;
    } else {
      var b' := b[..|b| - 1];
      assert (a + b)[..|a + b| - 1] == a + b';
      assert (a + b)[|a + b| - 1] == b[|b| - 1];
      OfUnitAppend(a, b', unit);
    }
  }

  /** Filtering by a kind that no request has leaves nothing. */
  lemma {:induction false} OfUnitAbsent(reqs: seq<Request>, unit: UnitType)
    requires forall i | 0 <= i < |reqs| :: reqs[i].unit != unit
    ensures OfUnit(reqs, unit) == []
  {
    if reqs != [] {
      OfUnitAbsent(reqs[..|reqs| - 1], unit);
    }
  }

  /** Filtering by a kind that every request has keeps everything. */
  lemma {:induction false} OfUnitAll(reqs: seq<Request>, unit: UnitType)
    requires forall i | 0 <= i < |reqs| :: reqs[i].unit == unit
    ensures OfUnit(reqs, unit) == reqs
  {
    if reqs != [] {
      OfUnitAll(reqs[..|reqs| - 1], unit);
      assert reqs[..|reqs| - 1] + [reqs[|reqs| - 1]] == reqs;
    }
  }
}
