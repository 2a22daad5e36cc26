/** The fixed coordinate lists the strategy is built from, each as the source
    writes it, with a few facts about their geometry. */
module Layouts {
  import opened GameTypes

  /** Baseline destructors of `build_defences`. */
  const BaselineDestructors: seq<Cell> :=
    [Cell(0, 13), Cell(1, 13), Cell(2, 13), Cell(25, 13), Cell(26, 13), Cell(27, 13), Cell(5, 10),
     Cell(22, 10), Cell(8, 7), Cell(19, 7), Cell(11, 4), Cell(16, 4), Cell(12, 3), Cell(15, 3)]

  /** Baseline encryptors of `build_defences`. */
  const BaselineEncryptors: seq<Cell> :=
    [Cell(3, 12), Cell(24, 12), Cell(4, 11), Cell(23, 11), Cell(6, 9), Cell(21, 9), Cell(7, 8),
     Cell(20, 8), Cell(9, 6), Cell(18, 6), Cell(10, 5), Cell(17, 5)]

  /** The important points of `build_reactive_defense`: the baseline
      destructor cells followed by the baseline encryptor cells, written out
      again in the source. */
  const ImportantPoints: seq<Cell> :=
    [Cell(0, 13), Cell(1, 13), Cell(2, 13), Cell(25, 13), Cell(26, 13), Cell(27, 13), Cell(5, 10),
     Cell(22, 10), Cell(8, 7), Cell(19, 7), Cell(11, 4), Cell(16, 4), Cell(12, 3), Cell(15, 3)]
    + [Cell(3, 12), Cell(24, 12), Cell(4, 11), Cell(23, 11), Cell(6, 9), Cell(21, 9), Cell(7, 8),
       Cell(20, 8), Cell(9, 6), Cell(18, 6), Cell(10, 5), Cell(17, 5)]

  /** The exclusion zone kept clear for the agent's own spawn lanes
      (`czech_republic_black_sites`). */
  const ExclusionZone: seq<Cell> :=
    [Cell(10, 3), Cell(11, 3), Cell(16, 3), Cell(17, 3), Cell(11, 2), Cell(12, 2), Cell(13, 2),
     Cell(14, 2), Cell(15, 2), Cell(16, 2), Cell(12, 1), Cell(13, 1), Cell(14, 1), Cell(15, 1),
     Cell(13, 0), Cell(14, 0)]

  /** The right funnel: encryptor cells (`spawn_points`) and destructor cells. */
  const RightFunnelEncryptors: seq<Cell> :=
    [Cell(15, 13), Cell(16, 13), Cell(17, 13), Cell(18, 13), Cell(19, 13), Cell(20, 13), Cell(21, 13),
     Cell(22, 13), Cell(21, 12), Cell(14, 11), Cell(20, 11), Cell(14, 10), Cell(19, 10), Cell(18, 9),
     Cell(14, 8), Cell(17, 8), Cell(14, 7), Cell(16, 7), Cell(15, 6)]
  const RightFunnelDestructors: seq<Cell> :=
    [Cell(14, 13), Cell(14, 12), Cell(14, 9), Cell(14, 6), Cell(14, 5)]

  /** The left funnel: encryptor cells (`spawn_points`) and destructor cells. */
  const LeftFunnelEncryptors: seq<Cell> :=
    [Cell(5, 13), Cell(6, 13), Cell(7, 13), Cell(8, 13), Cell(9, 13), Cell(10, 13), Cell(11, 13),
     Cell(6, 12), Cell(7, 11), Cell(12, 11), Cell(8, 10), Cell(9, 9), Cell(12, 9), Cell(10, 8),
     Cell(12, 8), Cell(11, 7), Cell(12, 6)]
  const LeftFunnelDestructors: seq<Cell> :=
    [Cell(12, 13), Cell(12, 12), Cell(12, 10), Cell(12, 7)]

  /** Spawn anchors of `get_nice_spawn` on the friendly edge. */
  const LeftAnchor: Cell := Cell(13, 0)
  const RightAnchor: Cell := Cell(14, 0)

  /** The probe cells of `get_nice_spawn` in the order they are visited: the
      source lists them from the far end and reverses the list with `[::-1]`. */
  const RightProbes: seq<Cell> := [Cell(15, 1), Cell(16, 2), Cell(17, 3), Cell(18, 4), Cell(19, 5)]
  const LeftProbes: seq<Cell> := [Cell(12, 1), Cell(11, 2), Cell(10, 3), Cell(9, 4), Cell(8, 5)]

  /** The three projection regions of `pick_attack_side` on the enemy half. */
  const LeftRegion: seq<Cell> :=
    [Cell(4, 18), Cell(5, 18), Cell(3, 17), Cell(4, 17), Cell(5, 17), Cell(6, 17), Cell(2, 16),
     Cell(3, 16), Cell(4, 16), Cell(5, 16), Cell(6, 16), Cell(1, 15), Cell(2, 15), Cell(3, 15),
     Cell(4, 15), Cell(5, 15), Cell(6, 15), Cell(0, 14), Cell(1, 14), Cell(2, 14), Cell(3, 14),
     Cell(4, 14), Cell(5, 14), Cell(6, 14)]
  const RightRegion: seq<Cell> :=
    [Cell(22, 18), Cell(23, 18), Cell(21, 17), Cell(22, 17), Cell(23, 17), Cell(24, 17), Cell(21, 16),
     Cell(22, 16), Cell(23, 16), Cell(24, 16), Cell(25, 16), Cell(21, 15), Cell(22, 15), Cell(23, 15),
     Cell(24, 15), Cell(25, 15), Cell(26, 15), Cell(21, 14), Cell(22, 14), Cell(23, 14), Cell(24, 14),
     Cell(25, 14), Cell(26, 14), Cell(27, 14)]
  const MidRegion: seq<Cell> :=
    [Cell(13, 27), Cell(14, 27), Cell(12, 26), Cell(13, 26), Cell(14, 26), Cell(15, 26), Cell(11, 25),
     Cell(12, 25), Cell(13, 25), Cell(14, 25), Cell(15, 25), Cell(16, 25), Cell(10, 24), Cell(11, 24),
     Cell(12, 24), Cell(13, 24), Cell(14, 24), Cell(15, 24), Cell(16, 24), Cell(17, 24), Cell(9, 23),
     Cell(10, 23), Cell(11, 23), Cell(12, 23), Cell(13, 23), Cell(14, 23), Cell(15, 23), Cell(16, 23),
     Cell(17, 23), Cell(18, 23), Cell(8, 22), Cell(9, 22), Cell(10, 22), Cell(11, 22), Cell(12, 22),
     Cell(13, 22), Cell(14, 22), Cell(15, 22), Cell(16, 22), Cell(17, 22), Cell(18, 22), Cell(19, 22),
     Cell(9, 21), Cell(10, 21), Cell(11, 21), Cell(12, 21), Cell(13, 21), Cell(14, 21), Cell(15, 21),
     Cell(16, 21), Cell(17, 21), Cell(18, 21), Cell(10, 20), Cell(11, 20), Cell(12, 20), Cell(13, 20),
     Cell(14, 20), Cell(15, 20), Cell(16, 20), Cell(17, 20), Cell(11, 19), Cell(12, 19), Cell(13, 19),
     Cell(14, 19), Cell(15, 19), Cell(16, 19), Cell(12, 18), Cell(13, 18), Cell(14, 18), Cell(15, 18),
     Cell(13, 17), Cell(14, 17)]

  /** The exclusion zone lies in the four rows nearest the friendly edge, and
      its top row holds only the columns 10, 11, 16 and 17. */
  lemma ExclusionZoneShape(c: Cell)
    requires c in ExclusionZone
    ensures 0 <= c.y <= 3
    ensures c.y == 3 ==> c.x == 10 || c.x == 11 || c.x == 16 || c.x == 17
  {
  }
}
