/** The breach filter of `on_action_frame`: which breach locations are added
    to `scored_on_locations`. */
module BreachLedger {
  import opened GameTypes

  /** The owner flag of a breach made by the reporting player's own unit. */
  const SelfOwner: int := 1

  /** The locations of the breaches made by the opponent (owner flag other
      than 1), in event order, duplicates kept. */
  function OpponentBreaches(breaches: seq<Breach>): (r: seq<Cell>)
    ensures |r| <= |breaches|
    ensures forall i | 0 <= i < |r| ::
      exists j | 0 <= j < |breaches| :: breaches[j].location == r[i] && breaches[j].owner != SelfOwner
  {
    if breaches == [] then []
    else OpponentBreaches(breaches[..|breaches| - 1])
         + (if breaches[|breaches| - 1].owner != SelfOwner then [breaches[|breaches| - 1].location] else [])
  }

  /** Processing frames one after the other records the same as processing
      their breaches together: the ledger keeps event order across frames. */
  lemma {:induction false} OpponentBreachesAppend(a: seq<Breach>, b: seq<Breach>)
    ensures OpponentBreaches(a + b) == OpponentBreaches(a) + OpponentBreaches(b)
    decreases |b|
  {
    if b == [] {
      assert a + b == a;
    } else {
      var b' := b[..|b| - 1];
      assert (a + b)[..|a + b| - 1] == a + b';
      assert (a + b)[|a + b| - 1] == b[|b| - 1];
      OpponentBreachesAppend(a, b');
    }
  }

  /** A location is recorded exactly when some breach at it has an owner flag
      other than 1; no more entries are recorded than breaches reported. */
  lemma {:induction false} OpponentBreachesMembers(breaches: seq<Breach>, c: Cell)
    ensures |OpponentBreaches(breaches)| <= |breaches|
    ensures c in OpponentBreaches(breaches)
        <==> exists i | 0 <= i < |breaches| :: breaches[i].location == c && breaches[i].owner != SelfOwner
  {
    if breaches != [] {
      var front := breaches[..|breaches| - 1];
      OpponentBreachesMembers(front, c);
      if exists i | 0 <= i < |front| :: front[i].location == c && front[i].owner != SelfOwner {
        var i :| 0 <= i < |front| && front[i].location == c && front[i].owner != SelfOwner;
        assert breaches[i] == front[i];
      }
      if exists i | 0 <= i < |breaches| :: breaches[i].location == c && breaches[i].owner != SelfOwner {
        var i :| 0 <= i < |breaches| && breaches[i].location == c && breaches[i].owner != SelfOwner;
        if i < |front| {
          assert front[i] == breaches[i];
        }
      }
    }
  }

  /** Every breach by the opponent is recorded, one entry each: when no breach
      is the agent's own, the ledger grows by exactly the breach locations. */
  lemma {:induction false} AllOpponentBreachesRecorded(breaches: seq<Breach>)
    requires forall i | 0 <= i < |breaches| :: breaches[i].owner != SelfOwner
    ensures |OpponentBreaches(breaches)| == |breaches|
    ensures forall i | 0 <= i < |breaches| :: OpponentBreaches(breaches)[i] == breaches[i].location
  {
    if breaches != [] {
      var front := breaches[..|breaches| - 1];
      AllOpponentBreachesRecorded(front);
      var last := breaches[|breaches| - 1];
      assert OpponentBreaches(breaches) == OpponentBreaches(front) + [last.location];
      forall i | 0 <= i < |breaches|
        ensures OpponentBreaches(breaches)[i] == breaches[i].location
      {
        if i < |front| {
          assert breaches[i] == front[i];
        }
      }
    }
  }

  /** Breaches by the agent's own units are never recorded. */
  lemma {:induction false} OwnBreachesIgnored(breaches: seq<Breach>)
    requires forall i | 0 <= i < |breaches| :: breaches[i].owner == SelfOwner
    ensures OpponentBreaches(breaches) == []
  {
    if breaches != [] {
      OwnBreachesIgnored(breaches[..|breaches| - 1]);
    }
  }
}
