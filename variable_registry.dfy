/**
 * The atomic-variable registry: a table from variable id to the standard
 * deviation the variable was registered with, and the counter that mints ids.
 * Modelled as one sequential object; the atomic counter, the reader/writer lock
 * and the process-wide singleton accessor are not part of this model.
 */
module VariableRegistry {
  import opened Failures

  /** id has been handed out by a counter that started at 1 and now stands at next. */
  predicate Minted(id: nat, next: nat) {
    1 <= id < next
  }

  /** The ids 1 .. next-1, i.e. those minted since the counter last stood at 1. */
  ghost function Ids(next: nat): set<nat> {
    set id: nat | id < next && Minted(id, next)
  }

  /** There are exactly next-1 ids below next (id 0 being reserved). */
  lemma {:induction false} IdsCount(next: nat)
    requires 1 <= next
    ensures |Ids(next)| == next - 1
  {
    if next > 1 {
      IdsCount(next - 1);
      assert Ids(next) == Ids(next - 1) + {next - 1};
    } else {
      assert Ids(next) == {};
    }
  }

  /**
   * A table whose keys are exactly the minted ids: every key lies in [1, next),
   * the counter's value is not yet a key, and the table has next-1 entries.
   */
  lemma DenseTableBounds(table: map<nat, real>, next: nat)
    requires 1 <= next && table.Keys == Ids(next)
    ensures forall id :: id in table ==> 1 <= id < next
    ensures 0 !in table && next !in table
    ensures |table| == next - 1
  {
    IdsCount(next);
  }

  /**
   * Registering at the counter's value keeps the table dense: the new id was
   * not a key before (nothing is overwritten) and the table grows by exactly one.
   */
  lemma RegisterKeepsDense(table: map<nat, real>, next: nat, stddev: real)
    requires 1 <= next && table.Keys == Ids(next)
    ensures next !in table
    ensures table[next := stddev].Keys == Ids(next + 1)
    ensures |table[next := stddev]| == |table| + 1
  {
    assert Ids(next + 1) == Ids(next) + {next};
  }

  class Registry {
    /** The next id to hand out; 0 is reserved and never handed out. */
    var nextId: nat
    /** id -> the standard deviation the id was registered with. */
    var stddevs: map<nat, real>

    /** The keys are exactly the ids handed out since the counter was last 1. */
    ghost predicate Valid()
      reads this
    {
      1 <= nextId && stddevs.Keys == Ids(nextId)
    }

    /** A fresh registry: empty table, counter at 1. */
    constructor ()
      ensures Valid()
      ensures nextId == 1 && stddevs == map[]
    {
      nextId := 1;
      stddevs := map[];
    }

    /**
     * Hands out the current counter value, advances the counter by one and
     * records the standard deviation as given (no sign check).
     */
    method RegisterVariable(stddev: real) returns (id: nat)
      requires Valid()
      modifies this
      ensures Valid()
      ensures id == old(nextId) && nextId == old(nextId) + 1
      ensures 1 <= id && id !in old(stddevs)
      ensures stddevs == old(stddevs)[id := stddev]
      ensures |stddevs| == |old(stddevs)| + 1
    {
      RegisterKeepsDense(stddevs, nextId, stddev);
      id := nextId;
      nextId := nextId + 1;
      stddevs := stddevs[id := stddev];
    }

    /** The registered standard deviation, or a runtime error for an unknown id. */
    method GetStddev(id: nat) returns (r: Result<real>)
      ensures id in stddevs ==> r == Success(stddevs[id])
      ensures id !in stddevs ==> r == Failure(RuntimeError)
    {
      if id !in stddevs {
        return Failure(RuntimeError);
      }
      return Success(stddevs[id]);
    }

    /** Empties the table and puts the counter back to 1. */
    method Clear()
      modifies this
      ensures Valid()
      ensures nextId == 1 && stddevs == map[]
    {
      stddevs := map[];
      nextId := 1;
    }

    /** The number of registered variables: one per id handed out since the last clear. */
    method Size() returns (n: nat)
      ensures n == |stddevs|
      ensures Valid() ==> n == nextId - 1
    {
      if Valid() {
        DenseTableBounds(stddevs, nextId);
      }
      n := |stddevs|;
    }
  }

  /** On a fresh registry the first id handed out is 1. */
  method FirstIdIsOne(stddev: real) returns (id: nat)
    ensures id == 1
  {
    var registry := new Registry();
    id := registry.RegisterVariable(stddev);
  }

  /**
   * Two registrations in a row hand out strictly increasing ids, and each id
   * looks up to the standard deviation it was registered with.
   */
  method RegisterTwiceThenLookUp(registry: Registry, s1: real, s2: real)
    returns (id1: nat, id2: nat, got1: Result<real>, got2: Result<real>)
    requires registry.Valid()
    modifies registry
    ensures registry.Valid()
    ensures 1 <= id1 < id2
    ensures got1 == Success(s1) && got2 == Success(s2)
  {
    id1 := registry.RegisterVariable(s1);
    id2 := registry.RegisterVariable(s2);
    got1 := registry.GetStddev(id1);
    got2 := registry.GetStddev(id2);
  }

  /** After a clear the registry is empty and hands out id 1 again. */
  method ClearRestartsIds(registry: Registry, stddev: real) returns (size: nat, id: nat)
    requires registry.Valid()
    modifies registry
    ensures registry.Valid()
    ensures size == 0 && id == 1
  {
    registry.Clear();
    size := registry.Size();
    id := registry.RegisterVariable(stddev);
  }
}
