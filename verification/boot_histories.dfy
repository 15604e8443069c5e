/**
 Boot recovery inside any history: which rows a boot orphans while other processes,
 readers and boots go on around it, with crashes and failing statements.
 */
module BootHistories {
  import opened ChainRotation
  import opened StateStore

  predicate IsBooting(w: World, t: nat) {
    t in w.threads && w.threads[t].pc.Booting?
  }

  /** What thread t has still to orphan. */
  function Todo(w: World, t: nat): seq<nat>
    requires IsBooting(w, t)
  {
    w.threads[t].pc.todo
  }

  predicate IsOrphaned(db: Db, id: int) {
    1 <= id <= |db.wal| && db.wal[id - 1].status == Orphaned
  }

  /** At step j thread t lists the pending rows, and at moment i it is still working through them. */
  ghost predicate BootsSince(worlds: seq<World>, actions: seq<Action>, j: nat, i: nat, t: nat) {
    && IsHistory(worlds, actions)
    && j < i <= |actions|
    && actions[j].Enter? && actions[j].t == t && actions[j].entry == Boot
    && forall k | j < k <= i :: IsBooting(worlds[k], t)
  }

  /** Step k is thread t's statement on row id. */
  ghost predicate Treats(worlds: seq<World>, actions: seq<Action>, k: nat, t: nat, id: nat) {
    && k < |worlds| && k < |actions|
    && actions[k].Run? && actions[k].t == t
    && IsBooting(worlds[k], t)
    && Todo(worlds[k], t) != [] && Todo(worlds[k], t)[0] == id
  }

  /** In step k thread t turns row id from pending to orphaned. */
  ghost predicate OrphansRow(worlds: seq<World>, actions: seq<Action>, k: nat, t: nat, id: nat) {
    && k + 1 < |worlds| && k < |actions|
    && actions[k].Run? && actions[k].t == t
    && IsPending(worlds[k].db, id) && IsOrphaned(worlds[k + 1].db, id)
  }

  // ------------------------------------------------------------------
  // What is left of the list

  ghost predicate Ascends(ids: seq<nat>) {
    forall a, b | 0 <= a < b < |ids| :: ids[a] < ids[b]
  }

  lemma {:induction false} PendingAscends(db: Db, from: nat)
    requires 1 <= from
    ensures Ascends(PendingFrom(db, from))
    ensures forall id | id in PendingFrom(db, from) :: id >= from
    decreases |db.wal| + 1 - from
  {
    if from <= |db.wal| {
      var rest := PendingFrom(db, from + 1);
      PendingAscends(db, from + 1);
      assert Ascends([from] + rest) by {
        assert forall a | 0 <= a < |rest| :: rest[a] in rest;
      }
    }
  }

  /** While it boots, a thread's list only ever loses its head, to the thread's own statement. */
  lemma BootSteps(w: World, a: Action, t: nat)
    requires Enabled(w, a) && IsBooting(w, t) && IsBooting(Apply(w, a), t)
    ensures
      if a.Run? && a.t == t then Todo(w, t) != [] && Todo(Apply(w, a), t) == Todo(w, t)[1..]
      else Todo(Apply(w, a), t) == Todo(w, t)
  {
    hide Attempt, FirstPc, IsListing;
  }

  lemma BootLists(w: World, a: Action)
    requires Enabled(w, a) && a.Enter? && a.entry == Boot
    ensures IsBooting(Apply(w, a), a.t) && Todo(Apply(w, a), a.t) == PendingFrom(w.db, 1)
  {
    hide PendingFrom;
  }

  /** The list stays ascending and holds only rows that were pending when it was made. */
  lemma {:induction false} TodoWasPending(worlds: seq<World>, actions: seq<Action>, j: nat, i: nat, t: nat)
    requires BootsSince(worlds, actions, j, i, t)
    ensures Ascends(Todo(worlds[i], t))
    ensures forall id | id in Todo(worlds[i], t) :: IsPending(worlds[j].db, id)
    decreases i
  {
    hide Enabled, Apply, Todo, IsPending, PendingFrom;
    if i == j + 1 {
      BootLists(worlds[j], actions[j]);
      PendingAscends(worlds[j].db, 1);
      forall id | id in Todo(worlds[i], t)
        ensures IsPending(worlds[j].db, id)
      {
        PendingListed(worlds[j].db, 1, id);
      }
    } else {
      TodoWasPending(worlds, actions, j, i - 1, t);
      assert IsBooting(worlds[i - 1], t) && IsBooting(worlds[i], t);
      BootSteps(worlds[i - 1], actions[i - 1], t);
    }
  }

  /** A listed row that is off the list has had its statement. */
  lemma {:induction false} TreatedOnce(
      worlds: seq<World>, actions: seq<Action>, j: nat, i: nat, t: nat, id: nat) returns (k: nat)
    requires BootsSince(worlds, actions, j, i, t)
    requires IsPending(worlds[j].db, id) && id !in Todo(worlds[i], t)
    ensures j < k < i && Treats(worlds, actions, k, t, id)
    decreases i
  {
    hide Enabled, Apply, Todo, PendingFrom;
    if i == j + 1 {
      BootLists(worlds[j], actions[j]);
      PendingListed(worlds[j].db, 1, id);
      assert false;
    } else {
      assert IsBooting(worlds[i - 1], t) && IsBooting(worlds[i], t);
      BootSteps(worlds[i - 1], actions[i - 1], t);
      if id in Todo(worlds[i - 1], t) {
        k := i - 1;
      } else {
        k := TreatedOnce(worlds, actions, j, i - 1, t, id);
      }
    }
  }

  /** After its statement a row is off the list for good. */
  lemma {:induction false} NotTreatedAgain(
      worlds: seq<World>, actions: seq<Action>, j: nat, k: nat, i: nat, t: nat, id: nat)
    requires BootsSince(worlds, actions, j, i, t)
    requires j < k < i && Treats(worlds, actions, k, t, id)
    ensures id !in Todo(worlds[i], t)
    decreases i
  {
    hide Enabled, Apply, Todo, IsPending, PendingFrom;
    assert IsBooting(worlds[i - 1], t) && IsBooting(worlds[i], t);
    BootSteps(worlds[i - 1], actions[i - 1], t);
    if k == i - 1 {
      TodoWasPending(worlds, actions, j, k, t);
    } else {
      NotTreatedAgain(worlds, actions, j, k, i - 1, t, id);
    }
  }

  /** A booting thread's step orphans a row exactly when it is its step for that row, accepted, and finds it pending. */
  lemma StatementOrphansIff(worlds: seq<World>, actions: seq<Action>, k: nat, t: nat, id: nat)
    requires IsHistory(worlds, actions) && k < |actions| && IsBooting(worlds[k], t)
    ensures OrphansRow(worlds, actions, k, t, id)
       <==> Treats(worlds, actions, k, t, id) && !actions[k].fails && IsPending(worlds[k].db, id)
  {
    hide NextPc, Place;
    assert worlds[k + 1] == Apply(worlds[k], actions[k]);
  }

  // ------------------------------------------------------------------
  // What a boot orphans

  /**
   In every history, whoever a row belongs to: if it was pending when a boot listed, then
   once the boot is past it, it was orphaned by that boot if and only if its one statement
   was accepted by SQLite and found it still pending.
   */
  lemma BootOrphansIff(
      worlds: seq<World>, actions: seq<Action>, j: nat, i: nat, t: nat, id: nat) returns (k: nat)
    requires BootsSince(worlds, actions, j, i, t)
    requires IsPending(worlds[j].db, id) && id !in Todo(worlds[i], t)
    ensures j < k < i && Treats(worlds, actions, k, t, id)
    ensures (exists m :: j < m < i && OrphansRow(worlds, actions, m, t, id))
       <==> !actions[k].fails && IsPending(worlds[k].db, id)
    ensures !actions[k].fails ==> !IsPending(worlds[i].db, id)
  {
    hide Enabled, Apply, Todo, OrphansRow;
    k := TreatedOnce(worlds, actions, j, i, t, id);
    StatementOrphansIff(worlds, actions, k, t, id);
    forall m | j < m < i && OrphansRow(worlds, actions, m, t, id)
      ensures m == k
    {
      StatementOrphansIff(worlds, actions, m, t, id);
      TreatedAtMostOnce(worlds, actions, j, i, t, id, k, m);
    }
    if !actions[k].fails {
      OutcomesAreFinal(worlds, actions, j, k);
      NotPendingAfter(worlds, actions, k, i, t, id);
    }
  }

  lemma TreatedAtMostOnce(
      worlds: seq<World>, actions: seq<Action>, j: nat, i: nat, t: nat, id: nat, k: nat, m: nat)
    requires BootsSince(worlds, actions, j, i, t)
    requires j < k < i && Treats(worlds, actions, k, t, id)
    requires j < m < i && Treats(worlds, actions, m, t, id)
    ensures m == k
  {
    hide Enabled, Apply;
    if m < k {
      NotTreatedAgain(worlds, actions, j, m, k, t, id);
    } else if k < m {
      NotTreatedAgain(worlds, actions, j, k, m, t, id);
    }
  }

  lemma NotPendingAfter(worlds: seq<World>, actions: seq<Action>, k: nat, i: nat, t: nat, id: nat)
    requires IsHistory(worlds, actions) && k < i <= |actions|
    requires Treats(worlds, actions, k, t, id) && !actions[k].fails && 1 <= id <= |worlds[k].db.wal|
    ensures !IsPending(worlds[i].db, id)
  {
    hide Enabled, NextPc, Place;
    assert worlds[k + 1] == Apply(worlds[k], actions[k]);
    assert !IsPending(worlds[k + 1].db, id);
    OutcomesAreFinal(worlds, actions, k + 1, i);
    assert RowExtends(worlds[k + 1].db.wal[id - 1], worlds[i].db.wal[id - 1]);
  }

  /** And it orphans no row but those that were pending when it listed. */
  lemma BootLeavesTheRest(worlds: seq<World>, actions: seq<Action>, j: nat, i: nat, t: nat, id: nat)
    requires BootsSince(worlds, actions, j, i, t) && !IsPending(worlds[j].db, id)
    ensures forall m | j < m < i :: !OrphansRow(worlds, actions, m, t, id)
  {
    hide Enabled, Apply, OrphansRow;
    forall m | j < m < i
      ensures !OrphansRow(worlds, actions, m, t, id)
    {
      assert IsBooting(worlds[m], t);
      StatementOrphansIff(worlds, actions, m, t, id);
      TodoWasPending(worlds, actions, j, m, t);
    }
  }
}
