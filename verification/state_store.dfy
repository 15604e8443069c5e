/**
 state.db: the sessions, rollouts and wal tables that every bridge process of
 this kind shares. Each method is one SQL statement, so each is its own commit.
 */
module StateStore {

  datatype Kind = NoKind | Start | Resume | Fork

  datatype Status = Pending | Committed | Orphaned

  /** A rollouts row; its primary key, the harness session id, is its key in the table. */
  datatype Rollout = Rollout(bridge: string, path: string, sequence: int, parent: string, kind: Kind)

  datatype WalRow = WalRow(
    bridge: string, intent: Kind, parent: string, newHarness: string, path: string, status: Status)

  /**
   sessions: bridge session id to current harness id. wal: the row with id n is
   at index n - 1; ids count up from 1 and no row is ever deleted.
   */
  datatype Db = Db(sessions: map<string, string>, rollouts: map<string, Rollout>, wal: seq<WalRow>)

  const EMPTY_DB := Db(map[], map[], [])

  /** Whether a statement was accepted, and the tables after it. */
  datatype Reply = Reply(ok: bool, db: Db)

  function SessionUpserted(db: Db, bridge: string, current: string): Reply {
    if bridge == "" then Reply(false, db)
    else Reply(true, db.(sessions := db.sessions[bridge := current]))
  }

  /** The checks of InsertRollout, the primary key and the foreign key. */
  predicate Insertable(db: Db, harness: string, row: Rollout) {
    && harness != "" && row.bridge != "" && row.kind != NoKind
    && harness !in db.rollouts
    && row.bridge in db.sessions
  }

  function RolloutInserted(db: Db, harness: string, row: Rollout): Reply {
    if Insertable(db, harness, row) then Reply(true, db.(rollouts := db.rollouts[harness := row]))
    else Reply(false, db)
  }

  function WalInserted(db: Db, bridge: string, intent: Kind, parent: string): Reply {
    if bridge == "" || intent == NoKind then Reply(false, db)
    else Reply(true, db.(wal := db.wal + [WalRow(bridge, intent, parent, "", "", Pending)]))
  }

  predicate IsPending(db: Db, id: int) {
    1 <= id <= |db.wal| && db.wal[id - 1].status == Pending
  }

  function WalCommitted(db: Db, id: int, newHarness: string, path: string): Reply {
    if IsPending(db, id)
    then
      var row := db.wal[id - 1].(newHarness := newHarness, path := path, status := Committed);
      Reply(true, db.(wal := db.wal[id - 1 := row]))
    else Reply(false, db)
  }

  function WalOrphaned(db: Db, id: int): Reply {
    if IsPending(db, id) then Reply(true, db.(wal := db.wal[id - 1 := db.wal[id - 1].(status := Orphaned)]))
    else Reply(false, db)
  }

  // ------------------------------------------------------------------
  // Queries

  function RolloutsOf(db: Db, bridge: string): set<string> {
    set h | h in db.rollouts && db.rollouts[h].bridge == bridge
  }

  /** `rows` is an answer to ListRollouts: every rollout of the session, once, by ascending sequence. */
  ghost predicate IsListing(db: Db, bridge: string, rows: seq<string>) {
    && (forall h :: h in rows <==> h in RolloutsOf(db, bridge))
    && (forall i, j | 0 <= i < j < |rows| :: rows[i] != rows[j])
    && (forall i, j | 0 <= i < j < |rows| && rows[i] in db.rollouts && rows[j] in db.rollouts ::
          db.rollouts[rows[i]].sequence <= db.rollouts[rows[j]].sequence)
  }

  function SequenceAfter(db: Db, rows: seq<string>): int {
    if rows == [] || rows[|rows| - 1] !in db.rollouts then 0 else db.rollouts[rows[|rows| - 1]].sequence + 1
  }

  function PendingFrom(db: Db, id: nat): seq<nat>
    requires 1 <= id
    decreases |db.wal| + 1 - id
  {
    if id > |db.wal| then []
    else (if IsPending(db, id) then [id] else []) + PendingFrom(db, id + 1)
  }

  // ------------------------------------------------------------------
  // What every statement keeps

  /** Foreign key: every rollout names a session that has a row. */
  ghost predicate ForeignKey(db: Db) {
    forall h | h in db.rollouts :: db.rollouts[h].bridge in db.sessions
  }

  /** A WAL row keeps what it was opened for, and once committed or orphaned never changes again. */
  predicate RowExtends(row: WalRow, row': WalRow) {
    && row'.bridge == row.bridge && row'.intent == row.intent && row'.parent == row.parent
    && (row.status != Pending ==> row' == row)
  }

  /** Rows are only added, and only pending WAL rows change. */
  ghost predicate Extends(db: Db, db': Db) {
    && db.sessions.Keys <= db'.sessions.Keys
    && (forall h | h in db.rollouts :: h in db'.rollouts && db'.rollouts[h] == db.rollouts[h])
    && |db.wal| <= |db'.wal|
    && (forall i | 0 <= i < |db.wal| :: RowExtends(db.wal[i], db'.wal[i]))
  }

  lemma ExtendsTransitive(a: Db, b: Db, c: Db)
    requires Extends(a, b) && Extends(b, c)
    ensures Extends(a, c)
  {
    forall i | 0 <= i < |a.wal|
      ensures RowExtends(a.wal[i], c.wal[i])
    {
      assert RowExtends(a.wal[i], b.wal[i]) && RowExtends(b.wal[i], c.wal[i]);
    }
  }

  lemma WalRowChangeExtends(db: Db, id: int, row: WalRow)
    requires ForeignKey(db) && IsPending(db, id) && RowExtends(db.wal[id - 1], row)
    ensures Extends(db, db.(wal := db.wal[id - 1 := row])) && ForeignKey(db.(wal := db.wal[id - 1 := row]))
  {
  }

  lemma TableStatementsExtend(db: Db, a: string, b: string, row: Rollout, intent: Kind)
    requires ForeignKey(db)
    ensures Extends(db, SessionUpserted(db, a, b).db) && ForeignKey(SessionUpserted(db, a, b).db)
    ensures Extends(db, RolloutInserted(db, a, row).db) && ForeignKey(RolloutInserted(db, a, row).db)
    ensures Extends(db, WalInserted(db, a, intent, b).db) && ForeignKey(WalInserted(db, a, intent, b).db)
  {
  }

  /** Every statement extends the tables and keeps the foreign key. */
  lemma StatementsExtend(db: Db, a: string, b: string, id: int, row: Rollout, intent: Kind)
    requires ForeignKey(db)
    ensures Extends(db, SessionUpserted(db, a, b).db) && ForeignKey(SessionUpserted(db, a, b).db)
    ensures Extends(db, RolloutInserted(db, a, row).db) && ForeignKey(RolloutInserted(db, a, row).db)
    ensures Extends(db, WalInserted(db, a, intent, b).db) && ForeignKey(WalInserted(db, a, intent, b).db)
    ensures Extends(db, WalCommitted(db, id, a, b).db) && ForeignKey(WalCommitted(db, id, a, b).db)
    ensures Extends(db, WalOrphaned(db, id).db) && ForeignKey(WalOrphaned(db, id).db)
  {
    hide Extends, ForeignKey;
    TableStatementsExtend(db, a, b, row, intent);
    if IsPending(db, id) {
      var row0 := db.wal[id - 1];
      WalRowChangeExtends(db, id, row0.(newHarness := a, path := b, status := Committed));
      WalRowChangeExtends(db, id, row0.(status := Orphaned));
    } else {
      assert Extends(db, db) by { Unchanged(db); }
    }
  }

  lemma Unchanged(db: Db)
    ensures Extends(db, db)
  {
  }

  // ------------------------------------------------------------------
  // The open database

  class State {
    var sessions: map<string, string>
    var rollouts: map<string, Rollout>
    var wal: seq<WalRow>

    function Tables(): Db
      reads this
    {
      Db(sessions, rollouts, wal)
    }

    constructor ()
      ensures Tables() == EMPTY_DB
    {
      sessions, rollouts, wal := map[], map[], [];
    }

    method UpsertSession(bridge: string, current: string) returns (ok: bool)
      modifies this
      ensures Reply(ok, Tables()) == SessionUpserted(old(Tables()), bridge, current)
      ensures ok <==> bridge != ""
      ensures sessions == if ok then old(sessions)[bridge := current] else old(sessions)
      ensures rollouts == old(rollouts) && wal == old(wal)
    {
      if bridge == "" {
        return false;
      }
      sessions := sessions[bridge := current];
      return true;
    }

    method InsertRollout(harness: string, row: Rollout) returns (ok: bool)
      modifies this
      ensures Reply(ok, Tables()) == RolloutInserted(old(Tables()), harness, row)
      ensures ok <==> harness != "" && row.bridge != "" && row.kind != NoKind
                      && harness !in old(rollouts) && row.bridge in old(sessions)
      ensures rollouts == if ok then old(rollouts)[harness := row] else old(rollouts)
      ensures sessions == old(sessions) && wal == old(wal)
    {
      if harness == "" || row.bridge == "" {
        return false;
      }
      if row.kind == NoKind {
        return false;
      }
      if harness in rollouts || row.bridge !in sessions {
        return false;
      }
      rollouts := rollouts[harness := row];
      return true;
    }

    /** The id of the new row, or 0 when the statement is refused. */
    method InsertWal(bridge: string, intent: Kind, parent: string) returns (id: nat)
      modifies this
      ensures Reply(id != 0, Tables()) == WalInserted(old(Tables()), bridge, intent, parent)
      ensures id == if bridge == "" || intent == NoKind then 0 else |old(wal)| + 1
      ensures wal == if id == 0 then old(wal) else old(wal) + [WalRow(bridge, intent, parent, "", "", Pending)]
      ensures sessions == old(sessions) && rollouts == old(rollouts)
    {
      if bridge == "" || intent == NoKind {
        return 0;
      }
      wal := wal + [WalRow(bridge, intent, parent, "", "", Pending)];
      return |wal|;
    }

    method CommitWal(id: int, newHarness: string, path: string) returns (ok: bool)
      modifies this
      ensures Reply(ok, Tables()) == WalCommitted(old(Tables()), id, newHarness, path)
      ensures ok <==> 1 <= id <= |old(wal)| && old(wal)[id - 1].status == Pending
      ensures !ok ==> wal == old(wal)
      ensures ok ==>
                var row := old(wal)[id - 1];
                wal == old(wal)[id - 1 := WalRow(row.bridge, row.intent, row.parent, newHarness, path, Committed)]
      ensures sessions == old(sessions) && rollouts == old(rollouts)
    {
      ok := 1 <= id <= |wal| && wal[id - 1].status == Pending;
      if ok {
        wal := wal[id - 1 := wal[id - 1].(newHarness := newHarness, path := path, status := Committed)];
      }
    }

    method OrphanWal(id: int) returns (ok: bool)
      modifies this
      ensures Reply(ok, Tables()) == WalOrphaned(old(Tables()), id)
      ensures ok <==> 1 <= id <= |old(wal)| && old(wal)[id - 1].status == Pending
      ensures wal == if ok then old(wal)[id - 1 := old(wal)[id - 1].(status := Orphaned)] else old(wal)
      ensures sessions == old(sessions) && rollouts == old(rollouts)
    {
      ok := 1 <= id <= |wal| && wal[id - 1].status == Pending;
      if ok {
        wal := wal[id - 1 := wal[id - 1].(status := Orphaned)];
      }
    }

    method ListPendingWal() returns (ids: seq<nat>)
      ensures ids == PendingFrom(Tables(), 1)
      ensures forall id :: id in ids <==> 1 <= id <= |wal| && wal[id - 1].status == Pending
      ensures forall i, j | 0 <= i < j < |ids| :: ids[i] < ids[j]
    {
      ids := [];
      var id: nat := |wal|;
      while id > 0
        invariant id <= |wal|
        invariant ids == PendingFrom(Tables(), id + 1)
        invariant forall k :: k in ids <==> id < k <= |wal| && wal[k - 1].status == Pending
        invariant forall i, j | 0 <= i < j < |ids| :: ids[i] < ids[j]
      {
        assert forall i | 0 <= i < |ids| :: ids[i] in ids;
        if wal[id - 1].status == Pending {
          ids := [id] + ids;
        }
        id := id - 1;
      }
    }

    method BridgeSessionIDForHarness(harness: string) returns (bridge: string, known: bool)
      ensures known <==> harness in rollouts
      ensures bridge == if known then rollouts[harness].bridge else ""
    {
      if harness in rollouts {
        return rollouts[harness].bridge, true;
      }
      return "", false;
    }

    method ListRollouts(bridge: string) returns (rows: seq<string>)
      ensures IsListing(Tables(), bridge, rows)
    {
      rows := [];
      var todo := RolloutsOf(Tables(), bridge);
      while todo != {}
        invariant todo <= RolloutsOf(Tables(), bridge)
        invariant forall h :: h in rows <==> h in RolloutsOf(Tables(), bridge) - todo
        invariant forall i, j | 0 <= i < j < |rows| :: rows[i] != rows[j]
        invariant forall i, j | 0 <= i < j < |rows| && rows[i] in rollouts && rows[j] in rollouts ::
                    rollouts[rows[i]].sequence <= rollouts[rows[j]].sequence
        invariant forall h, t | h in rows && t in todo && h in rollouts && t in rollouts ::
                    rollouts[h].sequence <= rollouts[t].sequence
        decreases todo
      {
        FirstExists(rollouts, todo);
        var first :| first in todo && forall t | t in todo :: rollouts[first].sequence <= rollouts[t].sequence;
        assert first !in rows;
        rows := rows + [first];
        todo := todo - {first};
      }
    }
  }

  lemma {:induction false} FirstExists(rollouts: map<string, Rollout>, todo: set<string>)
    requires todo != {} && todo <= rollouts.Keys
    ensures exists h :: h in todo && forall t | t in todo :: rollouts[h].sequence <= rollouts[t].sequence
    decreases todo
  {
    var h :| h in todo;
    if todo != {h} {
      FirstExists(rollouts, todo - {h});
      var g :| g in todo - {h} && forall t | t in todo - {h} :: rollouts[g].sequence <= rollouts[t].sequence;
      var least := if rollouts[h].sequence <= rollouts[g].sequence then h else g;
      assert least in todo && forall t | t in todo :: rollouts[least].sequence <= rollouts[t].sequence;
    }
  }

  lemma {:induction false} PendingListed(db: Db, from: nat, id: int)
    requires 1 <= from
    ensures id in PendingFrom(db, from) <==> id >= from && IsPending(db, id)
    decreases |db.wal| + 1 - from
  {
    if from <= |db.wal| {
      PendingListed(db, from + 1, id);
    }
  }
}
