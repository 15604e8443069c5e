/**
 The chain fields of one Harness and the methods that move them, run without
 interruption: each does to state.db what its thread of the rotation machine
 does when nothing interleaves.
 */
module HarnessChain {
  import opened ChainRotation
  import opened Options
  import opened StateStore

  /** An upper bound on the statements a thread still runs. */
  function Rank(pc: Pc): nat {
    match pc
    case Booting(todo) => |todo|
    case StartingSession => 3
    case OpeningWal(_, _) => 2
    case Recording(_, _, _, _, _) => 3
    case Committing(_, _, _, _, _, _) => 2
    case Rotating(_, _, _) => 2
    case Inserting(_, _, _, _, _, _) => 1
    case InsertingRotated(_, _, _, _) => 1
    case ImportingSession(_, _) => 1
    case _ => 0
  }

  /** The tables after a thread ran to its end alone, no statement failing. */
  function Finish(db: Db, bridge: string, pc: Option<Pc>, rows: seq<string>): Db
    decreases if pc.None? then 0 else 1 + Rank(pc.value)
  {
    if pc.None? then db
    else
      var reply := Attempt(db, bridge, pc.value, false);
      Finish(reply.db, bridge, NextPc(db, pc.value, reply.ok, rows), rows)
  }

  lemma FinishStep(db: Db, bridge: string, pc: Pc, rows: seq<string>)
    ensures var reply := Attempt(db, bridge, pc, false);
            Finish(db, bridge, Some(pc), rows) == Finish(reply.db, bridge, NextPc(db, pc, reply.ok, rows), rows)
  {
  }

  lemma FinishLast(db: Db, bridge: string, harness: string, rows: seq<string>)
    ensures Finish(db, bridge, Some(Upserting(harness)), rows) == SessionUpserted(db, bridge, harness).db
  {
    FinishStep(db, bridge, Upserting(harness), rows);
  }

  /** recordChainOnInit's statements for a start or fork, in order. */
  lemma FinishRecording(db: Db, bridge: string, s: Staged, harness: string, path: string, rows: seq<string>)
    ensures var pc := Recording(s.wal, s.intent, s.parent, harness, path);
            var committed := WalCommitted(db, s.wal, harness, path);
            var inserted := RolloutInserted(committed.db, harness,
                                            Rollout(bridge, path, SequenceAfter(db, rows), s.parent, s.intent)).db;
            Finish(db, bridge, Some(pc), rows)
            == if committed.ok then SessionUpserted(inserted, bridge, harness).db else db
  {
    hide SequenceAfter, RolloutInserted, SessionUpserted, WalCommitted, Finish;
    var next := SequenceAfter(db, rows);
    FinishStep(db, bridge, Recording(s.wal, s.intent, s.parent, harness, path), rows);
    FinishStep(db, bridge, Committing(s.wal, s.intent, s.parent, harness, path, next), rows);
    var committed := WalCommitted(db, s.wal, harness, path);
    RefusedChangesNothing(db, s.wal, harness, path);
    FinishNone(db, bridge, rows);
    var pc := Inserting(s.wal, s.intent, s.parent, harness, path, next);
    FinishStep(committed.db, bridge, pc, rows);
    FinishLast(RolloutInserted(committed.db, harness, RowOf(bridge, pc)).db, bridge, harness, rows);
  }

  /**
   With its row still pending, an announcement moves the session to the announced id
   in any case; that id has a rollout after it exactly when it had one before or, not
   being empty, was announced to a session with a row.
   */
  lemma AnnouncementMovesTheSession(db: Db, bridge: string, s: Staged, harness: string, path: string, rows: seq<string>)
    requires bridge != "" && IsPending(db, s.wal) && (s.intent == Start || s.intent == Fork)
    ensures
      var after := Finish(db, bridge, AnnouncePc(s, harness, path), rows);
      && bridge in after.sessions && after.sessions[bridge] == harness
      && (harness in after.rollouts <==> harness in db.rollouts || (harness != "" && bridge in db.sessions))
  {
    hide Finish, SequenceAfter;
    FinishRecording(db, bridge, s, harness, path, rows);
  }

  lemma FinishNone(db: Db, bridge: string, rows: seq<string>)
    ensures Finish(db, bridge, None, rows) == db
  {
  }

  lemma RefusedChangesNothing(db: Db, id: int, harness: string, path: string)
    ensures !WalCommitted(db, id, harness, path).ok ==> WalCommitted(db, id, harness, path).db == db
  {
  }

  /** And for a resume whose id rotated. */
  lemma FinishRotating(db: Db, bridge: string, parent: string, harness: string, path: string, rows: seq<string>)
    ensures
      var row := Rollout(bridge, path, SequenceAfter(db, rows), parent, Resume);
      var inserted := RolloutInserted(db, harness, row).db;
      Finish(db, bridge, Some(Rotating(parent, harness, path)), rows)
      == SessionUpserted(inserted, bridge, harness).db
  {
    hide SequenceAfter, RolloutInserted, SessionUpserted, Finish;
    var pc := InsertingRotated(parent, harness, path, SequenceAfter(db, rows));
    FinishStep(db, bridge, Rotating(parent, harness, path), rows);
    FinishStep(db, bridge, pc, rows);
    FinishLast(RolloutInserted(db, harness, RowOf(bridge, pc)).db, bridge, harness, rows);
  }

  /** handleStart's statements for a cold start. */
  lemma FinishStarting(db: Db, bridge: string)
    requires bridge != ""
    ensures Finish(db, bridge, Some(StartingSession), [])
         == WalInserted(SessionUpserted(db, bridge, "").db, bridge, Start, "").db
  {
    FinishStep(db, bridge, StartingSession, []);
    FinishStep(SessionUpserted(db, bridge, "").db, bridge, OpeningWal(Start, ""), []);
  }

  /** What an import's thread does, alone: a session of the transcript's own id, and its rollout unless it has one. */
  lemma FinishImporting(db: Db, bridge: string, s: Staged, id: string, path: string, rows: seq<string>)
    requires id != ""
    ensures
      var after := Finish(db, bridge, FirstPc(db, s, Import(id, path)), rows);
      && after.sessions == db.sessions[id := id] && after.wal == db.wal
      && after.rollouts == if id in db.rollouts then db.rollouts
                           else db.rollouts[id := Rollout(id, path, 0, "", Start)]
  {
    hide Finish;
    FinishStep(db, bridge, ImportingSession(id, path), rows);
    var db' := SessionUpserted(db, id, id).db;
    FinishStep(db', bridge, ImportingRollout(id, path), rows);
    FinishNone(RolloutInserted(db', id, Rollout(id, path, 0, "", Start)).db, bridge, rows);
  }

  /** Every pending row orphaned, everything else as it was. */
  function AllOrphaned(db: Db): Db {
    db.(wal := seq(|db.wal|, i requires 0 <= i < |db.wal| =>
      if db.wal[i].status == Pending then db.wal[i].(status := Orphaned) else db.wal[i]))
  }

  function OrphanedBelow(db: Db, id: nat): Db {
    db.(wal := seq(|db.wal|, i requires 0 <= i < |db.wal| =>
      if i < id - 1 && db.wal[i].status == Pending then db.wal[i].(status := Orphaned) else db.wal[i]))
  }

  lemma OrphanNext(db: Db, id: nat)
    requires 1 <= id <= |db.wal|
    ensures OrphanedBelow(db, id + 1)
         == if IsPending(db, id) then WalOrphaned(OrphanedBelow(db, id), id).db else OrphanedBelow(db, id)
    ensures IsPending(OrphanedBelow(db, id), id) == IsPending(db, id)
  {
  }

  /** Boot recovery's statements, one pending row after the other, orphan exactly the pending rows. */
  lemma {:induction false} BootOrphansFrom(db: Db, id: nat)
    requires 1 <= id <= |db.wal| + 1
    ensures Finish(OrphanedBelow(db, id), "", Some(Booting(PendingFrom(db, id))), []) == AllOrphaned(db)
    decreases |db.wal| + 1 - id
  {
    if id == |db.wal| + 1 {
      assert PendingFrom(db, id) == [];
      assert OrphanedBelow(db, id) == AllOrphaned(db);
    } else {
      BootOrphansFrom(db, id + 1);
      OrphanNext(db, id);
      var todo, rest := PendingFrom(db, id), PendingFrom(db, id + 1);
      if IsPending(db, id) {
        assert todo == [id] + rest && todo[1..] == rest;
        FinishStep(OrphanedBelow(db, id), "", Booting(todo), []);
      } else {
        assert todo == rest;
      }
    }
  }

  lemma BootOrphansPending(db: Db)
    ensures Finish(db, "", Some(Booting(PendingFrom(db, 1))), []) == AllOrphaned(db)
    ensures AllOrphaned(AllOrphaned(db)) == AllOrphaned(db)
    ensures PendingFrom(AllOrphaned(db), 1) == []
  {
    assert OrphanedBelow(db, 1) == db;
    BootOrphansFrom(db, 1);
    var after := AllOrphaned(db);
    if PendingFrom(after, 1) != [] {
      PendingListed(after, 1, PendingFrom(after, 1)[0]);
    }
  }

  /**
   Boot recovery does not ask whose row it orphans: a start or fork another live
   process has staged is cancelled, and its init event then writes nothing at all.
   */
  lemma BootCancelsStagedRotations(db: Db, bridge: string, s: Staged, harness: string, path: string, rows: seq<string>)
    requires s.intent == Start || s.intent == Fork
    ensures Finish(AllOrphaned(db), bridge, AnnouncePc(s, harness, path), rows) == AllOrphaned(db)
  {
    hide Finish, SequenceAfter, RolloutInserted, SessionUpserted;
    var after := AllOrphaned(db);
    if s.wal == 0 {
      FinishNone(after, bridge, rows);
    } else {
      FinishRecording(after, bridge, s, harness, path, rows);
      assert !IsPending(after, s.wal);
    }
  }

  /** The announcement ran to its end, numbering with some listing of the session. */
  ghost predicate Recorded(db: Db, bridge: string, s: Staged, harness: string, path: string, db': Db) {
    exists rows :: IsListing(db, bridge, rows) && db' == Finish(db, bridge, AnnouncePc(s, harness, path), rows)
  }

  /** One more than the highest number among the session's rollouts, 0 when it has none. */
  ghost predicate IsNext(db: Db, bridge: string, next: int) {
    && (forall h | h in RolloutsOf(db, bridge) :: db.rollouts[h].sequence < next)
    && if RolloutsOf(db, bridge) == {} then next == 0
       else exists h :: h in RolloutsOf(db, bridge) && db.rollouts[h].sequence + 1 == next
  }

  lemma ListingEndsHighest(db: Db, bridge: string, rows: seq<string>)
    requires IsListing(db, bridge, rows)
    ensures IsNext(db, bridge, SequenceAfter(db, rows))
  {
    if rows == [] {
      assert forall h | h in RolloutsOf(db, bridge) :: h in rows;
    } else {
      var last := rows[|rows| - 1];
      assert last in rows;
      forall h | h in RolloutsOf(db, bridge)
        ensures db.rollouts[h].sequence < SequenceAfter(db, rows)
      {
        assert h in rows;
      }
    }
  }

  /** recoverOrphansOnBoot: list the pending rows, then orphan each. */
  method RecoverOrphansOnBoot(s: State)
    modifies s
    ensures s.Tables() == AllOrphaned(old(s.Tables()))
    ensures s.sessions == old(s.sessions) && s.rollouts == old(s.rollouts) && |s.wal| == |old(s.wal)|
    ensures forall i | 0 <= i < |s.wal| ::
              s.wal[i] == if old(s.wal)[i].status == Status.Pending
                          then old(s.wal)[i].(status := Orphaned) else old(s.wal)[i]
  {
    ghost var db := s.Tables();
    var pending := s.ListPendingWal();
    BootOrphansPending(db);
    for i := 0 to |pending|
      invariant Finish(s.Tables(), "", Some(Booting(pending[i..])), []) == AllOrphaned(db)
    {
      var _ := s.OrphanWal(pending[i]);
      assert pending[i..][1..] == pending[i + 1..];
    }
  }

  class Harness {
    const state: State
    var bridgeSessionID: string
    var sessionID: string
    var pendingWALID: nat
    var pendingIntent: Kind
    var pendingParent: string

    function Pending(): Staged
      reads this
    {
      Staged(pendingWALID, pendingIntent, pendingParent)
    }

    constructor (s: State, bridge: string)
      ensures state == s && bridgeSessionID == bridge && sessionID == "" && Pending() == NOTHING_STAGED
    {
      state, bridgeSessionID, sessionID := s, bridge, "";
      pendingWALID, pendingIntent, pendingParent := 0, NoKind, "";
    }

    /** The number after the chain's last rollout, for some listing of it. */
    method NextSequence() returns (next: int, ghost rows: seq<string>)
      ensures bridgeSessionID != "" ==>
                IsListing(state.Tables(), bridgeSessionID, rows)
                && next == SequenceAfter(state.Tables(), rows)
      ensures bridgeSessionID == "" || rows == [] ==> next == 0
      ensures bridgeSessionID != "" && rows != [] ==>
                var last := rows[|rows| - 1];
                last in state.rollouts && next == state.rollouts[last].sequence + 1
    {
      rows := [];
      if bridgeSessionID == "" {
        return 0, [];
      }
      var listed := state.ListRollouts(bridgeSessionID);
      rows := listed;
      if |listed| == 0 {
        return 0, rows;
      }
      assert listed[|listed| - 1] in listed;
      next := state.rollouts[listed[|listed| - 1]].sequence + 1;
    }

    /** Drop any staged rotation and report the WAL row it leaves pending. */
    method ClearPendingChain() returns (walID: nat)
      modifies `pendingWALID, `pendingIntent, `pendingParent
      ensures walID == old(pendingWALID) && Pending() == NOTHING_STAGED
    {
      walID := pendingWALID;
      pendingWALID, pendingIntent, pendingParent := 0, NoKind, "";
    }

    method RecordChainOnInit(newHarness: string, path: string)
      modifies `pendingWALID, `pendingIntent, `pendingParent, state
      ensures bridgeSessionID == "" ==> Pending() == old(Pending()) && state.Tables() == old(state.Tables())
      ensures bridgeSessionID != "" ==>
                && Pending() == NOTHING_STAGED
                && Recorded(old(state.Tables()), bridgeSessionID, old(Pending()), newHarness, path, state.Tables())
      ensures bridgeSessionID != "" ==>
                var db, id := old(state.Tables()), old(pendingWALID);
                var intent, parent := old(pendingIntent), old(pendingParent);
                var commits :=
                  intent in {Start, Fork} && 1 <= id <= |db.wal| && db.wal[id - 1].status == Status.Pending;
                var rotated := intent == Resume && newHarness != "" && parent != "" && newHarness != parent;
                var inserts := newHarness != "" && newHarness !in db.rollouts && bridgeSessionID in db.sessions;
                && state.wal == (if commits
                                 then db.wal[id - 1 := WalRow(db.wal[id - 1].bridge, db.wal[id - 1].intent,
                                                              db.wal[id - 1].parent, newHarness, path, Committed)]
                                 else db.wal)
                && (commits || rotated ==> state.sessions == db.sessions[bridgeSessionID := newHarness])
                && (!commits && !rotated ==>
                      state.sessions == if intent != Resume then db.sessions
                                        else db.sessions[bridgeSessionID :=
                                          if newHarness == "" then parent else newHarness])
                && (!((commits || rotated) && inserts) ==> state.rollouts == db.rollouts)
                && ((commits || rotated) && inserts ==>
                      && newHarness in state.rollouts
                      && var next := state.rollouts[newHarness].sequence;
                      && IsNext(db, bridgeSessionID, next)
                      && state.rollouts
                         == db.rollouts[newHarness := Rollout(bridgeSessionID, path, next, parent, intent)])
    {
      hide IsNext, IsListing, SequenceAfter, Finish;
      if bridgeSessionID == "" {
        return;
      }
      ghost var db := state.Tables();
      var intent, parent := pendingIntent, pendingParent;
      var walID := ClearPendingChain();
      var sequence, rows := NextSequence();
      ListingEndsHighest(db, bridgeSessionID, rows);
      FinishNone(db, bridgeSessionID, rows);
      FinishRecording(db, bridgeSessionID, Staged(walID, intent, parent), newHarness, path, rows);
      FinishRotating(db, bridgeSessionID, parent, newHarness, path, rows);
      FinishLast(db, bridgeSessionID, if newHarness == "" then parent else newHarness, rows);
      if intent == Start || intent == Fork {
        if walID == 0 {
          return;
        }
        var committed := state.CommitWal(walID, newHarness, path);
        if !committed {
          return;
        }
        var _ := state.InsertRollout(newHarness, Rollout(bridgeSessionID, path, sequence, parent, intent));
        var _ := state.UpsertSession(bridgeSessionID, newHarness);
      } else if intent == Resume {
        if newHarness == "" || parent == "" || newHarness == parent {
          var _ := state.UpsertSession(bridgeSessionID, if newHarness == "" then parent else newHarness);
          return;
        }
        var _ := state.InsertRollout(newHarness, Rollout(bridgeSessionID, path, sequence, parent, Resume));
        var _ := state.UpsertSession(bridgeSessionID, newHarness);
      }
    }

    /**
     The part of handleStart that adopts the session id and stages the rotation; the
     two flags say whether SQLite fails the statement. Not ok, it returns an error and
     nothing is spawned.
     */
    method StageRotation(
        resume: bool, fork: string, harnessID: string, legacyID: string, upsertFails: bool, insertFails: bool)
      returns (ok: bool)
      modifies `sessionID, `pendingWALID, `pendingIntent, `pendingParent, state
      ensures sessionID == if harnessID != "" then harnessID else legacyID
      ensures
        var cold := !resume && fork == "";
        ok <==> bridgeSessionID == "" || (!(cold && upsertFails) && !((cold || fork != "") && insertFails))
      ensures bridgeSessionID == "" ==> Pending() == old(Pending()) && state.Tables() == old(state.Tables())
      ensures bridgeSessionID != "" && ok ==>
                && state.Tables() == Finish(old(state.Tables()), bridgeSessionID,
                                            if fork != "" then Some(OpeningWal(Fork, fork))
                                            else if !resume then Some(StartingSession) else None, [])
                && Pending() == (if resume then Staged(0, Resume, sessionID)
                                 else Staged(|state.wal|, if fork != "" then Fork else Start, fork))
      ensures !ok ==>
                && Pending() == old(Pending())
                && state.Tables() == if resume || fork != "" || upsertFails then old(state.Tables())
                                     else SessionUpserted(old(state.Tables()), bridgeSessionID, "").db
      ensures bridgeSessionID != "" && ok ==>
                var cold, opens := !resume && fork == "", fork != "" || !resume;
                && state.sessions == (if cold then old(state.sessions)[bridgeSessionID := ""] else old(state.sessions))
                && state.rollouts == old(state.rollouts)
                && state.wal == old(state.wal)
                                + (if opens
                                   then [WalRow(bridgeSessionID, if fork != "" then Fork else Start, fork, "", "",
                                                Status.Pending)]
                                   else [])
                && pendingIntent == (if resume then Resume else if fork != "" then Fork else Start)
                && pendingParent == (if resume then sessionID else fork)
                && pendingWALID == if resume then 0 else |old(state.wal)| + 1
      ensures bridgeSessionID != "" && !ok ==>
                && state.rollouts == old(state.rollouts) && state.wal == old(state.wal)
                && state.sessions == if resume || fork != "" || upsertFails then old(state.sessions)
                                     else old(state.sessions)[bridgeSessionID := ""]
    {
      sessionID := if harnessID != "" then harnessID else legacyID;
      ghost var db := state.Tables();
      var isColdStart := !resume && fork == "";
      if bridgeSessionID != "" {
        FinishStarting(db, bridgeSessionID);
        FinishStep(db, bridgeSessionID, OpeningWal(Fork, fork), []);
        FinishNone(db, bridgeSessionID, []);
      }
      if isColdStart && bridgeSessionID != "" {
        if upsertFails {
          return false;
        }
        var _ := state.UpsertSession(bridgeSessionID, "");
        if insertFails {
          return false;
        }
        var walID := state.InsertWal(bridgeSessionID, Start, "");
        pendingWALID, pendingIntent, pendingParent := walID, Start, "";
      }
      if fork != "" && bridgeSessionID != "" {
        if insertFails {
          return false;
        }
        var walID := state.InsertWal(bridgeSessionID, Fork, fork);
        pendingWALID, pendingIntent, pendingParent := walID, Fork, fork;
      }
      if resume && bridgeSessionID != "" {
        pendingWALID, pendingIntent, pendingParent := 0, Resume, sessionID;
      }
      return true;
    }

    /** What the reader does first at an init event that names a session. */
    method SetSessionID(id: string)
      modifies `sessionID
      ensures sessionID == id
    {
      sessionID := id;
    }

    /** The reader's bookkeeping at end of stdout; died says whether PROCESS_DIED is emitted. */
    method HandleProcessExit(alive: bool, killedByWatchdog: bool) returns (died: bool)
      modifies `pendingWALID, `pendingIntent, `pendingParent, state
      ensures died == (!alive && !killedByWatchdog)
      ensures alive ==> Pending() == old(Pending()) && state.Tables() == old(state.Tables())
      ensures !alive ==>
                && Pending() == NOTHING_STAGED
                && state.Tables() == Finish(old(state.Tables()), bridgeSessionID,
                                            FirstPc(old(state.Tables()), old(Pending()), Clear), [])
      ensures state.sessions == old(state.sessions) && state.rollouts == old(state.rollouts)
      ensures
        var id, wal := old(pendingWALID), old(state.wal);
        state.wal == if !alive && 1 <= id <= |wal| && wal[id - 1].status == Status.Pending
                     then wal[id - 1 := wal[id - 1].(status := Orphaned)] else wal
    {
      if alive {
        return false;
      }
      var walID := ClearPendingChain();
      if walID != 0 {
        var _ := state.OrphanWal(walID);
      }
      return !killedByWatchdog;
    }
  }
}
