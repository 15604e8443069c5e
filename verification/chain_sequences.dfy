/**
 The rollouts of one bridge session are numbered 0, 1, 2, … without gap or
 repeat: which runs keep that, and exactly when a single insert breaks it.
 */
module ChainSequences {
  import opened StateStore
  import opened ChainRotation

  predicate At(db: Db, bridge: string, h: string, i: int) {
    h in RolloutsOf(db, bridge) && db.rollouts[h].sequence == i
  }

  ghost predicate Numbered(db: Db, bridge: string, i: int) {
    exists h :: At(db, bridge, h, i)
  }

  /** The session's rollouts carry exactly the numbers 0 to n - 1, each once. */
  ghost predicate Gapless(db: Db, bridge: string) {
    var all := RolloutsOf(db, bridge);
    && (forall h | h in all :: 0 <= db.rollouts[h].sequence < |all|)
    && (forall i | 0 <= i < |all| :: Numbered(db, bridge, i))
    && (forall g, h | g in all && h in all && g != h :: db.rollouts[g].sequence != db.rollouts[h].sequence)
  }

  /** nextSequence's answer, read off any listing, is the number of rollouts. */
  lemma NextSequenceCounts(db: Db, bridge: string, rows: seq<string>)
    requires Gapless(db, bridge) && IsListing(db, bridge, rows)
    ensures SequenceAfter(db, rows) == |RolloutsOf(db, bridge)|
  {
    var all := RolloutsOf(db, bridge);
    if rows == [] {
      assert all == {} by {
        forall h ensures h !in all { assert h in rows <==> h in all; }
      }
    } else {
      var last := rows[|rows| - 1];
      assert last in rows && last in all;
      assert |all| > 0 by { assert last in all; }
      assert Numbered(db, bridge, |all| - 1);
      var top :| At(db, bridge, top, |all| - 1);
      assert top in rows;
      var k :| 0 <= k < |rows| && rows[k] == top;
      assert db.rollouts[top].sequence <= db.rollouts[last].sequence;
    }
  }

  lemma InsertedRolloutsOf(db: Db, h: string, row: Rollout, bridge: string)
    requires Insertable(db, h, row)
    ensures var db' := RolloutInserted(db, h, row).db;
            RolloutsOf(db', bridge) == if bridge == row.bridge then RolloutsOf(db, bridge) + {h}
                                       else RolloutsOf(db, bridge)
    ensures h !in RolloutsOf(db, bridge)
  {
  }

  lemma OtherSessionsUntouched(db: Db, h: string, row: Rollout, bridge: string)
    requires Insertable(db, h, row) && bridge != row.bridge && Gapless(db, bridge)
    ensures Gapless(RolloutInserted(db, h, row).db, bridge)
  {
    InsertedRolloutsOf(db, h, row, bridge);
    var db' := RolloutInserted(db, h, row).db;
    forall i | 0 <= i < |RolloutsOf(db, bridge)|
      ensures Numbered(db', bridge, i)
    {
      assert Numbered(db, bridge, i);
      var g :| At(db, bridge, g, i);
      assert At(db', bridge, g, i);
    }
  }

  /**
   An insert into a well-numbered session keeps it well-numbered exactly when it
   carries the number of rollouts already there. A listing that failed (and so
   answered 0) or went stale breaks the numbering whenever the session has moved on.
   */
  lemma InsertKeepsNumberingIff(db: Db, h: string, row: Rollout)
    requires Insertable(db, h, row) && Gapless(db, row.bridge)
    ensures Gapless(RolloutInserted(db, h, row).db, row.bridge) <==> row.sequence == |RolloutsOf(db, row.bridge)|
  {
    var b, db' := row.bridge, RolloutInserted(db, h, row).db;
    InsertedRolloutsOf(db, h, row, b);
    var n := |RolloutsOf(db, b)|;
    if row.sequence == n {
      forall i | 0 <= i < n + 1
        ensures Numbered(db', b, i)
      {
        if i == n {
          assert At(db', b, h, n);
        } else {
          assert Numbered(db, b, i);
          var g :| At(db, b, g, i);
          assert At(db', b, g, i);
        }
      }
    } else if 0 <= row.sequence < n {
      assert Numbered(db, b, row.sequence);
      var g :| At(db, b, g, row.sequence);
      assert g in RolloutsOf(db', b) && h in RolloutsOf(db', b) && g != h;
    }
  }

  // ------------------------------------------------------------------
  // Every history, under the assumptions the code relies on

  predicate HoldsSequence(pc: Pc) {
    pc.Committing? || pc.Inserting? || pc.InsertingRotated?
  }

  /** No two threads are between reading and inserting a sequence of one bridge session. */
  ghost predicate OneWriter(w: World) {
    forall t, u | t in w.threads && u in w.threads && t != u
                  && HoldsSequence(w.threads[t].pc) && HoldsSequence(w.threads[u].pc) ::
      w.threads[t].bridge != w.threads[u].bridge
  }

  /**
   transcripts: the ids transcripts are named for. A bridge session id is none of
   them, unless that transcript already has its rollout row; a listing of a
   session that has rollouts does not fail.
   */
  ghost predicate WellUsed(w: World, a: Action, transcripts: set<string>)
    requires Enabled(w, a)
  {
    && OneWriter(w)
    && (a.Launch? ==> a.bridge !in transcripts || a.bridge in w.db.rollouts)
    && (a.Enter? && a.entry.Import? ==> a.entry.id in transcripts)
    && (a.Run? && Lists(w.threads[a.t].pc) && a.fails ==> RolloutsOf(w.db, w.threads[a.t].bridge) == {})
  }

  ghost predicate AllGapless(db: Db) {
    forall b: string :: Gapless(db, b)
  }

  ghost predicate SequencesHeld(w: World) {
    forall t | t in w.threads && HoldsSequence(w.threads[t].pc) ::
      w.threads[t].pc.sequence == |RolloutsOf(w.db, w.threads[t].bridge)|
  }

  predicate Untouched(w: World, id: string) {
    RolloutsOf(w.db, id) == {} && forall p | p in w.bridges :: w.bridges[p] != id
  }

  ghost predicate TranscriptsOk(w: World, transcripts: set<string>) {
    && (forall id | id in transcripts :: id in w.db.rollouts || Untouched(w, id))
    && (forall t | t in w.threads ::
          && (w.threads[t].pc.ImportingSession? ==> w.threads[t].pc.id in transcripts)
          && (w.threads[t].pc.ImportingRollout? ==> w.threads[t].pc.id in transcripts))
  }

  ghost predicate SequenceInv(w: World, transcripts: set<string>) {
    AllGapless(w.db) && SequencesHeld(w) && TranscriptsOk(w, transcripts)
  }

  /** The row a step inserts, if it inserts one. */
  predicate Inserts(w: World, a: Action, h: string, row: Rollout) {
    && a.Run? && a.t in w.threads && !a.fails
    && var th := w.threads[a.t];
      && Insertable(w.db, h, row)
      && ( ((th.pc.Inserting? || th.pc.InsertingRotated?) && h == th.pc.harness && row == RowOf(th.bridge, th.pc))
        || (th.pc.ImportingRollout? && h == th.pc.id && row == Rollout(th.pc.id, th.pc.path, 0, "", Start)))
  }

  /** A step inserts one row or leaves the rollouts table alone. */
  lemma StepInserts(w: World, a: Action) returns (inserts: bool, h: string, row: Rollout)
    requires Enabled(w, a)
    ensures inserts ==> Inserts(w, a, h, row) && Apply(w, a).db.rollouts == RolloutInserted(w.db, h, row).db.rollouts
    ensures !inserts ==> Apply(w, a).db.rollouts == w.db.rollouts
    ensures forall g, r :: Inserts(w, a, g, r) ==> inserts && g == h && r == row
  {
    hide NextPc, IsListing, FirstPc, Place;
    inserts, h, row := false, "", Rollout("", "", 0, "", Start);
    if a.Run? && !a.fails {
      var th := w.threads[a.t];
      if th.pc.Inserting? || th.pc.InsertingRotated? {
        h, row := th.pc.harness, RowOf(th.bridge, th.pc);
        inserts := Insertable(w.db, h, row);
      } else if th.pc.ImportingRollout? {
        h, row := th.pc.id, Rollout(th.pc.id, th.pc.path, 0, "", Start);
        inserts := Insertable(w.db, h, row);
      }
    }
  }

  lemma RolloutsDecide(db: Db, db': Db, bridge: string)
    requires db'.rollouts == db.rollouts
    ensures RolloutsOf(db', bridge) == RolloutsOf(db, bridge)
    ensures Gapless(db, bridge) ==> Gapless(db', bridge)
  {
    if Gapless(db, bridge) {
      forall i | 0 <= i < |RolloutsOf(db, bridge)|
        ensures Numbered(db', bridge, i)
      {
        assert Numbered(db, bridge, i);
        var g :| At(db, bridge, g, i);
        assert At(db', bridge, g, i);
      }
    }
  }

  /** The row a step inserts carries the session's number of rollouts. */
  lemma InsertedSequence(w: World, a: Action, transcripts: set<string>, h: string, row: Rollout)
    requires Inv(w) && SequenceInv(w, transcripts) && Enabled(w, a) && WellUsed(w, a, transcripts)
    requires Inserts(w, a, h, row)
    ensures row.sequence == |RolloutsOf(w.db, row.bridge)|
    ensures forall u | u in w.threads && u != a.t && HoldsSequence(w.threads[u].pc) :: w.threads[u].bridge != row.bridge
  {
    hide AllGapless, StagingOk, RolloutsOk;
    var th := w.threads[a.t];
    if th.pc.ImportingRollout? {
      assert Untouched(w, h);
      forall u | u in w.threads
        ensures w.threads[u].bridge != h
      {
        assert ThreadOk(w, w.threads[u]);
      }
    }
  }

  lemma InsertsInsertable(w: World, a: Action, h: string, row: Rollout)
    requires Inserts(w, a, h, row)
    ensures Insertable(w.db, h, row)
  {
  }

  lemma StepKeepsGapless(w: World, a: Action, transcripts: set<string>)
    requires Inv(w) && SequenceInv(w, transcripts) && Enabled(w, a) && WellUsed(w, a, transcripts)
    ensures AllGapless(Apply(w, a).db)
  {
    hide Enabled, Apply, Inv, WellUsed, Inserts, Gapless, Insertable, RolloutInserted;
    var db' := Apply(w, a).db;
    var inserts, h, row := StepInserts(w, a);
    forall b: string
      ensures Gapless(db', b)
    {
      assert Gapless(w.db, b);
      if inserts {
        var inserted := RolloutInserted(w.db, h, row).db;
        InsertsInsertable(w, a, h, row);
        if b == row.bridge {
          InsertedSequence(w, a, transcripts, h, row);
          InsertKeepsNumberingIff(w.db, h, row);
        } else {
          OtherSessionsUntouched(w.db, h, row, b);
        }
        RolloutsDecide(inserted, db', b);
      } else {
        RolloutsDecide(w.db, db', b);
      }
    }
  }

  lemma NextHolds(db: Db, pc: Pc, ok: bool, rows: seq<string>)
    ensures var next := NextPc(db, pc, ok, rows);
            next.Some? && HoldsSequence(next.value) ==>
              if Lists(pc) then next.value.sequence == if ok then SequenceAfter(db, rows) else 0
              else HoldsSequence(pc) && next.value.sequence == pc.sequence && pc.Committing?
  {
    hide SequenceAfter;
  }

  lemma RunKeepsSequences(w: World, a: Action, transcripts: set<string>)
    requires Inv(w) && SequenceInv(w, transcripts) && Enabled(w, a) && WellUsed(w, a, transcripts) && a.Run?
    ensures SequencesHeld(Apply(w, a))
  {
    hide Inv, Gapless, TranscriptsOk, NextPc, SequenceAfter, IsListing, Insertable, RolloutsOf, Attempt, Inserts;
    var w', th := Apply(w, a), w.threads[a.t];
    var inserts, h, row := StepInserts(w, a);
    NextHolds(w.db, th.pc, Attempt(w.db, th.bridge, th.pc, a.fails).ok, a.rows);
    forall u | u in w'.threads && HoldsSequence(w'.threads[u].pc)
      ensures w'.threads[u].pc.sequence == |RolloutsOf(w'.db, w'.threads[u].bridge)|
    {
      var b := w'.threads[u].bridge;
      if inserts {
        InsertsInsertable(w, a, h, row);
        InsertedSequence(w, a, transcripts, h, row);
        InsertedRolloutsOf(w.db, h, row, b);
        InserterMovesOn(w, a, h, row);
        RolloutsDecide(RolloutInserted(w.db, h, row).db, w'.db, b);
      } else {
        RolloutsDecide(w.db, w'.db, b);
        if u == a.t && Lists(th.pc) {
          assert Gapless(w.db, b);
          NextSequenceCounts(w.db, b, a.rows);
          AttemptOfListing(w.db, b, th.pc, a.fails);
        }
      }
    }
  }

  lemma AttemptOfListing(db: Db, bridge: string, pc: Pc, fails: bool)
    requires Lists(pc)
    ensures Attempt(db, bridge, pc, fails).ok == !fails
  {
  }

  lemma InserterMovesOn(w: World, a: Action, h: string, row: Rollout)
    requires Enabled(w, a) && Inserts(w, a, h, row)
    ensures a.t in Apply(w, a).threads ==> !HoldsSequence(Apply(w, a).threads[a.t].pc)
  {
  }

  lemma StepKeepsSequences(w: World, a: Action, transcripts: set<string>)
    requires Inv(w) && SequenceInv(w, transcripts) && Enabled(w, a) && WellUsed(w, a, transcripts)
    ensures SequencesHeld(Apply(w, a))
  {
    if a.Run? {
      RunKeepsSequences(w, a, transcripts);
    } else {
      hide Inv, Gapless, TranscriptsOk, IsListing, RolloutsOf, FirstPc, WellUsed;
      var w' := Apply(w, a);
      if a.Enter? {
        FirstPcRecords(w.db, w.staged[a.p], a.entry);
        FirstPcHoldsNothing(w.db, w.staged[a.p], a.entry);
      }
      forall u | u in w'.threads && HoldsSequence(w'.threads[u].pc)
        ensures u in w.threads && w'.threads[u] == w.threads[u]
      {
      }
    }
  }

  lemma FirstPcHoldsNothing(db: Db, s: Staged, entry: Entry)
    ensures FirstPc(db, s, entry).Some? ==>
              var pc := FirstPc(db, s, entry).value;
              && !HoldsSequence(pc) && !pc.ImportingRollout?
              && (pc.ImportingSession? ==> entry.Import? && pc.id == entry.id)
  {
    hide PendingFrom;
  }

  lemma StepKeepsTranscriptThreads(w: World, a: Action, transcripts: set<string>, u: nat)
    requires TranscriptsOk(w, transcripts) && Enabled(w, a) && WellUsed(w, a, transcripts)
    requires u in Apply(w, a).threads
    ensures var pc := Apply(w, a).threads[u].pc;
            (pc.ImportingSession? || pc.ImportingRollout?) ==> pc.id in transcripts
  {
    hide OneWriter, IsListing, RolloutsOf, FirstPc, Attempt, SequenceAfter;
    if a.Enter? {
      FirstPcHoldsNothing(w.db, w.staged[a.p], a.entry);
    }
  }

  lemma StepKeepsTranscripts(w: World, a: Action, transcripts: set<string>)
    requires Inv(w) && SequenceInv(w, transcripts) && Enabled(w, a) && WellUsed(w, a, transcripts)
    ensures TranscriptsOk(Apply(w, a), transcripts)
  {
    hide AllGapless, SequencesHeld, Insertable, OneWriter, IsListing, FirstPc, NextPc, Attempt, RolloutsOk, StagingOk;
    var w' := Apply(w, a);
    var inserts, h, row := StepInserts(w, a);
    forall id | id in transcripts
      ensures id in w'.db.rollouts || Untouched(w', id)
    {
      assert id in w.db.rollouts || Untouched(w, id);
      if inserts {
        InsertsInsertable(w, a, h, row);
        InsertedRolloutsOf(w.db, h, row, id);
        RolloutsDecide(RolloutInserted(w.db, h, row).db, w'.db, id);
        assert ThreadOk(w, w.threads[a.t]);
      } else {
        RolloutsDecide(w.db, w'.db, id);
      }
    }
    forall u | u in w'.threads
      ensures var pc := w'.threads[u].pc; (pc.ImportingSession? || pc.ImportingRollout?) ==> pc.id in transcripts
    {
      StepKeepsTranscriptThreads(w, a, transcripts, u);
    }
  }

  lemma {:induction false} HistoryKeepsSequences(
      worlds: seq<World>, actions: seq<Action>, transcripts: set<string>, i: nat)
    requires IsHistory(worlds, actions) && i <= |actions|
    requires forall j | 0 <= j < |actions| :: WellUsed(worlds[j], actions[j], transcripts)
    ensures SequenceInv(worlds[i], transcripts)
  {
    hide Inv, WellUsed, Enabled, Apply, AllGapless, SequencesHeld, TranscriptsOk;
    if i > 0 {
      var w, a := worlds[i - 1], actions[i - 1];
      HistoryKeepsSequences(worlds, actions, transcripts, i - 1);
      HistoryKeepsInv(worlds, actions, i - 1);
      StepKeepsGapless(w, a, transcripts);
      StepKeepsSequences(w, a, transcripts);
      StepKeepsTranscripts(w, a, transcripts);
    } else {
      InitialSequences(transcripts);
    }
  }

  lemma InitialSequences(transcripts: set<string>)
    ensures SequenceInv(INITIAL_WORLD, transcripts)
  {
    forall b: string
      ensures Gapless(EMPTY_DB, b)
    {
      assert RolloutsOf(EMPTY_DB, b) == {};
    }
    assert forall id :: RolloutsOf(EMPTY_DB, id) == {};
  }

  /**
   Across starts, forks, rotated resumes, refused and failed inserts, crashes and
   cold imports, every session's rollouts are numbered 0 to n - 1, and a rollout
   has no parent exactly when it is a start.
   */
  lemma SessionsStayNumbered(worlds: seq<World>, actions: seq<Action>, transcripts: set<string>, i: nat, bridge: string)
    requires IsHistory(worlds, actions) && i <= |actions|
    requires forall j | 0 <= j < |actions| :: WellUsed(worlds[j], actions[j], transcripts)
    ensures Gapless(worlds[i].db, bridge)
  {
    hide Inv, WellUsed, Enabled, Apply, SequencesHeld, TranscriptsOk;
    HistoryKeepsSequences(worlds, actions, transcripts, i);
  }

  /** The parent rule needs none of those assumptions. */
  lemma OnlyStartsHaveNoParent(worlds: seq<World>, actions: seq<Action>, i: nat, h: string)
    requires IsHistory(worlds, actions) && i <= |actions| && h in worlds[i].db.rollouts
    ensures worlds[i].db.rollouts[h].parent == "" <==> worlds[i].db.rollouts[h].kind == Start
  {
    HistoryKeepsInv(worlds, actions, i);
    assert RolloutOk(worlds[i].db, worlds[i].origin, worlds[i].imported, h);
  }

  // ------------------------------------------------------------------
  // Every history, exactly

  /** The step inserts a rollout that does not carry the session's number of rollouts. */
  ghost predicate Misnumbers(w: World, a: Action, bridge: string) {
    exists h, row :: Inserts(w, a, h, row) && row.bridge == bridge && row.sequence != |RolloutsOf(w.db, bridge)|
  }

  lemma StepKeepsNumberingIff(w: World, a: Action, bridge: string)
    requires Enabled(w, a) && Gapless(w.db, bridge)
    ensures Gapless(Apply(w, a).db, bridge) <==> !Misnumbers(w, a, bridge)
  {
    hide Enabled, Apply, Inserts, Gapless, Insertable, RolloutInserted;
    var db' := Apply(w, a).db;
    var inserts, h, row := StepInserts(w, a);
    if inserts {
      var inserted := RolloutInserted(w.db, h, row).db;
      InsertsInsertable(w, a, h, row);
      RolloutsDecide(inserted, db', bridge);
      RolloutsDecide(db', inserted, bridge);
      if row.bridge == bridge {
        InsertKeepsNumberingIff(w.db, h, row);
      } else {
        OtherSessionsUntouched(w.db, h, row, bridge);
      }
    } else {
      RolloutsDecide(w.db, db', bridge);
    }
  }

  /**
   With no assumption at all: a session is numbered 0 to n - 1 at every moment of a
   history up to the i-th if and only if every rollout inserted into it until then
   carried the number of rollouts it had.
   */
  lemma {:induction false} NumberedThroughoutIff(worlds: seq<World>, actions: seq<Action>, i: nat, bridge: string)
    requires IsHistory(worlds, actions) && i <= |actions|
    ensures (forall k | 0 <= k <= i :: Gapless(worlds[k].db, bridge))
       <==> (forall j | 0 <= j < i :: !Misnumbers(worlds[j], actions[j], bridge))
  {
    hide Misnumbers, Gapless, Enabled, Apply;
    if i == 0 {
      EmptyIsNumbered(bridge);
    } else {
      NumberedThroughoutIff(worlds, actions, i - 1, bridge);
      var j := i - 1;
      if Gapless(worlds[j].db, bridge) {
        StepKeepsNumberingIff(worlds[j], actions[j], bridge);
      }
      assert (forall k | 0 <= k <= i :: Gapless(worlds[k].db, bridge)) <==>
             (forall k | 0 <= k <= j :: Gapless(worlds[k].db, bridge)) && Gapless(worlds[i].db, bridge);
      assert (forall k | 0 <= k < i :: !Misnumbers(worlds[k], actions[k], bridge)) <==>
             (forall k | 0 <= k < j :: !Misnumbers(worlds[k], actions[k], bridge))
             && !Misnumbers(worlds[j], actions[j], bridge);
    }
  }

  lemma EmptyIsNumbered(bridge: string)
    ensures Gapless(EMPTY_DB, bridge)
  {
    assert RolloutsOf(EMPTY_DB, bridge) == {};
  }
}
