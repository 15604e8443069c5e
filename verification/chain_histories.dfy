/**
 Histories of the rotation machine in which one thread at a time runs to its end,
 which is what the uninterrupted methods of HarnessChain do, and the histories in
 which the chain goes wrong.
 */
module ChainHistories {
  import opened ChainRotation
  import opened ChainSequences
  import opened HarnessChain
  import opened Options
  import opened StateStore

  ghost predicate Reachable(w: World) {
    exists worlds, actions :: IsHistory(worlds, actions) && worlds[|actions|] == w
  }

  lemma InitialIsReachable()
    ensures Reachable(INITIAL_WORLD)
  {
    assert IsHistory([INITIAL_WORLD], []);
  }

  lemma ReachesNext(w: World, a: Action)
    requires Reachable(w) && Enabled(w, a)
    ensures Reachable(Apply(w, a))
  {
    hide Enabled, Apply;
    var worlds, actions :| IsHistory(worlds, actions) && worlds[|actions|] == w;
    var worlds', actions' := worlds + [Apply(w, a)], actions + [a];
    forall i | 0 <= i < |actions'|
      ensures Enabled(worlds'[i], actions'[i]) && worlds'[i + 1] == Apply(worlds'[i], actions'[i])
    {
      if i < |actions| {
        assert worlds'[i] == worlds[i] && worlds'[i + 1] == worlds[i + 1] && actions'[i] == actions[i];
      }
    }
    assert IsHistory(worlds', actions');
  }

  // ------------------------------------------------------------------
  // One thread alone

  /** The world once thread t has run to its end alone, no statement failing. */
  function Solo(w: World, t: nat, rows: seq<string>): World
    requires t in w.threads
    decreases Rank(w.threads[t].pc)
  {
    var w' := Ran(w, t, false, rows);
    SoloProgresses(w, t, rows);
    if t in w'.threads then Solo(w', t, rows) else w'
  }

  lemma SoloProgresses(w: World, t: nat, rows: seq<string>)
    requires t in w.threads
    ensures
      var w' := Ran(w, t, false, rows);
      t in w'.threads ==>
        && Rank(w'.threads[t].pc) < Rank(w.threads[t].pc)
        && !Lists(w'.threads[t].pc)
        && w'.threads[t].bridge == w.threads[t].bridge && w'.threads[t].process == w.threads[t].process
  {
  }

  /** What a thread stages: the row it has just opened. */
  function StagedAlone(db: Db, bridge: string, pc: Pc): Option<Staged> {
    match pc
    case StartingSession => if bridge == "" then None else Some(Staged(|db.wal| + 1, Start, ""))
    case OpeningWal(intent, parent) =>
      if bridge == "" || intent == NoKind then None else Some(Staged(|db.wal| + 1, intent, parent))
    case Staging(wal, intent, parent) => Some(Staged(wal, intent, parent))
    case _ => None
  }

  /** Nothing interleaving, a thread of the machine does to the tables what Finish says. */
  lemma {:induction false} SoloFinishes(w: World, t: nat, rows: seq<string>)
    requires Reachable(w) && t in w.threads
    requires Lists(w.threads[t].pc) ==> IsListing(w.db, w.threads[t].bridge, rows)
    ensures
      var th, w' := w.threads[t], Solo(w, t, rows);
      var staged := StagedAlone(w.db, th.bridge, th.pc);
      && Reachable(w')
      && w'.db == Finish(w.db, th.bridge, Some(th.pc), rows)
      && w'.threads == w.threads - {t}
      && w'.bridges == w.bridges
      && w'.staged == if staged.Some? then w.staged[th.process := staged.value] else w.staged
    decreases Rank(w.threads[t].pc)
  {
    hide Reachable, IsListing, Finish;
    var th := w.threads[t];
    var w' := Ran(w, t, false, rows);
    ReachesNext(w, Run(t, false, rows));
    SoloProgresses(w, t, rows);
    FinishStep(w.db, th.bridge, th.pc, rows);
    StagedByStep(w, t, rows);
    if t in w'.threads {
      SoloFinishes(w', t, rows);
      hide Ran;
      assert w'.threads - {t} == w.threads - {t};
    } else {
      FinishNone(w'.db, th.bridge, rows);
      assert w.threads - {t} - {t} == w.threads - {t};
    }
  }

  lemma StagedByStep(w: World, t: nat, rows: seq<string>)
    requires t in w.threads
    ensures
      var th, w' := w.threads[t], Ran(w, t, false, rows);
      var now := StagedAlone(w.db, th.bridge, th.pc);
      && w'.threads - {t} == w.threads - {t}
      && w'.bridges == w.bridges
      && (t !in w'.threads ==>
            w'.staged == if now.Some? then w.staged[th.process := now.value] else w.staged)
      && (t in w'.threads ==>
            && w'.staged == w.staged
            && StagedAlone(w'.db, th.bridge, w'.threads[t].pc) == now)
  {
    hide SequenceAfter;
  }

  // ------------------------------------------------------------------
  // Histories of such threads

  /** A moment between threads, process p serving a session. */
  ghost predicate Quiet(w: World) {
    Reachable(w) && w.threads == map[] && w.staged.Keys == w.bridges.Keys
  }

  lemma Launches(w: World, p: nat, bridge: string) returns (w': World)
    requires Quiet(w) && p !in w.bridges
    ensures Quiet(w') && w'.db == w.db
    ensures w'.bridges == w.bridges[p := bridge] && w'.staged == w.staged[p := NOTHING_STAGED]
  {
    hide Reachable;
    ReachesNext(w, Launch(p, bridge));
    w' := Apply(w, Launch(p, bridge));
  }

  /** An entry whose thread runs alone to its end. */
  lemma RunsAlone(w: World, p: nat, entry: Entry, rows: seq<string>) returns (w': World)
    requires Quiet(w) && p in w.bridges && EntryAllowed(w.bridges[p], entry)
    requires FirstPc(w.db, w.staged[p], entry).Some?
    requires Lists(FirstPc(w.db, w.staged[p], entry).value) ==> IsListing(w.db, w.bridges[p], rows)
    ensures
      var pc := FirstPc(w.db, w.staged[p], entry).value;
      var now := StagedAlone(w.db, w.bridges[p], pc);
      && Quiet(w')
      && w'.db == Finish(w.db, w.bridges[p], Some(pc), rows)
      && w'.bridges == w.bridges
      && w'.staged == if now.Some? then w.staged[p := now.value]
                      else if entry.Clear? || entry.Announce? then w.staged[p := NOTHING_STAGED] else w.staged
  {
    hide Reachable, Finish, FirstPc, IsListing, StagedAlone;
    ReachesNext(w, Enter(0, p, entry));
    var entered := Apply(w, Enter(0, p, entry));
    EnteredAlone(w, p, entry);
    SoloFinishes(entered, 0, rows);
    w' := Solo(entered, 0, rows);
    assert w'.threads == map[];
  }

  lemma EnteredAlone(w: World, p: nat, entry: Entry)
    requires w.threads == map[] && p in w.bridges && p in w.staged
    requires FirstPc(w.db, w.staged[p], entry).Some?
    ensures
      var pc, w' := FirstPc(w.db, w.staged[p], entry).value, Entered(w, 0, p, entry);
      && w'.threads == map[0 := Thread(p, w.bridges[p], pc)]
      && w'.db == w.db && w'.bridges == w.bridges
      && w'.staged == (if entry.Clear? || entry.Announce? then w.staged[p := NOTHING_STAGED] else w.staged)
      && (entry.Clear? || entry.Announce? ==> StagedAlone(w.db, w.bridges[p], pc).None?)
  {
    hide PendingFrom;
  }

  lemma StartsAlone(w: World, p: nat) returns (w': World)
    requires Quiet(w) && p in w.bridges && w.bridges[p] != ""
    ensures Quiet(w') && w'.bridges == w.bridges
    ensures w'.db == WalInserted(SessionUpserted(w.db, w.bridges[p], "").db, w.bridges[p], Start, "").db
    ensures w'.staged == w.staged[p := Staged(|w.db.wal| + 1, Start, "")]
  {
    w' := RunsAlone(w, p, ColdStart, []);
    FinishStarting(w.db, w.bridges[p]);
  }

  lemma ForksAlone(w: World, p: nat, parent: string) returns (w': World)
    requires Quiet(w) && p in w.bridges && w.bridges[p] != "" && parent != ""
    ensures Quiet(w') && w'.bridges == w.bridges
    ensures w'.db == WalInserted(w.db, w.bridges[p], Fork, parent).db
    ensures w'.staged == w.staged[p := Staged(|w.db.wal| + 1, Fork, parent)]
  {
    w' := RunsAlone(w, p, ForkFrom(parent), []);
    FinishForking(w.db, w.bridges[p], parent);
  }

  lemma BootsAlone(w: World, p: nat) returns (w': World)
    requires Quiet(w) && p in w.bridges
    ensures Quiet(w') && w'.bridges == w.bridges && w'.staged == w.staged
    ensures w'.db == AllOrphaned(w.db)
  {
    w' := RunsAlone(w, p, Boot, []);
    BootOrphansPending(w.db);
    BootingIgnoresBridge(w.db, PendingFrom(w.db, 1), w.bridges[p]);
  }

  lemma {:induction false} BootingIgnoresBridge(db: Db, todo: seq<nat>, bridge: string)
    ensures Finish(db, bridge, Some(Booting(todo)), []) == Finish(db, "", Some(Booting(todo)), [])
    decreases |todo|
  {
    hide Finish;
    FinishStep(db, bridge, Booting(todo), []);
    FinishStep(db, "", Booting(todo), []);
    if todo == [] {
      FinishNone(db, bridge, []);
      FinishNone(db, "", []);
    } else {
      BootingIgnoresBridge(WalOrphaned(db, todo[0]).db, todo[1..], bridge);
    }
  }

  lemma AnnouncesAlone(w: World, p: nat, harness: string, path: string, rows: seq<string>) returns (w': World)
    requires Quiet(w) && p in w.bridges && w.bridges[p] != ""
    requires w.staged[p].wal != 0 && w.staged[p].intent in {Start, Fork}
    requires IsListing(w.db, w.bridges[p], rows)
    ensures Quiet(w') && w'.bridges == w.bridges && w'.staged == w.staged[p := NOTHING_STAGED]
    ensures w'.db == Finish(w.db, w.bridges[p], AnnouncePc(w.staged[p], harness, path), rows)
  {
    w' := RunsAlone(w, p, Announce(harness, path), rows);
  }

  /**
   A resume announced with another id: for any tables, and without interruption, a
   rollout with the old id as its parent if the new one has none and the session has a
   row, and the session moved to the new id in any case.
   */
  lemma ResumesAlone(w: World, p: nat, parent: string, harness: string, path: string, rows: seq<string>)
    returns (w': World)
    requires Quiet(w) && p in w.bridges && w.bridges[p] != "" && IsListing(w.db, w.bridges[p], rows)
    ensures Quiet(w') && w'.bridges == w.bridges && w'.staged == w.staged[p := NOTHING_STAGED]
    ensures w'.db.wal == w.db.wal
    ensures parent != "" && harness != "" && harness != parent ==>
              && w'.db.sessions == w.db.sessions[w.bridges[p] := harness]
              && (harness in w.db.rollouts || w.bridges[p] !in w.db.sessions ==> w'.db.rollouts == w.db.rollouts)
              && (harness !in w.db.rollouts && w.bridges[p] in w.db.sessions ==>
                    && harness in w'.db.rollouts
                    && var next := w'.db.rollouts[harness].sequence;
                    && IsNext(w.db, w.bridges[p], next)
                    && w'.db.rollouts == w.db.rollouts[harness := Rollout(w.bridges[p], path, next, parent, Resume)])
    ensures parent == "" || harness == "" || harness == parent ==>
              && w'.db.rollouts == w.db.rollouts
              && w'.db.sessions == w.db.sessions[w.bridges[p] := if harness == "" then parent else harness]
  {
    hide Reachable, Finish, IsListing, IsNext, SequenceAfter;
    ReachesNext(w, StageResume(p, parent));
    var resumed := Apply(w, StageResume(p, parent));
    ListingEndsHighest(w.db, w.bridges[p], rows);
    w' := RunsAlone(resumed, p, Announce(harness, path), rows);
    if parent == "" || harness == "" || harness == parent {
      FinishLast(w.db, w.bridges[p], if harness == "" then parent else harness, rows);
    } else {
      FinishRotating(w.db, w.bridges[p], parent, harness, path, rows);
    }
  }

  /** A recorded start whose resume Claude Code announces with another id. */
  lemma RotatedResumeIsRecorded(bridge: string, first: string, second: string, path: string, path': string)
    returns (w: World)
    requires bridge != "" && first != "" && second != "" && first != second
    ensures Reachable(w)
    ensures w.db == Db(map[bridge := second],
                       map[first := Rollout(bridge, path, 0, "", Start),
                           second := Rollout(bridge, path', 1, first, Resume)],
                       [WalRow(bridge, Start, "", first, path, Committed)])
  {
    hide Reachable, IsListing;
    w := StartIsRecorded(bridge, first, path);
    var recorded := w.db;
    w := ResumesAlone(w, 0, first, second, path', [first]);
    assert RolloutsOf(recorded, bridge) == {first};
  }

  // ------------------------------------------------------------------
  // Where it goes wrong

  lemma NothingListed(db: Db, bridge: string)
    requires RolloutsOf(db, bridge) == {}
    ensures IsListing(db, bridge, [])
  {
  }

  /**
   A fork whose session has no row: its WAL row is committed, its rollout refused, and
   its session moved to an id that has no rollout.
   */
  lemma ForkLeavesNoRollout(bridge: string, parent: string, harness: string, path: string) returns (w: World)
    requires bridge != "" && parent != ""
    ensures Reachable(w)
    ensures w.db == Db(map[bridge := harness], map[], [WalRow(bridge, Fork, parent, harness, path, Committed)])
  {
    InitialIsReachable();
    w := Launches(INITIAL_WORLD, 0, bridge);
    w := ForksAlone(w, 0, parent);
    NothingListed(w.db, bridge);
    FinishRecording(w.db, bridge, w.staged[0], harness, path, []);
    w := AnnouncesAlone(w, 0, harness, path, []);
  }

  /**
   A second process boots while the first has a start under way: the first's row is
   orphaned, and when its id is announced no rollout appears and the session stays empty.
   */
  lemma BootCancelsAnothersStart(bridge: string, other: string, harness: string, path: string) returns (w: World)
    requires bridge != ""
    ensures Reachable(w)
    ensures w.db == Db(map[bridge := ""], map[], [WalRow(bridge, Start, "", "", "", Orphaned)])
  {
    InitialIsReachable();
    w := Launches(INITIAL_WORLD, 0, bridge);
    w := StartsAlone(w, 0);
    var started := w.db;
    w := Launches(w, 1, other);
    w := BootsAlone(w, 1);
    NothingListed(w.db, bridge);
    BootCancelsStagedRotations(started, bridge, w.staged[0], harness, path, []);
    w := AnnouncesAlone(w, 0, harness, path, []);
  }

  /** A first start, recorded. */
  lemma StartIsRecorded(bridge: string, harness: string, path: string) returns (w: World)
    requires bridge != "" && harness != ""
    ensures Quiet(w) && w.bridges == map[0 := bridge]
    ensures w.db == Db(map[bridge := harness], map[harness := Rollout(bridge, path, 0, "", Start)],
                       [WalRow(bridge, Start, "", harness, path, Committed)])
    ensures IsListing(w.db, bridge, [harness])
  {
    InitialIsReachable();
    w := Launches(INITIAL_WORLD, 0, bridge);
    w := StartsAlone(w, 0);
    NothingListed(w.db, bridge);
    FinishRecording(w.db, bridge, w.staged[0], harness, path, []);
    w := AnnouncesAlone(w, 0, harness, path, []);
    assert RolloutsOf(w.db, bridge) == {harness};
    OneListed(w.db, bridge, harness);
  }

  /** One id announced for two starts, as with a caller-supplied one: two rows are committed with it. */
  lemma OneIdTwoRows(bridge: string, harness: string, path: string) returns (w: World)
    requires bridge != "" && harness != ""
    ensures Reachable(w)
    ensures harness in w.db.rollouts && w.db.rollouts[harness].kind == Start
    ensures Named(w.db, harness) == {1, 2}
  {
    hide Reachable, IsListing, Finish, AnnouncePc;
    w := StartIsRecorded(bridge, harness, path);
    var db := WalInserted(SessionUpserted(w.db, bridge, "").db, bridge, Start, "").db;
    ListingIgnores(w.db, db, bridge, [harness]);
    w := StartsAlone(w, 0);
    AgainIsRecorded(db, bridge, harness, path);
    w := AnnouncesAlone(w, 0, harness, path, [harness]);
    NamedByBoth(w.db, harness);
  }

  lemma ListingIgnores(db: Db, db': Db, bridge: string, rows: seq<string>)
    requires IsListing(db, bridge, rows) && db'.rollouts == db.rollouts
    ensures IsListing(db', bridge, rows)
  {
    assert RolloutsOf(db', bridge) == RolloutsOf(db, bridge);
  }

  lemma AgainIsRecorded(db: Db, bridge: string, harness: string, path: string)
    requires bridge != "" && |db.wal| == 2 && IsPending(db, 2) && harness in db.rollouts
    ensures
      var after := Finish(db, bridge, AnnouncePc(Staged(2, Start, ""), harness, path), [harness]);
      && after.rollouts == db.rollouts
      && after.wal == [db.wal[0], db.wal[1].(newHarness := harness, path := path, status := Committed)]
  {
    hide Finish;
    FinishRecording(db, bridge, Staged(2, Start, ""), harness, path, [harness]);
  }

  lemma NamedByBoth(db: Db, harness: string)
    requires |db.wal| == 2 && forall i | 0 <= i < 2 :: db.wal[i].status == Committed && db.wal[i].newHarness == harness
    ensures Named(db, harness) == {1, 2}
  {
    forall id: nat
      ensures IsNamed(db, harness, id) <==> id == 1 || id == 2
    {
    }
  }

  lemma OneListed(db: Db, bridge: string, harness: string)
    requires RolloutsOf(db, bridge) == {harness}
    ensures IsListing(db, bridge, [harness])
  {
  }

  /**
   A listing that fails in a session with a rollout: the fork announced then is
   numbered 0 as well, and the session's numbering is broken.
   */
  lemma FailedListingRepeatsANumber(bridge: string, first: string, second: string, path: string) returns (w: World)
    requires bridge != "" && first != "" && second != "" && first != second
    ensures Reachable(w)
    ensures {first, second} <= w.db.rollouts.Keys
    ensures w.db.rollouts[first].bridge == bridge && w.db.rollouts[second].bridge == bridge
    ensures w.db.rollouts[first].sequence == 0 && w.db.rollouts[second].sequence == 0
    ensures !Gapless(w.db, bridge)
  {
    hide Reachable, IsListing;
    w := StartIsRecorded(bridge, first, path);
    ListingIgnores(w.db, WalInserted(w.db, bridge, Fork, first).db, bridge, [first]);
    w := ForksAlone(w, 0, first);
    w := AnnouncesUnlisted(w, 0, second, path, [first]);
    assert first in RolloutsOf(w.db, bridge) && second in RolloutsOf(w.db, bridge);
  }

  /** The same with the listing failing: the rollout is numbered 0 whatever the session holds. */
  lemma AnnouncesUnlisted(w: World, p: nat, harness: string, path: string, rows: seq<string>) returns (w': World)
    requires Quiet(w) && p in w.bridges && w.bridges[p] in w.db.sessions && w.bridges[p] != ""
    requires w.staged[p].intent in {Start, Fork} && IsPending(w.db, w.staged[p].wal)
    requires harness != "" && harness !in w.db.rollouts
    requires IsListing(w.db, w.bridges[p], rows)
    ensures Reachable(w')
    ensures w'.db.rollouts == w.db.rollouts[harness :=
              Rollout(w.bridges[p], path, 0, w.staged[p].parent, w.staged[p].intent)]
  {
    hide Reachable, Finish, IsListing;
    var s, bridge := w.staged[p], w.bridges[p];
    ReachesNext(w, Enter(0, p, Announce(harness, path)));
    var w1 := Apply(w, Enter(0, p, Announce(harness, path)));
    EnteredAlone(w, p, Announce(harness, path));
    ReachesNext(w1, Run(0, true, rows));
    var w2 := Apply(w1, Run(0, true, rows));
    var pc := Committing(s.wal, s.intent, s.parent, harness, path, 0);
    assert w2.threads[0].pc == pc && w2.db == w.db;
    SoloFinishes(w2, 0, []);
    FinishStep(w.db, bridge, pc, []);
    var committed := WalCommitted(w.db, s.wal, harness, path).db;
    var inserting := Inserting(s.wal, s.intent, s.parent, harness, path, 0);
    FinishStep(committed, bridge, inserting, []);
    FinishLast(RolloutInserted(committed, harness, RowOf(bridge, inserting)).db, bridge, harness, []);
    w' := Solo(w2, 0, []);
  }

  /** A thread enters beside whatever else is going on. */
  lemma Enters(w: World, t: nat, p: nat, entry: Entry) returns (w': World)
    requires Reachable(w) && t !in w.threads && p in w.bridges && p in w.staged
    requires EntryAllowed(w.bridges[p], entry) && FirstPc(w.db, w.staged[p], entry).Some?
    ensures Reachable(w') && w'.db == w.db && w'.bridges == w.bridges
    ensures w'.threads == w.threads[t := Thread(p, w.bridges[p], FirstPc(w.db, w.staged[p], entry).value)]
    ensures w'.staged == if entry.Clear? || entry.Announce? then w.staged[p := NOTHING_STAGED] else w.staged
  {
    hide Reachable, FirstPc;
    ReachesNext(w, Enter(t, p, entry));
    w' := Apply(w, Enter(t, p, entry));
  }

  /** The first announcement has read its number and opened the way for another before it commits. */
  lemma FirstReadsItsNumber(bridge: string, first: string, path: string) returns (w: World)
    requires bridge != ""
    ensures Reachable(w)
    ensures w.db == Db(map[bridge := ""], map[], [WalRow(bridge, Start, "", "", "", Pending)])
    ensures w.bridges == map[0 := bridge] && w.staged == map[0 := NOTHING_STAGED]
    ensures w.threads == map[1 := Thread(0, bridge, Committing(1, Start, "", first, path, 0))]
  {
    InitialIsReachable();
    w := Launches(INITIAL_WORLD, 0, bridge);
    w := StartsAlone(w, 0);
    w := Enters(w, 1, 0, Announce(first, path));
    NothingListed(w.db, bridge);
    ReachesNext(w, Run(1, false, []));
    w := Apply(w, Run(1, false, []));
  }

  /**
   Two writers: while a start's announcement is between reading its number and
   inserting, a fork of the same session is announced to its end. Both are numbered 0.
   */
  lemma TwoWritersRepeatANumber(bridge: string, first: string, second: string, path: string) returns (w: World)
    requires bridge != "" && first != "" && second != "" && first != second
    ensures Reachable(w)
    ensures {first, second} <= w.db.rollouts.Keys
    ensures w.db.rollouts[first].bridge == bridge && w.db.rollouts[second].bridge == bridge
    ensures w.db.rollouts[first].sequence == 0 && w.db.rollouts[second].sequence == 0
    ensures !Gapless(w.db, bridge)
  {
    hide Reachable, Solo, Finish;
    w := FirstReadsItsNumber(bridge, first, path);
    w := ForksBeside(w, bridge, first);
    w := SecondIsRecorded(w, bridge, first, second, path);
    SoloFinishes(w, 1, []);
    CommitsToTheEnd(w.db, bridge, first, path);
    w := Solo(w, 1, []);
    assert first in RolloutsOf(w.db, bridge) && second in RolloutsOf(w.db, bridge);
  }

  lemma ForksBeside(w: World, bridge: string, parent: string) returns (w': World)
    requires Reachable(w) && 0 !in w.threads && w.bridges == map[0 := bridge] && w.staged == map[0 := NOTHING_STAGED]
    requires bridge != "" && parent != ""
    ensures Reachable(w') && w'.threads == w.threads && w'.bridges == w.bridges
    ensures w'.db == WalInserted(w.db, bridge, Fork, parent).db
    ensures w'.staged == map[0 := Staged(|w.db.wal| + 1, Fork, parent)]
  {
    hide Reachable, Solo, Finish;
    var entered := Enters(w, 0, 0, ForkFrom(parent));
    SoloFinishes(entered, 0, []);
    FinishForking(w.db, bridge, parent);
    w' := Solo(entered, 0, []);
    assert w'.threads == w.threads;
  }

  lemma FinishForking(db: Db, bridge: string, parent: string)
    requires bridge != ""
    ensures Finish(db, bridge, Some(OpeningWal(Fork, parent)), []) == WalInserted(db, bridge, Fork, parent).db
  {
    FinishStep(db, bridge, OpeningWal(Fork, parent), []);
  }

  lemma SecondIsRecorded(w: World, bridge: string, first: string, second: string, path: string) returns (w': World)
    requires Reachable(w) && 0 !in w.threads && w.bridges == map[0 := bridge] && bridge != "" && second != ""
    requires w.db.rollouts == map[] && |w.db.wal| == 2 && IsPending(w.db, 1) && IsPending(w.db, 2)
    requires bridge in w.db.sessions && w.staged == map[0 := Staged(2, Fork, first)]
    ensures Reachable(w') && w'.threads == w.threads && w'.bridges == w.bridges
    ensures w'.db.rollouts == map[second := Rollout(bridge, path, 0, first, Fork)]
    ensures IsPending(w'.db, 1) && bridge in w'.db.sessions
  {
    hide Reachable, Solo, Finish;
    var entered := Enters(w, 0, 0, Announce(second, path));
    NothingListed(w.db, bridge);
    SoloFinishes(entered, 0, []);
    FinishRecording(w.db, bridge, Staged(2, Fork, first), second, path, []);
    w' := Solo(entered, 0, []);
    assert w'.threads == w.threads;
  }

  lemma CommitsToTheEnd(db: Db, bridge: string, harness: string, path: string)
    requires IsPending(db, 1) && harness != "" && harness !in db.rollouts && bridge in db.sessions && bridge != ""
    ensures Finish(db, bridge, Some(Committing(1, Start, "", harness, path, 0)), []).rollouts
         == db.rollouts[harness := Rollout(bridge, path, 0, "", Start)]
  {
    hide Finish;
    FinishStep(db, bridge, Committing(1, Start, "", harness, path, 0), []);
    var committed := WalCommitted(db, 1, harness, path).db;
    var inserting := Inserting(1, Start, "", harness, path, 0);
    FinishStep(committed, bridge, inserting, []);
    FinishLast(RolloutInserted(committed, harness, RowOf(bridge, inserting)).db, bridge, harness, []);
  }
}
