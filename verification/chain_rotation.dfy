/**
 Chain rotation as a state machine over single SQL statements. Any number of
 bridge processes share state.db; in each, the dispatcher and the readers of
 its Claude Code processes are threads that can be interrupted between any two
 statements, and a crash can remove a process there. A statement can also fail.
 */
module ChainRotation {
  import opened Options
  import opened StateStore

  /** pendingWALID, pendingIntent and pendingParent of one process, always read and written together. */
  datatype Staged = Staged(wal: nat, intent: Kind, parent: string)

  const NOTHING_STAGED := Staged(0, NoKind, "")

  /** What a thread does next; every case but Staging is one SQL statement. */
  datatype Pc =
    | Booting(todo: seq<nat>)
    | StartingSession
    | OpeningWal(intent: Kind, parent: string)
    | Staging(wal: nat, intent: Kind, parent: string)
    | Orphaning(wal: nat)
    | Recording(wal: nat, intent: Kind, parent: string, harness: string, path: string)
    | Committing(wal: nat, intent: Kind, parent: string, harness: string, path: string, sequence: int)
    | Inserting(wal: nat, intent: Kind, parent: string, harness: string, path: string, sequence: int)
    | Rotating(parent: string, harness: string, path: string)
    | InsertingRotated(parent: string, harness: string, path: string, sequence: int)
    | Upserting(current: string)
    | ImportingSession(id: string, path: string)
    | ImportingRollout(id: string, path: string)

  datatype Thread = Thread(process: nat, bridge: string, pc: Pc)

  /**
   origin, imported and announced only remember what happened: which WAL row each
   start or fork rollout was written from, which rollouts came from a cold
   import, and which ids Claude Code announced for a start or fork.
   */
  datatype World = World(
    db: Db,
    bridges: map<nat, string>,
    staged: map<nat, Staged>,
    threads: map<nat, Thread>,
    origin: map<string, nat>,
    imported: set<string>,
    announced: set<string>)

  const INITIAL_WORLD := World(EMPTY_DB, map[], map[], map[], map[], {}, {})

  /** What sets a thread going: boot recovery, a request, a failed spawn or dead process, an init event, a discovery. */
  datatype Entry =
    | Boot
    | ColdStart
    | ForkFrom(parent: string)
    | Clear
    | Announce(harness: string, path: string)
    | Import(id: string, path: string)

  datatype Action =
    | Launch(p: nat, bridge: string)
    | StageResume(p: nat, parent: string)
    | Crash(p: nat)
    | Enter(t: nat, p: nat, entry: Entry)
    | Run(t: nat, fails: bool, rows: seq<string>)

  ghost predicate Enabled(w: World, a: Action) {
    match a
    case Launch(p, _) => p !in w.bridges
    case StageResume(p, _) => p in w.bridges && w.bridges[p] != ""
    case Crash(p) => p in w.bridges
    case Enter(t, p, entry) => t !in w.threads && p in w.bridges && p in w.staged && EntryAllowed(w.bridges[p], entry)
    case Run(t, _, rows) =>
      && t in w.threads
      && (Lists(w.threads[t].pc) ==> IsListing(w.db, w.threads[t].bridge, rows))
  }

  predicate EntryAllowed(bridge: string, entry: Entry) {
    match entry
    case ColdStart => bridge != ""
    case ForkFrom(parent) => bridge != "" && parent != ""
    case Announce(_, _) => bridge != ""
    case Import(id, _) => id != ""
    case _ => true
  }

  /** Where an entry starts its thread; None when it has nothing to do. */
  function FirstPc(db: Db, s: Staged, entry: Entry): Option<Pc> {
    match entry
    case Boot => Some(Booting(PendingFrom(db, 1)))
    case ColdStart => Some(StartingSession)
    case ForkFrom(parent) => Some(OpeningWal(Fork, parent))
    case Clear => if s.wal == 0 then None else Some(Orphaning(s.wal))
    case Announce(harness, path) => AnnouncePc(s, harness, path)
    case Import(id, path) => Some(ImportingSession(id, path))
  }

  /** recordChainOnInit up to its first statement. */
  function AnnouncePc(s: Staged, harness: string, path: string): Option<Pc> {
    match s.intent
    case NoKind => None
    case Resume =>
      if harness == "" || s.parent == "" || harness == s.parent
      then Some(Upserting(if harness == "" then s.parent else harness))
      else Some(Rotating(s.parent, harness, path))
    case _ => if s.wal == 0 then None else Some(Recording(s.wal, s.intent, s.parent, harness, path))
  }

  predicate Lists(pc: Pc) {
    pc.Recording? || pc.Rotating?
  }

  /** The row recordChainOnInit inserts. */
  function RowOf(bridge: string, pc: Pc): Rollout
    requires pc.Inserting? || pc.InsertingRotated?
  {
    Rollout(bridge, pc.path, pc.sequence, pc.parent, if pc.Inserting? then pc.intent else Resume)
  }

  /** The statement a thread runs next. */
  function Statement(db: Db, bridge: string, pc: Pc): Reply {
    match pc
    case Booting(todo) => if todo == [] then Reply(true, db) else WalOrphaned(db, todo[0])
    case StartingSession => SessionUpserted(db, bridge, "")
    case OpeningWal(intent, parent) => WalInserted(db, bridge, intent, parent)
    case Orphaning(wal) => WalOrphaned(db, wal)
    case Committing(wal, _, _, harness, path, _) => WalCommitted(db, wal, harness, path)
    case Inserting(_, _, _, harness, _, _) => RolloutInserted(db, harness, RowOf(bridge, pc))
    case InsertingRotated(_, harness, _, _) => RolloutInserted(db, harness, RowOf(bridge, pc))
    case Upserting(current) => SessionUpserted(db, bridge, current)
    case ImportingSession(id, _) => SessionUpserted(db, id, id)
    case ImportingRollout(id, path) => RolloutInserted(db, id, Rollout(id, path, 0, "", Start))
    case _ => Reply(true, db)
  }

  /** A statement that fails leaves the tables alone. */
  function Attempt(db: Db, bridge: string, pc: Pc, fails: bool): Reply {
    if fails then Reply(false, db) else Statement(db, bridge, pc)
  }

  /** Where a thread goes once its statement was accepted or not; nextSequence answers 0 when its query fails. */
  function NextPc(db: Db, pc: Pc, ok: bool, rows: seq<string>): Option<Pc> {
    match pc
    case Booting(todo) => if todo == [] then None else Some(Booting(todo[1..]))
    case StartingSession => if ok then Some(OpeningWal(Start, "")) else None
    case OpeningWal(intent, parent) => if ok then Some(Staging(|db.wal| + 1, intent, parent)) else None
    case Recording(wal, intent, parent, harness, path) =>
      Some(Committing(wal, intent, parent, harness, path, if ok then SequenceAfter(db, rows) else 0))
    case Committing(wal, intent, parent, harness, path, sequence) =>
      if ok then Some(Inserting(wal, intent, parent, harness, path, sequence)) else None
    case Rotating(parent, harness, path) =>
      Some(InsertingRotated(parent, harness, path, if ok then SequenceAfter(db, rows) else 0))
    case Inserting(_, _, _, harness, _, _) => Some(Upserting(harness))
    case InsertingRotated(_, harness, _, _) => Some(Upserting(harness))
    case ImportingSession(id, path) => if ok then Some(ImportingRollout(id, path)) else None
    case _ => None
  }

  function Place(threads: map<nat, Thread>, t: nat, process: nat, bridge: string, pc: Option<Pc>): map<nat, Thread> {
    if pc.None? then threads - {t} else threads[t := Thread(process, bridge, pc.value)]
  }

  function Entered(w: World, t: nat, p: nat, entry: Entry): World
    requires p in w.bridges && p in w.staged
  {
    var pc := FirstPc(w.db, w.staged[p], entry);
    w.(staged := if entry.Clear? || entry.Announce? then w.staged[p := NOTHING_STAGED] else w.staged,
       threads := Place(w.threads, t, p, w.bridges[p], pc),
       announced := if pc.Some? && pc.value.Recording? then w.announced + {pc.value.harness} else w.announced)
  }

  function Ran(w: World, t: nat, fails: bool, rows: seq<string>): World
    requires t in w.threads
  {
    var th := w.threads[t];
    var reply := Attempt(w.db, th.bridge, th.pc, fails);
    w.(db := reply.db,
       staged := if th.pc.Staging?
                 then w.staged[th.process := Staged(th.pc.wal, th.pc.intent, th.pc.parent)] else w.staged,
       threads := Place(w.threads, t, th.process, th.bridge, NextPc(w.db, th.pc, reply.ok, rows)),
       origin := if reply.ok && th.pc.Inserting? then w.origin[th.pc.harness := th.pc.wal] else w.origin,
       imported := if reply.ok && th.pc.ImportingRollout? then w.imported + {th.pc.id} else w.imported)
  }

  function Apply(w: World, a: Action): World
    requires Enabled(w, a)
  {
    match a
    case Launch(p, bridge) => w.(bridges := w.bridges[p := bridge], staged := w.staged[p := NOTHING_STAGED])
    case StageResume(p, parent) => w.(staged := w.staged[p := Staged(0, Resume, parent)])
    case Crash(p) =>
      w.(bridges := w.bridges - {p},
         staged := w.staged - {p},
         threads := map t | t in w.threads && w.threads[t].process != p :: w.threads[t])
    case Enter(t, p, entry) => Entered(w, t, p, entry)
    case Run(t, fails, rows) => Ran(w, t, fails, rows)
  }

  /** A history of the system: any actions, in any order they are enabled. */
  ghost predicate IsHistory(worlds: seq<World>, actions: seq<Action>) {
    && |worlds| == |actions| + 1
    && worlds[0] == INITIAL_WORLD
    && forall i | 0 <= i < |actions| :: Enabled(worlds[i], actions[i]) && worlds[i + 1] == Apply(worlds[i], actions[i])
  }

  // ------------------------------------------------------------------
  // The write-ahead log backs every rotation

  /** A start has no parent; a fork has one. */
  predicate IsRotation(intent: Kind, parent: string) {
    (intent == Start && parent == "") || (intent == Fork && parent != "")
  }

  /** Only a cold start upserts its session row first; a fork leaves that to others. */
  predicate Rotates(db: Db, bridge: string, intent: Kind, parent: string) {
    IsRotation(intent, parent) && (intent == Start ==> bridge in db.sessions)
  }

  /** WAL row `id` was opened for this rotation. */
  predicate OpenedFor(db: Db, id: nat, bridge: string, intent: Kind, parent: string) {
    && 1 <= id <= |db.wal|
    && db.wal[id - 1].bridge == bridge && db.wal[id - 1].intent == intent && db.wal[id - 1].parent == parent
    && Rotates(db, bridge, intent, parent)
  }

  predicate CommittedFor(db: Db, id: nat, bridge: string, intent: Kind, parent: string, harness: string, path: string) {
    && OpenedFor(db, id, bridge, intent, parent)
    && db.wal[id - 1].status == Committed
    && db.wal[id - 1].newHarness == harness
    && db.wal[id - 1].path == path
  }

  predicate PcOk(db: Db, bridge: string, pc: Pc) {
    match pc
    case OpeningWal(intent, parent) => Rotates(db, bridge, intent, parent)
    case Staging(wal, intent, parent) => OpenedFor(db, wal, bridge, intent, parent)
    case Recording(wal, intent, parent, _, _) => OpenedFor(db, wal, bridge, intent, parent)
    case Committing(wal, intent, parent, _, _, _) => OpenedFor(db, wal, bridge, intent, parent)
    case Inserting(wal, intent, parent, harness, path, _) =>
      CommittedFor(db, wal, bridge, intent, parent, harness, path)
    case Rotating(parent, harness, _) => parent != "" && harness != parent
    case InsertingRotated(parent, harness, _, _) => parent != "" && harness != parent
    case _ => true
  }

  predicate StagedOk(db: Db, bridge: string, s: Staged) {
    s.wal != 0 ==> OpenedFor(db, s.wal, bridge, s.intent, s.parent)
  }

  /** A rollout was written from a committed WAL row, by a cold import, or by a resume that rotated its id. */
  predicate RolloutOk(db: Db, origin: map<string, nat>, imported: set<string>, h: string) {
    && h in db.rollouts
    && var r := db.rollouts[h];
      if h in origin then CommittedFor(db, origin[h], r.bridge, r.kind, r.parent, h, r.path)
      else if h in imported then r.kind == Start && r.parent == "" && r.bridge == h && r.sequence == 0
      else r.kind == Resume && r.parent != "" && r.parent != h
  }

  predicate ThreadOk(w: World, th: Thread) {
    && PcOk(w.db, th.bridge, th.pc)
    && th.process in w.bridges && w.bridges[th.process] == th.bridge
  }

  ghost predicate ThreadsOk(w: World) {
    forall t | t in w.threads :: ThreadOk(w, w.threads[t])
  }

  ghost predicate StagingOk(w: World) {
    && w.staged.Keys == w.bridges.Keys
    && forall p | p in w.staged :: StagedOk(w.db, w.bridges[p], w.staged[p])
  }

  ghost predicate RolloutsOk(w: World) {
    forall h | h in w.db.rollouts || h in w.origin || h in w.imported :: RolloutOk(w.db, w.origin, w.imported, h)
  }

  ghost predicate Inv(w: World) {
    ForeignKey(w.db) && ThreadsOk(w) && StagingOk(w) && RolloutsOk(w)
  }

  /**
   A committed WAL row does not imply a rollout row. A start's insert is refused
   exactly when the announced id is empty or already recorded; a fork's also
   when its bridge session has no row, which nothing on the fork path creates.
   */
  lemma WhenTheInsertIsRefused(db: Db, bridge: string, pc: Pc)
    requires PcOk(db, bridge, pc) && pc.Inserting? && bridge != ""
    ensures pc.intent == Start ==>
              (Statement(db, bridge, pc).ok <==> pc.harness != "" && pc.harness !in db.rollouts)
    ensures pc.intent == Fork ==>
              (Statement(db, bridge, pc).ok <==>
               pc.harness != "" && pc.harness !in db.rollouts && bridge in db.sessions)
    ensures db.wal[pc.wal - 1].status == Committed
  {
  }

  lemma OpenedExtends(db: Db, db': Db, id: nat, bridge: string, intent: Kind, parent: string)
    requires Extends(db, db') && OpenedFor(db, id, bridge, intent, parent)
    ensures OpenedFor(db', id, bridge, intent, parent)
    ensures db.wal[id - 1].status != Pending ==> db'.wal[id - 1] == db.wal[id - 1]
  {
    assert RowExtends(db.wal[id - 1], db'.wal[id - 1]);
  }

  lemma SessionsGrow(db: Db, db': Db, bridge: string)
    requires Extends(db, db') && bridge in db.sessions
    ensures bridge in db'.sessions
  {
    assert bridge in db.sessions.Keys;
  }

  lemma PcExtends(db: Db, db': Db, bridge: string, pc: Pc)
    requires Extends(db, db') && PcOk(db, bridge, pc)
    ensures PcOk(db', bridge, pc)
  {
    hide Extends;
    match pc
    case OpeningWal(_, _) => if bridge in db.sessions { SessionsGrow(db, db', bridge); }
    case Staging(wal, intent, parent) => OpenedExtends(db, db', wal, bridge, intent, parent);
    case Recording(wal, intent, parent, _, _) => OpenedExtends(db, db', wal, bridge, intent, parent);
    case Committing(wal, intent, parent, _, _, _) => OpenedExtends(db, db', wal, bridge, intent, parent);
    case Inserting(wal, intent, parent, _, _, _) => OpenedExtends(db, db', wal, bridge, intent, parent);
    case _ =>
  }

  /** Every statement of a thread extends the tables. */
  lemma AttemptExtends(db: Db, bridge: string, pc: Pc, fails: bool)
    requires ForeignKey(db)
    ensures Extends(db, Attempt(db, bridge, pc, fails).db) && ForeignKey(Attempt(db, bridge, pc, fails).db)
  {
    hide Extends, ForeignKey, SessionUpserted, RolloutInserted, WalInserted, WalCommitted, WalOrphaned;
    var row := Rollout("", "", 0, "", Start);
    Unchanged(db);
    match pc
    case Booting(todo) => if todo != [] { StatementsExtend(db, "", "", todo[0], row, Start); }
    case StartingSession => StatementsExtend(db, bridge, "", 0, row, Start);
    case OpeningWal(intent, parent) => StatementsExtend(db, bridge, parent, 0, row, intent);
    case Orphaning(wal) => StatementsExtend(db, "", "", wal, row, Start);
    case Committing(wal, _, _, harness, path, _) => StatementsExtend(db, harness, path, wal, row, Start);
    case Inserting(_, _, _, harness, _, _) => StatementsExtend(db, harness, "", 0, RowOf(bridge, pc), Start);
    case InsertingRotated(_, harness, _, _) => StatementsExtend(db, harness, "", 0, RowOf(bridge, pc), Start);
    case Upserting(current) => StatementsExtend(db, bridge, current, 0, row, Start);
    case ImportingSession(id, _) => StatementsExtend(db, id, id, 0, row, Start);
    case ImportingRollout(id, path) => StatementsExtend(db, id, "", 0, Rollout(id, path, 0, "", Start), Start);
    case _ =>
  }

  lemma NextPcOk(db: Db, bridge: string, pc: Pc, fails: bool, rows: seq<string>)
    requires PcOk(db, bridge, pc)
    ensures var reply := Attempt(db, bridge, pc, fails);
            var next := NextPc(db, pc, reply.ok, rows);
            next.Some? ==> PcOk(reply.db, bridge, next.value)
  {
    hide SequenceAfter;
  }

  lemma FirstPcOk(db: Db, bridge: string, s: Staged, entry: Entry)
    requires StagedOk(db, bridge, s) && EntryAllowed(bridge, entry)
    ensures var pc := FirstPc(db, s, entry); pc.Some? ==> PcOk(db, bridge, pc.value)
  {
    hide PendingFrom;
  }

  lemma StepKeepsThreads(w: World, a: Action)
    requires Inv(w) && Enabled(w, a)
    ensures ThreadsOk(Apply(w, a))
  {
    hide RolloutsOk, Extends, ForeignKey, PcOk, StagedOk, FirstPc, NextPc, Attempt, IsListing;
    match a
    case Launch(_, _) =>
    case StageResume(_, _) =>
    case Crash(_) =>
    case Enter(_, p, entry) => FirstPcOk(w.db, w.bridges[p], w.staged[p], entry);
    case Run(t, fails, rows) =>
      var th := w.threads[t];
      NextPcOk(w.db, th.bridge, th.pc, fails, rows);
      AttemptExtends(w.db, th.bridge, th.pc, fails);
      var w' := Apply(w, a);
      forall u | u in w'.threads && u != t
        ensures ThreadOk(w', w'.threads[u])
      {
        PcExtends(w.db, w'.db, w.threads[u].bridge, w.threads[u].pc);
      }
  }

  lemma StepKeepsStaging(w: World, a: Action)
    requires Inv(w) && Enabled(w, a)
    ensures StagingOk(Apply(w, a))
  {
    hide RolloutsOk, Extends, ForeignKey, OpenedFor, FirstPc, NextPc, Attempt, IsListing, Place;
    if a.Run? {
      var th := w.threads[a.t];
      AttemptExtends(w.db, th.bridge, th.pc, a.fails);
      var w' := Apply(w, a);
      forall p | p in w'.staged
        ensures p in w'.bridges && StagedOk(w'.db, w'.bridges[p], w'.staged[p])
      {
        if th.pc.Staging? && p == th.process {
          OpenedExtends(w.db, w'.db, th.pc.wal, th.bridge, th.pc.intent, th.pc.parent);
        } else if w.staged[p].wal != 0 {
          OpenedExtends(w.db, w'.db, w.staged[p].wal, w.bridges[p], w.staged[p].intent, w.staged[p].parent);
        }
      }
    }
  }

  lemma OldRolloutOk(w: World, db': Db, h: string)
    requires RolloutsOk(w) && Extends(w.db, db') && h in w.db.rollouts
    ensures RolloutOk(db', w.origin, w.imported, h)
  {
    assert RolloutOk(w.db, w.origin, w.imported, h);
    var r := w.db.rollouts[h];
    if h in w.origin {
      OpenedExtends(w.db, db', w.origin[h], r.bridge, r.kind, r.parent);
    }
  }

  /** Which rows a statement can add to the rollouts table. */
  lemma NewRollout(db: Db, bridge: string, pc: Pc, fails: bool, h: string)
    ensures var reply := Attempt(db, bridge, pc, fails);
            h in reply.db.rollouts <==>
              h in db.rollouts
              || (reply.ok && (pc.Inserting? || pc.InsertingRotated?) && h == pc.harness)
              || (reply.ok && pc.ImportingRollout? && h == pc.id)
    ensures var reply := Attempt(db, bridge, pc, fails);
            h in reply.db.rollouts && h !in db.rollouts ==>
              reply.db.rollouts[h] == if pc.ImportingRollout? then Rollout(pc.id, pc.path, 0, "", Start)
                                      else RowOf(bridge, pc)
    ensures var reply := Attempt(db, bridge, pc, fails);
            h in db.rollouts && reply.ok ==>
              !((pc.Inserting? || pc.InsertingRotated?) && h == pc.harness) && !(pc.ImportingRollout? && h == pc.id)
    ensures pc.Inserting? ==> Attempt(db, bridge, pc, fails).db.(rollouts := db.rollouts) == db
  {
  }

  lemma NewRolloutLogged(db: Db, db': Db, bridge: string, pc: Pc)
    requires pc.Inserting? && PcOk(db, bridge, pc) && db'.wal == db.wal && db'.sessions == db.sessions
    ensures CommittedFor(db', pc.wal, bridge, pc.intent, pc.parent, pc.harness, pc.path)
  {
  }

  lemma StepKeepsRollouts(w: World, a: Action)
    requires Inv(w) && Enabled(w, a)
    ensures RolloutsOk(Apply(w, a))
  {
    hide Extends, ForeignKey, StagingOk, CommittedFor, FirstPc, NextPc, IsListing, Place, Attempt, StagedOk;
    if a.Run? {
      var th, w' := w.threads[a.t], Apply(w, a);
      AttemptExtends(w.db, th.bridge, th.pc, a.fails);
      assert PcOk(w.db, th.bridge, th.pc);
      forall h | h in w'.db.rollouts || h in w'.origin || h in w'.imported
        ensures RolloutOk(w'.db, w'.origin, w'.imported, h)
      {
        assert h in w.origin || h in w.imported ==> RolloutOk(w.db, w.origin, w.imported, h);
        NewRollout(w.db, th.bridge, th.pc, a.fails, h);
        if h in w.db.rollouts {
          OldRolloutOk(w, w'.db, h);
        } else if th.pc.Inserting? {
          assert CommittedFor(w'.db, th.pc.wal, th.bridge, th.pc.intent, th.pc.parent, h, th.pc.path) by {
            NewRolloutLogged(w.db, w'.db, th.bridge, th.pc);
          }
        }
      }
    }
  }

  /** Every step keeps the invariant and only extends the tables. */
  lemma StepKeepsInv(w: World, a: Action)
    requires Inv(w) && Enabled(w, a)
    ensures Inv(Apply(w, a)) && Extends(w.db, Apply(w, a).db)
  {
    hide Extends, ForeignKey, ThreadsOk, StagingOk, RolloutsOk, Attempt, FirstPc, NextPc, IsListing, Place;
    StepKeepsThreads(w, a);
    StepKeepsStaging(w, a);
    StepKeepsRollouts(w, a);
    Unchanged(w.db);
    if a.Run? {
      AttemptExtends(w.db, w.threads[a.t].bridge, w.threads[a.t].pc, a.fails);
    }
  }

  lemma {:induction false} HistoryKeepsInv(worlds: seq<World>, actions: seq<Action>, i: nat)
    requires IsHistory(worlds, actions) && i <= |actions|
    ensures Inv(worlds[i])
  {
    hide Inv, Enabled, Apply;
    if i > 0 {
      HistoryKeepsInv(worlds, actions, i - 1);
      StepKeepsInv(worlds[i - 1], actions[i - 1]);
    } else {
      InitialInv();
    }
  }

  lemma InitialInv()
    ensures Inv(INITIAL_WORLD)
  {
  }

  /** Committed and orphaned are final, and no row is ever removed or rewritten. */
  lemma {:induction false} OutcomesAreFinal(worlds: seq<World>, actions: seq<Action>, i: nat, j: nat)
    requires IsHistory(worlds, actions) && i <= j <= |actions|
    ensures Extends(worlds[i].db, worlds[j].db)
    decreases j
  {
    hide Inv, Enabled, Apply, Extends;
    if i == j {
      Unchanged(worlds[i].db);
    } else {
      OutcomesAreFinal(worlds, actions, i, j - 1);
      HistoryKeepsInv(worlds, actions, j - 1);
      StepKeepsInv(worlds[j - 1], actions[j - 1]);
      ExtendsTransitive(worlds[i].db, worlds[j - 1].db, worlds[j].db);
    }
  }

  /**
   At every moment of every history, a start or fork rollout that no cold import
   wrote has a WAL row, committed with the same new harness id, bridge session,
   intent, parent and path; and no orphaned row has yielded a rollout.
   */
  lemma RotationsAreLogged(worlds: seq<World>, actions: seq<Action>, i: nat, h: string)
    requires IsHistory(worlds, actions) && i <= |actions|
    requires h in worlds[i].db.rollouts && h !in worlds[i].imported
    ensures var w := worlds[i]; var r := w.db.rollouts[h];
            if r.kind == Resume then h !in w.origin
            else
              && h in w.origin
              && CommittedFor(w.db, w.origin[h], r.bridge, r.kind, r.parent, h, r.path)
  {
    HistoryKeepsInv(worlds, actions, i);
    assert RolloutOk(worlds[i].db, worlds[i].origin, worlds[i].imported, h);
  }

  /** A WAL row yields at most one rollout, and none unless it is committed. */
  lemma OnlyCommittedRowsYieldRollouts(worlds: seq<World>, actions: seq<Action>, i: nat, g: string, h: string)
    requires IsHistory(worlds, actions) && i <= |actions|
    requires g in worlds[i].origin && h in worlds[i].origin
    ensures var w := worlds[i];
            && 1 <= w.origin[h] <= |w.db.wal| && w.db.wal[w.origin[h] - 1].status == Committed
            && (w.origin[g] == w.origin[h] ==> g == h)
  {
    HistoryKeepsInv(worlds, actions, i);
    var w := worlds[i];
    assert RolloutOk(w.db, w.origin, w.imported, g) && RolloutOk(w.db, w.origin, w.imported, h);
  }

  // ------------------------------------------------------------------
  // Exactly one row

  /** The rows committed with an id. */
  function Named(db: Db, h: string): set<nat> {
    set id: nat | id <= |db.wal| && IsNamed(db, h, id)
  }

  predicate IsNamed(db: Db, h: string, id: nat) {
    1 <= id <= |db.wal| && db.wal[id - 1].status == Committed && db.wal[id - 1].newHarness == h
  }

  /** The step commits a row with the id. */
  predicate Commits(w: World, a: Action, h: string) {
    && a.Run? && a.t in w.threads && !a.fails
    && w.threads[a.t].pc.Committing? && w.threads[a.t].pc.harness == h
    && IsPending(w.db, w.threads[a.t].pc.wal)
  }

  /** And a row is committed with it already: what a caller of CommitWal could look up first. */
  predicate CommitsAgain(w: World, a: Action, h: string) {
    Commits(w, a, h) && Named(w.db, h) != {}
  }

  lemma AttemptNames(db: Db, bridge: string, pc: Pc, fails: bool, h: string)
    ensures
      var db' := Attempt(db, bridge, pc, fails).db;
      if !fails && pc.Committing? && pc.harness == h && IsPending(db, pc.wal)
      then Named(db', h) == Named(db, h) + {pc.wal} && pc.wal !in Named(db, h)
      else Named(db', h) == Named(db, h)
  {
    var db' := Attempt(db, bridge, pc, fails).db;
    forall id: nat
      ensures IsNamed(db', h, id) <==>
                IsNamed(db, h, id)
                || (!fails && pc.Committing? && pc.harness == h && IsPending(db, pc.wal) && id == pc.wal)
    {
    }
  }

  lemma StepNames(w: World, a: Action, h: string)
    requires Enabled(w, a)
    ensures
      if Commits(w, a, h)
      then Named(Apply(w, a).db, h) == Named(w.db, h) + {w.threads[a.t].pc.wal}
           && w.threads[a.t].pc.wal !in Named(w.db, h)
      else Named(Apply(w, a).db, h) == Named(w.db, h)
  {
    hide Named, Attempt, IsListing, FirstPc, NextPc, Place;
    if a.Run? {
      AttemptNames(w.db, w.threads[a.t].bridge, w.threads[a.t].pc, a.fails, h);
    }
  }

  ghost predicate NeverAgain(worlds: seq<World>, actions: seq<Action>, i: nat, h: string)
    requires i <= |actions| <= |worlds|
  {
    forall j | 0 <= j < i :: !CommitsAgain(worlds[j], actions[j], h)
  }

  lemma {:induction false} AtMostOneNamedIff(worlds: seq<World>, actions: seq<Action>, i: nat, h: string)
    requires IsHistory(worlds, actions) && i <= |actions|
    ensures |Named(worlds[i].db, h)| <= 1 <==> NeverAgain(worlds, actions, i, h)
  {
    hide Named, Enabled, Apply;
    if i == 0 {
      NothingNamed(h);
    } else {
      AtMostOneNamedIff(worlds, actions, i - 1, h);
      StepNames(worlds[i - 1], actions[i - 1], h);
    }
  }

  lemma NothingNamed(h: string)
    ensures Named(EMPTY_DB, h) == {}
  {
  }

  /**
   Exactly one WAL row is committed with a start or fork rollout's id, the one it came
   from, if and only if no announcement of that id reached its commit, with its row
   still pending, when a row committed with the id was already there.
   */
  lemma ExactlyOneRowIff(worlds: seq<World>, actions: seq<Action>, i: nat, h: string)
    requires IsHistory(worlds, actions) && i <= |actions|
    requires h in worlds[i].db.rollouts && h !in worlds[i].imported && worlds[i].db.rollouts[h].kind != Resume
    ensures h in worlds[i].origin
    ensures Named(worlds[i].db, h) == {worlds[i].origin[h]} <==> NeverAgain(worlds, actions, i, h)
  {
    RotationsAreLogged(worlds, actions, i, h);
    AtMostOneNamedIff(worlds, actions, i, h);
    var w := worlds[i];
    assert IsNamed(w.db, h, w.origin[h]);
    if |Named(w.db, h)| <= 1 {
      OnlyElement(Named(w.db, h), w.origin[h]);
    }
  }

  lemma OnlyElement(s: set<nat>, x: nat)
    requires x in s && |s| <= 1
    ensures s == {x}
  {
    assert |s - {x}| == |s| - 1;
  }

  // ------------------------------------------------------------------
  // Ids announced once

  /** Claude Code mints a new id for every start and fork: no init event announces one a second time. */
  ghost predicate FreshIds(worlds: seq<World>, actions: seq<Action>)
    requires IsHistory(worlds, actions)
  {
    forall i | 0 <= i < |actions| && actions[i].Enter? && actions[i].entry.Announce? ::
      var s := worlds[i].staged[actions[i].p];
      (s.intent == Start || s.intent == Fork) && s.wal != 0 ==> actions[i].entry.harness !in worlds[i].announced
  }

  /** The id a thread is still going to commit a WAL row with. */
  predicate WillCommit(pc: Pc, harness: string) {
    (pc.Recording? || pc.Committing?) && pc.harness == harness
  }

  ghost predicate CommitsDistinct(w: World) {
    && (forall i | 0 <= i < |w.db.wal| && w.db.wal[i].status == Committed :: w.db.wal[i].newHarness in w.announced)
    && (forall i, j | 0 <= i < j < |w.db.wal| && w.db.wal[i].status == Committed && w.db.wal[j].status == Committed ::
          w.db.wal[i].newHarness != w.db.wal[j].newHarness)
    && (forall t | t in w.threads && (w.threads[t].pc.Recording? || w.threads[t].pc.Committing?) ::
          w.threads[t].pc.harness in w.announced)
    && (forall t, i | t in w.threads && 0 <= i < |w.db.wal| && w.db.wal[i].status == Committed ::
          !WillCommit(w.threads[t].pc, w.db.wal[i].newHarness))
    && (forall t, u, h | t in w.threads && u in w.threads && t != u && WillCommit(w.threads[t].pc, h) ::
          !WillCommit(w.threads[u].pc, h))
  }

  /** One statement changes at most one row into a committed one, with the id its thread holds. */
  lemma CommitsByAttempt(db: Db, bridge: string, pc: Pc, fails: bool, i: int)
    requires var db' := Attempt(db, bridge, pc, fails).db; 0 <= i < |db'.wal| && db'.wal[i].status == Committed
    ensures var reply := Attempt(db, bridge, pc, fails);
            || (i < |db.wal| && db.wal[i] == reply.db.wal[i])
            || (pc.Committing? && reply.ok && i == pc.wal - 1 && reply.db.wal[i].newHarness == pc.harness)
  {
  }

  lemma RunKeepsCommitsDistinct(w: World, a: Action)
    requires CommitsDistinct(w) && Enabled(w, a) && a.Run?
    ensures CommitsDistinct(Apply(w, a))
  {
    hide IsListing, SequenceAfter, Attempt;
    var th, w' := w.threads[a.t], Apply(w, a);
    forall i | 0 <= i < |w'.db.wal| && w'.db.wal[i].status == Committed
      ensures (i < |w.db.wal| && w.db.wal[i] == w'.db.wal[i])
           || (th.pc.Committing? && Attempt(w.db, th.bridge, th.pc, a.fails).ok
               && i == th.pc.wal - 1 && w'.db.wal[i].newHarness == th.pc.harness)
    {
      CommitsByAttempt(w.db, th.bridge, th.pc, a.fails, i);
    }
    forall u, h | u in w'.threads && WillCommit(w'.threads[u].pc, h)
      ensures u in w.threads && WillCommit(w.threads[u].pc, h)
    {
      WouldCommitBefore(w, a, u, h);
    }
    hide NextPc;
  }

  /** A step gives no thread a commit it was not already heading for. */
  lemma WouldCommitBefore(w: World, a: Action, u: nat, h: string)
    requires Enabled(w, a) && a.Run?
    requires u in Apply(w, a).threads && WillCommit(Apply(w, a).threads[u].pc, h)
    ensures u in w.threads && WillCommit(w.threads[u].pc, h)
  {
    hide IsListing, SequenceAfter, Attempt;
  }

  lemma FirstPcRecords(db: Db, s: Staged, entry: Entry)
    ensures var pc := FirstPc(db, s, entry);
            && (pc.Some? ==> !pc.value.Committing?)
            && (pc.Some? && pc.value.Recording? ==>
                  entry.Announce? && pc.value.harness == entry.harness && s.wal != 0
                  && (s.intent == Start || s.intent == Fork))
  {
    hide PendingFrom;
  }

  lemma EnterKeepsCommitsDistinct(w: World, a: Action)
    requires CommitsDistinct(w) && Enabled(w, a) && a.Enter?
    requires a.entry.Announce? ==>
               var s := w.staged[a.p];
               (s.intent == Start || s.intent == Fork) && s.wal != 0 ==> a.entry.harness !in w.announced
    ensures CommitsDistinct(Apply(w, a))
  {
    hide IsListing, FirstPc;
    FirstPcRecords(w.db, w.staged[a.p], a.entry);
  }

  lemma StepKeepsCommitsDistinct(w: World, a: Action)
    requires CommitsDistinct(w) && Enabled(w, a)
    requires a.Enter? && a.entry.Announce? ==>
               var s := w.staged[a.p];
               (s.intent == Start || s.intent == Fork) && s.wal != 0 ==> a.entry.harness !in w.announced
    ensures CommitsDistinct(Apply(w, a))
  {
    if a.Run? {
      RunKeepsCommitsDistinct(w, a);
    } else if a.Enter? {
      EnterKeepsCommitsDistinct(w, a);
    } else {
      hide IsListing;
      var w' := Apply(w, a);
      assert forall u | u in w'.threads :: u in w.threads && w'.threads[u] == w.threads[u];
    }
  }

  lemma {:induction false} HistoryKeepsCommitsDistinct(worlds: seq<World>, actions: seq<Action>, i: nat)
    requires IsHistory(worlds, actions) && FreshIds(worlds, actions) && i <= |actions|
    ensures CommitsDistinct(worlds[i])
  {
    hide CommitsDistinct, Enabled, Apply;
    if i > 0 {
      HistoryKeepsCommitsDistinct(worlds, actions, i - 1);
      StepKeepsCommitsDistinct(worlds[i - 1], actions[i - 1]);
    } else {
      assert CommitsDistinct(INITIAL_WORLD) by { InitialCommitsDistinct(); }
    }
  }

  lemma InitialCommitsDistinct()
    ensures CommitsDistinct(INITIAL_WORLD)
  {
  }

  /** With fresh ids no id is ever committed again. */
  lemma FreshIdsNeverCommitAgain(worlds: seq<World>, actions: seq<Action>, i: nat, h: string)
    requires IsHistory(worlds, actions) && FreshIds(worlds, actions) && i <= |actions|
    ensures NeverAgain(worlds, actions, i, h)
  {
    hide Enabled, Apply, FreshIds;
    forall j | 0 <= j < i
      ensures !CommitsAgain(worlds[j], actions[j], h)
    {
      HistoryKeepsCommitsDistinct(worlds, actions, j);
      NotCommittedAgain(worlds[j], actions[j], h);
    }
  }

  lemma NotCommittedAgain(w: World, a: Action, h: string)
    requires CommitsDistinct(w)
    ensures !CommitsAgain(w, a, h)
  {
    if CommitsAgain(w, a, h) {
      var id :| id in Named(w.db, h);
      var k := id - 1;
      assert 0 <= k < |w.db.wal| && w.db.wal[k].status == Committed && w.db.wal[k].newHarness == h;
      assert WillCommit(w.threads[a.t].pc, w.db.wal[k].newHarness);
      assert false;
    }
  }

  /**
   As long as no id is committed again, exactly one WAL row is committed with a
   rollout's id, and with its session, intent, parent and path: the one it came from.
   */
  lemma ExactlyOneRowPerRotation(worlds: seq<World>, actions: seq<Action>, i: nat, h: string, id: nat)
    requires IsHistory(worlds, actions) && i <= |actions| && NeverAgain(worlds, actions, i, h)
    requires h in worlds[i].db.rollouts && h !in worlds[i].imported && worlds[i].db.rollouts[h].kind != Resume
    requires 1 <= id <= |worlds[i].db.wal|
    ensures var w := worlds[i]; var r := w.db.rollouts[h];
            && h in w.origin
            && (CommittedFor(w.db, id, r.bridge, r.kind, r.parent, h, r.path) <==> id == w.origin[h])
            && (w.db.wal[id - 1].status == Committed && w.db.wal[id - 1].newHarness == h <==> id == w.origin[h])
  {
    RotationsAreLogged(worlds, actions, i, h);
    ExactlyOneRowIff(worlds, actions, i, h);
    var w := worlds[i];
    assert id in Named(w.db, h) <==> IsNamed(w.db, h, id);
  }
}
