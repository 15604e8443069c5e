/**
 The turn protocol as a machine: readers that emit Claude Code's frames for the
 life of a process, a dispatcher that arms and releases turn waiters and writes to
 processes' stdin, and everything else that emits, as interleaved steps. Readers
 share the waiter and the usage aggregator; a dead process's reader may still be
 running when the next one starts. Reader r reads process r.
 */
module TurnMachine {
  import opened StreamTranslation
  import opened TurnWaiting
  import opened Usage

  // ------------------------------------------------------------------
  // The aggregator the readers share

  /** Every backing array there has been, and the current slice: the first `len` slots of array `cur`. */
  datatype Backing = Backing(arrays: seq<seq<CallUsage>>, cur: nat, len: nat)

  predicate InBounds(b: Backing) {
    b.cur == |b.arrays| - 1 && b.len <= |b.arrays[b.cur]|
  }

  type Aggregator = b: Backing | InBounds(b) witness Backing([[]], 0, 0)

  function Calls(agg: Aggregator): seq<CallUsage> {
    agg.arrays[agg.cur][..agg.len]
  }

  /** Appends in place while the array has room, else to a copy with `spare` more slots. */
  function CallAdded(agg: Aggregator, usage: CallUsage, spare: nat): Aggregator {
    var slots := agg.arrays[agg.cur];
    if agg.len < |slots|
    then agg.(arrays := agg.arrays[agg.cur := slots[agg.len := usage]], len := agg.len + 1)
    else Backing(agg.arrays + [slots + [usage] + seq(spare, _ => NO_USAGE)], |agg.arrays|, agg.len + 1)
  }

  function AggregatorAfter(f: Frame, agg: Aggregator, spare: nat): Aggregator {
    if IsResult(f) then agg.(len := 0)
    else if IsCall(f) then CallAdded(agg, f.kind.message.value.usage, spare)
    else agg
  }

  lemma AggregatorHoldsCalls(f: Frame, agg: Aggregator, spare: nat)
    ensures Calls(AggregatorAfter(f, agg, spare)) == CallsAfter(f, Calls(agg))
  {
  }

  /** What a slice handed out earlier reads as now. */
  function ReadView(agg: Aggregator, buffer: nat, len: nat): seq<CallUsage> {
    if buffer < |agg.arrays| && len <= |agg.arrays[buffer]| then agg.arrays[buffer][..len] else []
  }

  // ------------------------------------------------------------------
  // Readers

  /**
   A frame as a reader meets it: how many stop_task requests it sets off, whether
   its init information can be read, and the spare room an append would leave.
   */
  datatype Plan = Plan(frame: Frame, stops: nat, described: bool, spare: nat)

  /**
   A frame some reader translated: its place among all frames translated, the state
   it was translated in, and the array that held its calls, with that array's room.
   */
  datatype Taken = Taken(plan: Plan, at: nat, state: State, buffer: nat, room: nat)

  datatype Ending = Reading | Eof | Cancelled

  /** Where a reader's loop stands; i is the event of the frame's translation it is at. */
  datatype Pc =
    | Starting
    | Waiting
    | Stopping(left: nat)
    | Translating
    | AtEvent(i: nat)
    | AtInit(i: nat)
    | AtAsk(i: nat)
    | AtFlush(i: nat)
    | AtRelease(i: nat)
    | AtBegin(i: nat)
    | ExitFlush
    | ExitProcess
    | ExitRelease
    | Gone

  datatype Reader = Reader(pc: Pc, plan: Plan, out: seq<Event>, taken: seq<Taken>, ending: Ending)

  /**
   What a reader does: write a stop_task request, translate, emit an event, handle
   init, ask for the effort, flush, signal, begin a turn, handle the exit.
   */
  datatype Mark =
    Stopped | Translated | Sent(event: Event) | Inited | Asked | Flushed | Released | Began | Reaped

  /**
   Said is a Sent with the event as translated and as emitted, the frame it came
   from, and how many frames had been translated by then.
   */
  datatype Item =
    | By(reader: nat, mark: Mark)
    | Said(reader: nat, due: Event, event: Event, of: nat, when: nat)
    | Elsewhere(what: string)

  /** `writing`: the processes to whose stdin a request is writing, holding its lock. */
  datatype World = World(
    readers: map<nat, Reader>, frames: seq<Frame>, sessionID: string, cumulative: real, agg: Aggregator,
    waiters: Waiters, writing: set<nat>, log: seq<Item>)

  datatype Action =
    | Spawn(r: nat)
    | Take(r: nat, plan: Plan)
    | EndOfFile(r: nat)
    | Cancel(r: nat)
    | Step(r: nat)
    | BeginWrite(r: nat)
    | EndWrite(r: nat)
    | Register
    | Signal
    | SetSession(sessionID: string)
    | EmitElsewhere(what: string)

  const NO_PLAN := Plan(Unreadable, 0, false, 0)

  const INITIAL := World(map[], [], "", 0.0, Backing([[]], 0, 0), Waiters(NO_WAITER, 0, []), {}, [])

  function StateOf(w: World): State {
    State(w.sessionID, Calls(w.agg), w.cumulative)
  }

  predicate IsInitEvent(e: Event) {
    e.body == SystemNote("init")
  }

  function Onward(i: nat, out: seq<Event>): Pc {
    if i < |out| then AtEvent(i) else Waiting
  }

  predicate InFrame(pc: Pc) {
    pc.AtEvent? || pc.AtInit? || pc.AtAsk? || pc.AtFlush? || pc.AtRelease? || pc.AtBegin?
  }

  /** Before the frame is translated. */
  predicate Ahead(pc: Pc) {
    pc.Stopping? || pc.Translating?
  }

  /** A reader has something to do that it need not be given. */
  predicate Busy(rd: Reader) {
    && rd.pc != Waiting && rd.pc != Gone
    && (InFrame(rd.pc) ==> rd.pc.i < |rd.out|)
    && (rd.pc.Stopping? ==> rd.pc.left > 0)
  }

  /** The two places where a reader writes to its process's stdin, under the lock requests take. */
  predicate WritesNext(pc: Pc) {
    pc.Stopping? || pc.AtAsk?
  }

  function MarkOf(rd: Reader): Mark
    requires Busy(rd)
  {
    match rd.pc
    case Stopping(_) => Stopped
    case Translating => Translated
    case AtEvent(i) => Sent(rd.out[i])
    case AtInit(_) => Inited
    case AtAsk(_) => Asked
    case AtFlush(_) => Flushed
    case AtRelease(_) => Released
    case ExitFlush => Flushed
    case ExitProcess => Reaped
    case ExitRelease => Released
    case _ => Began
  }

  /** Where a step leads, other than translating. */
  function NextPc(rd: Reader): Pc
    requires Busy(rd) && rd.pc != Translating
  {
    match rd.pc
    case Starting => Waiting
    case Stopping(left) => if left > 1 then Stopping(left - 1) else Translating
    case AtEvent(i) =>
      if IsInitEvent(rd.out[i]) then AtInit(i)
      else if IsBoundary(rd.out[i]) then AtFlush(i)
      else Onward(i + 1, rd.out)
    case AtInit(i) => if rd.plan.described then AtAsk(i) else Onward(i + 1, rd.out)
    case AtAsk(i) => Onward(i + 1, rd.out)
    case AtFlush(i) => AtRelease(i)
    case AtRelease(i) => AtBegin(i)
    case AtBegin(i) => Onward(i + 1, rd.out)
    case ExitFlush => ExitProcess
    case ExitProcess => ExitRelease
    case ExitRelease => Gone
  }

  predicate Idle(w: World, r: nat) {
    r in w.readers && w.readers[r].pc == Waiting
  }

  predicate Enabled(w: World, a: Action) {
    match a
    case Spawn(r) => r !in w.readers
    case Take(r, _) => Idle(w, r)
    case EndOfFile(r) => Idle(w, r)
    case Cancel(r) => Idle(w, r)
    case Step(r) =>
      && r in w.readers
      && Busy(w.readers[r])
      && (WritesNext(w.readers[r].pc) ==> r !in w.writing)
    case BeginWrite(r) => r in w.readers && r !in w.writing
    case EndWrite(r) => r in w.writing
    case _ => true
  }

  function AfterTake(rd: Reader, plan: Plan): Reader {
    rd.(pc := if plan.stops > 0 then Stopping(plan.stops) else Translating, plan := plan)
  }

  function TakenNow(w: World, plan: Plan): Taken {
    Taken(plan, |w.frames|, StateOf(w), w.agg.cur, |w.agg.arrays[w.agg.cur]|)
  }

  function AfterTranslation(rd: Reader, t: Taken): Reader {
    var out := EventsOf(rd.plan.frame, t.state);
    rd.(pc := Onward(0, out), out := out, taken := rd.taken + [t])
  }

  function TranslatedBy(w: World, r: nat): World
    requires r in w.readers
  {
    var rd := w.readers[r];
    var f := rd.plan.frame;
    w.(readers := w.readers[r := AfterTranslation(rd, TakenNow(w, rd.plan))],
       frames := w.frames + [f],
       agg := AggregatorAfter(f, w.agg, rd.plan.spare),
       cumulative := After(f, StateOf(w)).cumulative,
       log := w.log + [By(r, Translated)])
  }

  /** The event as it leaves: a result's list is read from the array only now. */
  function AsEmitted(w: World, rd: Reader, due: Event): Event {
    if due.body.Result? && rd.taken != [] then
      var t := rd.taken[|rd.taken| - 1];
      due.(body := due.body.(calls := Listed(ReadView(w.agg, t.buffer, |t.state.calls|))))
    else due
  }

  function ItemOf(w: World, r: nat, rd: Reader): Item
    requires Busy(rd)
  {
    if rd.pc.AtEvent? then
      var due := rd.out[rd.pc.i];
      Said(r, due, AsEmitted(w, rd, due), if rd.taken == [] then 0 else |rd.taken| - 1, |w.frames|)
    else By(r, MarkOf(rd))
  }

  /** The session id an init frame brings, once its event is out. */
  function SessionAfter(rd: Reader, ours: string): string {
    if rd.pc.AtInit? then SessionOf(rd.plan.frame, ours) else ours
  }

  function StepBy(w: World, r: nat): World
    requires r in w.readers && Busy(w.readers[r])
  {
    var rd := w.readers[r];
    if rd.pc == Translating then TranslatedBy(w, r)
    else w.(readers := w.readers[r := rd.(pc := NextPc(rd))],
            sessionID := SessionAfter(rd, w.sessionID),
            waiters := if MarkOf(rd) == Released then Signalled(w.waiters) else w.waiters,
            log := w.log + [ItemOf(w, r, rd)])
  }

  function Do(w: World, a: Action): World
    requires Enabled(w, a)
  {
    match a
    case Spawn(r) => w.(readers := w.readers[r := Reader(Starting, NO_PLAN, [], [], Reading)])
    case Take(r, plan) => w.(readers := w.readers[r := AfterTake(w.readers[r], plan)])
    case EndOfFile(r) => w.(readers := w.readers[r := w.readers[r].(pc := ExitFlush, ending := Eof)])
    case Cancel(r) => w.(readers := w.readers[r := w.readers[r].(pc := ExitRelease, ending := Cancelled)])
    case Step(r) => StepBy(w, r)
    case BeginWrite(r) => w.(writing := w.writing + {r})
    case EndWrite(r) => w.(writing := w.writing - {r})
    case Register => w.(waiters := Registered(w.waiters))
    case Signal => w.(waiters := Signalled(w.waiters))
    case SetSession(sid) => w.(sessionID := sid)
    case EmitElsewhere(what) => w.(log := w.log + [Elsewhere(what)])
  }

  predicate Runs(w: World, actions: seq<Action>)
    decreases |actions|
  {
    actions == [] || (Enabled(w, actions[0]) && Runs(Do(w, actions[0]), actions[1..]))
  }

  function End(w: World, actions: seq<Action>): World
    requires Runs(w, actions)
    decreases |actions|
  {
    if actions == [] then w else End(Do(w, actions[0]), actions[1..])
  }

  lemma {:induction false} RunsAppend(w: World, actions: seq<Action>, a: Action)
    requires Runs(w, actions) && Enabled(End(w, actions), a)
    ensures Runs(w, actions + [a]) && End(w, actions + [a]) == Do(End(w, actions), a)
    decreases |actions|
  {
    hide Do, Enabled;
    if actions == [] {
      assert ([] + [a])[1..] == [];
    } else {
      assert (actions + [a])[1..] == actions[1..] + [a];
      RunsAppend(Do(w, actions[0]), actions[1..], a);
    }
  }

  lemma RunsOneMore(w: World, run: seq<Action>, n: nat)
    requires n < |run| && Runs(w, run[..n]) && Enabled(End(w, run[..n]), run[n])
    ensures Runs(w, run[..n + 1]) && End(w, run[..n + 1]) == Do(End(w, run[..n]), run[n])
  {
    assert run[..n + 1] == run[..n] + [run[n]];
    RunsAppend(w, run[..n], run[n]);
  }

  lemma {:induction false} RunsConcat(w: World, a: seq<Action>, b: seq<Action>)
    requires Runs(w, a) && Runs(End(w, a), b)
    ensures Runs(w, a + b) && End(w, a + b) == End(End(w, a), b)
    decreases |a|
  {
    hide Do, Enabled;
    if a == [] {
      assert [] + b == b;
    } else {
      assert (a + b)[1..] == a[1..] + b;
      RunsConcat(Do(w, a[0]), a[1..], b);
    }
  }

  lemma RunsOne(w: World, a: Action)
    requires Enabled(w, a)
    ensures Runs(w, [a]) && End(w, [a]) == Do(w, a)
  {
    assert [] + [a] == [a];
    RunsAppend(w, [], a);
  }
}
