/**
 What every run of the turn machine keeps: each reader follows a script said frame
 by frame, waiters are closed once and in time, and a reader is held up by nothing
 but a request writing to its process's stdin.
 */
module TurnProtocol {
  import opened StreamTranslation
  import opened TurnMachine
  import opened TurnWaiting

  // ------------------------------------------------------------------
  // What a reader should do, said frame by frame

  function Stops(n: nat): seq<Mark> {
    if n == 0 then [] else [Stopped] + Stops(n - 1)
  }

  function Asks(described: bool): seq<Mark> {
    if described then [Asked] else []
  }

  function EventScript(e: Event, described: bool): seq<Mark> {
    [Sent(e)]
    + if IsInitEvent(e) then [Inited] + Asks(described)
      else if IsBoundary(e) then [Flushed, Released, Began]
      else []
  }

  function FrameScript(events: seq<Event>, described: bool): seq<Mark> {
    if events == [] then [] else EventScript(events[0], described) + FrameScript(events[1..], described)
  }

  /** Up to the translation of a frame: its stop_task requests. */
  function PlanScript(plan: Plan): seq<Mark> {
    Stops(plan.stops) + [Translated]
  }

  function TakenScript(taken: seq<Taken>): seq<Mark> {
    if taken == [] then []
    else
      var n := |taken| - 1;
      TakenScript(taken[..n]) + PlanScript(taken[n].plan)
      + FrameScript(EventsOf(taken[n].plan.frame, taken[n].state), taken[n].plan.described)
  }

  function EndScript(ending: Ending): seq<Mark> {
    match ending
    case Reading => []
    case Eof => [Flushed, Reaped, Released]
    case Cancelled => [Released]
  }

  /** One turn begun, each frame's events in order with a boundary after each ending one, one release at the end. */
  function Script(rd: Reader): seq<Mark> {
    [Began] + TakenScript(rd.taken)
    + (if Ahead(rd.pc) then PlanScript(rd.plan) else [])
    + EndScript(rd.ending)
  }

  /** The script of the frame's events from position i on. */
  function FrameRest(rd: Reader, i: nat): seq<Mark> {
    if i <= |rd.out| then FrameScript(rd.out[i..], rd.plan.described) else []
  }

  /** What is left of the script. */
  function Rest(rd: Reader): seq<Mark> {
    match rd.pc
    case Starting => [Began]
    case Waiting => []
    case Stopping(left) => Stops(left) + [Translated]
    case Translating => [Translated]
    case AtEvent(i) => FrameRest(rd, i)
    case AtInit(i) => [Inited] + Asks(rd.plan.described) + FrameRest(rd, i + 1)
    case AtAsk(i) => [Asked] + FrameRest(rd, i + 1)
    case AtFlush(i) => [Flushed, Released, Began] + FrameRest(rd, i + 1)
    case AtRelease(i) => [Released, Began] + FrameRest(rd, i + 1)
    case AtBegin(i) => [Began] + FrameRest(rd, i + 1)
    case ExitFlush => [Flushed, Reaped, Released]
    case ExitProcess => [Reaped, Released]
    case ExitRelease => [Released]
    case Gone => []
  }

  /** What an item says its reader did. */
  function MarkIn(item: Item, r: nat): seq<Mark> {
    match item
    case By(reader, mark) => if reader == r && !mark.Sent? then [mark] else []
    case Said(reader, due, _, _, _) => if reader == r then [Sent(due)] else []
    case Elsewhere(_) => []
  }

  function Marks(log: seq<Item>, r: nat): seq<Mark> {
    if log == [] then [] else Marks(log[..|log| - 1], r) + MarkIn(log[|log| - 1], r)
  }

  /** The events sent, as they were translated. */
  function EventsIn(marks: seq<Mark>): seq<Event> {
    if marks == [] then []
    else (if marks[0].Sent? then [marks[0].event] else []) + EventsIn(marks[1..])
  }

  function Translations(taken: seq<Taken>): seq<Event> {
    if taken == [] then []
    else
      var n := |taken| - 1;
      Translations(taken[..n]) + EventsOf(taken[n].plan.frame, taken[n].state)
  }

  // ------------------------------------------------------------------
  // The invariant

  ghost predicate WellPlaced(rd: Reader) {
    && (InFrame(rd.pc) ==> rd.pc.i < |rd.out|)
    && (rd.pc.Stopping? ==> 0 < rd.pc.left <= rd.plan.stops)
    && (rd.pc.AtInit? || rd.pc.AtAsk? ==> IsInitEvent(rd.out[rd.pc.i]))
    && (rd.pc.AtAsk? ==> rd.plan.described)
    && (rd.pc.AtFlush? || rd.pc.AtRelease? || rd.pc.AtBegin? ==> IsBoundary(rd.out[rd.pc.i]))
    && (rd.ending == Reading <==> rd.pc in {Starting, Waiting} || Ahead(rd.pc) || InFrame(rd.pc))
    && (rd.ending == Cancelled ==> rd.pc in {ExitRelease, Gone})
  }

  /** What a reader is emitting is its last frame's translation. */
  ghost predicate Emitting(rd: Reader) {
    InFrame(rd.pc) ==>
      && rd.taken != []
      && var t := rd.taken[|rd.taken| - 1];
      rd.plan == t.plan && rd.out == EventsOf(t.plan.frame, t.state)
  }

  ghost predicate OnScript(w: World, r: nat)
    requires r in w.readers
  {
    var rd := w.readers[r];
    WellPlaced(rd) && Emitting(rd) && Marks(w.log, r) + Rest(rd) == Script(rd)
  }

  /** Each frame was translated with the calls and running total that all frames translated before it left. */
  ghost predicate InOrder(w: World, taken: seq<Taken>) {
    && (forall k | 0 <= k < |taken| ::
          taken[k].at < |w.frames| && w.frames[taken[k].at] == taken[k].plan.frame
          && SameUsage(taken[k].state, StateAfter(w.frames[..taken[k].at], "")))
    && forall j, k | 0 <= j < k < |taken| :: taken[j].at < taken[k].at
  }

  ghost predicate SameUsage(s: State, t: State) {
    s.calls == t.calls && s.cumulative == t.cumulative
  }

  /** After a boundary event the reader has released the waiter, or is about to. */
  ghost predicate Settled(w: World) {
    forall p | 0 <= p < |w.log| :: EndsTurn(w.log[p]) ==> ReleasedSince(w, p, w.log[p].reader)
  }

  predicate EndsTurn(item: Item) {
    item.Said? && IsBoundary(item.due)
  }

  ghost predicate ReleasedSince(w: World, p: nat, r: nat) {
    || (exists q | p < q < |w.log| :: w.log[q] == By(r, Released))
    || (r in w.readers && (w.readers[r].pc.AtFlush? || w.readers[r].pc.AtRelease?))
  }

  ghost predicate Inv(w: World) {
    && Sound(w.waiters)
    && SameUsage(StateOf(w), StateAfter(w.frames, ""))
    && (forall r | r in w.readers :: OnScript(w, r) && InOrder(w, w.readers[r].taken))
    && (forall r | r !in w.readers :: Marks(w.log, r) == [])
    && Settled(w)
  }

  lemma MarksAppend(log: seq<Item>, item: Item, r: nat)
    ensures Marks(log + [item], r) == Marks(log, r) + MarkIn(item, r)
  {
    assert (log + [item])[..|log|] == log;
  }

  lemma StepStaysPlaced(rd: Reader)
    requires WellPlaced(rd) && Busy(rd) && rd.pc != Translating
    ensures WellPlaced(rd.(pc := NextPc(rd)))
    ensures Ahead(NextPc(rd)) <==> Ahead(rd.pc)
    ensures InFrame(NextPc(rd)) ==> InFrame(rd.pc)
  {
  }

  lemma RestAt(rd: Reader, i: nat)
    requires i < |rd.out|
    ensures FrameRest(rd, i) == EventScript(rd.out[i], rd.plan.described) + FrameRest(rd, i + 1)
    ensures Rest(rd.(pc := Onward(i + 1, rd.out))) == FrameRest(rd, i + 1)
  {
    hide EventScript;
    assert rd.out[i..][1..] == rd.out[i + 1..];
  }

  lemma RestIgnoresPc(rd: Reader, pc: Pc, i: nat)
    ensures FrameRest(rd.(pc := pc), i) == FrameRest(rd, i)
  {
  }

  lemma EmitFollowsScript(rd: Reader)
    requires WellPlaced(rd) && rd.pc.AtEvent?
    ensures Rest(rd) == [Sent(rd.out[rd.pc.i])] + Rest(rd.(pc := NextPc(rd)))
  {
    hide FrameRest;
    var e, rest := rd.out[rd.pc.i], FrameRest(rd, rd.pc.i + 1);
    RestAt(rd, rd.pc.i);
    RestIgnoresPc(rd, NextPc(rd), rd.pc.i + 1);
    if IsInitEvent(e) {
      assert EventScript(e, rd.plan.described) + rest == [Sent(e)] + ([Inited] + Asks(rd.plan.described) + rest);
    } else if IsBoundary(e) {
      assert EventScript(e, rd.plan.described) + rest == [Sent(e)] + ([Flushed, Released, Began] + rest);
    }
  }

  lemma BoundaryFollowsScript(rd: Reader)
    requires WellPlaced(rd) && InFrame(rd.pc) && !rd.pc.AtEvent?
    ensures Rest(rd) == [MarkOf(rd)] + Rest(rd.(pc := NextPc(rd)))
  {
    hide FrameRest, EventScript, IsInitEvent, IsBoundary;
    var rest := FrameRest(rd, rd.pc.i + 1);
    RestAt(rd, rd.pc.i);
    RestIgnoresPc(rd, NextPc(rd), rd.pc.i + 1);
    if rd.pc.AtFlush? {
      assert Rest(rd) == [Flushed] + ([Released, Began] + rest);
    } else if rd.pc.AtRelease? {
      assert Rest(rd) == [Released] + ([Began] + rest);
    } else if rd.pc.AtInit? && rd.plan.described {
      assert Rest(rd) == [Inited] + ([Asked] + rest);
    } else if rd.pc.AtInit? {
      assert [Inited] + [] + rest == [Inited] + rest;
    }
  }

  lemma StopFollowsScript(rd: Reader)
    requires rd.pc.Stopping? && rd.pc.left > 0
    ensures Rest(rd) == [Stopped] + Rest(rd.(pc := NextPc(rd)))
  {
    var left := rd.pc.left;
    assert Stops(left) + [Translated] == [Stopped] + (Stops(left - 1) + [Translated]);
  }

  lemma StepFollowsScript(rd: Reader)
    requires WellPlaced(rd) && Busy(rd) && rd.pc != Translating
    ensures Rest(rd) == [MarkOf(rd)] + Rest(rd.(pc := NextPc(rd)))
  {
    hide FrameRest, EventScript, IsInitEvent, IsBoundary, Stops;
    if rd.pc.AtEvent? {
      EmitFollowsScript(rd);
    } else if InFrame(rd.pc) {
      BoundaryFollowsScript(rd);
    } else if rd.pc.Stopping? {
      StopFollowsScript(rd);
    }
  }

  lemma ScriptIgnoresPc(rd: Reader, pc: Pc)
    requires Ahead(pc) <==> Ahead(rd.pc)
    ensures Script(rd.(pc := pc)) == Script(rd)
  {
  }

  lemma AppendKeepsOthers(w: World, w': World, r: nat, item: Item)
    requires r in w.readers && OnScript(w, r)
    requires r in w'.readers && w'.readers[r] == w.readers[r] && w'.log == w.log + [item]
    requires MarkIn(item, r) == []
    ensures OnScript(w', r)
  {
    hide Script, Rest, MarkIn;
    MarksAppend(w.log, item, r);
  }

  lemma SameReaderSameLog(w: World, w': World, r: nat)
    requires r in w.readers && OnScript(w, r)
    requires r in w'.readers && w'.readers[r] == w.readers[r] && w'.log == w.log
    ensures OnScript(w', r)
  {
  }

  lemma ItemIsMark(w: World, r: nat, rd: Reader)
    requires Busy(rd)
    ensures MarkIn(ItemOf(w, r, rd), r) == [MarkOf(rd)]
    ensures forall k | k != r :: MarkIn(ItemOf(w, r, rd), k) == []
    ensures ItemOf(w, r, rd).Said? <==> rd.pc.AtEvent?
    ensures rd.pc.AtEvent? ==> ItemOf(w, r, rd).due == rd.out[rd.pc.i] && ItemOf(w, r, rd).reader == r
    ensures !rd.pc.AtEvent? ==> ItemOf(w, r, rd) == By(r, MarkOf(rd))
  {
  }

  lemma StepKeepsOnScript(w: World, r: nat)
    requires r in w.readers && OnScript(w, r) && Busy(w.readers[r]) && w.readers[r].pc != Translating
    ensures OnScript(StepBy(w, r), r)
  {
    hide Script, Rest, NextPc, MarkOf, Marks, SessionAfter, ItemOf, MarkIn, EventsOf, Ahead;
    var rd := w.readers[r];
    var rd' := rd.(pc := NextPc(rd));
    StepStaysPlaced(rd);
    ScriptIgnoresPc(rd, rd'.pc);
    StepFollowsScript(rd);
    ItemIsMark(w, r, rd);
    MarksAppend(w.log, ItemOf(w, r, rd), r);
    calc {
      Marks(w.log, r) + Rest(rd);
      Marks(w.log, r) + ([MarkOf(rd)] + Rest(rd'));
      (Marks(w.log, r) + [MarkOf(rd)]) + Rest(rd');
    }
  }

  lemma TakeExtendsScript(rd: Reader, plan: Plan)
    requires WellPlaced(rd) && rd.pc == Waiting
    ensures
      var rd' := AfterTake(rd, plan);
      WellPlaced(rd') && Script(rd') == Script(rd) + Rest(rd')
  {
    hide TakenScript, Stops;
    assert plan.stops == 0 ==> Stops(plan.stops) + [Translated] == [Translated] by { StopsNone(); }
  }

  lemma StopsNone()
    ensures Stops(0) == []
  {
  }

  lemma TranslationExtendsScript(rd: Reader, t: Taken)
    requires WellPlaced(rd) && rd.pc == Translating && t.plan == rd.plan
    ensures
      var rd' := AfterTranslation(rd, t);
      && WellPlaced(rd') && Emitting(rd')
      && Script(rd') == Script(rd) + Rest(rd')
  {
    hide EventsOf, Stops, PlanScript;
    var rd' := AfterTranslation(rd, t);
    assert rd'.taken[..|rd.taken|] == rd.taken;
    assert rd'.out[0..] == rd'.out;
    var script := FrameScript(rd'.out, rd.plan.described);
    assert Rest(rd') == script;
    assert Script(rd') == [Began] + (TakenScript(rd.taken) + PlanScript(rd.plan) + script);
  }

  lemma TranslationKeepsOnScript(w: World, r: nat)
    requires r in w.readers && OnScript(w, r) && w.readers[r].pc == Translating
    ensures OnScript(TranslatedBy(w, r), r)
  {
    hide Script, EventsOf, Marks, AggregatorAfter;
    var rd := w.readers[r];
    var rd' := AfterTranslation(rd, TakenNow(w, rd.plan));
    TranslationExtendsScript(rd, TakenNow(w, rd.plan));
    MarksAppend(w.log, By(r, Translated), r);
    assert Marks(w.log, r) + [Translated] == Script(rd);
  }

  lemma SettledAfterAppend(w: World, w': World, item: Item)
    requires Settled(w) && w'.log == w.log + [item]
    requires forall r | r in w.readers && (w.readers[r].pc.AtFlush? || w.readers[r].pc.AtRelease?) ::
               || (r in w'.readers && (w'.readers[r].pc.AtFlush? || w'.readers[r].pc.AtRelease?))
               || item == By(r, Released)
    requires EndsTurn(item) ==> item.reader in w'.readers && w'.readers[item.reader].pc.AtFlush?
    ensures Settled(w')
  {
    forall p | 0 <= p < |w'.log| && EndsTurn(w'.log[p])
      ensures ReleasedSince(w', p, w'.log[p].reader)
    {
      if p < |w.log| {
        var r := w.log[p].reader;
        assert w'.log[p] == w.log[p] && ReleasedSince(w, p, r);
        if q :| p < q < |w.log| && w.log[q] == By(r, Released) {
          assert w'.log[q] == By(r, Released);
        } else if item == By(r, Released) {
          assert w'.log[|w.log|] == By(r, Released);
        }
      }
    }
  }

  lemma SettledWithoutLog(w: World, w': World)
    requires Settled(w) && w'.log == w.log
    requires forall r | r in w.readers && (w.readers[r].pc.AtFlush? || w.readers[r].pc.AtRelease?) ::
               r in w'.readers && w'.readers[r] == w.readers[r]
    ensures Settled(w')
  {
    forall p | 0 <= p < |w'.log| && EndsTurn(w'.log[p])
      ensures ReleasedSince(w', p, w'.log[p].reader)
    {
      assert ReleasedSince(w, p, w.log[p].reader);
    }
  }

  lemma InOrderIgnoresReaders(w: World, w': World, taken: seq<Taken>)
    requires InOrder(w, taken) && w'.frames == w.frames
    ensures InOrder(w', taken)
  {
  }

  lemma StepKeepsInv(w: World, r: nat)
    requires Inv(w) && r in w.readers && Busy(w.readers[r]) && w.readers[r].pc != Translating
    ensures Inv(StepBy(w, r))
  {
    hide Script, Rest, Marks, Settled, Sound, Registered, Signalled, StateAfter, OnScript, InOrder, ItemOf, MarkIn,
      SessionAfter;
    var rd := w.readers[r];
    var w' := StepBy(w, r);
    var item := ItemOf(w, r, rd);
    ItemIsMark(w, r, rd);
    StepKeepsOnScript(w, r);
    forall k | k in w'.readers
      ensures OnScript(w', k) && InOrder(w', w'.readers[k].taken)
    {
      assert OnScript(w, k) && InOrder(w, w.readers[k].taken);
      InOrderIgnoresReaders(w, w', w.readers[k].taken);
      if k != r {
        AppendKeepsOthers(w, w', k, item);
      }
    }
    forall k | k !in w'.readers
      ensures Marks(w'.log, k) == []
    {
      assert Marks(w.log, k) == [];
      MarksAppend(w.log, item, k);
    }
    SignalIsSound(w.waiters);
    SettledAfterAppend(w, w', item);
  }

  lemma TranslationKeepsOrder(w: World, r: nat, k: nat)
    requires Inv(w) && r in w.readers && k in w.readers
    ensures InOrder(TranslatedBy(w, r), TranslatedBy(w, r).readers[k].taken)
  {
    hide Script, Rest, Marks, Settled, Sound, EventsOf, StateAfter, OnScript, AggregatorAfter, Calls, After;
    var w' := TranslatedBy(w, r);
    var taken := w.readers[k].taken;
    var taken' := w'.readers[k].taken;
    assert InOrder(w, taken);
    forall j | 0 <= j < |taken'|
      ensures taken'[j].at < |w'.frames| && w'.frames[taken'[j].at] == taken'[j].plan.frame
      ensures SameUsage(taken'[j].state, StateAfter(w'.frames[..taken'[j].at], ""))
    {
      if j < |taken| {
        assert taken'[j] == taken[j];
        assert w'.frames[..taken[j].at] == w.frames[..taken[j].at];
      } else {
        assert w'.frames[..|w.frames|] == w.frames;
      }
    }
  }

  lemma TranslationKeepsInv(w: World, r: nat)
    requires Inv(w) && r in w.readers && w.readers[r].pc == Translating
    ensures Inv(TranslatedBy(w, r))
  {
    hide Script, Rest, Marks, Settled, Sound, EventsOf, InOrder, OnScript, AggregatorAfter, Calls;
    var w' := TranslatedBy(w, r);
    var f := w.readers[r].plan.frame;
    assert w'.frames[..|w.frames|] == w.frames && w'.frames[|w.frames|] == f;
    AggregatorHoldsCalls(f, w.agg, w.readers[r].plan.spare);
    forall k | k in w'.readers
      ensures OnScript(w', k) && InOrder(w', w'.readers[k].taken)
    {
      TranslationKeepsOrder(w, r, k);
      assert OnScript(w, k);
      if k == r {
        TranslationKeepsOnScript(w, r);
      } else {
        AppendKeepsOthers(w, w', k, By(r, Translated));
      }
    }
    forall k | k !in w'.readers
      ensures Marks(w'.log, k) == []
    {
      assert Marks(w.log, k) == [];
      MarksAppend(w.log, By(r, Translated), k);
    }
    SettledAfterAppend(w, w', By(r, Translated));
  }

  /** What a reader between frames can become: it meets a frame, the end of the stream, or the shutdown. */
  predicate Turns(rd: Reader, rd': Reader) {
    || rd' in {rd.(pc := ExitFlush, ending := Eof), rd.(pc := ExitRelease, ending := Cancelled)}
    || rd' == AfterTake(rd, rd'.plan)
  }

  lemma TurnKeepsOnScript(w: World, r: nat, rd: Reader)
    requires Idle(w, r) && OnScript(w, r) && Turns(w.readers[r], rd)
    ensures OnScript(w.(readers := w.readers[r := rd]), r)
  {
    hide Marks, TakenScript, PlanScript, Stops;
    if rd == AfterTake(w.readers[r], rd.plan) {
      hide Script;
      TakeExtendsScript(w.readers[r], rd.plan);
    } else {
      assert Script(rd) == Script(w.readers[r]) + Rest(rd);
    }
  }

  lemma TurnKeepsInv(w: World, r: nat, rd: Reader)
    requires Inv(w) && Idle(w, r) && Turns(w.readers[r], rd)
    ensures Inv(w.(readers := w.readers[r := rd]))
  {
    hide OnScript, Marks, Settled, Sound, InOrder, TakenScript, StateAfter;
    var w' := w.(readers := w.readers[r := rd]);
    forall k | k in w'.readers
      ensures OnScript(w', k) && InOrder(w', w'.readers[k].taken)
    {
      assert OnScript(w, k) && InOrder(w, w.readers[k].taken);
      InOrderIgnoresReaders(w, w', w.readers[k].taken);
      if k == r {
        TurnKeepsOnScript(w, r, rd);
      } else {
        SameReaderSameLog(w, w', k);
      }
    }
    SettledWithoutLog(w, w');
  }

  /** Steps that touch no reader that is already there. */
  predicate Aside(a: Action) {
    a.Spawn? || a.BeginWrite? || a.EndWrite? || a.Register? || a.Signal? || a.SetSession? || a.EmitElsewhere?
  }

  lemma OtherKeepsInv(w: World, a: Action)
    requires Inv(w) && Enabled(w, a)
    requires Aside(a)
    ensures Inv(Do(w, a))
  {
    hide OnScript, Marks, Settled, Sound, InOrder, TakenScript, StateAfter, Registered, Signalled;
    var w' := Do(w, a);
    RegisterIsSound(w.waiters);
    SignalIsSound(w.waiters);
    forall k | k in w'.readers
      ensures OnScript(w', k) && InOrder(w', w'.readers[k].taken)
    {
      if k in w.readers {
        assert OnScript(w, k) && InOrder(w, w.readers[k].taken);
        InOrderIgnoresReaders(w, w', w.readers[k].taken);
        if a.EmitElsewhere? {
          AppendKeepsOthers(w, w', k, Elsewhere(a.what));
        } else {
          SameReaderSameLog(w, w', k);
        }
      } else {
        assert Marks(w.log, k) == [];
        NothingTakenYet(w');
        StartsOnScript(w', k);
      }
    }
    forall k | k !in w'.readers
      ensures Marks(w'.log, k) == []
    {
      assert Marks(w.log, k) == [];
      if a.EmitElsewhere? {
        MarksAppend(w.log, Elsewhere(a.what), k);
      }
    }
    if a.EmitElsewhere? {
      SettledAfterAppend(w, w', Elsewhere(a.what));
    } else {
      SettledWithoutLog(w, w');
    }
  }

  lemma NothingTakenYet(w: World)
    ensures InOrder(w, [])
  {
  }

  lemma StartsOnScript(w: World, r: nat)
    requires r in w.readers && w.readers[r] == Reader(Starting, NO_PLAN, [], [], Reading) && Marks(w.log, r) == []
    ensures OnScript(w, r)
  {
  }

  lemma DoKeepsInv(w: World, a: Action)
    requires Inv(w) && Enabled(w, a)
    ensures Inv(Do(w, a))
  {
    hide Inv, Registered, Signalled, TranslatedBy;
    match a {
      case Take(r, plan) => TurnKeepsInv(w, r, AfterTake(w.readers[r], plan));
      case EndOfFile(r) => TurnKeepsInv(w, r, w.readers[r].(pc := ExitFlush, ending := Eof));
      case Cancel(r) => TurnKeepsInv(w, r, w.readers[r].(pc := ExitRelease, ending := Cancelled));
      case Step(r) =>
        if w.readers[r].pc == Translating {
          TranslationKeepsInv(w, r);
        } else {
          StepKeepsInv(w, r);
        }
      case _ => OtherKeepsInv(w, a);
    }
  }

  lemma {:induction false} RunsKeepInv(w: World, actions: seq<Action>)
    requires Inv(w) && Runs(w, actions)
    ensures Inv(End(w, actions))
    decreases |actions|
  {
    hide Inv, Do;
    if actions != [] {
      DoKeepsInv(w, actions[0]);
      RunsKeepInv(Do(w, actions[0]), actions[1..]);
    }
  }

  lemma InitialInv()
    ensures Inv(INITIAL)
  {
  }

  // ------------------------------------------------------------------
  // What a reader emits

  lemma {:induction false} EventsInConcat(a: seq<Mark>, b: seq<Mark>)
    ensures EventsIn(a + b) == EventsIn(a) + EventsIn(b)
  {
    if a == [] {
      assert a + b == b;
    } else {
      var head := if a[0].Sent? then [a[0].event] else [];
      EventsInConcat(a[1..], b);
      assert (a + b)[1..] == a[1..] + b && (a + b)[0] == a[0];
      assert EventsIn(a + b) == head + (EventsIn(a[1..]) + EventsIn(b));
      assert EventsIn(a) == head + EventsIn(a[1..]);
    }
  }

  lemma {:induction false} EventsOfFrameScript(events: seq<Event>, described: bool)
    ensures EventsIn(FrameScript(events, described)) == events
  {
    if events != [] {
      EventsOfFrameScript(events[1..], described);
      EventsInConcat(EventScript(events[0], described), FrameScript(events[1..], described));
      EventsOfOneScript(events[0], described);
    }
  }

  lemma NothingSent(marks: seq<Mark>)
    requires forall m | m in marks :: !m.Sent?
    ensures EventsIn(marks) == []
  {
    if marks != [] {
      NothingSent(marks[1..]);
    }
  }

  lemma EventsOfOneScript(e: Event, described: bool)
    ensures EventsIn(EventScript(e, described)) == [e]
  {
    hide IsBoundary, IsInitEvent;
    NothingSent(EventScript(e, described)[1..]);
  }

  lemma {:induction false} StopsAreStops(n: nat)
    ensures forall m | m in Stops(n) :: m == Stopped
  {
    if n > 0 {
      StopsAreStops(n - 1);
    }
  }

  lemma EventsOfPlanScript(plan: Plan)
    ensures EventsIn(PlanScript(plan)) == []
  {
    StopsAreStops(plan.stops);
    NothingSent(PlanScript(plan));
  }

  lemma {:induction false} EventsOfTakenScript(taken: seq<Taken>)
    ensures EventsIn(TakenScript(taken)) == Translations(taken)
  {
    hide EventsOf, EventsIn, PlanScript, FrameScript;
    if taken == [] {
      NothingSent([]);
    } else {
      var n := |taken| - 1;
      var plan := taken[n].plan;
      var frame := FrameScript(EventsOf(plan.frame, taken[n].state), plan.described);
      EventsOfTakenScript(taken[..n]);
      EventsOfPlanScript(plan);
      EventsOfFrameScript(EventsOf(plan.frame, taken[n].state), plan.described);
      EventsInConcat(TakenScript(taken[..n]) + PlanScript(plan), frame);
      EventsInConcat(TakenScript(taken[..n]), PlanScript(plan));
    }
  }

  lemma EventsOfScript(rd: Reader)
    ensures EventsIn(Script(rd)) == Translations(rd.taken)
  {
    hide EventsIn, TakenScript, PlanScript, Translations;
    var ahead := if Ahead(rd.pc) then PlanScript(rd.plan) else [];
    EventsOfTakenScript(rd.taken);
    EventsOfPlanScript(rd.plan);
    NothingSent([]);
    NothingSent([Began]);
    NothingSent(EndScript(rd.ending));
    EventsInConcat([Began] + TakenScript(rd.taken) + ahead, EndScript(rd.ending));
    EventsInConcat([Began] + TakenScript(rd.taken), ahead);
    EventsInConcat([Began], TakenScript(rd.taken));
  }

  lemma ReachableOnScript(actions: seq<Action>, r: nat)
    requires Runs(INITIAL, actions) && r in End(INITIAL, actions).readers
    ensures OnScript(End(INITIAL, actions), r)
    ensures
      var rd := End(INITIAL, actions).readers[r];
      && (rd.pc in {Waiting, Gone} ==> Rest(rd) == [])
      && (rd.pc in {Waiting, Gone} || Ahead(rd.pc) ==> EventsIn(Rest(rd)) == [])
  {
    hide Marks, Script, EventsIn;
    InitialInv();
    RunsKeepInv(INITIAL, actions);
    var rd := End(INITIAL, actions).readers[r];
    NothingSent([]);
    if rd.pc.Stopping? {
      StopsAreStops(rd.pc.left);
      NothingSent(Rest(rd));
    } else if rd.pc.Translating? {
      NothingSent([Translated]);
    }
  }

  /**
   Whatever requests, waiters, other emits, other readers and unprompted turns
   interleave, a reader sends its frames' events, each once and in order. What a
   result's per-call list reads as by then is SharedUsage's subject.
   */
  lemma SendsExactlyTheTranslations(actions: seq<Action>, r: nat)
    requires Runs(INITIAL, actions) && r in End(INITIAL, actions).readers
    ensures
      var w := End(INITIAL, actions);
      var sent := EventsIn(Marks(w.log, r));
      var due := Translations(w.readers[r].taken);
      sent <= due && (w.readers[r].pc in {Waiting, Gone} || Ahead(w.readers[r].pc) ==> sent == due)
  {
    hide Runs, End, Marks, Rest, Script, EventsIn, Translations;
    ReachableOnScript(actions, r);
    var w := End(INITIAL, actions);
    var rd := w.readers[r];
    EventsOfScript(rd);
    EventsInConcat(Marks(w.log, r), Rest(rd));
  }

  // ------------------------------------------------------------------
  // Turn boundaries

  function Count(marks: seq<Mark>, m: Mark): nat {
    if marks == [] then 0 else (if marks[0] == m then 1 else 0) + Count(marks[1..], m)
  }

  lemma {:induction false} CountConcat(a: seq<Mark>, b: seq<Mark>, m: Mark)
    ensures Count(a + b, m) == Count(a, m) + Count(b, m)
  {
    if a == [] {
      assert a + b == b;
    } else {
      assert (a + b)[1..] == a[1..] + b;
      CountConcat(a[1..], b, m);
    }
  }

  lemma CountOfOne(a: Mark, m: Mark)
    ensures Count([a], m) == if a == m then 1 else 0
  {
    assert [a][1..] == [];
  }

  lemma CountOfThree(a: Mark, b: Mark, c: Mark, m: Mark)
    ensures Count([a, b, c], m) == (if a == m then 1 else 0) + (if b == m then 1 else 0) + if c == m then 1 else 0
  {
    hide Count;
    CountOfOne(a, m);
    CountOfOne(b, m);
    CountOfOne(c, m);
    CountConcat([a], [b], m);
    CountConcat([a] + [b], [c], m);
    assert [a] + [b] + [c] == [a, b, c];
  }

  lemma {:induction false} CountNone(marks: seq<Mark>, m: Mark)
    requires m !in marks
    ensures Count(marks, m) == 0
  {
    if marks != [] {
      CountNone(marks[1..], m);
    }
  }

  lemma CountInOne(e: Event, described: bool, m: Mark)
    requires m in {Flushed, Released, Began}
    ensures Count(EventScript(e, described), m) == if IsBoundary(e) then 1 else 0
  {
    if IsBoundary(e) {
      CountConcat([Sent(e)], [Flushed, Released, Began], m);
      CountOfOne(Sent(e), m);
      CountOfThree(Flushed, Released, Began, m);
    } else {
      CountNone(EventScript(e, described), m);
    }
  }

  lemma {:induction false} CountInFrame(events: seq<Event>, described: bool, m: Mark)
    requires m in {Flushed, Released, Began}
    ensures Count(FrameScript(events, described), m) == Boundaries(events)
  {
    hide EventScript;
    if events != [] {
      CountInFrame(events[1..], described, m);
      CountInOne(events[0], described, m);
      CountConcat(EventScript(events[0], described), FrameScript(events[1..], described), m);
    }
  }

  /** How many of the frames a reader took are results. */
  function ResultsTaken(taken: seq<Taken>): nat {
    if taken == [] then 0
    else
      ResultsTaken(taken[..|taken| - 1]) + if IsResult(taken[|taken| - 1].plan.frame) then 1 else 0
  }

  lemma {:induction false} CountInTaken(taken: seq<Taken>, m: Mark)
    requires m in {Flushed, Released, Began}
    ensures Count(TakenScript(taken), m) == ResultsTaken(taken)
  {
    hide EventsOf, FrameScript;
    if taken != [] {
      var n := |taken| - 1;
      var plan := taken[n].plan;
      var last := EventsOf(plan.frame, taken[n].state);
      CountInTaken(taken[..n], m);
      CountInFrame(last, plan.described, m);
      BoundaryOfFrame(plan.frame, taken[n].state);
      StopsAreStops(plan.stops);
      CountNone(PlanScript(plan), m);
      CountConcat(TakenScript(taken[..n]) + PlanScript(plan), FrameScript(last, plan.described), m);
      CountConcat(TakenScript(taken[..n]), PlanScript(plan), m);
    }
  }

  /** Between frames a reader has run one boundary for each result frame it took, and one for nothing else. */
  lemma OneBoundaryPerTurnEnd(actions: seq<Action>, r: nat)
    requires Runs(INITIAL, actions) && Idle(End(INITIAL, actions), r)
    ensures
      var w := End(INITIAL, actions);
      var ended := ResultsTaken(w.readers[r].taken);
      && Count(Marks(w.log, r), Flushed) == ended
      && Count(Marks(w.log, r), Released) == ended
      && Count(Marks(w.log, r), Began) == 1 + ended
  {
    hide Runs, End, Marks, TakenScript;
    ReachableOnScript(actions, r);
    var w := End(INITIAL, actions);
    var rd := w.readers[r];
    assert Marks(w.log, r) == Marks(w.log, r) + Rest(rd);
    assert Script(rd) == [Began] + TakenScript(rd.taken);
    forall m | m in {Flushed, Released, Began}
      ensures Count(Marks(w.log, r), m) == ResultsTaken(rd.taken) + if m == Began then 1 else 0
    {
      CountInTaken(rd.taken, m);
      CountConcat([Began], TakenScript(rd.taken), m);
      CountOfOne(Began, m);
    }
  }

  // ------------------------------------------------------------------
  // What comes after what

  predicate Followed(marks: seq<Mark>, i: nat)
    requires i < |marks|
  {
    && (marks[i].Sent? && IsBoundary(marks[i].event) ==>
          i + 3 < |marks| && marks[i + 1] == Flushed && marks[i + 2] == Released && marks[i + 3] == Began)
    && (marks[i].Sent? && IsInitEvent(marks[i].event) ==> i + 1 < |marks| && marks[i + 1] == Inited)
    && (marks[i] == Stopped ==> i + 1 < |marks| && marks[i + 1] in {Stopped, Translated})
  }

  ghost predicate InSequence(marks: seq<Mark>) {
    forall i | 0 <= i < |marks| :: Followed(marks, i)
  }

  lemma SequenceConcat(a: seq<Mark>, b: seq<Mark>)
    requires InSequence(a) && InSequence(b)
    ensures InSequence(a + b)
  {
    hide IsBoundary, IsInitEvent;
    forall i | 0 <= i < |a + b|
      ensures Followed(a + b, i)
    {
      if i < |a| {
        assert Followed(a, i);
      } else {
        assert Followed(b, i - |a|);
      }
    }
  }

  lemma EventInSequence(e: Event, described: bool)
    ensures InSequence(EventScript(e, described))
  {
    var marks := EventScript(e, described);
    if IsBoundary(e) {
      assert marks == [Sent(e), Flushed, Released, Began];
    } else if IsInitEvent(e) {
      assert marks == [Sent(e), Inited] + Asks(described);
    }
    forall i | 0 <= i < |marks|
      ensures Followed(marks, i)
    {
      assert marks[0] == Sent(e);
      assert i > 0 ==> marks[i] in {Flushed, Released, Began, Inited, Asked};
    }
  }

  lemma {:induction false} FrameInSequence(events: seq<Event>, described: bool)
    ensures InSequence(FrameScript(events, described))
  {
    hide EventScript, Followed;
    if events != [] {
      FrameInSequence(events[1..], described);
      EventInSequence(events[0], described);
      SequenceConcat(EventScript(events[0], described), FrameScript(events[1..], described));
    }
  }

  lemma {:induction false} StopsInSequence(n: nat)
    ensures InSequence(Stops(n) + [Translated])
  {
    if n == 0 {
      assert Stops(0) + [Translated] == [Translated];
    } else {
      var rest := Stops(n - 1) + [Translated];
      StopsInSequence(n - 1);
      StopsAreStops(n - 1);
      assert rest[0] in {Stopped, Translated};
      var all := Stops(n) + [Translated];
      assert all == [Stopped] + rest;
      forall i | 0 <= i < |all|
        ensures Followed(all, i)
      {
        if i > 0 {
          assert Followed(rest, i - 1);
        }
      }
    }
  }

  lemma {:induction false} TakenInSequence(taken: seq<Taken>)
    ensures InSequence(TakenScript(taken))
  {
    hide EventsOf, FrameScript, Followed, Stops;
    if taken != [] {
      var n := |taken| - 1;
      var plan := taken[n].plan;
      var frame := FrameScript(EventsOf(plan.frame, taken[n].state), plan.described);
      TakenInSequence(taken[..n]);
      StopsInSequence(plan.stops);
      FrameInSequence(EventsOf(plan.frame, taken[n].state), plan.described);
      SequenceConcat(TakenScript(taken[..n]), PlanScript(plan));
      SequenceConcat(TakenScript(taken[..n]) + PlanScript(plan), frame);
    }
  }

  lemma MarksInSequence(actions: seq<Action>, r: nat)
    requires Runs(INITIAL, actions) && Idle(End(INITIAL, actions), r)
    ensures
      var marks := Marks(End(INITIAL, actions).log, r);
      marks != [] && marks[0] == Began && InSequence(marks)
  {
    hide Runs, End, Marks, TakenScript, InSequence;
    ReachableOnScript(actions, r);
    var w := End(INITIAL, actions);
    var rd := w.readers[r];
    assert Marks(w.log, r) == Marks(w.log, r) + Rest(rd);
    assert Marks(w.log, r) == [Began] + TakenScript(rd.taken);
    TakenInSequence(rd.taken);
    OneInSequence();
    SequenceConcat([Began], TakenScript(rd.taken));
  }

  lemma OneInSequence()
    ensures InSequence([Began])
  {
  }

  /**
   Between frames, whatever the others did in between: a reader began a turn first; after
   each turn-ending event it flushed, then released the waiter, then began the next turn;
   an init event it handled next; and each stop_task request led to another or to the
   frame's translation.
   */
  lemma TurnEndsAreFlushedFirst(actions: seq<Action>, r: nat, i: nat)
    requires Runs(INITIAL, actions) && Idle(End(INITIAL, actions), r)
    requires i < |Marks(End(INITIAL, actions).log, r)|
    ensures
      var marks := Marks(End(INITIAL, actions).log, r);
      && marks[0] == Began
      && (marks[i].Sent? && (marks[i].event.body.Result? || marks[i].event.body.Error?) ==>
            i + 3 < |marks| && marks[i + 1] == Flushed && marks[i + 2] == Released && marks[i + 3] == Began)
      && (marks[i].Sent? && marks[i].event.body == SystemNote("init") ==> i + 1 < |marks| && marks[i + 1] == Inited)
      && (marks[i] == Stopped ==> i + 1 < |marks| && marks[i + 1] in {Stopped, Translated})
  {
    hide Runs, End, Marks;
    MarksInSequence(actions, r);
    assert Followed(Marks(End(INITIAL, actions).log, r), i);
  }

  /** A reader that has gone flushed, handled the exit and released the waiter last; at a shutdown it released only. */
  lemma ExitsFlushFirst(actions: seq<Action>, r: nat)
    requires Runs(INITIAL, actions) && r in End(INITIAL, actions).readers
    requires End(INITIAL, actions).readers[r].pc == Gone
    ensures
      var marks, rd := Marks(End(INITIAL, actions).log, r), End(INITIAL, actions).readers[r];
      && rd.ending in {Eof, Cancelled}
      && (rd.ending == Eof ==> |marks| >= 3 && marks[|marks| - 3..] == [Flushed, Reaped, Released])
      && (rd.ending == Cancelled ==>
            marks != [] && marks[|marks| - 1] == Released
            && Count(marks, Flushed) == ResultsTaken(rd.taken) && Count(marks, Reaped) == 0)
  {
    hide Runs, End, Marks, TakenScript;
    ReachableOnScript(actions, r);
    var w := End(INITIAL, actions);
    var rd := w.readers[r];
    var marks := Marks(w.log, r);
    assert marks == marks + Rest(rd);
    assert marks == ([Began] + TakenScript(rd.taken)) + EndScript(rd.ending);
    if rd.ending == Cancelled {
      CountConcat([Began] + TakenScript(rd.taken), [Released], Flushed);
      CountConcat([Began], TakenScript(rd.taken), Flushed);
      CountInTaken(rd.taken, Flushed);
      CountOfOne(Began, Flushed);
      CountOfOne(Released, Flushed);
      NeverReaped(rd.taken);
      CountNone(marks, Reaped);
    }
  }

  lemma {:induction false} NeverReaped(taken: seq<Taken>)
    ensures Reaped !in TakenScript(taken)
  {
    hide EventsOf;
    if taken != [] {
      var n := |taken| - 1;
      NeverReaped(taken[..n]);
      StopsAreStops(taken[n].plan.stops);
      FrameIsNotReaped(EventsOf(taken[n].plan.frame, taken[n].state), taken[n].plan.described);
    }
  }

  lemma {:induction false} FrameIsNotReaped(events: seq<Event>, described: bool)
    ensures Reaped !in FrameScript(events, described)
  {
    if events != [] {
      FrameIsNotReaped(events[1..], described);
    }
  }

  /** The stop_task requests set off by the frames a reader took. */
  function StopsDue(taken: seq<Taken>): nat {
    if taken == [] then 0 else StopsDue(taken[..|taken| - 1]) + taken[|taken| - 1].plan.stops
  }

  lemma {:induction false} CountStops(n: nat)
    ensures Count(Stops(n), Stopped) == n
  {
    if n > 0 {
      CountStops(n - 1);
      assert Stops(n)[1..] == Stops(n - 1);
    }
  }

  lemma {:induction false} FrameWritesNoStops(events: seq<Event>, described: bool)
    ensures Stopped !in FrameScript(events, described) && Translated !in FrameScript(events, described)
  {
    if events != [] {
      FrameWritesNoStops(events[1..], described);
    }
  }

  lemma CountInPlan(plan: Plan)
    ensures Count(PlanScript(plan), Stopped) == plan.stops && Count(PlanScript(plan), Translated) == 1
  {
    CountStops(plan.stops);
    StopsAreStops(plan.stops);
    CountNone(Stops(plan.stops), Translated);
    CountConcat(Stops(plan.stops), [Translated], Stopped);
    CountConcat(Stops(plan.stops), [Translated], Translated);
    CountOfOne(Translated, Stopped);
    CountOfOne(Translated, Translated);
  }

  lemma {:induction false} CountPlans(taken: seq<Taken>, m: Mark)
    requires m in {Stopped, Translated}
    ensures Count(TakenScript(taken), m) == if m == Stopped then StopsDue(taken) else |taken|
  {
    hide EventsOf, FrameScript, PlanScript, Count;
    if taken == [] {
      CountNone([], m);
    } else {
      var n := |taken| - 1;
      var plan := taken[n].plan;
      var frame := FrameScript(EventsOf(plan.frame, taken[n].state), plan.described);
      CountPlans(taken[..n], m);
      CountInPlan(plan);
      FrameWritesNoStops(EventsOf(plan.frame, taken[n].state), plan.described);
      CountNone(frame, m);
      CountConcat(TakenScript(taken[..n]) + PlanScript(plan), frame, m);
      CountConcat(TakenScript(taken[..n]), PlanScript(plan), m);
    }
  }

  /** Between frames a reader has translated each frame once and written one stop_task request for each task to stop. */
  lemma OneStopPerWatcher(actions: seq<Action>, r: nat)
    requires Runs(INITIAL, actions) && Idle(End(INITIAL, actions), r)
    ensures
      var w := End(INITIAL, actions);
      && Count(Marks(w.log, r), Stopped) == StopsDue(w.readers[r].taken)
      && Count(Marks(w.log, r), Translated) == |w.readers[r].taken|
  {
    hide Runs, End, Marks, TakenScript, Count;
    ReachableOnScript(actions, r);
    var w := End(INITIAL, actions);
    var rd := w.readers[r];
    assert Marks(w.log, r) == Marks(w.log, r) + Rest(rd);
    assert Marks(w.log, r) == [Began] + TakenScript(rd.taken);
    forall m | m in {Stopped, Translated}
      ensures Count(Marks(w.log, r), m) == if m == Stopped then StopsDue(rd.taken) else |rd.taken|
    {
      CountPlans(rd.taken, m);
      CountConcat([Began], TakenScript(rd.taken), m);
      CountOfOne(Began, m);
    }
  }

  /** Handling an init frame makes its session id the reader's own, and no other step of a reader changes that id. */
  lemma InitSetsTheSession(w: World, r: nat)
    requires Enabled(w, Step(r))
    ensures
      var rd := w.readers[r];
      Do(w, Step(r)).sessionID
      == if rd.pc.AtInit? && rd.plan.frame.Frame? && rd.plan.frame.sessionID != "" then rd.plan.frame.sessionID
         else w.sessionID
  {
    hide EventsOf, AggregatorAfter, ItemOf, NextPc, After;
  }

  // ------------------------------------------------------------------
  // Waiters

  /** No channel is closed twice, and the only open one is the current one. */
  lemma WaitersStaySound(actions: seq<Action>)
    requires Runs(INITIAL, actions)
    ensures Sound(End(INITIAL, actions).waiters)
  {
    InitialInv();
    RunsKeepInv(INITIAL, actions);
  }

  lemma DoMovesForward(w: World, a: Action)
    requires Sound(w.waiters) && Enabled(w, a)
    ensures Sound(Do(w, a).waiters) && Later(w.waiters, Do(w, a).waiters) && w.log <= Do(w, a).log
    ensures forall q | |w.log| <= q < |Do(w, a).log| && IsRelease(Do(w, a).log[q]) ::
              forall c | 0 <= c < w.waiters.made :: Closed(Do(w, a).waiters, c)
  {
    hide Sound, Registered, Signalled, Closed, NextPc;
    RegisterIsSound(w.waiters);
    SignalIsSound(w.waiters);
  }

  predicate IsRelease(item: Item) {
    item.By? && item.mark == Released
  }

  /** A waiter handed out before a release is closed from then on. */
  lemma {:induction false} ReleaseClosesEarlierWaiters(w: World, actions: seq<Action>, q: nat, c: nat)
    requires Sound(w.waiters) && Runs(w, actions)
    requires c < w.waiters.made
    requires |w.log| <= q < |End(w, actions).log| && IsRelease(End(w, actions).log[q])
    ensures Closed(End(w, actions).waiters, c)
    decreases |actions|
  {
    hide Sound, Do;
    if actions != [] {
      var next := Do(w, actions[0]);
      DoMovesForward(w, actions[0]);
      RunsMoveForward(next, actions[1..]);
      if q < |next.log| {
        assert next.log[q] == End(w, actions).log[q];
        assert Closed(next.waiters, c);
        ClosedStays(next.waiters, End(w, actions).waiters, c);
      } else {
        ReleaseClosesEarlierWaiters(next, actions[1..], q, c);
      }
    }
  }

  lemma ClosedStays(w: Waiters, v: Waiters, c: nat)
    requires Later(w, v) && Closed(w, c)
    ensures Closed(v, c)
  {
    var i :| 0 <= i < |w.closes| && w.closes[i] == c;
    assert v.closes[i] == c;
  }

  lemma {:induction false} RunsMoveForward(w: World, actions: seq<Action>)
    requires Sound(w.waiters) && Runs(w, actions)
    ensures Sound(End(w, actions).waiters) && Later(w.waiters, End(w, actions).waiters)
    ensures w.log <= End(w, actions).log
    decreases |actions|
  {
    hide Sound, Do;
    if actions != [] {
      DoMovesForward(w, actions[0]);
      RunsMoveForward(Do(w, actions[0]), actions[1..]);
    }
  }

  /**
   A waiter armed before a turn-ending event goes out is closed by the time that
   event's reader has gone past the boundary.
   */
  lemma TurnEndClosesEarlierWaiters(before: seq<Action>, after: seq<Action>, p: nat, c: nat)
    requires Runs(INITIAL, before) && Runs(End(INITIAL, before), after)
    requires c < End(INITIAL, before).waiters.made
    requires
      var w := End(End(INITIAL, before), after);
      && |End(INITIAL, before).log| <= p < |w.log|
      && EndsTurn(w.log[p])
      && (w.log[p].reader in w.readers ==>
            !w.readers[w.log[p].reader].pc.AtFlush? && !w.readers[w.log[p].reader].pc.AtRelease?)
    ensures Closed(End(End(INITIAL, before), after).waiters, c)
  {
    hide Sound, OnScript, InOrder;
    InitialInv();
    RunsKeepInv(INITIAL, before);
    var w0 := End(INITIAL, before);
    RunsKeepInv(w0, after);
    var w := End(w0, after);
    assert Settled(w);
    assert ReleasedSince(w, p, w.log[p].reader);
    var q :| p < q < |w.log| && w.log[q] == By(w.log[p].reader, Released);
    ReleaseClosesEarlierWaiters(w0, after, q, c);
  }

  /** A waiter armed before a reader goes away is closed once it has. */
  lemma {:induction false} ExitClosesEarlierWaiters(w: World, actions: seq<Action>, r: nat, c: nat)
    requires Inv(w) && Runs(w, actions)
    requires r in w.readers && w.readers[r].pc != Gone
    requires c < w.waiters.made
    requires r in End(w, actions).readers && End(w, actions).readers[r].pc == Gone
    ensures Closed(End(w, actions).waiters, c)
    decreases |actions|
  {
    hide Inv;
    if actions != [] {
      var next := Do(w, actions[0]);
      DoKeepsInv(w, actions[0]);
      SoundInInv(w);
      SoundInInv(next);
      DoMovesForward(w, actions[0]);
      GoneByRelease(w, actions[0], r);
      hide Do, Enabled;
      RunsMoveForward(next, actions[1..]);
      if next.readers[r].pc == Gone {
        assert IsRelease(next.log[|w.log|]);
        assert Closed(next.waiters, c);
        ClosedStays(next.waiters, End(w, actions).waiters, c);
      } else {
        ExitClosesEarlierWaiters(next, actions[1..], r, c);
      }
    }
  }

  lemma GoneByRelease(w: World, a: Action, r: nat)
    requires Inv(w) && Enabled(w, a) && r in w.readers && w.readers[r].pc != Gone
    ensures r in Do(w, a).readers
    ensures Do(w, a).readers[r].pc == Gone ==> |w.log| < |Do(w, a).log| && Do(w, a).log[|w.log|] == By(r, Released)
  {
    hide Inv, EventsOf, AsEmitted;
  }

  lemma KeptByInv(w: World, r: nat)
    requires Inv(w) && r in w.readers
    ensures OnScript(w, r) && InOrder(w, w.readers[r].taken)
  {
    hide OnScript, InOrder, Settled, Sound;
  }

  lemma SoundInInv(w: World)
    requires Inv(w)
    ensures Sound(w.waiters)
  {
  }

  /**
   A waiter need not wait for its own turn: one armed while an unprompted turn's
   result is on its way out is released by that turn's boundary.
   */
  lemma ReleasedByAnotherTurn(f: Frame)
    requires IsResult(f)
    ensures
      var unprompted := [Spawn(0), Step(0), Take(0, Plan(f, 0, false, 0)), Step(0), Step(0)];
      var boundary := [Step(0), Step(0)];
      && Runs(INITIAL, unprompted + [Register] + boundary)
      && var w := End(INITIAL, unprompted + [Register] + boundary);
      && w.frames == [f]
      && Closed(w.waiters, 0)
  {
    var unprompted := [Spawn(0), Step(0), Take(0, Plan(f, 0, false, 0)), Step(0), Step(0)];
    var run := unprompted + [Register] + [Step(0), Step(0)];
    UnpromptedResultGoesOut(run, f);
    hide Runs, End, EventsOf, IsResult, ItemOf;
    assert run[5] == Register && run[6] == Step(0) && run[7] == Step(0);
    RunsOneMore(INITIAL, run, 5);
    RunsOneMore(INITIAL, run, 6);
    RunsOneMore(INITIAL, run, 7);
    assert run[..8] == run;
  }

  /** Reader 0 of the first process has met its first frame. */
  function FirstFrame(plan: Plan): World {
    INITIAL.(
      readers := map[0 := Reader(if plan.stops > 0 then Stopping(plan.stops) else Translating, plan, [], [], Reading)],
      log := [By(0, Began)])
  }

  lemma FirstFrameIsMet(plan: Plan, run: seq<Action>)
    requires |run| >= 3 && run[0] == Spawn(0) && run[1] == Step(0) && run[2] == Take(0, plan)
    ensures Runs(INITIAL, run[..3]) && End(INITIAL, run[..3]) == FirstFrame(plan)
  {
    assert run[..0] == [];
    RunsOneMore(INITIAL, run, 0);
    RunsOneMore(INITIAL, run, 1);
    RunsOneMore(INITIAL, run, 2);
  }

  lemma FirstTranslation(plan: Plan)
    requires plan.stops == 0
    ensures
      var w, out := Do(FirstFrame(plan), Step(0)), EventsOf(plan.frame, StateOf(INITIAL));
      && 0 in w.readers
      && (out != [] ==> w.readers[0].pc == AtEvent(0)) && w.readers[0].out == out && w.readers[0].plan == plan
      && w.waiters == INITIAL.waiters && w.writing == {} && w.frames == [plan.frame]
  {
    hide EventsOf, AggregatorAfter;
    assert StateOf(FirstFrame(plan)) == StateOf(INITIAL);
  }

  lemma UnpromptedResultGoesOut(run: seq<Action>, f: Frame)
    requires |run| > 5 && IsResult(f)
    requires run[..5] == [Spawn(0), Step(0), Take(0, Plan(f, 0, false, 0)), Step(0), Step(0)]
    ensures Runs(INITIAL, run[..5])
    ensures
      var w := End(INITIAL, run[..5]);
      && 0 in w.readers
      && w.readers[0].pc == AtFlush(0) && w.readers[0].out != []
      && w.waiters == Waiters(NO_WAITER, 0, [])
      && w.frames == [f]
  {
    hide EventsOf, IsResult, ItemOf, Runs, End, FirstFrame, TranslatedBy;
    BoundaryOfFrame(f, StateOf(INITIAL));
    assert run[0] == run[..5][0] && run[1] == run[..5][1] && run[2] == run[..5][2];
    assert run[3] == run[..5][3] && run[4] == run[..5][4];
    FirstFrameIsMet(Plan(f, 0, false, 0), run);
    FirstFrameIsBusy(Plan(f, 0, false, 0));
    FirstTranslation(Plan(f, 0, false, 0));
    RunsOneMore(INITIAL, run, 3);
    RunsOneMore(INITIAL, run, 4);
  }

  lemma FirstFrameIsBusy(plan: Plan)
    ensures Enabled(FirstFrame(plan), Step(0))
  {
  }

  // ------------------------------------------------------------------
  // Progress

  /**
   A reader with something to do is held up exactly where it writes to its process's
   stdin while a request is writing there, and nowhere else.
   */
  lemma ReaderIsHeldUpIff(w: World, r: nat)
    requires Inv(w) && r in w.readers && w.readers[r].pc !in {Waiting, Gone}
    ensures !Enabled(w, Step(r)) <==> WritesNext(w.readers[r].pc) && r in w.writing
  {
    hide Marks, Script, Rest;
    assert OnScript(w, r);
  }

  /** The frames for which a reader writes to its process's stdin. */
  predicate Writes(plan: Plan) {
    plan.stops > 0 || (plan.described && IsInit(plan.frame))
  }

  /** In every run a frame that makes its reader write nothing never holds it up. */
  lemma HeldUpFramesWrite(w: World, r: nat)
    requires Inv(w) && r in w.readers && w.readers[r].pc !in {Waiting, Gone} && !Enabled(w, Step(r))
    ensures Writes(w.readers[r].plan)
  {
    hide Marks, Script, Rest, EventsOf;
    ReaderIsHeldUpIff(w, r);
    assert OnScript(w, r);
    var rd := w.readers[r];
    if rd.pc.AtAsk? {
      var t := rd.taken[|rd.taken| - 1];
      OnlyInitsHaveInitEvents(t.plan.frame, t.state, rd.pc.i);
    }
  }

  lemma OnlyInitsHaveInitEvents(f: Frame, s: State, i: nat)
    requires i < |EventsOf(f, s)| && IsInitEvent(EventsOf(f, s)[i])
    ensures IsInit(f)
  {
    match f.kind {
      case Assistant(Some(message)) => AssistantBodiesAreNoNotes(message.content, message.id);
      case User(Some(content)) => OutputBodiesAreNoNotes(BlocksOf(content));
      case _ =>
    }
  }

  ghost predicate NoNotes(bodies: seq<Body>) {
    forall i | 0 <= i < |bodies| :: !bodies[i].SystemNote?
  }

  lemma {:induction false} AssistantBodiesAreNoNotes(content: seq<AssistantBlock>, id: string)
    ensures NoNotes(AssistantBodies(content, id))
  {
    if content != [] {
      AssistantBodiesAreNoNotes(content[..|content| - 1], id);
    }
  }

  lemma {:induction false} OutputBodiesAreNoNotes(blocks: seq<UserBlock>)
    ensures NoNotes(OutputBodies(blocks))
  {
    if blocks != [] {
      OutputBodiesAreNoNotes(blocks[..|blocks| - 1]);
    }
  }

  /** A step of this reader, or one that gives it a frame or its end. */
  predicate Moves(a: Action, r: nat) {
    (a.Take? || a.EndOfFile? || a.Cancel? || a.Step?) && a.r == r
  }

  /** Nothing the dispatcher, the watchdog or another reader does changes where a reader stands. */
  lemma OthersLeaveAReaderBe(w: World, a: Action, r: nat)
    requires Enabled(w, a) && r in w.readers && !Moves(a, r)
    ensures r in Do(w, a).readers && Do(w, a).readers[r] == w.readers[r]
  {
    hide EventsOf, AggregatorAfter, ItemOf, NextPc, After;
  }

  /** Held up, a reader stays where it is through anything that happens until that write ends. */
  lemma {:induction false} HeldUpUntilTheWriteEnds(w: World, actions: seq<Action>, r: nat)
    requires r in w.readers && WritesNext(w.readers[r].pc) && r in w.writing
    requires Runs(w, actions) && EndWrite(r) !in actions
    ensures
      var w' := End(w, actions);
      r in w'.readers && w'.readers[r] == w.readers[r] && r in w'.writing && !Enabled(w', Step(r))
    decreases |actions|
  {
    if actions != [] {
      var a := actions[0];
      assert a in actions;
      OthersLeaveAReaderBe(w, a, r);
      WritesStay(w, a, r);
      hide Do;
      HeldUpUntilTheWriteEnds(Do(w, a), actions[1..], r);
    }
  }

  lemma WritesStay(w: World, a: Action, r: nat)
    requires Enabled(w, a) && r in w.writing && a != EndWrite(r)
    ensures r in Do(w, a).writing
  {
    hide EventsOf, AggregatorAfter, ItemOf, NextPc, After;
  }

  function OwnSteps(actions: seq<Action>, r: nat): nat {
    if actions == [] then 0 else (if actions[0] == Step(r) then 1 else 0) + OwnSteps(actions[1..], r)
  }

  predicate GivesNothing(actions: seq<Action>, r: nat) {
    forall a | a in actions :: Moves(a, r) ==> a == Step(r)
  }

  lemma OneLessToDo(rd: Reader)
    requires WellPlaced(rd) && Busy(rd) && rd.pc != Translating
    ensures |Rest(rd.(pc := NextPc(rd)))| == |Rest(rd)| - 1
    ensures Ahead(NextPc(rd)) <==> Ahead(rd.pc)
  {
    hide Rest, MarkOf, NextPc, WellPlaced, Ahead;
    StepStaysPlaced(rd);
    StepFollowsScript(rd);
  }

  /**
   Under any interleaving a reader gets through its script one mark for each of its
   own steps, whatever the others do in between: a frame, once translated, is done
   after exactly as many of them as its script has marks.
   */
  lemma {:induction false} ReaderProgresses(w: World, actions: seq<Action>, r: nat)
    requires Inv(w) && Runs(w, actions) && r in w.readers && GivesNothing(actions, r)
    requires
      var left := |Rest(w.readers[r])|;
      if Ahead(w.readers[r].pc) then OwnSteps(actions, r) < left else OwnSteps(actions, r) <= left
    ensures
      var rd' := End(w, actions).readers;
      && r in rd'
      && |Rest(rd'[r])| == |Rest(w.readers[r])| - OwnSteps(actions, r)
      && (Ahead(rd'[r].pc) <==> Ahead(w.readers[r].pc))
      && rd'[r].taken == w.readers[r].taken
      && (Rest(rd'[r]) == [] <==> rd'[r].pc in {Waiting, Gone})
    decreases |actions|
  {
    hide Inv, Rest, Ahead;
    RestIsEmptyIff(w, r);
    if actions != [] {
      var a := actions[0];
      assert a in actions;
      DoKeepsInv(w, a);
      if a == Step(r) {
        OwnStepProgresses(w, r);
      } else {
        OthersLeaveAReaderBe(w, a, r);
      }
      hide Do, Enabled;
      assert forall b | b in actions[1..] :: b in actions;
      ReaderProgresses(Do(w, a), actions[1..], r);
    }
  }

  lemma OwnStepProgresses(w: World, r: nat)
    requires Inv(w) && Enabled(w, Step(r))
    requires Ahead(w.readers[r].pc) ==> |Rest(w.readers[r])| > 1
    ensures
      var rd, rd' := w.readers[r], Do(w, Step(r)).readers[r];
      && |Rest(rd')| == |Rest(rd)| - 1
      && (Ahead(rd'.pc) <==> Ahead(rd.pc))
      && rd'.taken == rd.taken
  {
    hide Inv, NextPc, MarkOf, ItemOf, SessionAfter;
    RestIsEmptyIff(w, r);
    OneLessToDoHere(w, r);
  }

  lemma OneLessToDoHere(w: World, r: nat)
    requires r in w.readers && WellPlaced(w.readers[r]) && Busy(w.readers[r]) && w.readers[r].pc != Translating
    ensures
      var rd, rd' := w.readers[r], StepBy(w, r).readers[r];
      && |Rest(rd')| == |Rest(rd)| - 1
      && (Ahead(rd'.pc) <==> Ahead(rd.pc))
      && rd'.taken == rd.taken
  {
    hide Rest, NextPc, MarkOf, ItemOf, SessionAfter, WellPlaced, Ahead;
    OneLessToDo(w.readers[r]);
  }

  lemma RestIsEmptyIff(w: World, r: nat)
    requires Inv(w) && r in w.readers
    ensures WellPlaced(w.readers[r])
    ensures Rest(w.readers[r]) == [] <==> w.readers[r].pc in {Waiting, Gone}
  {
    assert OnScript(w, r);
    RestIsEmptyAtRest(w.readers[r]);
  }

  lemma RestIsEmptyAtRest(rd: Reader)
    requires InFrame(rd.pc) ==> rd.pc.i < |rd.out|
    ensures Rest(rd) == [] <==> rd.pc in {Waiting, Gone}
  {
    if rd.pc.AtEvent? {
      assert rd.out[rd.pc.i..][0] == rd.out[rd.pc.i];
    }
  }

  /** The step that translates leaves exactly the frame's script to do. */
  lemma TranslationOpensTheFrame(w: World, r: nat)
    requires r in w.readers && w.readers[r].pc == Translating
    ensures
      var plan := w.readers[r].plan;
      && Enabled(w, Step(r))
      && Rest(Do(w, Step(r)).readers[r]) == FrameScript(EventsOf(plan.frame, StateOf(w)), plan.described)
  {
    hide EventsOf, AggregatorAfter, FrameScript;
    var rd' := Do(w, Step(r)).readers[r];
    assert rd'.out[0..] == rd'.out;
    EmptyFrame(w.readers[r].plan.described);
  }

  lemma EmptyFrame(described: bool)
    ensures FrameScript([], described) == []
  {
  }
}
