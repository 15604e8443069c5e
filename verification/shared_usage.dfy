/**
 Readers that overlap share one aggregator, whose array a result still to be emitted
 is a view of. What such a result's per-call list reads as when it goes out, exactly,
 and when that is the list of its turn's calls.
 */
module SharedUsage {
  import opened Options
  import opened StreamTranslation
  import opened TurnMachine
  import opened TurnProtocol
  import opened Usage

  // ------------------------------------------------------------------
  // What lands in an array after its slice was cut back to nothing

  /** The next slot, or -1 once the slice has moved to another array; and what was written last in each slot. */
  datatype Landing = Landing(next: int, slots: map<int, CallUsage>)

  /** The frames translated since, with the array's room. */
  function Landed(room: nat, frames: seq<Frame>): Landing {
    if frames == [] then Landing(0, map[])
    else
      var f, l := frames[|frames| - 1], Landed(room, frames[..|frames| - 1]);
      if l.next < 0 then l
      else if IsResult(f) then l.(next := 0)
      else if IsCall(f) then
        if l.next < room then Landing(l.next + 1, l.slots[l.next := f.kind.message.value.usage]) else l.(next := -1)
      else l
  }

  /** The calls with whatever landed in their slots. */
  function Overlaid(calls: seq<CallUsage>, slots: map<int, CallUsage>): seq<CallUsage> {
    seq(|calls|, s requires 0 <= s < |calls| => if s in slots then slots[s] else calls[s])
  }

  /** Nothing else landed on a call than the same usage. */
  predicate Harmless(calls: seq<CallUsage>, slots: map<int, CallUsage>) {
    forall s | s in slots :: 0 <= s < |calls| ==> slots[s] == calls[s]
  }

  lemma OverlaidIff(calls: seq<CallUsage>, slots: map<int, CallUsage>)
    ensures Overlaid(calls, slots) == calls <==> Harmless(calls, slots)
  {
    if Overlaid(calls, slots) == calls {
      forall s | s in slots && 0 <= s < |calls|
        ensures slots[s] == calls[s]
      {
        assert Overlaid(calls, slots)[s] == calls[s];
      }
    }
  }

  /** With room for any call, the first slot is written exactly when any call arrived. */
  lemma {:induction false} FirstSlotIff(room: nat, frames: seq<Frame>)
    requires room > 0
    ensures 0 in Landed(room, frames).slots <==> exists k :: 0 <= k < |frames| && IsCall(frames[k])
    ensures 0 !in Landed(room, frames).slots ==> Landed(room, frames) == Landing(0, map[])
  {
    if frames != [] {
      var n := |frames| - 1;
      FirstSlotIff(room, frames[..n]);
      assert forall k | 0 <= k < n :: frames[..n][k] == frames[k];
      if exists k :: 0 <= k < n && IsCall(frames[..n][k]) {
        var k :| 0 <= k < n && IsCall(frames[..n][k]);
        assert IsCall(frames[k]);
      }
    }
  }

  // ------------------------------------------------------------------
  // The invariant

  /** The array a result's list is in holds its calls and what has landed since. */
  ghost predicate Viewed(w: World, t: Taken) {
    && t.at < |w.frames|
    && t.buffer < |w.agg.arrays|
    && |w.agg.arrays[t.buffer]| == t.room
    && |t.state.calls| <= t.room
    && var l := Landed(t.room, w.frames[t.at + 1..]);
    && (if l.next >= 0 then t.buffer == w.agg.cur && w.agg.len == l.next else t.buffer < w.agg.cur)
    && l.next <= t.room
    && ReadView(w.agg, t.buffer, |t.state.calls|) == Overlaid(t.state.calls, l.slots)
  }

  ghost predicate ViewsHold(w: World) {
    forall r, k | r in w.readers && 0 <= k < |w.readers[r].taken| && IsResult(w.readers[r].taken[k].plan.frame) ::
      Viewed(w, w.readers[r].taken[k])
  }

  /** What had landed in a result's array when an event of it went out. */
  function LandedBy(w: World, t: Taken, when: nat): map<int, CallUsage> {
    Landed(t.room, Since(w, t, when)).slots
  }

  /** The frames translated after t, up to the first `when` of all. */
  function Since(w: World, t: Taken, when: nat): seq<Frame> {
    if t.at < when <= |w.frames| then w.frames[t.at + 1..when] else []
  }

  ghost predicate SaidRight(w: World, item: Item) {
    item.Said? ==>
      && item.reader in w.readers
      && var taken := w.readers[item.reader].taken;
      && item.of < |taken|
      && var t := taken[item.of];
      && t.at < item.when <= |w.frames|
      && item.due in EventsOf(t.plan.frame, t.state)
      && (!item.due.body.Result? ==> item.event == item.due)
      && (item.due.body.Result? ==>
            && IsResult(t.plan.frame)
            && item.due.body.calls == Listed(t.state.calls)
            && item.event == item.due.(body := item.due.body.(
                 calls := Listed(Overlaid(t.state.calls, LandedBy(w, t, item.when))))))
  }

  ghost predicate LogRight(w: World) {
    forall p | 0 <= p < |w.log| :: SaidRight(w, w.log[p])
  }

  ghost predicate UsageInv(w: World) {
    ViewsHold(w) && LogRight(w)
  }

  lemma LandedNext(room: nat, frames: seq<Frame>, at: nat, f: Frame)
    requires at < |frames|
    ensures (frames + [f])[at + 1..] == frames[at + 1..] + [f]
    ensures (frames[at + 1..] + [f])[..|frames[at + 1..]|] == frames[at + 1..]
  {
  }

  /** A frame some reader translates writes to an earlier result's array what Landed says. */
  lemma TranslationKeepsView(w: World, r: nat, t: Taken)
    requires r in w.readers && Viewed(w, t)
    ensures Viewed(TranslatedBy(w, r), t)
  {
    hide EventsOf, Overlaid;
    var w' := TranslatedBy(w, r);
    var f := w.readers[r].plan.frame;
    LandedNext(t.room, w.frames, t.at, f);
    var l, l' := Landed(t.room, w.frames[t.at + 1..]), Landed(t.room, w'.frames[t.at + 1..]);
    if l.next >= 0 && IsCall(f) && l.next < t.room {
      OverlaidNext(t.state.calls, l.slots, l.next, f.kind.message.value.usage);
      var calls := Overlaid(t.state.calls, l.slots);
      assert ReadView(w'.agg, t.buffer, |t.state.calls|)
          == if l.next < |t.state.calls| then calls[l.next := f.kind.message.value.usage] else calls;
    } else {
      assert w'.agg.arrays[t.buffer] == w.agg.arrays[t.buffer];
    }
  }

  lemma OverlaidNext(calls: seq<CallUsage>, slots: map<int, CallUsage>, next: nat, usage: CallUsage)
    ensures |Overlaid(calls, slots)| == |calls|
    ensures Overlaid(calls, slots[next := usage])
         == if next < |calls| then Overlaid(calls, slots)[next := usage] else Overlaid(calls, slots)
  {
  }

  /** A result just translated: its array holds its calls and nothing has landed. */
  lemma ResultIsViewed(w: World, r: nat)
    requires r in w.readers && IsResult(w.readers[r].plan.frame)
    ensures Viewed(TranslatedBy(w, r), TakenNow(w, w.readers[r].plan))
  {
    hide EventsOf;
    var w', t := TranslatedBy(w, r), TakenNow(w, w.readers[r].plan);
    assert w'.frames[t.at + 1..] == [];
    assert Overlaid(t.state.calls, map[]) == t.state.calls;
  }

  lemma SaidStaysRight(w: World, w': World, item: Item)
    requires SaidRight(w, item)
    requires w.frames <= w'.frames
    requires forall r | r in w.readers :: r in w'.readers && w.readers[r].taken <= w'.readers[r].taken
    ensures SaidRight(w', item)
  {
    hide EventsOf, Landed, Overlaid;
    if item.Said? {
      var t := w.readers[item.reader].taken[item.of];
      assert w'.readers[item.reader].taken[item.of] == t;
      assert w'.frames[t.at + 1..item.when] == w.frames[t.at + 1..item.when];
    }
  }

  /** Steps only add to what has been translated and to the log. */
  lemma DoExtends(w: World, a: Action)
    requires Enabled(w, a)
    ensures w.frames <= Do(w, a).frames && w.log <= Do(w, a).log && |Do(w, a).log| <= |w.log| + 1
    ensures forall r | r in w.readers :: r in Do(w, a).readers && w.readers[r].taken <= Do(w, a).readers[r].taken
  {
    hide EventsOf, AggregatorAfter, ItemOf, NextPc, SessionAfter, After;
  }

  /** Other than by translating, a step leaves the arrays and the frames alone. */
  lemma OnlyTranslationTouchesUsage(w: World, a: Action)
    requires Enabled(w, a) && !(a.Step? && w.readers[a.r].pc == Translating)
    ensures Do(w, a).agg == w.agg && Do(w, a).frames == w.frames
    ensures forall r | r in Do(w, a).readers ::
              Do(w, a).readers[r].taken == if r in w.readers then w.readers[r].taken else []
  {
    hide EventsOf, ItemOf, NextPc, SessionAfter;
  }

  lemma DoKeepsViews(w: World, a: Action)
    requires ViewsHold(w) && Enabled(w, a)
    ensures ViewsHold(Do(w, a))
  {
    hide EventsOf, AggregatorAfter, Viewed, ItemOf, NextPc, After;
    var w' := Do(w, a);
    if a.Step? && w.readers[a.r].pc == Translating {
      forall r, k | r in w'.readers && 0 <= k < |w'.readers[r].taken| && IsResult(w'.readers[r].taken[k].plan.frame)
        ensures Viewed(w', w'.readers[r].taken[k])
      {
        if k < |w.readers[r].taken| {
          assert w'.readers[r].taken[k] == w.readers[r].taken[k];
          TranslationKeepsView(w, a.r, w.readers[r].taken[k]);
        } else {
          ResultIsViewed(w, a.r);
        }
      }
    } else {
      OnlyTranslationTouchesUsage(w, a);
      forall r, k | r in w'.readers && 0 <= k < |w'.readers[r].taken| && IsResult(w'.readers[r].taken[k].plan.frame)
        ensures Viewed(w', w'.readers[r].taken[k])
      {
        SameUsageSameView(w, w', w.readers[r].taken[k]);
      }
    }
  }

  lemma SameUsageSameView(w: World, w': World, t: Taken)
    requires Viewed(w, t) && w'.agg == w.agg && w'.frames == w.frames
    ensures Viewed(w', t)
  {
  }

  lemma EmittingReader(w: World, r: nat)
    requires Inv(w) && r in w.readers && w.readers[r].pc.AtEvent?
    ensures
      var rd := w.readers[r];
      && rd.pc.i < |rd.out|
      && rd.taken != []
      && var t := rd.taken[|rd.taken| - 1];
      && rd.out == EventsOf(t.plan.frame, t.state)
      && t.at < |w.frames|
  {
    hide Marks, Script, Rest, StateAfter, EventsOf, Inv;
    KeptByInv(w, r);
  }

  /** The item a step logs says what left and what was due. */
  lemma NewItemIsRight(w: World, r: nat)
    requires Inv(w) && ViewsHold(w) && Enabled(w, Step(r)) && w.readers[r].pc != Translating
    ensures SaidRight(w, ItemOf(w, r, w.readers[r]))
  {
    hide Inv, Viewed, EventsOf, Landed, Overlaid, ReadView, NextPc;
    var rd := w.readers[r];
    if rd.pc.AtEvent? {
      EmittingReader(w, r);
      var t := rd.taken[|rd.taken| - 1];
      var due := rd.out[rd.pc.i];
      if due.body.Result? {
        DueResult(t.plan.frame, t.state, due);
        ReadIsOverlaid(w, t);
      }
    }
  }

  lemma ReadIsOverlaid(w: World, t: Taken)
    requires Viewed(w, t)
    ensures t.at < |w.frames|
    ensures ReadView(w.agg, t.buffer, |t.state.calls|) == Overlaid(t.state.calls, LandedBy(w, t, |w.frames|))
  {
    hide Landed, Overlaid, ReadView;
    assert w.frames[t.at + 1..] == w.frames[t.at + 1..|w.frames|];
  }

  lemma DueResult(f: Frame, s: State, due: Event)
    requires due in EventsOf(f, s) && due.body.Result?
    ensures IsResult(f) && due.body.calls == Listed(s.calls)
  {
    if !IsResult(f) {
      OtherFramesArePlain(f, s);
    } else {
      assert forall b | b in DenialBodies(f.kind.result.denials) :: b.Denied?;
    }
  }

  lemma DoKeepsLog(w: World, a: Action)
    requires Inv(w) && UsageInv(w) && Enabled(w, a)
    ensures LogRight(Do(w, a))
  {
    hide Inv, SaidRight, ViewsHold, ItemOf;
    var w' := Do(w, a);
    DoExtends(w, a);
    forall p | 0 <= p < |w'.log|
      ensures SaidRight(w', w'.log[p])
    {
      if p < |w.log| {
        assert w'.log[p] == w.log[p];
        SaidStaysRight(w, w', w.log[p]);
      } else if a.Step? && w.readers[a.r].pc != Translating {
        NewItemIsRight(w, a.r);
        SaidStaysRight(w, w', w'.log[p]);
      } else {
        UnsaidIsRight(w', w'.log[p]);
      }
    }
  }

  lemma UnsaidIsRight(w: World, item: Item)
    requires !item.Said?
    ensures SaidRight(w, item)
  {
  }

  lemma {:induction false} RunsKeepUsage(w: World, actions: seq<Action>)
    requires Inv(w) && UsageInv(w) && Runs(w, actions)
    ensures UsageInv(End(w, actions))
    decreases |actions|
  {
    hide Inv, Do, ViewsHold, LogRight;
    if actions != [] {
      DoKeepsInv(w, actions[0]);
      DoKeepsViews(w, actions[0]);
      DoKeepsLog(w, actions[0]);
      RunsKeepUsage(Do(w, actions[0]), actions[1..]);
    }
  }

  lemma InitialUsage()
    ensures UsageInv(INITIAL)
  {
  }

  lemma ReachableUsage(actions: seq<Action>)
    requires Runs(INITIAL, actions)
    ensures Inv(End(INITIAL, actions)) && UsageInv(End(INITIAL, actions))
  {
    hide Inv, UsageInv;
    InitialInv();
    InitialUsage();
    RunsKeepInv(INITIAL, actions);
    RunsKeepUsage(INITIAL, actions);
  }

  // ------------------------------------------------------------------
  // What goes out

  predicate IsResultSaid(w: World, p: nat) {
    p < |w.log| && w.log[p].Said? && w.log[p].due.body.Result?
  }

  /** The frame an emitted result was translated from. */
  function SourceOf(w: World, p: nat): Taken {
    if IsResultSaid(w, p) && w.log[p].reader in w.readers && w.log[p].of < |w.readers[w.log[p].reader].taken|
    then w.readers[w.log[p].reader].taken[w.log[p].of]
    else Taken(NO_PLAN, 0, StateOf(w), 0, 0)
  }

  /**
   A result's list as it goes out is the usages of readable assistant frames since the
   previous result, by all readers together, with the calls that landed in the same
   slots since laid over them; it is the turn's own list if and only if every call
   that landed on one of them is the same usage.
   */
  lemma EmittedListIs(actions: seq<Action>, p: nat, i: nat)
    requires Runs(INITIAL, actions) && IsResultSaid(End(INITIAL, actions), p)
    requires
      var w := End(INITIAL, actions);
      var t := SourceOf(w, p);
      i <= t.at <= |w.frames| && TurnBegan(w.frames, i, t.at)
    ensures
      var w := End(INITIAL, actions);
      var t, item := SourceOf(w, p), w.log[p];
      var turn := UsagesOf(w.frames[i..t.at]);
      var landed := LandedBy(w, t, item.when);
      && item.due.body.calls == Listed(turn)
      && item.event == item.due.(body := item.due.body.(calls := Listed(Overlaid(turn, landed))))
      && (item.event == item.due <==> Harmless(turn, landed))
  {
    hide Settled, Overlaid, Landed, UsagesOf, TurnBegan, Harmless, OnScript, Viewed, EventsOf;
    ReachableUsage(actions);
    var w := End(INITIAL, actions);
    var t, item := SourceOf(w, p), w.log[p];
    assert InOrder(w, w.readers[item.reader].taken);
    CallsSinceResult(w.frames, "", i, t.at);
    OverlaidIff(t.state.calls, LandedBy(w, t, item.when));
  }

  lemma {:induction false} NoCallsNothingLands(room: nat, frames: seq<Frame>)
    requires forall k | 0 <= k < |frames| :: !IsCall(frames[k])
    ensures Landed(room, frames) == Landing(0, map[])
  {
    if frames != [] {
      assert forall k | 0 <= k < |frames| - 1 :: frames[..|frames| - 1][k] == frames[k];
      NoCallsNothingLands(room, frames[..|frames| - 1]);
    }
  }

  /**
   On the list of a turn that had calls something landed exactly when some reader
   translated a call between this result's translation and its emission. Without one,
   as with a reader that has no overlap, the result goes out as it was translated.
   */
  lemma SomethingLandsIff(actions: seq<Action>, p: nat)
    requires Runs(INITIAL, actions) && IsResultSaid(End(INITIAL, actions), p)
    ensures
      var w := End(INITIAL, actions);
      var t, item := SourceOf(w, p), w.log[p];
      var between := exists f :: f in Since(w, t, item.when) && IsCall(f);
      && (t.state.calls != [] ==> (0 in LandedBy(w, t, item.when) <==> between))
      && (!between ==> LandedBy(w, t, item.when) == map[] && item.event == item.due)
  {
    hide Overlaid, Landed, EventsOf, Inv;
    ReachableUsage(actions);
    var w := End(INITIAL, actions);
    var item := w.log[p];
    assert SaidRight(w, item);
    var t := SourceOf(w, p);
    assert Viewed(w, t);
    var since := Since(w, t, item.when);
    if t.state.calls != [] {
      FirstSlotIff(t.room, since);
    }
    assert forall k | 0 <= k < |since| :: since[k] in since;
    if !exists f :: f in since && IsCall(f) {
      NoCallsNothingLands(t.room, since);
      OverlaidIff(t.state.calls, map[]);
    }
  }

  /** What reader r emitted, as it went out. */
  function Emitted(log: seq<Item>, r: nat): seq<Event> {
    if log == [] then []
    else
      var last := log[|log| - 1];
      Emitted(log[..|log| - 1], r) + if last.Said? && last.reader == r then [last.event] else []
  }

  predicate AsTranslated(log: seq<Item>, r: nat) {
    forall p | 0 <= p < |log| :: log[p].Said? && log[p].reader == r ==> log[p].event == log[p].due
  }

  lemma {:induction false} EmittedIsSentIff(log: seq<Item>, r: nat)
    ensures |Emitted(log, r)| == |EventsIn(Marks(log, r))|
    ensures Emitted(log, r) == EventsIn(Marks(log, r)) <==> AsTranslated(log, r)
  {
    hide EventsIn;
    if log == [] {
      NothingSent([]);
    } else {
      var n := |log| - 1;
      var last := log[n];
      EmittedIsSentIff(log[..n], r);
      EventsInConcat(Marks(log[..n], r), MarkIn(last, r));
      SentIn(last, r);
      var sent := EventsIn(Marks(log[..n], r));
      assert Emitted(log, r)[..|sent|] == Emitted(log[..n], r);
      assert EventsIn(Marks(log, r))[..|sent|] == sent;
      assert AsTranslated(log, r) <==>
             AsTranslated(log[..n], r) && (last.Said? && last.reader == r ==> last.event == last.due) by {
        AsTranslatedSnoc(log, r);
      }
      if last.Said? && last.reader == r {
        assert Emitted(log, r)[|sent|] == last.event && EventsIn(Marks(log, r))[|sent|] == last.due;
      }
    }
  }

  lemma AsTranslatedSnoc(log: seq<Item>, r: nat)
    requires log != []
    ensures
      var n := |log| - 1;
      AsTranslated(log, r) <==>
        AsTranslated(log[..n], r) && (log[n].Said? && log[n].reader == r ==> log[n].event == log[n].due)
  {
    var n := |log| - 1;
    assert forall p | 0 <= p < n :: log[..n][p] == log[p];
  }

  lemma SentIn(item: Item, r: nat)
    ensures EventsIn(MarkIn(item, r)) == if item.Said? && item.reader == r then [item.due] else []
  {
    var marks := MarkIn(item, r);
    NothingSent([]);
    if marks != [] {
      assert marks[1..] == [];
    }
  }

  /** What landed on every result reader r emitted was harmless. */
  ghost predicate AllHarmless(w: World, r: nat) {
    forall p | 0 <= p < |w.log| && IsResultSaid(w, p) && w.log[p].reader == r ::
      Harmless(SourceOf(w, p).state.calls, LandedBy(w, SourceOf(w, p), w.log[p].when))
  }

  /**
   Between frames a reader has emitted exactly the concatenation of its frames'
   translations if and only if what landed on each of its results before it went out
   was harmless.
   */
  lemma EmitsExactlyTheTranslationsIff(actions: seq<Action>, r: nat)
    requires Runs(INITIAL, actions) && r in End(INITIAL, actions).readers
    requires End(INITIAL, actions).readers[r].pc in {Waiting, Gone}
    ensures
      var w := End(INITIAL, actions);
      Emitted(w.log, r) == Translations(w.readers[r].taken) <==> AllHarmless(w, r)
  {
    hide Runs, End, Emitted, Translations, EventsIn, Marks, Inv, ViewsHold;
    var w := End(INITIAL, actions);
    ReachableUsage(actions);
    SendsExactlyTheTranslations(actions, r);
    EmittedIsSentIff(w.log, r);
    AsTranslatedIff(w, r);
  }

  lemma AsTranslatedIff(w: World, r: nat)
    requires LogRight(w)
    ensures AsTranslated(w.log, r) <==> AllHarmless(w, r)
  {
    hide Harmless, Overlaid, Landed, EventsOf;
    forall p | 0 <= p < |w.log|
      ensures SaidRight(w, w.log[p])
      ensures w.log[p].Said? && !w.log[p].due.body.Result? ==> w.log[p].event == w.log[p].due
      ensures IsResultSaid(w, p) ==>
                (w.log[p].event == w.log[p].due <==>
                 Harmless(SourceOf(w, p).state.calls, LandedBy(w, SourceOf(w, p), w.log[p].when)))
    {
      assert SaidRight(w, w.log[p]);
      if IsResultSaid(w, p) {
        var t := SourceOf(w, p);
        OverlaidIff(t.state.calls, LandedBy(w, t, w.log[p].when));
      }
    }
  }

  // ------------------------------------------------------------------
  // Two readers that overlap

  function CallFrame(usage: CallUsage): Frame {
    Frame(Assistant(Some(AssistantMessage("", [], usage))), "", "")
  }

  function FrameOf(result: TurnResult): Frame {
    Frame(ResultKind(result), "", "")
  }

  /** A reader's result is translated, another's call comes, the result goes out. */
  function Overlap(mine: CallUsage, result: TurnResult, theirs: CallUsage, spare: nat): seq<Action> {
    [ Spawn(0), Step(0), Take(0, Plan(CallFrame(mine), 0, false, spare)), Step(0),
      Take(0, Plan(FrameOf(result), 0, false, 0)), Step(0),
      Spawn(1), Step(1), Take(1, Plan(CallFrame(theirs), 0, false, 0)), Step(1), Step(0) ]
  }

  /** Reader 0 is about to emit a result whose one call is `mine`, which is still in its array. */
  predicate ResultPending(w: World, result: TurnResult, mine: CallUsage) {
    && 0 in w.readers
    && var rd := w.readers[0];
    && rd.pc == AtEvent(0) && rd.taken != []
    && var t := rd.taken[|rd.taken| - 1];
    && t.state.calls == [mine]
    && rd.out == EventsOf(FrameOf(result), t.state)
    && t.buffer == w.agg.cur && w.agg.len == 0
    && |w.agg.arrays[w.agg.cur]| > 0
  }

  lemma FirstCallIsTaken(mine: CallUsage, spare: nat)
    ensures
      var w := FirstFrame(Plan(CallFrame(mine), 0, false, spare));
      && Enabled(w, Step(0))
      && var w' := Do(w, Step(0));
      Idle(w', 0) && w'.readers.Keys == {0} && Calls(w'.agg) == [mine]
  {
    var w := FirstFrame(Plan(CallFrame(mine), 0, false, spare));
    CallIsTaken(w, 0, mine, spare);
    hide Do, EventsOf;
  }

  lemma ResultComesToBePending(run: seq<Action>, mine: CallUsage, result: TurnResult, spare: nat)
    requires |run| > 6 && run[3] == Step(0) && run[5] == Step(0)
    requires run[0] == Spawn(0) && run[1] == Step(0) && run[2] == Take(0, Plan(CallFrame(mine), 0, false, spare))
    requires run[4] == Take(0, Plan(FrameOf(result), 0, false, 0))
    ensures Runs(INITIAL, run[..6])
    ensures ResultPending(End(INITIAL, run[..6]), result, mine) && End(INITIAL, run[..6]).readers.Keys == {0}
  {
    hide *;
    var plan := Plan(CallFrame(mine), 0, false, spare);
    FirstFrameIsMet(plan, run);
    FirstCallIsTaken(mine, spare);
    var w4 := Do(FirstFrame(plan), Step(0));
    ResultIsTaken(w4, result, mine);
    RunsOneMore(INITIAL, run, 3);
    RunsOneMore(INITIAL, run, 4);
    RunsOneMore(INITIAL, run, 5);
    assert End(INITIAL, run[..6]) == Do(Do(w4, run[4]), Step(0));
  }

  lemma CallIsTaken(w: World, r: nat, usage: CallUsage, spare: nat)
    requires r in w.readers && w.readers[r].pc == Translating
    requires w.readers[r].plan == Plan(CallFrame(usage), 0, false, spare)
    ensures Enabled(w, Step(r))
    ensures
      var w' := Do(w, Step(r));
      && w'.readers == w.readers[r := w'.readers[r]] && w'.readers[r].pc == Waiting
      && w'.agg == CallAdded(w.agg, usage, spare)
  {
    assert EventsOf(CallFrame(usage), StateOf(w)) == [];
  }

  lemma ResultIsTaken(w: World, result: TurnResult, mine: CallUsage)
    requires Idle(w, 0) && w.readers.Keys == {0} && Calls(w.agg) == [mine]
    ensures
      var take := Take(0, Plan(FrameOf(result), 0, false, 0));
      && Enabled(w, take) && Enabled(Do(w, take), Step(0))
      && var w' := Do(Do(w, take), Step(0));
      ResultPending(w', result, mine) && w'.readers.Keys == {0}
  {
    BoundaryOfFrame(FrameOf(result), StateOf(w));
    hide EventsOf;
  }

  /** Reader 0 stands where it did, and a call has landed in the first slot of the array. */
  predicate OverwroteFirst(w: World, w': World, theirs: CallUsage) {
    && 0 in w.readers && 0 in w'.readers && w'.readers[0] == w.readers[0]
    && |w.agg.arrays[w.agg.cur]| > 0
    && w'.agg.arrays == w.agg.arrays[w.agg.cur := w.agg.arrays[w.agg.cur][0 := theirs]]
    && w'.agg.cur == w.agg.cur
  }

  lemma OtherCallLands(w: World, result: TurnResult, mine: CallUsage, theirs: CallUsage)
    requires ResultPending(w, result, mine) && w.readers.Keys == {0}
    ensures Enabled(w, Spawn(1))
    ensures
      var w1 := Do(w, Spawn(1));
      var take := Take(1, Plan(CallFrame(theirs), 0, false, 0));
      && Enabled(w1, Step(1)) && Enabled(Do(w1, Step(1)), take)
      && var w3 := Do(Do(w1, Step(1)), take);
      && Enabled(w3, Step(1))
      && var w4 := Do(w3, Step(1));
      OverwroteFirst(w, w4, theirs)
  {
    hide EventsOf;
    var w3 := Do(Do(Do(w, Spawn(1)), Step(1)), Take(1, Plan(CallFrame(theirs), 0, false, 0)));
    CallIsTaken(w3, 1, theirs, 0);
  }

  /** The latest item is reader 0's result, whose list was `mine` and goes out as `theirs`. */
  predicate ListsAnothersCall(log: seq<Item>, mine: CallUsage, theirs: CallUsage) {
    && log != []
    && var item := log[|log| - 1];
    && item.Said? && item.reader == 0 && item.due.body.Result? && item.event.body.Result?
    && item.due.body.calls == Listed([mine]) && item.event.body.calls == Listed([theirs])
  }

  lemma PendingGoesOut(w: World, w4: World, result: TurnResult, mine: CallUsage, theirs: CallUsage)
    requires ResultPending(w, result, mine) && !Failed(result)
    requires OverwroteFirst(w, w4, theirs)
    ensures Enabled(w4, Step(0))
    ensures ListsAnothersCall(Do(w4, Step(0)).log, mine, theirs)
  {
    var t := w.readers[0].taken[|w.readers[0].taken| - 1];
    assert w.readers[0].out[0].body == ResultBody(result, t.state.calls, t.state.cumulative);
    assert ReadView(w4.agg, t.buffer, 1) == [theirs];
  }

  /**
   Nothing makes a dead process's reader finish before the next one starts, and then
   the old one's result can go out listing the new one's call instead of its own.
   */
  lemma AnotherReadersCallIsListed(mine: CallUsage, result: TurnResult, theirs: CallUsage, spare: nat)
    requires !Failed(result)
    ensures
      var run := Overlap(mine, result, theirs, spare);
      && Runs(INITIAL, run)
      && ListsAnothersCall(End(INITIAL, run).log, mine, theirs)
  {
    hide *;
    var run := Overlap(mine, result, theirs, spare);
    OverlapPlays(run, mine, result, theirs, spare);
    assert run[..11] == run;
  }

  lemma OverlapPlays(run: seq<Action>, mine: CallUsage, result: TurnResult, theirs: CallUsage, spare: nat)
    requires !Failed(result) && run == Overlap(mine, result, theirs, spare)
    ensures |run| == 11 && Runs(INITIAL, run[..11])
    ensures ListsAnothersCall(End(INITIAL, run[..11]).log, mine, theirs)
  {
    OverlapSteps(run, mine, result, theirs, spare);
    hide *;
    ResultComesToBePending(run, mine, result, spare);
    OtherReaderPlays(run, result, mine, theirs);
    PendingGoesOut(End(INITIAL, run[..6]), End(INITIAL, run[..10]), result, mine, theirs);
    RunsOneMore(INITIAL, run, 10);
  }

  lemma OtherReaderPlays(run: seq<Action>, result: TurnResult, mine: CallUsage, theirs: CallUsage)
    requires |run| == 11 && Runs(INITIAL, run[..6])
    requires run[6] == Spawn(1) && run[7] == Step(1) && run[9] == Step(1)
    requires run[8] == Take(1, Plan(CallFrame(theirs), 0, false, 0))
    requires ResultPending(End(INITIAL, run[..6]), result, mine) && End(INITIAL, run[..6]).readers.Keys == {0}
    ensures Runs(INITIAL, run[..10])
    ensures OverwroteFirst(End(INITIAL, run[..6]), End(INITIAL, run[..10]), theirs)
  {
    hide *;
    OtherCallLands(End(INITIAL, run[..6]), result, mine, theirs);
    RunsOneMore(INITIAL, run, 6);
    RunsOneMore(INITIAL, run, 7);
    RunsOneMore(INITIAL, run, 8);
    RunsOneMore(INITIAL, run, 9);
  }

  lemma OverlapSteps(run: seq<Action>, mine: CallUsage, result: TurnResult, theirs: CallUsage, spare: nat)
    requires run == Overlap(mine, result, theirs, spare)
    ensures |run| == 11
    ensures run[0] == Spawn(0) && run[1] == Step(0) && run[2] == Take(0, Plan(CallFrame(mine), 0, false, spare))
    ensures run[3] == Step(0) && run[4] == Take(0, Plan(FrameOf(result), 0, false, 0)) && run[5] == Step(0)
    ensures run[6] == Spawn(1) && run[7] == Step(1) && run[8] == Take(1, Plan(CallFrame(theirs), 0, false, 0))
    ensures run[9] == Step(1) && run[10] == Step(0)
  {
  }
}
