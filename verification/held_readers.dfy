/**
 Where a reader waits for a request's write to its process's stdin: exactly which
 frames can be held up, and a stream of stdout lines that is.
 */
module HeldReaders {
  import opened Options
  import opened StreamTranslation
  import opened TurnMachine
  import opened TurnProtocol
  import T = TaskWaiters

  predicate HeldUp(w: World, r: nat) {
    r in w.readers && w.readers[r].pc !in {Waiting, Gone} && !Enabled(w, Step(r))
  }

  /** Met in world w and followed by these actions, in which its reader is given nothing more, the frame is held up. */
  ghost predicate HoldsUp(w: World, r: nat, plan: Plan, actions: seq<Action>) {
    && Runs(w, [Take(r, plan)] + actions)
    && GivesNothing(actions, r)
    && HeldUp(End(w, [Take(r, plan)] + actions), r)
  }

  // ------------------------------------------------------------------
  // Frames that write can be held up

  lemma RequestHoldsUp(w: World, r: nat)
    requires r in w.readers && WritesNext(w.readers[r].pc) && r !in w.writing
    ensures Enabled(w, BeginWrite(r)) && HeldUp(Do(w, BeginWrite(r)), r)
    ensures Do(w, BeginWrite(r)) == w.(writing := w.writing + {r})
  {
  }

  lemma WriteInProgressHoldsUp(w: World, r: nat)
    requires r in w.readers && WritesNext(w.readers[r].pc) && r in w.writing
    ensures HeldUp(w, r)
  {
  }

  /** Standing where it writes, a reader is held up at once or by one more request. */
  function Request(w: World, r: nat): seq<Action> {
    if r in w.writing then [] else [BeginWrite(r)]
  }

  lemma RequestComes(w: World, r: nat)
    requires r in w.readers && WritesNext(w.readers[r].pc)
    ensures Runs(w, Request(w, r)) && HeldUp(End(w, Request(w, r)), r)
    ensures End(w, Request(w, r)) == w.(writing := w.writing + {r})
  {
    hide Enabled, Do;
    if r in w.writing {
      WriteInProgressHoldsUp(w, r);
      assert w.writing + {r} == w.writing;
    } else {
      RequestHoldsUp(w, r);
      RunsOne(w, BeginWrite(r));
    }
  }

  lemma FrameIsMet(w: World, r: nat, plan: Plan)
    requires Idle(w, r)
    ensures Runs(w, [Take(r, plan)])
    ensures End(w, [Take(r, plan)]) == w.(readers := w.readers[r := AfterTake(w.readers[r], plan)])
  {
    RunsOne(w, Take(r, plan));
  }

  /** A frame that stops a task stands before its first request until a write under way has ended. */
  lemma AStoppingFrameWaits(w: World, r: nat, plan: Plan, meanwhile: seq<Action>)
    requires Idle(w, r) && plan.stops > 0 && EndWrite(r) !in meanwhile
    ensures
      var run := [Take(r, plan)] + Request(w, r);
      && Runs(w, run)
      && var met := End(w, run);
      && met == w.(readers := w.readers[r := AfterTake(w.readers[r], plan)], writing := w.writing + {r})
      && HeldUp(met, r)
      && (Runs(met, meanwhile) ==>
            var w' := End(met, meanwhile);
            HeldUp(w', r) && w'.readers[r] == met.readers[r])
  {
    hide Runs, End, Enabled, Do;
    FrameIsMet(w, r, plan);
    var met := End(w, [Take(r, plan)]);
    RequestComes(met, r);
    RunsConcat(w, [Take(r, plan)], Request(w, r));
    if Runs(End(met, Request(w, r)), meanwhile) {
      HeldUpUntilTheWriteEnds(End(met, Request(w, r)), meanwhile, r);
    }
  }

  lemma InitHasOneEvent(f: Frame, s: State)
    requires IsInit(f)
    ensures |EventsOf(f, s)| == 1 && IsInitEvent(EventsOf(f, s)[0])
  {
  }

  /** The three own steps that take an init frame whose information can be read to where it asks for the effort. */
  lemma InitReachesItsAsk(w: World, r: nat, plan: Plan)
    requires Idle(w, r) && plan.stops == 0 && plan.described && IsInit(plan.frame)
    ensures
      var run := [Take(r, plan), Step(r), Step(r), Step(r)];
      && Runs(w, run)
      && var w' := End(w, run);
      r in w'.readers && w'.readers[r].pc == AtAsk(0) && w'.writing == w.writing
  {
    hide *;
    var run := [Take(r, plan), Step(r), Step(r), Step(r)];
    InitSteps(w, r, plan);
    assert run[..0] == [] && run[..4] == run;
    assert Runs(w, run[..0]) && End(w, run[..0]) == w by { NothingRuns(w); }
    RunsOneMore(w, run, 0);
    RunsOneMore(w, run, 1);
    RunsOneMore(w, run, 2);
    RunsOneMore(w, run, 3);
  }

  lemma NothingRuns(w: World)
    ensures Runs(w, []) && End(w, []) == w
  {
  }

  lemma InitSteps(w: World, r: nat, plan: Plan)
    requires Idle(w, r) && plan.stops == 0 && plan.described && IsInit(plan.frame)
    ensures Enabled(w, Take(r, plan))
    ensures
      var w1 := Do(w, Take(r, plan));
      && Enabled(w1, Step(r)) && Enabled(Do(w1, Step(r)), Step(r))
      && Enabled(Do(Do(w1, Step(r)), Step(r)), Step(r))
      && var w' := Do(Do(Do(w1, Step(r)), Step(r)), Step(r));
      r in w'.readers && w'.readers[r].pc == AtAsk(0) && w'.writing == w.writing
  {
    hide EventsOf, AsEmitted, SessionAfter, AggregatorAfter, After, IsInit;
    InitHasOneEvent(plan.frame, StateOf(Do(w, Take(r, plan))));
  }

  /** So does an init frame, once its event is out. */
  lemma AnInitWaits(w: World, r: nat, plan: Plan, meanwhile: seq<Action>)
    requires Idle(w, r) && plan.stops == 0 && plan.described && IsInit(plan.frame) && EndWrite(r) !in meanwhile
    ensures
      var run := [Take(r, plan), Step(r), Step(r), Step(r)] + Request(w, r);
      && Runs(w, run)
      && var asking := End(w, run);
      && HeldUp(asking, r) && asking.readers[r].pc == AtAsk(0)
      && (Runs(asking, meanwhile) ==>
            var w' := End(asking, meanwhile);
            HeldUp(w', r) && w'.readers[r] == asking.readers[r])
  {
    hide Runs, End, Enabled, Do;
    var run := [Take(r, plan), Step(r), Step(r), Step(r)];
    InitReachesItsAsk(w, r, plan);
    var asking := End(w, run);
    RequestComes(asking, r);
    RunsConcat(w, run, Request(w, r));
    if Runs(End(asking, Request(w, r)), meanwhile) {
      HeldUpUntilTheWriteEnds(End(asking, Request(w, r)), meanwhile, r);
    }
  }

  // ------------------------------------------------------------------
  // And no others

  lemma {:induction false} PlanStays(w: World, actions: seq<Action>, r: nat)
    requires Runs(w, actions) && r in w.readers && GivesNothing(actions, r)
    ensures r in End(w, actions).readers && End(w, actions).readers[r].plan == w.readers[r].plan
    decreases |actions|
  {
    if actions != [] {
      var a := actions[0];
      assert a in actions;
      assert r in Do(w, a).readers && Do(w, a).readers[r].plan == w.readers[r].plan by {
        if a == Step(r) {
          OwnStepKeepsPlan(w, r);
        } else {
          OthersLeaveAReaderBe(w, a, r);
        }
      }
      hide Do, Enabled;
      assert forall b | b in actions[1..] :: b in actions;
      PlanStays(Do(w, a), actions[1..], r);
    }
  }

  lemma OwnStepKeepsPlan(w: World, r: nat)
    requires Enabled(w, Step(r))
    ensures r in Do(w, Step(r)).readers && Do(w, Step(r)).readers[r].plan == w.readers[r].plan
  {
    hide EventsOf, AggregatorAfter, ItemOf, NextPc, After;
  }

  lemma OnlyWritersAreHeldUp(w: World, r: nat, plan: Plan, actions: seq<Action>)
    requires Inv(w) && Idle(w, r) && HoldsUp(w, r, plan, actions)
    ensures Writes(plan)
  {
    hide Inv, Do, Enabled, Writes;
    var run := [Take(r, plan)] + actions;
    assert run[0] == Take(r, plan) && run[1..] == actions;
    RunsKeepInv(w, run);
    HeldUpFramesWrite(End(w, run), r);
    MetWithItsPlan(w, r, plan);
    PlanStays(Do(w, Take(r, plan)), actions, r);
  }

  lemma MetWithItsPlan(w: World, r: nat, plan: Plan)
    requires Idle(w, r)
    ensures Enabled(w, Take(r, plan))
    ensures r in Do(w, Take(r, plan)).readers && Do(w, Take(r, plan)).readers[r].plan == plan
  {
  }

  /**
   Whatever has happened before, a frame can be held up if and only if it makes its
   reader write to stdin: it stops a task, or it is an init whose information can be read.
   */
  lemma CanBeHeldUpIff(w: World, r: nat, plan: Plan)
    requires Inv(w) && Idle(w, r)
    ensures (exists actions :: HoldsUp(w, r, plan, actions)) <==> Writes(plan)
  {
    hide Inv, Runs, End, Do, Enabled;
    if plan.stops > 0 {
      AStoppingFrameWaits(w, r, plan, []);
      assert HoldsUp(w, r, plan, Request(w, r));
    } else if Writes(plan) {
      AnInitWaits(w, r, plan, []);
      var actions := [Step(r), Step(r), Step(r)] + Request(w, r);
      assert [Take(r, plan)] + actions == [Take(r, plan), Step(r), Step(r), Step(r)] + Request(w, r);
      assert HoldsUp(w, r, plan, actions);
    }
    forall actions | HoldsUp(w, r, plan, actions)
      ensures Writes(plan)
    {
      OnlyWritersAreHeldUp(w, r, plan, actions);
    }
  }

  // ------------------------------------------------------------------
  // Lines of stdout that are held up

  /** What the translator and the stopper make of a content block. */
  predicate SameBlock(b: T.Block, block: AssistantBlock) {
    if block.ToolUse? && block.name == "Bash" then b.BashUse? && b.id == block.id else !b.BashUse?
  }

  predicate SameUserBlock(b: T.Block, block: UserBlock) {
    if block.ToolResult? then b == T.ToolAnswer(block.toolUseID) else !b.ToolAnswer?
  }

  /** The two readings of one line: the stopper's and the translator's. */
  predicate SameLine(line: T.Frame, f: Frame) {
    match line
    case Message(blocks) =>
      f.Frame? && (
        || (f.kind.Assistant? && f.kind.message.Some?
            && var content := f.kind.message.value.content;
            |blocks| == |content| && forall i | 0 <= i < |blocks| :: SameBlock(blocks[i], content[i]))
        || (f.kind.User? && f.kind.content.Some? && f.kind.content.value.UserBlocks?
            && var content := f.kind.content.value.blocks;
            |blocks| == |content| && forall i | 0 <= i < |blocks| :: SameUserBlock(blocks[i], content[i])))
    case TaskStarted(_, _, _, _) => f.Frame? && f.kind == System("task_started")
    case TaskUpdated(_, _, _) => f.Frame? && f.kind == System("task_updated")
    case TaskNotification(_, _, _) => f.Frame? && f.kind == System("task_notification")
    case Other => true
  }

  /** Frames as a reader meets them are what its stopper made of the same lines. */
  ghost predicate MetAs(plans: seq<Plan>, h: seq<T.Seen>) {
    && T.IsHistory(h)
    && |plans| == |h|
    && forall k | 0 <= k < |h| :: SameLine(h[k].frame, plans[k].frame) && plans[k].stops == |h[k].stopped|
  }

  /** All the frames a reader has met. */
  function Met(rd: Reader): seq<Plan> {
    seq(|rd.taken|, k requires 0 <= k < |rd.taken| => rd.taken[k].plan) + if Ahead(rd.pc) then [rd.plan] else []
  }

  /** A Bash call, its start in the foreground, and the report of the task whose file it watches. */
  function WatcherPlans(message: AssistantMessage, sessionID: string): seq<Plan> {
    [ Plan(Frame(Assistant(Some(message)), sessionID, ""), 0, false, 0),
      Plan(Frame(System("task_started"), sessionID, ""), 0, false, 0),
      Plan(Frame(System("task_notification"), sessionID, ""), 1, false, 0) ]
  }

  predicate PassesBy(plan: Plan, s: State) {
    var out := EventsOf(plan.frame, s);
    plan.stops == 0 && |out| == 1 && !IsInitEvent(out[0]) && !IsBoundary(out[0])
  }

  /** Between frames, nothing being written to its stdin, a reader has met these. */
  predicate HasMet(w: World, r: nat, plans: seq<Plan>) {
    Idle(w, r) && Met(w.readers[r]) == plans && w.writing == {}
  }

  lemma FramePassesBy(w: World, r: nat, plan: Plan, plans: seq<Plan>)
    requires HasMet(w, r, plans) && PassesBy(plan, StateOf(w))
    ensures Enabled(w, Take(r, plan))
    ensures
      var w1 := Do(w, Take(r, plan));
      && Enabled(w1, Step(r)) && Enabled(Do(w1, Step(r)), Step(r))
      && HasMet(Do(Do(w1, Step(r)), Step(r)), r, plans + [plan])
  {
    hide EventsOf, AsEmitted, SessionAfter, AggregatorAfter, After, IsInitEvent, IsBoundary;
    assert StateOf(Do(w, Take(r, plan))) == StateOf(w);
    var w' := Do(Do(Do(w, Take(r, plan)), Step(r)), Step(r));
    assert Met(w'.readers[r]) == Met(w.readers[r]) + [plan];
  }

  lemma RunPassesBy(w: World, run: seq<Action>, r: nat, plan: Plan, plans: seq<Plan>)
    requires Runs(w, run) && HasMet(End(w, run), r, plans) && PassesBy(plan, StateOf(End(w, run)))
    ensures
      var run' := run + [Take(r, plan), Step(r), Step(r)];
      Runs(w, run') && HasMet(End(w, run'), r, plans + [plan])
  {
    hide Runs, End, Enabled, Do, HasMet, PassesBy;
    FramePassesBy(End(w, run), r, plan, plans);
    RunsAppend(w, run, Take(r, plan));
    RunsAppend(w, run + [Take(r, plan)], Step(r));
    RunsAppend(w, run + [Take(r, plan)] + [Step(r)], Step(r));
    assert run + [Take(r, plan)] + [Step(r)] + [Step(r)] == run + [Take(r, plan), Step(r), Step(r)];
  }

  lemma FirstReaderStarts()
    ensures Runs(INITIAL, [Spawn(0), Step(0)]) && HasMet(End(INITIAL, [Spawn(0), Step(0)]), 0, [])
  {
    assert [Spawn(0), Step(0)][1..] == [Step(0)] && [Step(0)][1..] == [];
  }

  lemma BashCallPassesBy(message: AssistantMessage, sessionID: string, id: string, input: string, s: State)
    requires message.content == [ToolUse(id, "Bash", input)]
    ensures PassesBy(WatcherPlans(message, sessionID)[0], s)
    ensures PassesBy(WatcherPlans(message, sessionID)[1], s)
  {
    assert message.content[..0] == [];
    assert AssistantBodies(message.content, message.id) == [ToolCall(id, "Bash", input, message.id)];
  }

  lemma WatcherIsMet(
      message: AssistantMessage, sessionID: string, input: string,
      task: string, toolUse: string, command: string, done: string, status: string, file: string)
    requires message.content == [ToolUse(toolUse, "Bash", input)]
    requires status == "completed" || status == "failed"
    requires file != "" && task != done && T.Contains(command, file)
    ensures MetAs(WatcherPlans(message, sessionID), T.WatcherHistory(task, toolUse, command, done, status, file))
  {
    hide T.IsHistory, T.Contains;
    T.WatcherIsStopped(task, toolUse, command, done, status, file);
    assert |{task}| == 1;
  }

  /** A reader's life up to a frame that stops a watcher, met while a request is writing. */
  function WatcherRun(plans: seq<Plan>): seq<Action>
    requires |plans| == 3
  {
    [Spawn(0), Step(0)] + [Take(0, plans[0]), Step(0), Step(0)] + [Take(0, plans[1]), Step(0), Step(0)]
    + [Take(0, plans[2]), BeginWrite(0)]
  }

  /**
   So a frame can wait for a request. For any command that names the output file of
   another task, the three lines that end in that task's report make the stopper stop
   the command, and the report is not even translated while a request's write lasts.
   */
  lemma AFrameWaitsForARequest(
      message: AssistantMessage, sessionID: string, input: string,
      task: string, toolUse: string, command: string, done: string, status: string, file: string,
      meanwhile: seq<Action>)
    requires message.content == [ToolUse(toolUse, "Bash", input)]
    requires status == "completed" || status == "failed"
    requires file != "" && task != done && T.Contains(command, file)
    requires EndWrite(0) !in meanwhile
    ensures
      var plans := WatcherPlans(message, sessionID);
      && MetAs(plans, T.WatcherHistory(task, toolUse, command, done, status, file))
      && Runs(INITIAL, WatcherRun(plans))
      && var w := End(INITIAL, WatcherRun(plans));
      Runs(w, meanwhile) ==>
        var w' := End(w, meanwhile);
        HeldUp(w', 0) && Met(w'.readers[0]) == plans && w'.readers[0].pc == Stopping(1)
  {
    hide Runs, End, Enabled, Do, MetAs, HeldUp, T.Contains, T.WatcherHistory, WatcherRun;
    var plans := WatcherPlans(message, sessionID);
    WatcherIsMet(message, sessionID, input, task, toolUse, command, done, status, file);
    WatcherPlays(message, sessionID, toolUse, input);
    var w := End(INITIAL, WatcherRun(plans));
    if Runs(w, meanwhile) {
      StoppingStays(w, meanwhile, plans);
    }
  }

  /** Reader 0 is about to stop the one task of the last frame it met, and a request is writing to its stdin. */
  predicate AboutToStop(w: World, plans: seq<Plan>) {
    && 0 in w.readers && 0 in w.writing
    && w.readers[0].pc == Stopping(1) && Met(w.readers[0]) == plans
  }

  lemma StoppingStays(w: World, meanwhile: seq<Action>, plans: seq<Plan>)
    requires AboutToStop(w, plans) && Runs(w, meanwhile) && EndWrite(0) !in meanwhile
    ensures HeldUp(End(w, meanwhile), 0) && AboutToStop(End(w, meanwhile), plans)
  {
    hide Runs, End, Do;
    HeldUpUntilTheWriteEnds(w, meanwhile, 0);
  }

  lemma WatcherPlays(message: AssistantMessage, sessionID: string, toolUse: string, input: string)
    requires message.content == [ToolUse(toolUse, "Bash", input)]
    ensures
      var plans := WatcherPlans(message, sessionID);
      Runs(INITIAL, WatcherRun(plans)) && AboutToStop(End(INITIAL, WatcherRun(plans)), plans)
  {
    hide Runs, End, Enabled, Do, HasMet, PassesBy, AboutToStop;
    var plans := WatcherPlans(message, sessionID);
    var start := [Spawn(0), Step(0)];
    var first := start + [Take(0, plans[0]), Step(0), Step(0)];
    var second := first + [Take(0, plans[1]), Step(0), Step(0)];
    FirstReaderStarts();
    BashCallPassesBy(message, sessionID, toolUse, input, StateOf(End(INITIAL, start)));
    RunPassesBy(INITIAL, start, 0, plans[0], []);
    BashCallPassesBy(message, sessionID, toolUse, input, StateOf(End(INITIAL, first)));
    RunPassesBy(INITIAL, first, 0, plans[1], [] + [plans[0]]);
    StopIsMet(End(INITIAL, second), plans[2], [] + [plans[0]] + [plans[1]]);
    RunsConcat(INITIAL, second, [Take(0, plans[2]), BeginWrite(0)]);
    assert [] + [plans[0]] + [plans[1]] + [plans[2]] == plans;
  }

  lemma StopIsMet(w: World, plan: Plan, plans: seq<Plan>)
    requires HasMet(w, 0, plans) && plan.stops == 1
    ensures
      var run := [Take(0, plan), BeginWrite(0)];
      Runs(w, run) && AboutToStop(End(w, run), plans + [plan])
  {
    hide Runs, End, Enabled, Do;
    AStoppingFrameWaits(w, 0, plan, []);
    assert Request(w, 0) == [BeginWrite(0)];
    assert [Take(0, plan)] + [BeginWrite(0)] == [Take(0, plan), BeginWrite(0)];
  }
}
