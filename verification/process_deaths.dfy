/**
 How the end of a process is reported: the idle watchdog's error, mark and kill, the
 end of the process and its reader's exit, as interleaved steps over any number of
 spawns. Process p is the p-th one spawned; the last is the one requests wait on.
 */
module ProcessDeaths {

  /** How far a wait has got with the last process, once it has found it alive and silent. */
  datatype Watch = Resting | Found | Reported | Marked

  /** How far a process's reader has got once stdout has ended: it looks at the process, then at the mark. */
  datatype Exit = Reading | SawItGone | Handled

  datatype Proc = Proc(gone: bool, exit: Exit)

  /** TURN_IDLE_TIMEOUT and PROCESS_DIED, each about one process. */
  datatype Report = Stall(p: nat) | Died(p: nat)

  /** `killed` only remembers which processes the watchdog has sent a kill. */
  datatype World = World(procs: seq<Proc>, mark: bool, watch: Watch, log: seq<Report>, killed: set<nat>)

  datatype Action =
    | Spawn
    | Find
    | ReportStall
    | SetMark
    | Kill
    | End(p: nat)
    | Look(p: nat)
    | Answer(p: nat)

  const INITIAL := World([], false, Resting, [], {})

  /** One dispatcher spawns and waits; a process can end, and its stdout close, at any time and in either order. */
  predicate Enabled(w: World, a: Action) {
    match a
    case Spawn => w.watch == Resting
    case Find => w.watch == Resting && w.procs != [] && !w.procs[|w.procs| - 1].gone
    case ReportStall => w.watch == Found && w.procs != []
    case SetMark => w.watch == Reported
    case Kill => w.watch == Marked && w.procs != []
    case End(p) => p < |w.procs| && !w.procs[p].gone
    case Look(p) => p < |w.procs| && w.procs[p].exit == Reading
    case Answer(p) => p < |w.procs| && w.procs[p].exit == SawItGone
  }

  function Apply(w: World, a: Action): World
    requires Enabled(w, a)
  {
    match a
    case Spawn => w.(procs := w.procs + [Proc(false, Reading)], mark := false)
    case Find => w.(watch := Found)
    case ReportStall => w.(watch := Reported, log := w.log + [Stall(|w.procs| - 1)])
    case SetMark => w.(watch := Marked, mark := true)
    case Kill => w.(watch := Resting, killed := w.killed + {|w.procs| - 1})
    case End(p) => w.(procs := w.procs[p := w.procs[p].(gone := true)])
    case Look(p) => w.(procs := w.procs[p := w.procs[p].(exit := if w.procs[p].gone then SawItGone else Handled)])
    case Answer(p) =>
      w.(procs := w.procs[p := w.procs[p].(exit := Handled)], log := w.log + if w.mark then [] else [Died(p)])
  }

  ghost predicate IsHistory(worlds: seq<World>, actions: seq<Action>) {
    && |worlds| == |actions| + 1
    && worlds[0] == INITIAL
    && forall i | 0 <= i < |actions| :: Enabled(worlds[i], actions[i]) && worlds[i + 1] == Apply(worlds[i], actions[i])
  }

  // ------------------------------------------------------------------
  // When PROCESS_DIED goes out

  /** The watchdog has set its mark and no process has been spawned since. */
  ghost predicate MarkStands(actions: seq<Action>, j: nat)
    requires j <= |actions|
  {
    exists m :: 0 <= m < j && actions[m] == SetMark && forall k | m < k < j :: actions[k] != Spawn
  }

  lemma {:induction false} MarkIsStanding(worlds: seq<World>, actions: seq<Action>, j: nat)
    requires IsHistory(worlds, actions) && j <= |actions|
    ensures worlds[j].mark <==> MarkStands(actions, j)
    decreases j
  {
    hide Enabled;
    if j > 0 {
      MarkIsStanding(worlds, actions, j - 1);
      assert worlds[j] == Apply(worlds[j - 1], actions[j - 1]);
      if MarkStands(actions, j - 1) && actions[j - 1] != Spawn {
        var m :| 0 <= m < j - 1 && actions[m] == SetMark && forall k | m < k < j - 1 :: actions[k] != Spawn;
        assert MarkStands(actions, j);
      }
    }
  }

  /** At step j process p's reader has seen it gone and finds no mark standing. */
  ghost predicate ReportsDeath(actions: seq<Action>, j: nat, p: nat) {
    j < |actions| && actions[j] == Answer(p) && !MarkStands(actions, j)
  }

  /** In every history a process is reported as died exactly when its reader came to the mark with none standing. */
  lemma {:induction false} DiedIff(worlds: seq<World>, actions: seq<Action>, i: nat, p: nat)
    requires IsHistory(worlds, actions) && i <= |actions|
    ensures Died(p) in worlds[i].log <==> exists j | 0 <= j < i :: ReportsDeath(actions, j, p)
    decreases i
  {
    hide Enabled, MarkStands;
    if i > 0 {
      DiedIff(worlds, actions, i - 1, p);
      MarkIsStanding(worlds, actions, i - 1);
      assert worlds[i] == Apply(worlds[i - 1], actions[i - 1]);
      assert Died(p) in worlds[i].log <==> Died(p) in worlds[i - 1].log || ReportsDeath(actions, i - 1, p);
    }
  }

  // ------------------------------------------------------------------
  // What every history keeps

  /** A process is reported as died at most once, and only by a reader that saw it gone and is done. */
  ghost predicate DiedOnce(w: World, p: nat)
    requires p < |w.procs|
  {
    && multiset(w.log)[Died(p)] <= (if w.procs[p].exit == Handled then 1 else 0)
    && (w.procs[p].exit == SawItGone ==> w.procs[p].gone)
  }

  ghost predicate Known(w: World) {
    && (forall report | report in w.log :: report.p < |w.procs|)
    && (forall p | p in w.killed :: p < |w.procs|)
  }

  ghost predicate Inv(w: World) {
    && (w.watch != Resting ==> w.procs != [])
    && (w.watch == Marked ==> w.mark)
    && Known(w)
    && forall p | 0 <= p < |w.procs| :: DiedOnce(w, p)
  }

  lemma StepKeepsKnown(w: World, a: Action)
    requires Inv(w) && Enabled(w, a)
    ensures Known(Apply(w, a))
  {
    hide DiedOnce;
  }

  lemma StepKeepsDied(w: World, a: Action, p: nat)
    requires Inv(w) && Enabled(w, a) && p < |Apply(w, a).procs|
    ensures DiedOnce(Apply(w, a), p)
  {
    if p < |w.procs| {
      assert DiedOnce(w, p);
    } else {
      assert Died(p) !in w.log;
    }
  }

  lemma StepKeepsInv(w: World, a: Action)
    requires Inv(w) && Enabled(w, a)
    ensures Inv(Apply(w, a))
  {
    hide DiedOnce, Known;
    StepKeepsKnown(w, a);
    forall p | 0 <= p < |Apply(w, a).procs|
      ensures DiedOnce(Apply(w, a), p)
    {
      StepKeepsDied(w, a, p);
    }
  }

  lemma {:induction false} HistoryKeepsInv(worlds: seq<World>, actions: seq<Action>, i: nat)
    requires IsHistory(worlds, actions) && i <= |actions|
    ensures Inv(worlds[i])
    decreases i
  {
    hide Inv, Enabled, Apply;
    if i > 0 {
      HistoryKeepsInv(worlds, actions, i - 1);
      StepKeepsInv(worlds[i - 1], actions[i - 1]);
    } else {
      InitialInv();
    }
  }

  lemma InitialInv()
    ensures Inv(INITIAL)
  {
  }

  /** A reader whose stdout closes before its process is gone never reports it. */
  lemma {:induction false} EarlyLookIsSilent(worlds: seq<World>, actions: seq<Action>, l: nat, i: nat, p: nat)
    requires IsHistory(worlds, actions) && l < i <= |actions|
    requires actions[l] == Look(p) && !worlds[l].procs[p].gone
    ensures p < |worlds[i].procs| && worlds[i].procs[p].exit == Handled
    ensures Died(p) !in worlds[i].log
    decreases i
  {
    assert worlds[i] == Apply(worlds[i - 1], actions[i - 1]);
    if l == i - 1 {
      HistoryKeepsInv(worlds, actions, l);
      assert DiedOnce(worlds[l], p);
    } else {
      EarlyLookIsSilent(worlds, actions, l, i - 1, p);
    }
  }

  // ------------------------------------------------------------------
  // One error for one death

  /**
   The order in which each of process p's steps is harmless: its stdout closes after it
   is gone, its reader is done before the next spawn, it does not end by itself between
   the watchdog's finding and its mark, and a killed process is gone by the next tick.
   */
  predicate Orderly(w: World, a: Action, p: nat) {
    p < |w.procs| ==>
      && (a == Look(p) ==> w.procs[p].gone)
      && (a == Answer(p) ==> p == |w.procs| - 1)
      && (a == End(p) && p == |w.procs| - 1 ==> w.watch in {Resting, Marked})
      && (a == Find && p == |w.procs| - 1 ==> !w.mark)
  }

  function Errors(log: seq<Report>, p: nat): nat {
    multiset(log)[Stall(p)] + multiset(log)[Died(p)]
  }

  /** Its reader not done, p is the last process, and the watchdog has reported it once it has got that far. */
  ghost predicate Before(w: World, p: nat) {
    && p == |w.procs| - 1
    && w.procs[p].exit != Handled
    && (w.procs[p].exit == SawItGone ==> w.procs[p].gone)
    && (w.procs[p].gone ==> w.watch in {Resting, Marked})
    && (w.watch in {Found, Reported} ==> !w.mark)
    && (w.watch == Marked ==> w.mark)
    && Errors(w.log, p) == (if w.mark || w.watch == Reported then 1 else 0)
    && (Stall(p) in w.log <==> w.mark || w.watch == Reported)
    && (p in w.killed <==> w.mark && w.watch == Resting)
  }

  ghost predicate Done(w: World, p: nat) {
    && p < |w.procs|
    && w.procs[p] == Proc(true, Handled)
    && (p == |w.procs| - 1 ==> w.watch in {Resting, Marked})
    && Errors(w.log, p) == 1
    && (Stall(p) in w.log <==> p in w.killed || (p == |w.procs| - 1 && w.watch == Marked))
  }

  /** Another process was spawned before p's reader was done. */
  predicate Passed(w: World, p: nat) {
    p < |w.procs| - 1 && w.procs[p].exit != Handled
  }

  ghost predicate OnCourse(w: World, p: nat) {
    p < |w.procs| ==> Before(w, p) || Done(w, p) || Passed(w, p)
  }

  lemma UndoneStep(w: World, a: Action, p: nat)
    requires Enabled(w, a) && Orderly(w, a, p) && Before(w, p)
    ensures OnCourse(Apply(w, a), p)
  {
  }

  lemma DoneStep(w: World, a: Action, p: nat)
    requires Enabled(w, a) && Orderly(w, a, p) && Done(w, p)
    ensures Done(Apply(w, a), p)
  {
  }

  lemma OrderlyStep(w: World, a: Action, p: nat)
    requires Inv(w) && Enabled(w, a) && Orderly(w, a, p) && OnCourse(w, p)
    ensures OnCourse(Apply(w, a), p)
  {
    hide DiedOnce;
    if p >= |w.procs| {
      assert Stall(p) !in w.log && Died(p) !in w.log && p !in w.killed;
    } else if Before(w, p) {
      hide *;
      UndoneStep(w, a, p);
    } else if Done(w, p) {
      hide *;
      DoneStep(w, a, p);
    }
  }

  lemma {:induction false} OrderlyHistory(worlds: seq<World>, actions: seq<Action>, i: nat, p: nat)
    requires IsHistory(worlds, actions) && i <= |actions|
    requires forall k | 0 <= k < i :: Orderly(worlds[k], actions[k], p)
    ensures OnCourse(worlds[i], p)
    decreases i
  {
    hide Inv, Enabled, Apply, Before, Done, Passed, Orderly;
    if i > 0 {
      HistoryKeepsInv(worlds, actions, i - 1);
      OrderlyHistory(worlds, actions, i - 1, p);
      OrderlyStep(worlds[i - 1], actions[i - 1], p);
    }
  }

  /** In an orderly history a process whose reader is done has one error, TURN_IDLE_TIMEOUT exactly if it was killed. */
  lemma OneErrorPerDeath(worlds: seq<World>, actions: seq<Action>, i: nat, p: nat)
    requires IsHistory(worlds, actions) && i <= |actions|
    requires forall k | 0 <= k < i :: Orderly(worlds[k], actions[k], p)
    requires p < |worlds[i].procs| && worlds[i].procs[p].exit == Handled && worlds[i].watch == Resting
    ensures Errors(worlds[i].log, p) == 1
    ensures Stall(p) in worlds[i].log <==> p in worlds[i].killed
    ensures Died(p) in worlds[i].log <==> p !in worlds[i].killed
  {
    hide Inv;
    OrderlyHistory(worlds, actions, i, p);
  }

  /**
   Without that order, a process has one error if and only if the watchdog reported it
   once and its reader came to no free mark, or never and its reader did.
   */
  lemma OneErrorIff(worlds: seq<World>, actions: seq<Action>, i: nat, p: nat)
    requires IsHistory(worlds, actions) && i <= |actions| && p < |worlds[i].procs|
    ensures Errors(worlds[i].log, p) == 1
       <==> multiset(worlds[i].log)[Stall(p)] == if exists j | 0 <= j < i :: ReportsDeath(actions, j, p) then 0 else 1
  {
    hide Enabled, Apply, ReportsDeath;
    HistoryKeepsInv(worlds, actions, i);
    assert DiedOnce(worlds[i], p);
    DiedIff(worlds, actions, i, p);
  }

  // ------------------------------------------------------------------
  // Histories with two errors, or none

  lemma Continues(worlds: seq<World>, actions: seq<Action>, a: Action) returns (worlds': seq<World>)
    requires IsHistory(worlds, actions) && Enabled(worlds[|actions|], a)
    ensures IsHistory(worlds', actions + [a]) && worlds'[|actions| + 1] == Apply(worlds[|actions|], a)
  {
    hide Enabled, Apply;
    worlds' := worlds + [Apply(worlds[|actions|], a)];
    var actions' := actions + [a];
    forall i | 0 <= i < |actions'|
      ensures Enabled(worlds'[i], actions'[i]) && worlds'[i + 1] == Apply(worlds'[i], actions'[i])
    {
      if i < |actions| {
        assert worlds'[i] == worlds[i] && worlds'[i + 1] == worlds[i + 1] && actions'[i] == actions[i];
      }
    }
  }

  /** The world a history ends in. */
  function Last(worlds: seq<World>): World
    requires worlds != []
  {
    worlds[|worlds| - 1]
  }

  lemma FirstIsReported() returns (worlds: seq<World>)
    ensures IsHistory(worlds, [Spawn, Find, ReportStall])
    ensures Last(worlds) == World([Proc(false, Reading)], false, Reported, [Stall(0)], {})
  {
    worlds := [INITIAL];
    worlds := Continues(worlds, [], Spawn);
    worlds := Continues(worlds, [Spawn], Find);
    worlds := Continues(worlds, [Spawn, Find], ReportStall);
  }

  lemma FirstIsKilled() returns (worlds: seq<World>)
    ensures IsHistory(worlds, [Spawn, Find, ReportStall, SetMark, Kill])
    ensures Last(worlds) == World([Proc(false, Reading)], true, Resting, [Stall(0)], {0})
  {
    worlds := FirstIsReported();
    worlds := Continues(worlds, [Spawn, Find, ReportStall], SetMark);
    worlds := Continues(worlds, [Spawn, Find, ReportStall, SetMark], Kill);
  }

  /** A killed process whose reader is done only after the next spawn, which clears the mark: two errors. */
  lemma RespawnBringsASecondError() returns (worlds: seq<World>, actions: seq<Action>)
    ensures IsHistory(worlds, actions)
    ensures Last(worlds).log == [Stall(0), Died(0)] && 0 in Last(worlds).killed
  {
    worlds := FirstIsKilled();
    actions := [Spawn, Find, ReportStall, SetMark, Kill];
    worlds := Continues(worlds, actions, End(0));
    worlds := Continues(worlds, actions + [End(0)], Spawn);
    worlds := Continues(worlds, actions + [End(0)] + [Spawn], Look(0));
    worlds := Continues(worlds, actions + [End(0)] + [Spawn] + [Look(0)], Answer(0));
    actions := actions + [End(0)] + [Spawn] + [Look(0)] + [Answer(0)];
  }

  /** A process that ends by itself after it was reported and before the mark: two errors. */
  lemma LateMarkBringsASecondError() returns (worlds: seq<World>, actions: seq<Action>)
    ensures IsHistory(worlds, actions)
    ensures Last(worlds).log == [Stall(0), Died(0)] && 0 in Last(worlds).killed
  {
    worlds := FirstIsReported();
    actions := [Spawn, Find, ReportStall];
    worlds := Continues(worlds, actions, End(0));
    worlds := Continues(worlds, actions + [End(0)], Look(0));
    worlds := Continues(worlds, actions + [End(0)] + [Look(0)], Answer(0));
    worlds := Continues(worlds, actions + [End(0)] + [Look(0)] + [Answer(0)], SetMark);
    worlds := Continues(worlds, actions + [End(0)] + [Look(0)] + [Answer(0)] + [SetMark], Kill);
    actions := actions + [End(0)] + [Look(0)] + [Answer(0)] + [SetMark] + [Kill];
  }

  /** A process whose stdout closes just before it is gone: no error, although it died by itself. */
  lemma EarlyCloseBringsNoError() returns (worlds: seq<World>, actions: seq<Action>)
    ensures IsHistory(worlds, actions)
    ensures Last(worlds) == World([Proc(true, Handled)], false, Resting, [], {})
  {
    worlds := [INITIAL];
    worlds := Continues(worlds, [], Spawn);
    worlds := Continues(worlds, [Spawn], Look(0));
    worlds := Continues(worlds, [Spawn, Look(0)], End(0));
    actions := [Spawn, Look(0), End(0)];
  }
}
