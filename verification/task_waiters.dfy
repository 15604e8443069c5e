/**
 Stopping foreground commands that watch the output file of a task that has
 finished: two maps kept up to date in place, against their meaning over the
 whole history of frames observed and ids returned.
 */
module TaskWaiters {

  /** A content block; a tool use other than Bash, and every other block, is ignored. */
  datatype Block = BashUse(id: string, command: string) | ToolAnswer(toolUseID: string) | OtherBlock

  /** Frames that do not parse, and messages without a block list, are `Other`. */
  datatype Frame =
    | Message(blocks: seq<Block>)
    | TaskStarted(taskID: string, toolUseID: string, taskType: string, isBackgrounded: bool)
    | TaskUpdated(taskID: string, status: string, isBackgrounded: bool)
    | TaskNotification(taskID: string, status: string, outputFile: string)
    | Other

  /** A frame observed and the ids returned for it. */
  datatype Seen = Seen(frame: Frame, stopped: set<string>)

  // ------------------------------------------------------------------
  // What the maps mean

  function BlocksOf(f: Frame): seq<Block> {
    if f.Message? then f.blocks else []
  }

  function AllBlocks(h: seq<Seen>): seq<Block> {
    if h == [] then [] else AllBlocks(h[..|h| - 1]) + BlocksOf(h[|h| - 1].frame)
  }

  predicate About(b: Block, id: string) {
    (b.BashUse? && b.id == id) || (b.ToolAnswer? && b.toolUseID == id)
  }

  /** The latest word on a tool use is a Bash call with this command: it is unanswered. */
  ghost predicate HoldsCommand(blocks: seq<Block>, id: string, command: string) {
    exists i :: 0 <= i < |blocks| && blocks[i] == BashUse(id, command)
                && forall j | i < j < |blocks| :: !About(blocks[j], id)
  }

  predicate Starts(f: Frame, task: string, toolUse: string) {
    f.TaskStarted? && f.taskID == task && f.toolUseID == toolUse && f.taskType == "local_bash" && !f.isBackgrounded
  }

  /** The frame takes the task out of the running foreground commands. */
  predicate Ends(f: Frame, task: string) {
    || (f.TaskUpdated? && f.taskID == task && (f.isBackgrounded || f.status !in {"", "running"}))
    || (f.TaskNotification? && f.taskID == task)
  }

  predicate Touches(s: Seen, task: string) {
    || (s.frame.TaskStarted? && Starts(s.frame, task, s.frame.toolUseID))
    || Ends(s.frame, task)
    || task in s.stopped
  }

  /** The latest word on a task is that it started in the foreground for this tool use. */
  ghost predicate RunningAt(h: seq<Seen>, task: string, toolUse: string) {
    exists i :: 0 <= i < |h| && Starts(h[i].frame, task, toolUse)
                && forall j | i < j < |h| :: !Touches(h[j], task)
  }

  predicate OccursAt(s: string, part: string, i: int) {
    0 <= i && i + |part| <= |s| && s[i..i + |part|] == part
  }

  predicate Contains(s: string, part: string) {
    exists i | 0 <= i <= |s| :: OccursAt(s, part, i)
  }

  predicate Reports(f: Frame) {
    f.TaskNotification? && f.status in {"completed", "failed"} && f.outputFile != ""
  }

  /** The running command of an unanswered tool use names the finished task's output file. */
  ghost predicate Watches(h: seq<Seen>, task: string, outputFile: string) {
    exists toolUse, command ::
      RunningAt(h, task, toolUse) && HoldsCommand(AllBlocks(h), toolUse, command) && Contains(command, outputFile)
  }

  ghost predicate MustStop(h: seq<Seen>, f: Frame, task: string) {
    Reports(f) && task != f.taskID && Watches(h, task, f.outputFile)
  }

  ghost predicate IsHistory(h: seq<Seen>) {
    forall k | 0 <= k < |h| :: StopsRight(h, k)
  }

  ghost predicate StopsRight(h: seq<Seen>, k: nat)
    requires k < |h|
  {
    forall task :: task in h[k].stopped <==> MustStop(h[..k], h[k].frame, task)
  }

  ghost predicate CommandsAre(commands: map<string, string>, blocks: seq<Block>) {
    forall id, command :: id in commands && commands[id] == command <==> HoldsCommand(blocks, id, command)
  }

  ghost predicate RunningAre(running: map<string, string>, h: seq<Seen>) {
    forall task, toolUse :: task in running && running[task] == toolUse <==> RunningAt(h, task, toolUse)
  }

  // ------------------------------------------------------------------
  // How the meanings change

  lemma HoldsCommandAppend(blocks: seq<Block>, b: Block, id: string, command: string)
    ensures HoldsCommand(blocks + [b], id, command)
       <==> if About(b, id) then b == BashUse(id, command) else HoldsCommand(blocks, id, command)
  {
    var all := blocks + [b];
    assert all[|blocks|] == b;
    if !About(b, id) {
      if HoldsCommand(all, id, command) {
        var i :| 0 <= i < |all| && all[i] == BashUse(id, command) && forall j | i < j < |all| :: !About(all[j], id);
        assert i < |blocks|;
        assert forall j | i < j < |blocks| :: all[j] == blocks[j];
      }
      if HoldsCommand(blocks, id, command) {
        var i :| 0 <= i < |blocks| && blocks[i] == BashUse(id, command)
                 && forall j | i < j < |blocks| :: !About(blocks[j], id);
        assert all[i] == BashUse(id, command);
      }
    }
  }

  function Noted(commands: map<string, string>, b: Block): map<string, string> {
    match b
    case BashUse(id, command) => commands[id := command]
    case ToolAnswer(toolUseID) => commands - {toolUseID}
    case OtherBlock => commands
  }

  lemma NotedIsRight(commands: map<string, string>, blocks: seq<Block>, b: Block)
    requires CommandsAre(commands, blocks)
    ensures CommandsAre(Noted(commands, b), blocks + [b])
  {
    var noted := Noted(commands, b);
    forall id, command
      ensures id in noted && noted[id] == command <==> HoldsCommand(blocks + [b], id, command)
    {
      HoldsCommandAppend(blocks, b, id, command);
      assert id in commands && commands[id] == command <==> HoldsCommand(blocks, id, command);
    }
  }

  /**
   What the command map says of a block that no later one overrides: a Bash call is
   held with its command, an answered one is not held, and none that was never made.
   */
  lemma CommandsHoldTheLatest(commands: map<string, string>, blocks: seq<Block>, id: string, i: int)
    requires CommandsAre(commands, blocks) && -1 <= i < |blocks|
    requires forall j | i < j < |blocks| ::
               blocks[j] != ToolAnswer(id) && !(blocks[j].BashUse? && blocks[j].id == id)
    ensures i == -1 ==> id !in commands
    ensures i >= 0 && blocks[i] == ToolAnswer(id) ==> id !in commands
    ensures i >= 0 && blocks[i].BashUse? && blocks[i].id == id ==>
              id in commands && commands[id] == blocks[i].command
  {
    if i >= 0 && blocks[i].BashUse? && blocks[i].id == id {
      assert HoldsCommand(blocks, id, blocks[i].command);
    } else if id in commands {
      assert HoldsCommand(blocks, id, commands[id]);
    }
  }

  lemma ContainsIff(s: string, part: string)
    ensures Contains(s, part) <==> exists before, after :: s == before + part + after
  {
    if Contains(s, part) {
      var i :| 0 <= i <= |s| && OccursAt(s, part, i);
      assert s == s[..i] + part + s[i + |part|..];
    }
    if before, after :| s == before + part + after {
      assert OccursAt(s, part, |before|);
    }
  }

  lemma WatchesIff(
      commands: map<string, string>, running: map<string, string>, h: seq<Seen>, task: string, file: string)
    requires CommandsAre(commands, AllBlocks(h)) && RunningAre(running, h)
    ensures Watches(h, task, file)
       <==> task in running && running[task] in commands && Contains(commands[running[task]], file)
  {
    hide RunningAt, HoldsCommand, Contains;
    if task in running && running[task] in commands && Contains(commands[running[task]], file) {
      assert RunningAt(h, task, running[task]);
      assert HoldsCommand(AllBlocks(h), running[task], commands[running[task]]);
    }
    if Watches(h, task, file) {
      var toolUse, command :|
        RunningAt(h, task, toolUse) && HoldsCommand(AllBlocks(h), toolUse, command) && Contains(command, file);
      assert task in running && running[task] == toolUse;
      assert toolUse in commands && commands[toolUse] == command;
    }
  }

  lemma RunningAppend(h: seq<Seen>, s: Seen, task: string, toolUse: string)
    ensures RunningAt(h + [s], task, toolUse)
       <==> Starts(s.frame, task, toolUse) || (!Touches(s, task) && RunningAt(h, task, toolUse))
  {
    var all := h + [s];
    assert all[|h|] == s;
    if RunningAt(all, task, toolUse) {
      var i :| 0 <= i < |all| && Starts(all[i].frame, task, toolUse)
               && forall j | i < j < |all| :: !Touches(all[j], task);
      if i < |h| {
        assert !Touches(all[|h|], task);
        assert forall j | i < j < |h| :: all[j] == h[j];
      }
    }
    if !Touches(s, task) && RunningAt(h, task, toolUse) {
      var i :| 0 <= i < |h| && Starts(h[i].frame, task, toolUse) && forall j | i < j < |h| :: !Touches(h[j], task);
      assert Starts(all[i].frame, task, toolUse);
      assert forall j | i < j < |all| :: !Touches(all[j], task);
    }
  }

  lemma BlocksAppend(h: seq<Seen>, s: Seen)
    ensures AllBlocks(h + [s]) == AllBlocks(h) + BlocksOf(s.frame)
  {
    assert (h + [s])[..|h|] == h;
  }

  lemma HistoryAppend(h: seq<Seen>, s: Seen)
    requires IsHistory(h)
    requires forall task :: task in s.stopped <==> MustStop(h, s.frame, task)
    ensures IsHistory(h + [s])
  {
    var all := h + [s];
    forall k | 0 <= k < |all|
      ensures StopsRight(all, k)
    {
      if k < |h| {
        assert StopsRight(h, k) && all[..k] == h[..k];
      } else {
        assert all[..k] == h;
      }
    }
  }

  // ------------------------------------------------------------------
  // The stopper

  class FinishedTaskWaiterStopper {
    var bashCommandByToolUseID: map<string, string>
    var runningForegroundBashTasks: map<string, string>
    ghost var history: seq<Seen>

    /** Both maps say what the history says, and every frame so far stopped what it should. */
    ghost predicate Valid()
      reads this
    {
      && IsHistory(history)
      && CommandsAre(bashCommandByToolUseID, AllBlocks(history))
      && RunningAre(runningForegroundBashTasks, history)
    }

    constructor ()
      ensures Valid() && history == []
    {
      bashCommandByToolUseID, runningForegroundBashTasks, history := map[], map[], [];
    }

    method ObserveBlocks(blocks: seq<Block>)
      requires CommandsAre(bashCommandByToolUseID, AllBlocks(history))
      modifies this`bashCommandByToolUseID
      ensures CommandsAre(bashCommandByToolUseID, AllBlocks(history) + blocks)
    {
      var before := AllBlocks(history);
      assert before + blocks[..0] == before;
      for i := 0 to |blocks|
        invariant CommandsAre(bashCommandByToolUseID, before + blocks[..i])
      {
        var b := blocks[i];
        assert before + blocks[..i + 1] == before + blocks[..i] + [b];
        NotedIsRight(bashCommandByToolUseID, before + blocks[..i], b);
        match b {
          case BashUse(id, command) =>
            bashCommandByToolUseID := bashCommandByToolUseID[id := command];
          case ToolAnswer(toolUseID) =>
            bashCommandByToolUseID := bashCommandByToolUseID - {toolUseID};
          case OtherBlock =>
        }
      }
      assert blocks[..|blocks|] == blocks;
    }

    /** Removes the running commands that name the file, in whatever order the map yields them. */
    method StopWatchers(outputFile: string) returns (ids: seq<string>)
      modifies this`runningForegroundBashTasks
      ensures forall i, j | 0 <= i < j < |ids| :: ids[i] != ids[j]
      ensures forall id :: id in ids <==>
                id in old(runningForegroundBashTasks)
                && var toolUse := old(runningForegroundBashTasks)[id];
                toolUse in bashCommandByToolUseID && Contains(bashCommandByToolUseID[toolUse], outputFile)
      ensures runningForegroundBashTasks == old(runningForegroundBashTasks) - (set id | id in ids)
    {
      ids := [];
      var left := runningForegroundBashTasks.Keys;
      while left != {}
        invariant left <= runningForegroundBashTasks.Keys
        invariant forall i, j | 0 <= i < j < |ids| :: ids[i] != ids[j]
        invariant forall id | id in ids :: id in old(runningForegroundBashTasks) && id !in runningForegroundBashTasks
        invariant forall id | id in old(runningForegroundBashTasks) && id !in left ::
                    id in ids <==>
                    var toolUse := old(runningForegroundBashTasks)[id];
                    toolUse in bashCommandByToolUseID && Contains(bashCommandByToolUseID[toolUse], outputFile)
        invariant forall id | id in left :: id !in ids
        invariant runningForegroundBashTasks == old(runningForegroundBashTasks) - (set id | id in ids)
        decreases left
      {
        var task :| task in left;
        left := left - {task};
        var toolUse := runningForegroundBashTasks[task];
        if toolUse in bashCommandByToolUseID && Contains(bashCommandByToolUseID[toolUse], outputFile) {
          ids := ids + [task];
          runningForegroundBashTasks := runningForegroundBashTasks - {task};
        }
      }
    }

    method Observe(f: Frame) returns (ids: seq<string>)
      requires Valid()
      modifies this
      ensures Valid()
      ensures history == old(history) + [Seen(f, set id | id in ids)]
      ensures forall id :: id in ids <==> MustStop(old(history), f, id)
      ensures forall i, j | 0 <= i < j < |ids| :: ids[i] != ids[j]
      ensures forall id :: id in ids <==>
                && f.TaskNotification? && f.status in {"completed", "failed"} && f.outputFile != "" && id != f.taskID
                && id in old(runningForegroundBashTasks)
                && old(runningForegroundBashTasks)[id] in old(bashCommandByToolUseID)
                && Contains(old(bashCommandByToolUseID)[old(runningForegroundBashTasks)[id]], f.outputFile)
      ensures !f.Message? ==> bashCommandByToolUseID == old(bashCommandByToolUseID)
      ensures
        var before := old(runningForegroundBashTasks);
        runningForegroundBashTasks ==
          match f
          case TaskStarted(task, toolUse, taskType, backgrounded) =>
            if taskType == "local_bash" && !backgrounded then before[task := toolUse] else before
          case TaskUpdated(task, status, backgrounded) =>
            if backgrounded || status !in {"", "running"} then before - {task} else before
          case TaskNotification(task, _, _) => before - {task} - (set id | id in ids)
          case _ => before
    {
      hide RunningAt, HoldsCommand, AllBlocks, Watches, Contains, IsHistory;
      ids := [];
      ghost var commands, running := bashCommandByToolUseID, runningForegroundBashTasks;
      match f {
        case Message(blocks) =>
          ObserveBlocks(blocks);
        case TaskStarted(taskID, toolUseID, taskType, isBackgrounded) =>
          if taskType == "local_bash" && !isBackgrounded {
            runningForegroundBashTasks := runningForegroundBashTasks[taskID := toolUseID];
          }
        case TaskUpdated(taskID, status, isBackgrounded) =>
          if isBackgrounded {
            runningForegroundBashTasks := runningForegroundBashTasks - {taskID};
          }
          if status != "" && status != "running" {
            runningForegroundBashTasks := runningForegroundBashTasks - {taskID};
          }
        case TaskNotification(taskID, status, outputFile) =>
          runningForegroundBashTasks := runningForegroundBashTasks - {taskID};
          if (status == "completed" || status == "failed") && outputFile != "" {
            ids := StopWatchers(outputFile);
          }
        case Other =>
      }
      ghost var seen := Seen(f, set id | id in ids);
      forall id
        ensures id in ids <==> MustStop(history, f, id)
      {
        if f.TaskNotification? {
          WatchesIff(commands, running, history, id, f.outputFile);
        }
      }
      forall task, toolUse
        ensures RunningAt(history + [seen], task, toolUse)
           <==> Starts(f, task, toolUse) || (!Touches(seen, task) && RunningAt(history, task, toolUse))
      {
        RunningAppend(history, seen, task, toolUse);
        assert task in running && running[task] == toolUse <==> RunningAt(history, task, toolUse);
      }
      HistoryAppend(history, seen);
      BlocksAppend(history, seen);
      assert AllBlocks(history) + [] == AllBlocks(history);
      history := history + [seen];
    }
  }

  // ------------------------------------------------------------------
  // Over a whole history

  /** A task is returned at most once per start: between two returns it started again. */
  lemma StoppedOncePerStart(h: seq<Seen>, task: string, j: nat, k: nat)
    requires IsHistory(h) && j < k < |h|
    requires task in h[j].stopped && task in h[k].stopped
    ensures exists i, toolUse :: j < i < k && Starts(h[i].frame, task, toolUse)
  {
    assert StopsRight(h, j) && StopsRight(h, k);
    assert Watches(h[..k], task, h[k].frame.outputFile);
    var toolUse :| RunningAt(h[..k], task, toolUse);
    var i :| 0 <= i < k && Starts(h[..k][i].frame, task, toolUse) && forall m | i < m < k :: !Touches(h[..k][m], task);
    assert h[j].frame.TaskNotification?;
    if i < j {
      assert Touches(h[..k][j], task);
    }
    assert j < i && Starts(h[i].frame, task, toolUse);
  }

  /** The task a frame reports finished is never among those it stops, nor does it stay in the map. */
  lemma FinishedIsNotStopped(h: seq<Seen>, k: nat, toolUse: string)
    requires IsHistory(h) && k < |h| && h[k].frame.TaskNotification?
    ensures h[k].frame.taskID !in h[k].stopped
    ensures !RunningAt(h[..k + 1], h[k].frame.taskID, toolUse)
  {
    assert StopsRight(h, k);
    assert h[..k + 1] == h[..k] + [h[k]];
    RunningAppend(h[..k], h[k], h[k].frame.taskID, toolUse);
  }

  /** A foreground command that names the file of a task, reported finished while the command runs. */
  function WatcherHistory(
      task: string, toolUse: string, command: string, done: string, status: string, file: string): seq<Seen> {
    [ Seen(Message([BashUse(toolUse, command)]), {}),
      Seen(TaskStarted(task, toolUse, "local_bash", false), {}),
      Seen(TaskNotification(done, status, file), {task}) ]
  }

  lemma WatcherIsStopped(task: string, toolUse: string, command: string, done: string, status: string, file: string)
    requires status == "completed" || status == "failed"
    requires file != "" && task != done && Contains(command, file)
    ensures IsHistory(WatcherHistory(task, toolUse, command, done, status, file))
  {
    hide Contains;
    var h := WatcherHistory(task, toolUse, command, done, status, file);
    var before := h[..2];
    assert AllBlocks(before) == [BashUse(toolUse, command)] by {
      assert [] + [h[0]] == [h[0]] && [h[0]] + [h[1]] == before;
      BlocksAppend([], h[0]);
      BlocksAppend([h[0]], h[1]);
    }
    assert HoldsCommand(AllBlocks(before), toolUse, command) by {
      assert AllBlocks(before)[0] == BashUse(toolUse, command);
    }
    assert RunningAt(before, task, toolUse) by {
      assert Starts(before[1].frame, task, toolUse);
    }
    assert MustStop(before, h[2].frame, task);
    assert forall t | MustStop(before, h[2].frame, t) :: t == task;
    assert StopsRight(h, 2);
  }
}
