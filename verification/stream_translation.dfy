/**
 Translation of Claude Code's stdout frames into events, and how the frames drive
 the usage aggregator. A frame is already parsed; a result event holds a view of
 the aggregator's slice, which Reset and later calls reuse in place.
 */
module StreamTranslation {
  import opened MessageContent
  import opened Options
  import opened Usage

  // ------------------------------------------------------------------
  // Frames

  datatype AssistantBlock =
    | Text(text: string)
    | Thinking(text: string, signature: string)
    | ToolUse(id: string, name: string, input: string)
    | OtherBlock

  datatype AssistantMessage = AssistantMessage(id: string, content: seq<AssistantBlock>, usage: CallUsage)

  datatype UserBlock =
    | ToolResult(toolUseID: string, content: Content, isError: bool)
    | UserText(text: string)
    | OtherUserBlock

  datatype UserContent = BareText(text: string) | UserBlocks(blocks: seq<UserBlock>) | Neither

  datatype Denial = Denial(tool: string, message: string)

  datatype TurnResult = TurnResult(
    text: string, isError: bool, terminalReason: string, errors: seq<string>,
    usage: CallUsage, totalCost: real, denials: seq<Denial>)

  /** UnreadTaskList is a background_tasks_changed frame whose list cannot be read. */
  datatype Kind =
    | System(subtype: string)
    | UnreadTaskList
    | Assistant(message: Option<AssistantMessage>)
    | ResultKind(result: TurnResult)
    | RateLimit
    | ToolProgress
    | Internal
    | User(content: Option<UserContent>)
    | Unknown(name: string)

  datatype Frame = Unreadable | Frame(kind: Kind, sessionID: string, parentToolUseID: string)

  predicate IsResult(f: Frame) {
    f.Frame? && f.kind.ResultKind?
  }

  predicate IsCall(f: Frame) {
    f.Frame? && f.kind.Assistant? && f.kind.message.Some?
  }

  /** Read as the init system event, which an unknown frame type of that name is too. */
  predicate IsInit(f: Frame) {
    f.Frame? && (f.kind == System("init") || f.kind == Unknown("init"))
  }

  // ------------------------------------------------------------------
  // Events

  /** A result's per-call list: the calls themselves, or a view of the slice that holds them. */
  datatype CallList = Listed(calls: seq<CallUsage>) | View(slice: Slice)

  datatype Body =
    | SystemNote(subtype: string)
    | HookNote(subtype: string)
    | Denied(tool: string, message: string)
    | TextBlock(index: nat, messageID: string, text: string)
    | ThinkingBlock(index: nat, messageID: string, text: string, signature: string)
    | ToolCall(toolID: string, name: string, input: string, messageID: string)
    | ToolOutput(toolID: string, output: string, isError: bool)
    | UserMessage(text: string)
    | Result(text: string, usage: TurnUsage, cost: Option<real>, apiCalls: nat, calls: CallList)
    | Error(code: string, message: string)

  datatype Event = Event(body: Body, harnessSessionID: string, harnessParentID: string)

  /** A result or error event: the reader runs a turn boundary after it. */
  predicate IsBoundary(e: Event) {
    e.body.Result? || e.body.Error?
  }

  function Held(b: Body): set<object> {
    if b.Result? && b.calls.View? then {b.calls.slice.buf} else {}
  }

  predicate Readable(b: Body) {
    b.Result? && b.calls.View? ==> b.calls.slice.len <= b.calls.slice.buf.Length
  }

  /** The event's body as it stands when it is emitted. */
  function Seen(b: Body): Body
    requires Readable(b)
    reads Held(b)
  {
    if b.Result? && b.calls.View? then b.(calls := Listed(Contents(b.calls.slice))) else b
  }

  /** Emitted now, the bodies read as `want`. */
  ghost predicate SeenAs(bodies: seq<Body>, want: seq<Body>)
    reads set b, o | b in bodies && o in Held(b) :: o
  {
    && |bodies| == |want|
    && forall i | 0 <= i < |bodies| :: Readable(bodies[i]) && Seen(bodies[i]) == want[i]
  }

  // ------------------------------------------------------------------
  // Specification of one frame

  /** What the reader carries from frame to frame: the session id and the aggregator's value. */
  datatype State = State(sessionID: string, calls: seq<CallUsage>, cumulative: real)

  function Start(sessionID: string): State {
    State(sessionID, [], 0.0)
  }

  function SystemBody(subtype: string): Body {
    if subtype in {"hook_started", "hook_progress", "hook_response"} then HookNote(subtype) else SystemNote(subtype)
  }

  function BlockBodies(block: AssistantBlock, index: nat, id: string): seq<Body> {
    match block
    case Text(text) => [TextBlock(index, id, text)]
    case Thinking(text, signature) => [ThinkingBlock(index, id, text, signature)]
    case ToolUse(toolID, name, input) => [ToolCall(toolID, name, input, id)]
    case OtherBlock => []
  }

  function AssistantBodies(content: seq<AssistantBlock>, id: string): seq<Body> {
    if content == [] then []
    else
      var n := |content| - 1;
      AssistantBodies(content[..n], id) + BlockBodies(content[n], n, id)
  }

  function OutputBodies(blocks: seq<UserBlock>): seq<Body> {
    if blocks == [] then []
    else
      var n := |blocks| - 1;
      OutputBodies(blocks[..n])
      + match blocks[n]
        case ToolResult(toolUseID, content, isError) => [ToolOutput(toolUseID, TextOf(content), isError)]
        case _ => []
  }

  function PieceOf(block: UserBlock): Piece {
    if block.UserText? then TextPiece(block.text) else OtherPiece
  }

  function ContentOf(content: UserContent): Content {
    match content
    case BareText(text) => Bare(text)
    case UserBlocks(blocks) => Pieces(seq(|blocks|, i requires 0 <= i < |blocks| => PieceOf(blocks[i])))
    case Neither => Unread
  }

  function BlocksOf(content: UserContent): seq<UserBlock> {
    if content.UserBlocks? then content.blocks else []
  }

  function UserBodies(content: UserContent, parent: string): seq<Body> {
    var text := TextOf(ContentOf(content));
    OutputBodies(BlocksOf(content)) + if parent != "" && text != "" then [UserMessage(text)] else []
  }

  /** An aborted turn is an ordinary result, however Claude Code marks it. */
  predicate Failed(r: TurnResult) {
    r.isError && r.terminalReason !in {"aborted_streaming", "aborted_tools"}
  }

  function DenialBodies(denials: seq<Denial>): seq<Body> {
    seq(|denials|, i requires 0 <= i < |denials| => Denied(denials[i].tool, denials[i].message))
  }

  function ResultBody(r: TurnResult, calls: seq<CallUsage>, cumulative: real): Body {
    if Failed(r)
    then Error("EXECUTION_ERROR", if r.errors == [] then "Claude Code error" else r.errors[0])
    else Result(r.text, TotalsOf(r.usage, calls), TurnCost(cumulative, r.totalCost), |calls|, Listed(calls))
  }

  function BodiesOf(kind: Kind, parent: string, s: State): seq<Body> {
    match kind
    case System(subtype) => [SystemBody(subtype)]
    case UnreadTaskList => [SystemNote("background_tasks_changed_unparsed")]
    case Assistant(message) => if message.Some? then AssistantBodies(message.value.content, message.value.id) else []
    case ResultKind(r) => [ResultBody(r, s.calls, s.cumulative)] + DenialBodies(r.denials)
    case RateLimit => [SystemNote("rate_limit")]
    case ToolProgress => [SystemNote("tool_progress")]
    case Internal => []
    case User(content) => if content.Some? then UserBodies(content.value, parent) else []
    case Unknown(name) => [SystemNote(name)]
  }

  function SessionOf(f: Frame, ours: string): string {
    if f.Frame? && f.sessionID != "" then f.sessionID else ours
  }

  function Stamped(bodies: seq<Body>, sessionID: string, parent: string): seq<Event> {
    seq(|bodies|, i requires 0 <= i < |bodies| => Event(bodies[i], sessionID, parent))
  }

  function EventsOf(f: Frame, s: State): seq<Event> {
    if f.Unreadable? then []
    else Stamped(BodiesOf(f.kind, f.parentToolUseID, s), SessionOf(f, s.sessionID), f.parentToolUseID)
  }

  function CallsAfter(f: Frame, calls: seq<CallUsage>): seq<CallUsage> {
    if IsResult(f) then []
    else if IsCall(f) then calls + [f.kind.message.value.usage]
    else calls
  }

  function After(f: Frame, s: State): State {
    State(
      if IsInit(f) then SessionOf(f, s.sessionID) else s.sessionID,
      CallsAfter(f, s.calls),
      if IsResult(f) then RunningTotal(s.cumulative, f.kind.result.totalCost) else s.cumulative)
  }

  // ------------------------------------------------------------------
  // Specification of a stream

  function StateAfter(frames: seq<Frame>, sessionID: string): State {
    if frames == [] then Start(sessionID)
    else After(frames[|frames| - 1], StateAfter(frames[..|frames| - 1], sessionID))
  }

  /** Each frame's translation, in frame order. */
  function Stream(frames: seq<Frame>, sessionID: string): seq<Event> {
    if frames == [] then []
    else
      var n := |frames| - 1;
      Stream(frames[..n], sessionID) + EventsOf(frames[n], StateAfter(frames[..n], sessionID))
  }

  // ------------------------------------------------------------------
  // Properties

  function UsagesOf(frames: seq<Frame>): seq<CallUsage> {
    if frames == [] then []
    else (if IsCall(frames[0]) then [frames[0].kind.message.value.usage] else []) + UsagesOf(frames[1..])
  }

  lemma {:induction false} UsagesAppend(frames: seq<Frame>, f: Frame)
    ensures UsagesOf(frames + [f]) == UsagesOf(frames) + if IsCall(f) then [f.kind.message.value.usage] else []
  {
    if frames != [] {
      assert (frames + [f])[1..] == frames[1..] + [f];
      UsagesAppend(frames[1..], f);
    }
  }

  /** The blocks of an assistant message that are shown. */
  function Shown(content: seq<AssistantBlock>): nat {
    if content == [] then 0
    else Shown(content[..|content| - 1]) + if content[|content| - 1].OtherBlock? then 0 else 1
  }

  /** Every shown block gives one event, in order, with its own position, text and names. */
  lemma {:induction false} BlockIsShown(content: seq<AssistantBlock>, id: string, i: nat)
    requires i < |content| && !content[i].OtherBlock?
    ensures |AssistantBodies(content, id)| == Shown(content) && Shown(content[..i]) < Shown(content)
    ensures AssistantBodies(content, id)[Shown(content[..i])]
         == match content[i]
            case Text(text) => TextBlock(i, id, text)
            case Thinking(text, signature) => ThinkingBlock(i, id, text, signature)
            case ToolUse(toolID, name, input) => ToolCall(toolID, name, input, id)
    decreases |content|
  {
    var n := |content| - 1;
    ShownCounts(content[..n], id);
    if i < n {
      BlockIsShown(content[..n], id, i);
      assert content[..n][..i] == content[..i];
    }
  }

  lemma {:induction false} ShownCounts(content: seq<AssistantBlock>, id: string)
    ensures |AssistantBodies(content, id)| == Shown(content)
  {
    if content != [] {
      ShownCounts(content[..|content| - 1], id);
    }
  }

  function Results(blocks: seq<UserBlock>): nat {
    if blocks == [] then 0
    else Results(blocks[..|blocks| - 1]) + if blocks[|blocks| - 1].ToolResult? then 1 else 0
  }

  /** Every tool result of a user message gives one event, in order, with its own id, text and error mark. */
  lemma {:induction false} ResultIsShown(blocks: seq<UserBlock>, i: nat)
    requires i < |blocks| && blocks[i].ToolResult?
    ensures |OutputBodies(blocks)| == Results(blocks) && Results(blocks[..i]) < Results(blocks)
    ensures OutputBodies(blocks)[Results(blocks[..i])]
         == ToolOutput(blocks[i].toolUseID, TextOf(blocks[i].content), blocks[i].isError)
    decreases |blocks|
  {
    var n := |blocks| - 1;
    ResultsCount(blocks[..n]);
    if i < n {
      ResultIsShown(blocks[..n], i);
      assert blocks[..n][..i] == blocks[..i];
    }
  }

  lemma {:induction false} ResultsCount(blocks: seq<UserBlock>)
    ensures |OutputBodies(blocks)| == Results(blocks)
  {
    if blocks != [] {
      ResultsCount(blocks[..|blocks| - 1]);
    }
  }

  /**
   A result frame gives one event and one more per denial. The first is an error
   exactly for a failed turn that was not interrupted, and else the turn's result.
   */
  lemma ResultFrameGives(f: Frame, s: State)
    requires f.Frame? && f.kind.ResultKind?
    ensures
      var r, out := f.kind.result, EventsOf(f, s);
      && |out| == 1 + |r.denials|
      && (out[0].body.Error? <==>
            r.isError && r.terminalReason != "aborted_streaming" && r.terminalReason != "aborted_tools")
      && (out[0].body.Error? ==>
            && out[0].body.code == "EXECUTION_ERROR"
            && out[0].body.message == if r.errors == [] then "Claude Code error" else r.errors[0])
      && (!out[0].body.Error? ==>
            && out[0].body.Result? && out[0].body.text == r.text
            && out[0].body.usage.input == r.usage.input && out[0].body.usage.output == r.usage.output
            && out[0].body.cost == TurnCost(s.cumulative, r.totalCost)
            && out[0].body.apiCalls == |s.calls| && out[0].body.calls == Listed(s.calls))
      && forall i | 0 <= i < |r.denials| :: out[1 + i].body == Denied(r.denials[i].tool, r.denials[i].message)
  {
  }

  /** The session id is the one the latest init frame that names any named, or the one at the start. */
  lemma {:induction false} SessionIsLatestInits(frames: seq<Frame>, sessionID: string)
    ensures
      var sid := StateAfter(frames, sessionID).sessionID;
      || (sid == sessionID && forall i | 0 <= i < |frames| :: !NamesSession(frames[i]))
      || exists i ::
           && 0 <= i < |frames| && NamesSession(frames[i]) && frames[i].sessionID == sid
           && forall j | i < j < |frames| :: !NamesSession(frames[j])
  {
    if frames != [] {
      var n := |frames| - 1;
      SessionIsLatestInits(frames[..n], sessionID);
      var sid := StateAfter(frames[..n], sessionID).sessionID;
      if NamesSession(frames[n]) {
        assert frames[n].sessionID == StateAfter(frames, sessionID).sessionID;
      } else if i :| 0 <= i < n && NamesSession(frames[..n][i]) && frames[..n][i].sessionID == sid
                     && forall j | i < j < n :: !NamesSession(frames[..n][j]) {
        assert NamesSession(frames[i]) && frames[i].sessionID == sid;
      }
    }
  }

  predicate NamesSession(f: Frame) {
    f.Frame? && f.kind in {System("init"), Unknown("init")} && f.sessionID != ""
  }

  /** i is where the turn that position j is in began: after the previous result, or at the start. */
  ghost predicate TurnBegan(frames: seq<Frame>, i: nat, j: nat)
    requires i <= j <= |frames|
  {
    && (i == 0 || IsResult(frames[i - 1]))
    && forall k | i <= k < j :: !IsResult(frames[k])
  }

  lemma {:induction false} CallsSinceResult(frames: seq<Frame>, sessionID: string, i: nat, j: nat)
    requires i <= j <= |frames| && TurnBegan(frames, i, j)
    ensures StateAfter(frames[..j], sessionID).calls == UsagesOf(frames[i..j])
    decreases j
  {
    if j > 0 {
      assert frames[..j][..j - 1] == frames[..j - 1];
      assert frames[..j][j - 1] == frames[j - 1];
      if i == j {
        assert IsResult(frames[j - 1]) && frames[i..j] == [];
      } else {
        CallsSinceResult(frames, sessionID, i, j - 1);
        assert frames[i..j] == frames[i..j - 1] + [frames[j - 1]];
        UsagesAppend(frames[i..j - 1], frames[j - 1]);
      }
    }
  }

  /** What the first n frames emit stays at the front of the stream. */
  lemma {:induction false} StreamPrefix(frames: seq<Frame>, sessionID: string, n: nat)
    requires n <= |frames|
    ensures Stream(frames[..n], sessionID) <= Stream(frames, sessionID)
    decreases |frames|
  {
    hide EventsOf, StateAfter;
    if n == |frames| {
      assert frames[..n] == frames;
    } else {
      var m := |frames| - 1;
      StreamPrefix(frames[..m], sessionID, n);
      assert frames[..m][..n] == frames[..n];
    }
  }

  /**
   Each result event lists exactly the usages of the readable assistant frames since
   the previous result frame, in order, and takes its context snapshot from the last.
   */
  lemma ResultListsItsTurn(frames: seq<Frame>, sessionID: string, i: nat, j: nat)
    requires i <= j < |frames| && TurnBegan(frames, i, j)
    requires IsResult(frames[j]) && !Failed(frames[j].kind.result)
    ensures
      var out := EventsOf(frames[j], StateAfter(frames[..j], sessionID));
      var want := UsagesOf(frames[i..j]);
      && Stream(frames[..j], sessionID) + out <= Stream(frames, sessionID)
      && out != []
      && out[0].body.Result?
      && out[0].body.calls == Listed(want)
      && out[0].body.apiCalls == |want|
      && out[0].body.usage.contextTokens == ContextOf(want)
  {
    hide EventsOf, StateAfter, UsagesOf, TurnBegan, ContextOf, Failed;
    CallsSinceResult(frames, sessionID, i, j);
    StreamPrefix(frames, sessionID, j + 1);
    assert frames[..j + 1][..j] == frames[..j];
    ResultLists(frames[j], StateAfter(frames[..j], sessionID));
  }

  lemma ResultLists(f: Frame, s: State)
    requires IsResult(f) && !Failed(f.kind.result)
    ensures
      var out := EventsOf(f, s);
      && out != []
      && out[0].body.Result?
      && out[0].body.calls == Listed(s.calls)
      && out[0].body.apiCalls == |s.calls|
      && out[0].body.usage.contextTokens == ContextOf(s.calls)
  {
  }

  function Boundaries(events: seq<Event>): nat {
    if events == [] then 0
    else (if IsBoundary(events[0]) then 1 else 0) + Boundaries(events[1..])
  }

  lemma {:induction false} BoundariesAppend(a: seq<Event>, b: seq<Event>)
    ensures Boundaries(a + b) == Boundaries(a) + Boundaries(b)
  {
    if a == [] {
      assert a + b == b;
    } else {
      assert (a + b)[1..] == a[1..] + b;
      BoundariesAppend(a[1..], b);
    }
  }

  lemma {:induction false} NoBoundary(events: seq<Event>)
    requires forall e | e in events :: !IsBoundary(e)
    ensures Boundaries(events) == 0
  {
    if events != [] {
      NoBoundary(events[1..]);
    }
  }

  ghost predicate Plain(bodies: seq<Body>) {
    forall i | 0 <= i < |bodies| :: !bodies[i].Result? && !bodies[i].Error?
  }

  lemma PlainIsSeen(bodies: seq<Body>)
    requires Plain(bodies)
    ensures SeenAs(bodies, bodies)
  {
  }

  lemma {:induction false} AssistantBodiesArePlain(content: seq<AssistantBlock>, id: string)
    ensures Plain(AssistantBodies(content, id))
  {
    if content != [] {
      AssistantBodiesArePlain(content[..|content| - 1], id);
    }
  }

  lemma {:induction false} OutputBodiesArePlain(blocks: seq<UserBlock>)
    ensures Plain(OutputBodies(blocks))
  {
    if blocks != [] {
      OutputBodiesArePlain(blocks[..|blocks| - 1]);
    }
  }

  lemma OtherKindsArePlain(kind: Kind, parent: string, s: State)
    requires !kind.ResultKind?
    ensures Plain(BodiesOf(kind, parent, s))
  {
    match kind {
      case Assistant(Some(message)) => AssistantBodiesArePlain(message.content, message.id);
      case User(Some(content)) => OutputBodiesArePlain(BlocksOf(content));
      case _ =>
    }
  }

  lemma OtherFramesArePlain(f: Frame, s: State)
    requires !IsResult(f)
    ensures forall e | e in EventsOf(f, s) :: !e.body.Result? && !e.body.Error?
  {
    if f.Frame? {
      OtherKindsArePlain(f.kind, f.parentToolUseID, s);
    }
  }

  lemma BoundaryOfFrame(f: Frame, s: State)
    ensures Boundaries(EventsOf(f, s)) == if IsResult(f) then 1 else 0
    ensures IsResult(f) ==> EventsOf(f, s) != [] && IsBoundary(EventsOf(f, s)[0])
  {
    var events := EventsOf(f, s);
    if IsResult(f) {
      assert events[0].body == ResultBody(f.kind.result, s.calls, s.cumulative);
      assert forall e | e in events[1..] :: e.body.Denied?;
      NoBoundary(events[1..]);
    } else {
      OtherFramesArePlain(f, s);
      NoBoundary(events);
    }
  }

  function ResultFrames(frames: seq<Frame>): nat {
    if frames == [] then 0
    else ResultFrames(frames[..|frames| - 1]) + if IsResult(frames[|frames| - 1]) then 1 else 0
  }

  /** A stream ends exactly one turn for each result frame and none for any other. */
  lemma {:induction false} OneBoundaryPerResult(frames: seq<Frame>, sessionID: string)
    ensures Boundaries(Stream(frames, sessionID)) == ResultFrames(frames)
  {
    if frames != [] {
      var n := |frames| - 1;
      OneBoundaryPerResult(frames[..n], sessionID);
      BoundaryOfFrame(frames[n], StateAfter(frames[..n], sessionID));
      BoundariesAppend(Stream(frames[..n], sessionID), EventsOf(frames[n], StateAfter(frames[..n], sessionID)));
    }
  }

  // ------------------------------------------------------------------
  // Costs over a stream

  function ResultTotals(frames: seq<Frame>): seq<real> {
    if frames == [] then []
    else
      var f := frames[|frames| - 1];
      ResultTotals(frames[..|frames| - 1]) + if IsResult(f) then [f.kind.result.totalCost] else []
  }

  function RunningOver(totals: seq<real>): real {
    if totals == [] then 0.0 else RunningTotal(RunningOver(totals[..|totals| - 1]), totals[|totals| - 1])
  }

  lemma {:induction false} CumulativeIsRunning(frames: seq<Frame>, sessionID: string)
    ensures StateAfter(frames, sessionID).cumulative == RunningOver(ResultTotals(frames))
  {
    if frames != [] {
      var n := |frames| - 1;
      var totals := ResultTotals(frames);
      CumulativeIsRunning(frames[..n], sessionID);
      if IsResult(frames[n]) {
        assert totals[..|totals| - 1] == ResultTotals(frames[..n]);
      } else {
        assert totals == ResultTotals(frames[..n]);
      }
    }
  }

  /** What the result events of a stream charge. */
  function Charged(events: seq<Event>): real {
    if events == [] then 0.0
    else (if events[0].body.Result? then Worth(events[0].body.cost) else 0.0) + Charged(events[1..])
  }

  /** What the error results of a stream would have charged. */
  function Dropped(frames: seq<Frame>, sessionID: string): real {
    if frames == [] then 0.0
    else
      var n := |frames| - 1;
      Dropped(frames[..n], sessionID)
      + if IsResult(frames[n]) && Failed(frames[n].kind.result)
        then Worth(TurnCost(StateAfter(frames[..n], sessionID).cumulative, frames[n].kind.result.totalCost))
        else 0.0
  }

  lemma {:induction false} ChargedAppend(a: seq<Event>, b: seq<Event>)
    ensures Charged(a + b) == Charged(a) + Charged(b)
  {
    if a == [] {
      assert a + b == b;
    } else {
      assert (a + b)[1..] == a[1..] + b;
      ChargedAppend(a[1..], b);
    }
  }

  lemma {:induction false} NothingCharged(events: seq<Event>)
    requires forall e | e in events :: !e.body.Result?
    ensures Charged(events) == 0.0
  {
    if events != [] {
      NothingCharged(events[1..]);
    }
  }

  lemma {:induction false} CostsAppend(previous: real, totals: seq<real>, total: real)
    ensures Sum(Costs(previous, totals + [total]))
         == Sum(Costs(previous, totals)) + Worth(TurnCost(RunningFrom(previous, totals), total))
    decreases |totals|
  {
    var all := totals + [total];
    if totals == [] {
      assert all == [total];
      assert Costs(previous, all)[1..] == [];
    } else {
      assert all[1..] == totals[1..] + [total];
      CostsAppend(RunningTotal(previous, totals[0]), totals[1..], total);
      assert Costs(previous, all)[1..] == Costs(RunningTotal(previous, totals[0]), all[1..]);
      assert Costs(previous, totals)[1..] == Costs(RunningTotal(previous, totals[0]), totals[1..]);
    }
  }

  function RunningFrom(previous: real, totals: seq<real>): real
    decreases |totals|
  {
    if totals == [] then previous else RunningFrom(RunningTotal(previous, totals[0]), totals[1..])
  }

  lemma {:induction false} RunningFromLast(previous: real, totals: seq<real>, total: real)
    ensures RunningFrom(previous, totals + [total]) == RunningTotal(RunningFrom(previous, totals), total)
    decreases |totals|
  {
    var all := totals + [total];
    if totals == [] {
      assert all[1..] == [];
    } else {
      assert all[1..] == totals[1..] + [total];
      RunningFromLast(RunningTotal(previous, totals[0]), totals[1..], total);
    }
  }

  lemma {:induction false} RunningOverIsFrom(totals: seq<real>)
    ensures RunningOver(totals) == RunningFrom(0.0, totals)
  {
    if totals != [] {
      var n := |totals| - 1;
      RunningOverIsFrom(totals[..n]);
      RunningFromLast(0.0, totals[..n], totals[n]);
      assert totals == totals[..n] + [totals[n]];
    }
  }

  lemma ChargedOfFrame(f: Frame, s: State)
    ensures Charged(EventsOf(f, s))
         == if IsResult(f) && !Failed(f.kind.result)
            then Worth(TurnCost(s.cumulative, f.kind.result.totalCost)) else 0.0
  {
    var events := EventsOf(f, s);
    if IsResult(f) {
      assert events[0].body == ResultBody(f.kind.result, s.calls, s.cumulative);
      assert forall e | e in events[1..] :: e.body.Denied?;
      NothingCharged(events[1..]);
    } else {
      OtherFramesArePlain(f, s);
      NothingCharged(events);
    }
  }

  /** Charged and dropped costs together are the last totals of all process epochs. */
  lemma {:induction false} ChargesAndDrops(frames: seq<Frame>, sessionID: string)
    ensures Charged(Stream(frames, sessionID)) + Dropped(frames, sessionID)
         == EpochTotals(Priced(ResultTotals(frames)), 0)
  {
    ChargesAreCosts(frames, sessionID);
    CostsSumToEpochTotals(ResultTotals(frames));
  }

  lemma {:induction false} ChargesAreCosts(frames: seq<Frame>, sessionID: string)
    ensures Charged(Stream(frames, sessionID)) + Dropped(frames, sessionID) == Sum(Costs(0.0, ResultTotals(frames)))
  {
    if frames != [] {
      var n := |frames| - 1;
      var s := StateAfter(frames[..n], sessionID);
      ChargesAreCosts(frames[..n], sessionID);
      ChargedOfFrame(frames[n], s);
      ChargedAppend(Stream(frames[..n], sessionID), EventsOf(frames[n], s));
      if IsResult(frames[n]) {
        CumulativeIsRunning(frames[..n], sessionID);
        RunningOverIsFrom(ResultTotals(frames[..n]));
        CostsAppend(0.0, ResultTotals(frames[..n]), frames[n].kind.result.totalCost);
      } else {
        assert ResultTotals(frames) == ResultTotals(frames[..n]);
      }
    }
  }

  // ------------------------------------------------------------------
  // The translators

  function ToolUses(content: seq<AssistantBlock>): nat {
    if content == [] then 0
    else ToolUses(content[..|content| - 1]) + if content[|content| - 1].ToolUse? then 1 else 0
  }

  method TranslateAssistant(message: AssistantMessage, agg: UsageAggregator) returns (out: seq<Body>)
    requires agg.Valid()
    modifies agg`buf, agg`len, agg`toolCalls, agg.buf
    ensures agg.Valid() && (agg.buf == old(agg.buf) || fresh(agg.buf))
    ensures agg.Calls() == old(agg.Calls()) + [message.usage]
    ensures agg.toolCalls == old(agg.toolCalls) + ToolUses(message.content)
    ensures out == AssistantBodies(message.content, message.id)
  {
    agg.AddAPICall(message.usage);
    ghost var calls := agg.Calls();
    var content := message.content;
    out := [];
    for i := 0 to |content|
      invariant agg.Valid() && (agg.buf == old(agg.buf) || fresh(agg.buf)) && agg.Calls() == calls
      invariant agg.toolCalls == old(agg.toolCalls) + ToolUses(content[..i])
      invariant out == AssistantBodies(content[..i], message.id)
    {
      assert content[..i + 1][..i] == content[..i];
      match content[i] {
        case Text(text) =>
          out := out + [TextBlock(i, message.id, text)];
        case Thinking(text, signature) =>
          out := out + [ThinkingBlock(i, message.id, text, signature)];
        case ToolUse(id, name, input) =>
          agg.AddToolCall();
          out := out + [ToolCall(id, name, input, message.id)];
        case OtherBlock =>
      }
    }
    assert content[..|content|] == content;
  }

  method TranslateUserFrame(content: UserContent, parent: string) returns (out: seq<Body>)
    ensures out == UserBodies(content, parent)
    ensures
      var outputs, text := OutputBodies(BlocksOf(content)), TextOf(ContentOf(content));
      out == if parent == "" || text == "" then outputs else outputs + [UserMessage(text)]
  {
    var blocks := BlocksOf(content);
    out := [];
    for i := 0 to |blocks|
      invariant out == OutputBodies(blocks[..i])
    {
      assert blocks[..i + 1][..i] == blocks[..i];
      if blocks[i].ToolResult? {
        var output := DecodeText(blocks[i].content);
        out := out + [ToolOutput(blocks[i].toolUseID, output, blocks[i].isError)];
      }
    }
    assert blocks[..|blocks|] == blocks;
    if parent != "" {
      var text := DecodeText(ContentOf(content));
      if text != "" {
        out := out + [UserMessage(text)];
      }
    }
  }

  lemma HeadThenDenials(head: Body, r: TurnResult, calls: seq<CallUsage>, cumulative: real)
    requires Readable(head) && Seen(head) == ResultBody(r, calls, cumulative)
    ensures SeenAs([head] + DenialBodies(r.denials), [ResultBody(r, calls, cumulative)] + DenialBodies(r.denials))
  {
  }

  method TranslateResult(r: TurnResult, agg: UsageAggregator) returns (out: seq<Body>)
    requires agg.Valid()
    modifies agg`len, agg`toolCalls, agg`cumulativeCostUSD
    ensures agg.Valid() && agg.Calls() == [] && agg.toolCalls == 0
    ensures agg.cumulativeCostUSD == RunningTotal(old(agg.cumulativeCostUSD), r.totalCost)
    ensures SeenAs(out, [ResultBody(r, old(agg.Calls()), old(agg.cumulativeCostUSD))] + DenialBodies(r.denials))
    ensures |out| == 1 + |r.denials|
    ensures r.isError && r.terminalReason != "aborted_streaming" && r.terminalReason != "aborted_tools" ==>
              out[0] == Error("EXECUTION_ERROR", if r.errors == [] then "Claude Code error" else r.errors[0])
    ensures !r.isError || r.terminalReason == "aborted_streaming" || r.terminalReason == "aborted_tools" ==>
              out[0].Result? && out[0].text == r.text && out[0].apiCalls == |old(agg.Calls())|
    ensures forall i | 0 < i < |out| :: out[i] == Denied(r.denials[i - 1].tool, r.denials[i - 1].message)
  {
    hide SeenAs, TotalsOf, TurnCost, RunningTotal;
    var usage, cost := agg.Finalize(r.usage, r.totalCost);
    if r.isError && r.terminalReason !in {"aborted_streaming", "aborted_tools"} {
      var message := "Claude Code error";
      if |r.errors| > 0 {
        message := r.errors[0];
      }
      out := [Error("EXECUTION_ERROR", message)];
    } else {
      var view := agg.APICallUsages();
      out := [Result(r.text, usage, cost, view.len, View(view))];
    }
    ghost var head := out[0];
    for i := 0 to |r.denials|
      invariant out == [head] + DenialBodies(r.denials[..i])
    {
      out := out + [Denied(r.denials[i].tool, r.denials[i].message)];
    }
    assert r.denials[..|r.denials|] == r.denials;
    agg.Reset();
    HeadThenDenials(head, r, old(agg.Calls()), old(agg.cumulativeCostUSD));
  }

  ghost predicate Holds(agg: UsageAggregator, s: State)
    reads agg, agg.buf
  {
    agg.Valid() && agg.Calls() == s.calls && agg.cumulativeCostUSD == s.cumulative
  }

  /** translateEventByType. */
  method TranslateByType(f: Frame, agg: UsageAggregator, ghost s: State) returns (bodies: seq<Body>)
    requires f.Frame? && Holds(agg, s)
    modifies agg, agg.buf
    ensures Holds(agg, After(f, s)) && (agg.buf == old(agg.buf) || fresh(agg.buf))
    ensures SeenAs(bodies, BodiesOf(f.kind, f.parentToolUseID, s))
    ensures f.kind.System? ==>
              bodies == if f.kind.subtype in {"hook_started", "hook_progress", "hook_response"}
                        then [HookNote(f.kind.subtype)] else [SystemNote(f.kind.subtype)]
    ensures f.kind.UnreadTaskList? ==> bodies == [SystemNote("background_tasks_changed_unparsed")]
    ensures f.kind.RateLimit? ==> bodies == [SystemNote("rate_limit")]
    ensures f.kind.ToolProgress? ==> bodies == [SystemNote("tool_progress")]
    ensures f.kind.Unknown? ==> bodies == [SystemNote(f.kind.name)]
    ensures f.kind.Internal? ==> bodies == []
    ensures f.kind.Assistant? && f.kind.message.None? ==> bodies == []
    ensures f.kind.User? && f.kind.content.None? ==> bodies == []
    ensures f.kind.Assistant? && f.kind.message.Some? ==> agg.Calls() == old(agg.Calls()) + [f.kind.message.value.usage]
  {
    hide SeenAs, Plain, AssistantBodies, UserBodies, ResultBody;
    match f.kind {
      case System(subtype) =>
        bodies := [SystemBody(subtype)];
      case UnreadTaskList =>
        bodies := [SystemNote("background_tasks_changed_unparsed")];
      case Assistant(message) =>
        bodies := [];
        if message.Some? {
          bodies := TranslateAssistant(message.value, agg);
        }
      case ResultKind(r) =>
        bodies := TranslateResult(r, agg);
      case RateLimit =>
        bodies := [SystemNote("rate_limit")];
      case ToolProgress =>
        bodies := [SystemNote("tool_progress")];
      case Internal =>
        bodies := [];
      case User(content) =>
        bodies := [];
        if content.Some? {
          bodies := TranslateUserFrame(content.value, f.parentToolUseID);
        }
      case Unknown(name) =>
        bodies := [SystemNote(name)];
    }
    if !f.kind.ResultKind? {
      assert bodies == BodiesOf(f.kind, f.parentToolUseID, s);
      OtherKindsArePlain(f.kind, f.parentToolUseID, s);
      PlainIsSeen(bodies);
    }
  }

  method TranslateEvent(f: Frame, sessionID: string, agg: UsageAggregator, ghost s: State)
    returns (out: seq<Event>)
    requires Holds(agg, s) && s.sessionID == sessionID
    modifies agg, agg.buf
    ensures Holds(agg, After(f, s)) && (agg.buf == old(agg.buf) || fresh(agg.buf))
    ensures |out| == |EventsOf(f, s)|
    ensures forall i | 0 <= i < |out| ::
              Readable(out[i].body) && out[i].(body := Seen(out[i].body)) == EventsOf(f, s)[i]
    ensures f.Unreadable? ==> out == []
    ensures f.Frame? ==> forall e | e in out ::
              && e.harnessSessionID == (if f.sessionID == "" then sessionID else f.sessionID)
              && e.harnessParentID == f.parentToolUseID
  {
    hide BodiesOf;
    if f.Unreadable? {
      return [];
    }
    var sid := if f.sessionID == "" then sessionID else f.sessionID;
    var bodies := TranslateByType(f, agg, s);
    out := Stamped(bodies, sid, "");
    if f.parentToolUseID != "" {
      for i := 0 to |out|
        invariant |out| == |bodies|
        invariant forall k | 0 <= k < |out| :: out[k] == Event(bodies[k], sid, if k < i then f.parentToolUseID else "")
      {
        out := out[i := out[i].(harnessParentID := f.parentToolUseID)];
      }
    }
  }

  /** The reader's loop over stdout, emitting each event before the next frame is read. */
  method ReadStream(frames: seq<Frame>, sessionID: string) returns (emitted: seq<Event>)
    ensures emitted == Stream(frames, sessionID)
  {
    hide EventsOf, CallsAfter;
    var agg := new UsageAggregator();
    var sid := sessionID;
    emitted := [];
    ghost var s := Start(sessionID);
    for n := 0 to |frames|
      invariant fresh(agg) && fresh(agg.buf)
      invariant s == StateAfter(frames[..n], sessionID)
      invariant Holds(agg, s) && sid == s.sessionID
      invariant emitted == Stream(frames[..n], sessionID)
    {
      assert frames[..n + 1][..n] == frames[..n];
      var out := TranslateEvent(frames[n], sid, agg, s);
      ghost var before := emitted;
      for i := 0 to |out|
        invariant emitted == before + EventsOf(frames[n], s)[..i]
      {
        emitted := emitted + [out[i].(body := Seen(out[i].body))];
      }
      if IsInit(frames[n]) && frames[n].sessionID != "" {
        sid := frames[n].sessionID;
      }
      s := After(frames[n], s);
    }
    assert frames[..|frames|] == frames;
  }
}
