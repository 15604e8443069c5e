/**
 Stored transcript entries have two translations: one event per block, used while
 tailing a rollout, and one aggregated event, used when importing a history.
 */
module StoredEntries {
  import opened MessageContent
  import opened Options

  /** A tool use without input has "" here. */
  datatype Block =
    | Text(text: string)
    | Thinking(text: string)
    | ToolUse(id: string, name: string, input: string)
    | ToolResult(toolUseID: string, content: Content, isError: bool)
    | OtherBlock

  datatype Message = Message(
    content: seq<Block>, model: string, inputTokens: int, outputTokens: int, stopReason: string)

  datatype Kind = User | Assistant | OtherKind

  /** The message is absent when it does not parse. */
  datatype Entry = Entry(kind: Kind, uuid: string, sessionID: string, message: Option<Message>)

  datatype Usage = Usage(input: int, output: int, total: int)

  /** Per-block events. */
  datatype Body =
    | UserMessage(text: string)
    | ToolOutput(toolID: string, output: string, isError: bool)
    | TextBlock(index: nat, text: string)
    | ThinkingText(text: string)
    | ToolCall(toolID: string, name: string, input: string)
    | Terminator(text: string, model: string, usage: Usage)

  datatype Event = Event(body: Body, harnessSessionID: string, harnessMessageID: string)

  datatype ToolSummary = ToolSummary(tool: string, input: string, output: string, error: string)

  /** Aggregated events. */
  datatype Aggregate =
    | Prompt(text: string)
    | Answer(text: string, thinking: Option<string>, usage: Usage, model: string, tools: seq<ToolSummary>)

  // ------------------------------------------------------------------
  // Specifications

  predicate IsTerminalStopReason(reason: string) {
    reason in {"end_turn", "stop_sequence", "max_tokens"}
  }

  function UsageOf(m: Message): Usage {
    Usage(m.inputTokens, m.outputTokens, m.inputTokens + m.outputTokens)
  }

  function UserBody(b: Block): seq<Body> {
    match b
    case Text(text) => if text == "" then [] else [UserMessage(text)]
    case ToolResult(toolUseID, content, isError) => [ToolOutput(toolUseID, TextOf(content), isError)]
    case _ => []
  }

  function AssistantBody(b: Block, index: nat): seq<Body> {
    match b
    case Text(text) => if text == "" then [] else [TextBlock(index, text)]
    case Thinking(text) => if text == "" then [] else [ThinkingText(text)]
    case ToolUse(id, name, input) => [ToolCall(id, name, if input == "" then "{}" else input)]
    case _ => []
  }

  function Bodies(kind: Kind, content: seq<Block>): seq<Body> {
    if content == [] then []
    else
      var n := |content| - 1;
      Bodies(kind, content[..n])
      + match kind
        case User => UserBody(content[n])
        case Assistant => AssistantBody(content[n], n)
        case OtherKind => []
  }

  function TextsOf(content: seq<Block>): string {
    if content == [] then ""
    else
      var n := |content| - 1;
      TextsOf(content[..n]) + if content[n].Text? then content[n].text else ""
  }

  function ThinkingOf(content: seq<Block>): string {
    if content == [] then ""
    else
      var n := |content| - 1;
      ThinkingOf(content[..n]) + if content[n].Thinking? then content[n].text else ""
  }

  function Terminators(kind: Kind, m: Message): seq<Body> {
    if kind.Assistant? && IsTerminalStopReason(m.stopReason)
    then [Terminator(TextsOf(m.content), m.model, UsageOf(m))]
    else []
  }

  function MessageIDOf(kind: Kind, uuid: string): string {
    if kind.Assistant? then uuid else ""
  }

  /** What tailing emits for an entry. */
  function Granular(e: Entry): seq<Event> {
    if e.message.None? then []
    else
      var bodies := Bodies(e.kind, e.message.value.content) + Terminators(e.kind, e.message.value);
      seq(|bodies|, i requires 0 <= i < |bodies| => Event(bodies[i], e.sessionID, MessageIDOf(e.kind, e.uuid)))
  }

  /** A result goes to the latest tool without output, counting from the end; -1 when there is none. */
  function Unanswered(tools: seq<ToolSummary>, i: int): (r: int)
    requires -1 <= i < |tools|
    ensures -1 <= r <= i
    ensures r >= 0 ==> tools[r].output == ""
    ensures forall k | r < k <= i :: tools[k].output != ""
    decreases i + 1
  {
    if i < 0 || tools[i].output == "" then i else Unanswered(tools, i - 1)
  }

  function Answered(tools: seq<ToolSummary>, output: string, isError: bool): seq<ToolSummary> {
    var i := Unanswered(tools, |tools| - 1);
    if i < 0 then tools
    else tools[i := tools[i].(output := output, error := if isError then "tool error" else tools[i].error)]
  }

  function Summaries(content: seq<Block>): seq<ToolSummary> {
    if content == [] then []
    else
      var n := |content| - 1;
      var tools := Summaries(content[..n]);
      match content[n]
      case ToolUse(_, name, input) => tools + [ToolSummary(name, input, "", "")]
      case ToolResult(_, output, isError) => Answered(tools, TextOf(output), isError)
      case _ => tools
  }

  /** What importing emits for an entry. */
  function Aggregated(e: Entry): Option<Aggregate> {
    if e.message.None? then None
    else
      var m := e.message.value;
      match e.kind
      case User => if TextsOf(m.content) == "" then None else Some(Prompt(TextsOf(m.content)))
      case Assistant =>
        var text, thinking, tools := TextsOf(m.content), ThinkingOf(m.content), Summaries(m.content);
        if text == "" && thinking == "" && tools == [] then None
        else Some(Answer(text, if thinking == "" then None else Some(thinking), UsageOf(m), m.model, tools))
      case OtherKind => None
  }

  // ------------------------------------------------------------------
  // The translators

  method UserBlocks(content: seq<Block>) returns (bodies: seq<Body>)
    ensures bodies == Bodies(User, content)
  {
    bodies := [];
    for i := 0 to |content|
      invariant bodies == Bodies(User, content[..i])
    {
      assert content[..i + 1][..i] == content[..i];
      match content[i] {
        case Text(text) =>
          if text == "" {
            continue;
          }
          bodies := bodies + [UserMessage(text)];
        case ToolResult(toolUseID, result, isError) =>
          var output := DecodeText(result);
          bodies := bodies + [ToolOutput(toolUseID, output, isError)];
        case _ =>
      }
    }
    assert content[..|content|] == content;
  }

  method AssistantBlocks(m: Message) returns (bodies: seq<Body>)
    ensures bodies == Bodies(Assistant, m.content) + Terminators(Assistant, m)
  {
    var content := m.content;
    bodies := [];
    var finalText := "";
    for i := 0 to |content|
      invariant bodies == Bodies(Assistant, content[..i])
      invariant finalText == TextsOf(content[..i])
    {
      assert content[..i + 1][..i] == content[..i];
      match content[i] {
        case Text(text) =>
          finalText := finalText + text;
          if text == "" {
            continue;
          }
          bodies := bodies + [TextBlock(i, text)];
        case Thinking(text) =>
          if text == "" {
            continue;
          }
          bodies := bodies + [ThinkingText(text)];
        case ToolUse(id, name, input) =>
          bodies := bodies + [ToolCall(id, name, if |input| == 0 then "{}" else input)];
        case _ =>
      }
    }
    assert content[..|content|] == content;
    if IsTerminalStopReason(m.stopReason) {
      bodies := bodies + [Terminator(finalText, m.model, UsageOf(m))];
    }
  }

  method TranslateRolloutEntry(e: Entry) returns (out: seq<Event>)
    ensures out == Granular(e)
    ensures e.message.None? || e.kind.OtherKind? ==> out == []
    ensures forall ev | ev in out ::
              ev.harnessSessionID == e.sessionID && ev.harnessMessageID == if e.kind.Assistant? then e.uuid else ""
  {
    hide Bodies;
    if e.message.None? {
      return [];
    }
    var m := e.message.value;
    var bodies := [];
    match e.kind {
      case User =>
        bodies := UserBlocks(m.content);
      case Assistant =>
        bodies := AssistantBlocks(m);
      case OtherKind =>
        NothingForOtherKinds(m.content);
    }
    out := [];
    for i := 0 to |bodies|
      invariant |out| == i
      invariant forall k | 0 <= k < i :: out[k] == Event(bodies[k], e.sessionID, MessageIDOf(e.kind, e.uuid))
    {
      out := out + [Event(bodies[i], e.sessionID, MessageIDOf(e.kind, e.uuid))];
    }
  }

  lemma {:induction false} NothingForOtherKinds(content: seq<Block>)
    ensures Bodies(OtherKind, content) == []
  {
    if content != [] {
      NothingForOtherKinds(content[..|content| - 1]);
    }
  }

  method TranslateUserEvent(m: Message) returns (out: Option<Aggregate>)
    ensures out == if TextsOf(m.content) == "" then None else Some(Prompt(TextsOf(m.content)))
  {
    var content := m.content;
    var text := "";
    for i := 0 to |content|
      invariant text == TextsOf(content[..i])
    {
      assert content[..i + 1][..i] == content[..i];
      if content[i].Text? {
        text := text + content[i].text;
      }
    }
    assert content[..|content|] == content;
    return if text == "" then None else Some(Prompt(text));
  }

  method TranslateAssistantEvent(e: Entry) returns (out: Option<Aggregate>)
    requires e.kind.Assistant?
    ensures out == Aggregated(e)
    ensures out.Some? ==>
              && e.message.Some? && out.value.Answer?
              && out.value.model == e.message.value.model
              && out.value.usage.input == e.message.value.inputTokens
              && out.value.usage.output == e.message.value.outputTokens
              && out.value.usage.total == e.message.value.inputTokens + e.message.value.outputTokens
  {
    hide TextOf, Answered;
    if e.message.None? {
      return None;
    }
    var m := e.message.value;
    var content := m.content;
    var text, thinking, tools := "", "", [];
    for n := 0 to |content|
      invariant text == TextsOf(content[..n])
      invariant thinking == ThinkingOf(content[..n])
      invariant tools == Summaries(content[..n])
    {
      assert content[..n + 1][..n] == content[..n];
      match content[n] {
        case Text(t) =>
          text := text + t;
        case Thinking(t) =>
          thinking := thinking + t;
        case ToolUse(_, name, input) =>
          tools := tools + [ToolSummary(name, input, "", "")];
        case ToolResult(_, result, isError) =>
          tools := PairResult(tools, result, isError);
        case OtherBlock =>
      }
    }
    assert content[..|content|] == content;
    if text == "" && thinking == "" && |tools| == 0 {
      return None;
    }
    return Some(Answer(text, if thinking == "" then None else Some(thinking), UsageOf(m), m.model, tools));
  }

  /** The backward search for the tool a result belongs to. */
  method PairResult(tools: seq<ToolSummary>, result: Content, isError: bool) returns (paired: seq<ToolSummary>)
    ensures paired == Answered(tools, TextOf(result), isError)
    ensures (forall t | t in tools :: t.output != "") ==> paired == tools
    ensures forall i | 0 <= i < |tools| && tools[i].output == ""
                       && (forall k | i < k < |tools| :: tools[k].output != "") ::
              paired == tools[i := ToolSummary(tools[i].tool, tools[i].input, TextOf(result),
                                               if isError then "tool error" else tools[i].error)]
  {
    paired := tools;
    var i := |tools| - 1;
    while i >= 0
      invariant -1 <= i < |tools| && paired == tools
      invariant Unanswered(tools, |tools| - 1) == Unanswered(tools, i)
    {
      if paired[i].output == "" {
        var output := DecodeText(result);
        paired := paired[i := paired[i].(output := output)];
        if isError {
          paired := paired[i := paired[i].(error := "tool error")];
        }
        return;
      }
      i := i - 1;
    }
  }

  /**
   How the tools of an imported answer come about: a tool use adds one without output,
   and a result gives its text and error to the latest one that has no output yet.
   */
  lemma ToolsGrowBy(content: seq<Block>, b: Block)
    ensures
      var tools, tools' := Summaries(content), Summaries(content + [b]);
      && (b.ToolUse? ==> tools' == tools + [ToolSummary(b.name, b.input, "", "")])
      && (!b.ToolUse? && !b.ToolResult? ==> tools' == tools)
      && (b.ToolResult? && (forall t | t in tools :: t.output != "") ==> tools' == tools)
      && (b.ToolResult? ==>
            forall i | 0 <= i < |tools| && tools[i].output == ""
                       && (forall k | i < k < |tools| :: tools[k].output != "") ::
              tools' == tools[i := ToolSummary(tools[i].tool, tools[i].input, TextOf(b.content),
                                               if b.isError then "tool error" else tools[i].error)])
  {
    hide TextOf;
    assert (content + [b])[..|content|] == content;
    if b.ToolResult? {
      ResultsGoToTheLatest(Summaries(content), TextOf(b.content), b.isError);
    }
  }

  lemma ResultsGoToTheLatest(tools: seq<ToolSummary>, output: string, isError: bool)
    ensures (forall t | t in tools :: t.output != "") ==> Answered(tools, output, isError) == tools
    ensures forall i | 0 <= i < |tools| && tools[i].output == ""
                       && (forall k | i < k < |tools| :: tools[k].output != "") ::
              Answered(tools, output, isError)
              == tools[i := ToolSummary(tools[i].tool, tools[i].input, output,
                                        if isError then "tool error" else tools[i].error)]
  {
    var r := Unanswered(tools, |tools| - 1);
    if r >= 0 {
      assert tools[r] in tools;
    }
  }

  /** A tailed entry closes with a terminator exactly when it is an assistant message that ended its turn. */
  lemma TerminatorIff(e: Entry, i: nat)
    requires i < |Granular(e)|
    ensures
      Granular(e)[i].body.Terminator?
      <==> i == |Granular(e)| - 1 && e.kind.Assistant? && e.message.Some?
           && e.message.value.stopReason in {"end_turn", "stop_sequence", "max_tokens"}
    ensures Granular(e)[i].body.Terminator? ==>
              var m := e.message.value;
              Granular(e)[i].body == Terminator(TextsOf(m.content), m.model, Usage(
                m.inputTokens, m.outputTokens, m.inputTokens + m.outputTokens))
  {
    var m := e.message.value;
    BlocksDoNotTerminate(e.kind, m.content);
  }

  lemma {:induction false} BlocksDoNotTerminate(kind: Kind, content: seq<Block>)
    ensures forall b | b in Bodies(kind, content) :: !b.Terminator?
  {
    if content != [] {
      BlocksDoNotTerminate(kind, content[..|content| - 1]);
    }
  }

  // ------------------------------------------------------------------
  // Agreement

  function UserTextIn(events: seq<Event>): string {
    if events == [] then ""
    else
      var n := |events| - 1;
      UserTextIn(events[..n]) + if events[n].body.UserMessage? then events[n].body.text else ""
  }

  function AnswerTextIn(events: seq<Event>): string {
    if events == [] then ""
    else
      var n := |events| - 1;
      AnswerTextIn(events[..n]) + if events[n].body.TextBlock? then events[n].body.text else ""
  }

  function ThinkingIn(events: seq<Event>): string {
    if events == [] then ""
    else
      var n := |events| - 1;
      ThinkingIn(events[..n]) + if events[n].body.ThinkingText? then events[n].body.text else ""
  }

  datatype Call = Call(name: string, input: string)

  function CallsIn(events: seq<Event>): seq<Call> {
    if events == [] then []
    else
      var n := |events| - 1;
      CallsIn(events[..n])
      + if events[n].body.ToolCall? then [Call(events[n].body.name, events[n].body.input)] else []
  }

  /** The summarized calls, an absent input read as "{}". */
  function CallsOf(tools: seq<ToolSummary>): seq<Call> {
    seq(|tools|, i requires 0 <= i < |tools| =>
      Call(tools[i].tool, if tools[i].input == "" then "{}" else tools[i].input))
  }

  function Wrapped(bodies: seq<Body>, sid: string, mid: string): seq<Event> {
    seq(|bodies|, i requires 0 <= i < |bodies| => Event(bodies[i], sid, mid))
  }

  /** What a stretch of per-block events says, all four readings at once. */
  datatype Reading = Reading(userText: string, text: string, thinking: string, calls: seq<Call>)

  function ReadingOf(events: seq<Event>): Reading {
    Reading(UserTextIn(events), AnswerTextIn(events), ThinkingIn(events), CallsIn(events))
  }

  lemma ReadingAppend(bodies: seq<Body>, b: Body, sid: string, mid: string)
    ensures
      var r := ReadingOf(Wrapped(bodies, sid, mid));
      ReadingOf(Wrapped(bodies + [b], sid, mid)) == Reading(
        r.userText + if b.UserMessage? then b.text else "",
        r.text + if b.TextBlock? then b.text else "",
        r.thinking + if b.ThinkingText? then b.text else "",
        r.calls + if b.ToolCall? then [Call(b.name, b.input)] else [])
  {
    var all := Wrapped(bodies + [b], sid, mid);
    assert all[..|bodies|] == Wrapped(bodies, sid, mid);
  }

  lemma AnsweredKeepsCalls(tools: seq<ToolSummary>, output: string, isError: bool)
    ensures CallsOf(Answered(tools, output, isError)) == CallsOf(tools)
  {
  }

  lemma SummaryAppendsCall(tools: seq<ToolSummary>, name: string, input: string)
    ensures CallsOf(tools + [ToolSummary(name, input, "", "")])
         == CallsOf(tools) + [Call(name, if input == "" then "{}" else input)]
  {
  }

  lemma {:induction false} AssistantReading(content: seq<Block>, sid: string, mid: string)
    ensures ReadingOf(Wrapped(Bodies(Assistant, content), sid, mid))
         == Reading("", TextsOf(content), ThinkingOf(content), CallsOf(Summaries(content)))
  {
    hide ReadingOf, Wrapped, CallsOf, Answered, TextOf;
    if content == [] {
      EmptyReading(sid, mid);
    } else {
      var n := |content| - 1;
      var before := Bodies(Assistant, content[..n]);
      AssistantReading(content[..n], sid, mid);
      assert before + [] == before;
      match content[n] {
        case Text(text) =>
          if text != "" {
            ReadingAppend(before, TextBlock(n, text), sid, mid);
          }
        case Thinking(text) =>
          if text != "" {
            ReadingAppend(before, ThinkingText(text), sid, mid);
          }
        case ToolUse(id, name, input) =>
          ReadingAppend(before, ToolCall(id, name, if input == "" then "{}" else input), sid, mid);
          SummaryAppendsCall(Summaries(content[..n]), name, input);
        case ToolResult(_, result, isError) =>
          AnsweredKeepsCalls(Summaries(content[..n]), TextOf(result), isError);
        case OtherBlock =>
      }
    }
  }

  lemma EmptyReading(sid: string, mid: string)
    ensures ReadingOf(Wrapped([], sid, mid)) == Reading("", "", "", [])
    ensures CallsOf([]) == []
  {
  }

  lemma {:induction false} UserReading(content: seq<Block>, sid: string, mid: string)
    ensures ReadingOf(Wrapped(Bodies(User, content), sid, mid)) == Reading(TextsOf(content), "", "", [])
  {
    hide ReadingOf, Wrapped;
    if content == [] {
      EmptyReading(sid, mid);
    } else {
      var n := |content| - 1;
      var before := Bodies(User, content[..n]);
      UserReading(content[..n], sid, mid);
      assert before + [] == before;
      match content[n] {
        case Text(text) =>
          if text != "" {
            ReadingAppend(before, UserMessage(text), sid, mid);
          }
        case ToolResult(toolUseID, result, isError) =>
          ReadingAppend(before, ToolOutput(toolUseID, TextOf(result), isError), sid, mid);
        case _ =>
      }
    }
  }

  lemma GranularIsWrapped(e: Entry)
    requires e.message.Some?
    ensures
      var bodies := Bodies(e.kind, e.message.value.content) + Terminators(e.kind, e.message.value);
      Granular(e) == Wrapped(bodies, e.sessionID, MessageIDOf(e.kind, e.uuid))
  {
  }

  /** Both translations of a user entry carry the same text, and import is silent exactly when there is none. */
  lemma UserTranslationsAgree(e: Entry)
    requires e.kind.User?
    ensures Aggregated(e) == if UserTextIn(Granular(e)) == "" then None else Some(Prompt(UserTextIn(Granular(e))))
  {
    if e.message.Some? {
      GranularIsWrapped(e);
      UserReading(e.message.value.content, e.sessionID, MessageIDOf(e.kind, e.uuid));
      assert Bodies(User, e.message.value.content) + [] == Bodies(User, e.message.value.content);
    }
  }

  /**
   Both translations of an assistant entry carry the same text, thinking and tool
   calls, in the same order; a terminal entry closes the turn with the aggregated
   text, model and token totals.
   */
  lemma AssistantTranslationsAgree(e: Entry)
    requires e.kind.Assistant?
    ensures
      var events, whole := Granular(e), Aggregated(e);
      && (whole.None? ==> ReadingOf(events) == Reading("", "", "", []))
      && (whole.Some? ==>
            && whole.value.Answer?
            && AnswerTextIn(events) == whole.value.text
            && ThinkingIn(events) == (if whole.value.thinking.Some? then whole.value.thinking.value else "")
            && CallsIn(events) == CallsOf(whole.value.tools)
            && (e.message.Some? && IsTerminalStopReason(e.message.value.stopReason) ==>
                  && events != []
                  && events[|events| - 1].body == Terminator(whole.value.text, whole.value.model, whole.value.usage)))
  {
    hide Bodies, Summaries, TextsOf, ThinkingOf;
    if e.message.Some? {
      var m := e.message.value;
      var mid := MessageIDOf(e.kind, e.uuid);
      var bodies := Bodies(Assistant, m.content);
      GranularIsWrapped(e);
      AssistantReading(m.content, e.sessionID, mid);
      if IsTerminalStopReason(m.stopReason) {
        ReadingAppend(bodies, Terminator(TextsOf(m.content), m.model, UsageOf(m)), e.sessionID, mid);
      } else {
        assert bodies + [] == bodies;
      }
    }
  }
}
