/**
 The same message reaches the harness live, as a stdout frame, and stored, as a
 rollout entry a tail reads. Block for block the two translations show the same,
 except that the tail leaves out empty texts and thinking and fills in an absent
 tool input.
 */
module LiveAndStored {
  import opened MessageContent
  import Live = StreamTranslation
  import Stored = StoredEntries

  /** The stored form of an assistant block; a signature is not kept. */
  function StoredBlock(b: Live.AssistantBlock): Stored.Block {
    match b
    case Text(text) => Stored.Text(text)
    case Thinking(text, _) => Stored.Thinking(text)
    case ToolUse(id, name, input) => Stored.ToolUse(id, name, input)
    case OtherBlock => Stored.OtherBlock
  }

  function StoredUserBlock(b: Live.UserBlock): Stored.Block {
    match b
    case ToolResult(toolUseID, content, isError) => Stored.ToolResult(toolUseID, content, isError)
    case UserText(text) => Stored.Text(text)
    case OtherUserBlock => Stored.OtherBlock
  }

  function StoredContent(content: seq<Live.AssistantBlock>): seq<Stored.Block> {
    seq(|content|, i requires 0 <= i < |content| => StoredBlock(content[i]))
  }

  function StoredUserContent(blocks: seq<Live.UserBlock>): seq<Stored.Block> {
    seq(|blocks|, i requires 0 <= i < |blocks| => StoredUserBlock(blocks[i]))
  }

  /** What a live event looks like when a tail emits it. */
  function Tailed(b: Live.Body): seq<Stored.Body> {
    match b
    case TextBlock(index, _, text) => if text == "" then [] else [Stored.TextBlock(index, text)]
    case ThinkingBlock(_, _, text, _) => if text == "" then [] else [Stored.ThinkingText(text)]
    case ToolCall(toolID, name, input, _) => [Stored.ToolCall(toolID, name, if input == "" then "{}" else input)]
    case ToolOutput(toolID, output, isError) => [Stored.ToolOutput(toolID, output, isError)]
    case _ => []
  }

  function AllTailed(bodies: seq<Live.Body>): seq<Stored.Body> {
    if bodies == [] then []
    else AllTailed(bodies[..|bodies| - 1]) + Tailed(bodies[|bodies| - 1])
  }

  function ToolOutputs(bodies: seq<Stored.Body>): seq<Stored.Body> {
    if bodies == [] then []
    else
      var n := |bodies| - 1;
      ToolOutputs(bodies[..n]) + if bodies[n].ToolOutput? then [bodies[n]] else []
  }

  lemma TailedAppend(bodies: seq<Live.Body>, more: seq<Live.Body>)
    requires |more| <= 1
    ensures AllTailed(bodies + more) == AllTailed(bodies) + if more == [] then [] else Tailed(more[0])
  {
    if more == [] {
      assert bodies + more == bodies;
    } else {
      assert (bodies + more)[..|bodies|] == bodies;
    }
  }

  lemma OutputsAppend(bodies: seq<Stored.Body>, more: seq<Stored.Body>)
    requires |more| <= 1
    ensures ToolOutputs(bodies + more) == ToolOutputs(bodies) + if more != [] && more[0].ToolOutput? then more else []
  {
    if more == [] {
      assert bodies + more == bodies;
    } else {
      assert (bodies + more)[..|bodies|] == bodies;
    }
  }

  function First(bodies: seq<Live.Body>): seq<Stored.Body> {
    if bodies == [] then [] else Tailed(bodies[0])
  }

  lemma AssistantBlockAgrees(b: Live.AssistantBlock, n: nat, id: string)
    ensures |Live.BlockBodies(b, n, id)| <= 1
    ensures Stored.AssistantBody(StoredBlock(b), n) == First(Live.BlockBodies(b, n, id))
  {
  }

  function OutputBody(b: Live.UserBlock): seq<Live.Body> {
    if b.ToolResult? then [Live.ToolOutput(b.toolUseID, TextOf(b.content), b.isError)] else []
  }

  lemma UserBlockAgrees(b: Live.UserBlock)
    ensures
      var stored := Stored.UserBody(StoredUserBlock(b));
      && |stored| <= 1
      && (if stored != [] && stored[0].ToolOutput? then stored else []) == First(OutputBody(b))
  {
  }

  lemma OutputBodiesSnoc(blocks: seq<Live.UserBlock>)
    requires blocks != []
    ensures Live.OutputBodies(blocks)
         == Live.OutputBodies(blocks[..|blocks| - 1]) + OutputBody(blocks[|blocks| - 1])
  {
  }

  lemma StoredBodiesSnoc(kind: Stored.Kind, content: seq<Stored.Block>)
    requires content != [] && !kind.OtherKind?
    ensures
      var n := |content| - 1;
      Stored.Bodies(kind, content) == Stored.Bodies(kind, content[..n])
        + if kind.User? then Stored.UserBody(content[n]) else Stored.AssistantBody(content[n], n)
  {
  }

  /** An assistant message shows the same blocks, at the same positions, live and tailed. */
  lemma {:induction false} AssistantBlocksAgree(content: seq<Live.AssistantBlock>, id: string)
    ensures Stored.Bodies(Stored.Assistant, StoredContent(content)) == AllTailed(Live.AssistantBodies(content, id))
  {
    hide Tailed, StoredBlock;
    if content != [] {
      var n := |content| - 1;
      var stored := StoredContent(content);
      AssistantBlocksAgree(content[..n], id);
      StoredBodiesSnoc(Stored.Assistant, stored);
      assert stored[..n] == StoredContent(content[..n]);
      AssistantBlockAgrees(content[n], n, id);
      TailedAppend(Live.AssistantBodies(content[..n], id), Live.BlockBodies(content[n], n, id));
      hide Stored.Bodies, Stored.AssistantBody, Live.BlockBodies;
    }
  }

  /** A user message's tool results are the same events, in the same order, live and tailed. */
  lemma {:induction false} ToolResultsAgree(blocks: seq<Live.UserBlock>)
    ensures ToolOutputs(Stored.Bodies(Stored.User, StoredUserContent(blocks))) == AllTailed(Live.OutputBodies(blocks))
  {
    hide Tailed, StoredUserBlock, OutputBody;
    if blocks != [] {
      var n := |blocks| - 1;
      var stored := StoredUserContent(blocks);
      ToolResultsAgree(blocks[..n]);
      StoredBodiesSnoc(Stored.User, stored);
      OutputBodiesSnoc(blocks);
      assert stored[..n] == StoredUserContent(blocks[..n]);
      UserBlockAgrees(blocks[n]);
      OutputsAppend(Stored.Bodies(Stored.User, stored[..n]), Stored.UserBody(stored[n]));
      OneOutput(blocks[n]);
      TailedAppend(Live.OutputBodies(blocks[..n]), OutputBody(blocks[n]));
      hide Stored.Bodies, Stored.UserBody, Live.OutputBodies;
    }
  }

  lemma OneOutput(b: Live.UserBlock)
    ensures |OutputBody(b)| <= 1
  {
  }

  // ------------------------------------------------------------------
  // The text of user messages

  /** The stored form of a user message; a bare string is one text block. */
  function StoredUser(content: Live.UserContent): seq<Stored.Block> {
    match content
    case BareText(text) => [Stored.Text(text)]
    case UserBlocks(blocks) => StoredUserContent(blocks)
    case Neither => []
  }

  /** The non-empty texts of a user message, in order. */
  function TextsOf(content: Live.UserContent): seq<string> {
    match content
    case BareText(text) => if text == "" then [] else [text]
    case UserBlocks(blocks) => TextParts(Live.ContentOf(content).pieces)
    case Neither => []
  }

  function StoredTexts(bodies: seq<Stored.Body>): seq<string> {
    if bodies == [] then []
    else
      var n := |bodies| - 1;
      StoredTexts(bodies[..n]) + if bodies[n].UserMessage? then [bodies[n].text] else []
  }

  function LiveTexts(bodies: seq<Live.Body>): seq<string> {
    if bodies == [] then []
    else
      var n := |bodies| - 1;
      LiveTexts(bodies[..n]) + if bodies[n].UserMessage? then [bodies[n].text] else []
  }

  lemma StoredTextsAppend(bodies: seq<Stored.Body>, more: seq<Stored.Body>)
    requires |more| <= 1
    ensures StoredTexts(bodies + more)
         == StoredTexts(bodies) + if more != [] && more[0].UserMessage? then [more[0].text] else []
  {
    if more == [] {
      assert bodies + more == bodies;
    } else {
      assert (bodies + more)[..|bodies|] == bodies;
    }
  }

  function PiecesOf(blocks: seq<Live.UserBlock>): seq<Piece> {
    Live.ContentOf(Live.UserBlocks(blocks)).pieces
  }

  lemma PiecesSnoc(blocks: seq<Live.UserBlock>)
    requires blocks != []
    ensures PiecesOf(blocks) == PiecesOf(blocks[..|blocks| - 1]) + [Live.PieceOf(blocks[|blocks| - 1])]
  {
  }

  lemma StoredUserSnoc(blocks: seq<Live.UserBlock>)
    requires blocks != []
    ensures
      var n, stored := |blocks| - 1, StoredUserContent(blocks);
      && stored != []
      && stored[..|stored| - 1] == StoredUserContent(blocks[..n])
      && stored[|stored| - 1] == StoredUserBlock(blocks[n])
  {
  }

  /** One block: the text a tail shows for it is the text it adds to the message. */
  lemma OneText(b: Live.UserBlock)
    ensures
      var more, piece := Stored.UserBody(StoredUserBlock(b)), Live.PieceOf(b);
      && |more| <= 1
      && (if more != [] && more[0].UserMessage? then [more[0].text] else [])
         == if piece.TextPiece? && piece.text != "" then [piece.text] else []
  {
  }

  lemma {:induction false} TailedTexts(blocks: seq<Live.UserBlock>)
    ensures StoredTexts(Stored.Bodies(Stored.User, StoredUserContent(blocks))) == TextParts(PiecesOf(blocks))
  {
    if blocks != [] {
      var n := |blocks| - 1;
      var stored := StoredUserContent(blocks);
      var earlier := Stored.Bodies(Stored.User, StoredUserContent(blocks[..n]));
      StoredUserSnoc(blocks);
      StoredBodiesSnoc(Stored.User, stored);
      PiecesSnoc(blocks);
      hide *;
      TailedTexts(blocks[..n]);
      StoredTextsAppend(earlier, Stored.UserBody(StoredUserBlock(blocks[n])));
      TextPartsAppend(PiecesOf(blocks[..n]), Live.PieceOf(blocks[n]));
      OneText(blocks[n]);
    }
  }

  lemma {:induction false} OutputsHaveNoText(blocks: seq<Live.UserBlock>)
    ensures LiveTexts(Live.OutputBodies(blocks)) == []
  {
    if blocks != [] {
      var n := |blocks| - 1;
      var earlier := Live.OutputBodies(blocks[..n]);
      OutputsHaveNoText(blocks[..n]);
      OutputBodiesSnoc(blocks);
      LiveTextsAppend(earlier, OutputBody(blocks[n]));
    }
  }

  lemma LiveTextsAppend(bodies: seq<Live.Body>, more: seq<Live.Body>)
    requires |more| <= 1
    ensures LiveTexts(bodies + more)
         == LiveTexts(bodies) + if more != [] && more[0].UserMessage? then [more[0].text] else []
  {
    if more == [] {
      assert bodies + more == bodies;
    } else {
      assert (bodies + more)[..|bodies|] == bodies;
    }
  }

  lemma LinesAreEmptyIff(content: Live.UserContent)
    ensures TextOf(Live.ContentOf(content)) == Lines(TextsOf(content))
    ensures Lines(TextsOf(content)) == "" <==> TextsOf(content) == []
  {
    if content.UserBlocks? {
      var texts := TextsOf(content);
      if texts != [] {
        TextPartsIn(Live.ContentOf(content).pieces, texts[0]);
        assert texts[0] in texts;
        assert |Lines(texts)| >= |texts[0]|;
      }
    }
  }

  /**
   Text is where the two differ. The tail emits every non-empty text of a user message.
   Live, a subagent's come as one message, the same texts on lines of their own, and
   the operator's own do not come back at all.
   */
  lemma UserTextsAgree(content: Live.UserContent, parent: string)
    ensures StoredTexts(Stored.Bodies(Stored.User, StoredUser(content))) == TextsOf(content)
    ensures LiveTexts(Live.UserBodies(content, parent))
         == if parent != "" && TextsOf(content) != [] then [Lines(TextsOf(content))] else []
  {
    var outputs := Live.OutputBodies(Live.BlocksOf(content));
    OutputsHaveNoText(Live.BlocksOf(content));
    LinesAreEmptyIff(content);
    var text := TextOf(Live.ContentOf(content));
    LiveTextsAppend(outputs, if parent != "" && text != "" then [Live.UserMessage(text)] else []);
    match content {
      case UserBlocks(blocks) => TailedTexts(blocks);
      case BareText(t) =>
        StoredBodiesSnoc(Stored.User, [Stored.Text(t)]);
        assert [Stored.Text(t)][..0] == [];
        StoredTextsAppend([], Stored.UserBody(Stored.Text(t)));
      case Neither =>
    }
  }
}
