/**
 Message content as Claude Code writes it: a bare string, or blocks of which
 only the text ones carry text.
 */
module MessageContent {

  datatype Piece = TextPiece(text: string) | OtherPiece

  /** Unread content is absent or has neither of the two shapes. */
  datatype Content = Bare(text: string) | Pieces(pieces: seq<Piece>) | Unread

  function Lines(parts: seq<string>): string {
    if |parts| == 0 then ""
    else if |parts| == 1 then parts[0]
    else parts[0] + "\n" + Lines(parts[1..])
  }

  function TextParts(pieces: seq<Piece>): seq<string> {
    if pieces == [] then []
    else (if pieces[0].TextPiece? && pieces[0].text != "" then [pieces[0].text] else []) + TextParts(pieces[1..])
  }

  function TextOf(content: Content): string {
    match content
    case Bare(text) => text
    case Pieces(pieces) => Lines(TextParts(pieces))
    case Unread => ""
  }

  lemma {:induction false} TextPartsAppend(pieces: seq<Piece>, piece: Piece)
    ensures TextParts(pieces + [piece])
         == TextParts(pieces) + if piece.TextPiece? && piece.text != "" then [piece.text] else []
  {
    if pieces != [] {
      assert (pieces + [piece])[1..] == pieces[1..] + [piece];
      TextPartsAppend(pieces[1..], piece);
    }
  }

  lemma {:induction false} TextPartsIn(pieces: seq<Piece>, text: string)
    ensures text in TextParts(pieces) <==> text != "" && TextPiece(text) in pieces
  {
    if pieces != [] {
      TextPartsIn(pieces[1..], text);
      assert TextPiece(text) in pieces <==> pieces[0] == TextPiece(text) || TextPiece(text) in pieces[1..];
    }
  }

  /** Content reads as nothing exactly when no piece of it has any text. */
  lemma TextIsEmptyIff(pieces: seq<Piece>)
    ensures TextOf(Pieces(pieces)) == "" <==> forall p | p in pieces :: p.TextPiece? ==> p.text == ""
  {
    var parts := TextParts(pieces);
    if parts == [] {
      forall p | p in pieces && p.TextPiece?
        ensures p.text == ""
      {
        TextPartsIn(pieces, p.text);
      }
    } else {
      TextPartsIn(pieces, parts[0]);
      assert parts[0] in parts;
      assert |Lines(parts)| >= |parts[0]|;
    }
  }

  /** Where part i begins among the lines. */
  function StartOf(parts: seq<string>, i: nat): nat
    requires i <= |parts|
  {
    if i == 0 then 0 else |parts[0]| + 1 + StartOf(parts[1..], i - 1)
  }

  /** The parts stand one after the other, a newline after each but the last. */
  lemma {:induction false} LinesAt(parts: seq<string>, i: nat)
    requires i < |parts|
    ensures
      var text, start := Lines(parts), StartOf(parts, i);
      && start + |parts[i]| <= |text| && text[start..start + |parts[i]|] == parts[i]
      && StartOf(parts, i + 1) == start + |parts[i]| + 1
      && (i + 1 < |parts| ==> start + |parts[i]| < |text| && text[start + |parts[i]|] == '\n')
      && (i + 1 == |parts| ==> |text| == start + |parts[i]|)
    decreases i
  {
    var head := parts[0] + "\n";
    if i > 0 {
      LinesAt(parts[1..], i - 1);
      SliceAfter(head, Lines(parts[1..]), StartOf(parts[1..], i - 1), |parts[i]|);
    } else {
      StartOfFirst(parts[1..]);
      if |parts| > 1 {
        SliceAfter(parts[0], "\n" + Lines(parts[1..]), 0, 1);
        assert Lines(parts) == parts[0] + ("\n" + Lines(parts[1..]));
      }
    }
  }

  lemma StartOfFirst(parts: seq<string>)
    ensures StartOf(parts, 0) == 0
  {
  }

  lemma SliceAfter(head: string, rest: string, start: nat, n: nat)
    requires start + n <= |rest|
    ensures (head + rest)[|head| + start..|head| + start + n] == rest[start..start + n]
    ensures start + n < |rest| ==> (head + rest)[|head| + start + n] == rest[start + n]
  {
  }

  /** decodeToolResultContent and extractUserText. */
  method DecodeText(content: Content) returns (text: string)
    ensures text == TextOf(content)
    ensures content.Bare? ==> text == content.text
    ensures content.Unread? ==> text == ""
    ensures content.Pieces? ==> text == Lines(TextParts(content.pieces))
  {
    match content {
      case Bare(t) =>
        text := t;
      case Unread =>
        text := "";
      case Pieces(pieces) =>
        var parts := [];
        for i := 0 to |pieces|
          invariant parts == TextParts(pieces[..i])
        {
          TextPartsAppend(pieces[..i], pieces[i]);
          assert pieces[..i + 1] == pieces[..i] + [pieces[i]];
          if pieces[i].TextPiece? && pieces[i].text != "" {
            parts := parts + [pieces[i].text];
          }
        }
        assert pieces[..|pieces|] == pieces;
        text := Lines(parts);
    }
  }
}
