/**
 Tailing a rollout file that grows while it is read: a partial line is kept until
 its newline arrives.
 */
module RolloutTail {

  type Bytes = seq<int>

  const NEWLINE := 10
  const RETURN := 13

  /** What one read meets: the file grown to some length, or a failure after some bytes. */
  datatype Look = Grown(length: nat) | Broken(length: nat)

  datatype ReadError = NoError | EndOfFile | Failure

  // ------------------------------------------------------------------
  // Lines

  predicate IsLine(line: Bytes) {
    line != [] && line[|line| - 1] == NEWLINE && forall i | 0 <= i < |line| - 1 :: line[i] != NEWLINE
  }

  function Concat(parts: seq<Bytes>): Bytes {
    if parts == [] then [] else parts[0] + Concat(parts[1..])
  }

  /** The bytes are these newline-terminated lines and then an unfinished one. */
  ghost predicate IsSplit(bytes: Bytes, lines: seq<Bytes>, pending: Bytes) {
    && (forall i | 0 <= i < |lines| :: IsLine(lines[i]))
    && NEWLINE !in pending
    && Concat(lines) + pending == bytes
  }

  lemma {:induction false} ConcatAppend(parts: seq<Bytes>, part: Bytes)
    ensures Concat(parts + [part]) == Concat(parts) + part
  {
    if parts == [] {
      assert parts + [part] == [part];
      assert Concat([part]) == part + Concat([]);
    } else {
      assert (parts + [part])[1..] == parts[1..] + [part];
      ConcatAppend(parts[1..], part);
    }
  }

  lemma FirstLineIsUnique(bytes: Bytes, a: Bytes, b: Bytes, restA: Bytes, restB: Bytes)
    requires IsLine(a) && IsLine(b)
    requires bytes == a + restA && bytes == b + restB
    ensures a == b && restA == restB
  {
    assert forall i | 0 <= i < |a| :: bytes[i] == a[i];
    assert forall i | 0 <= i < |b| :: bytes[i] == b[i];
    assert |a| == |b|;
    assert a == bytes[..|a|] && b == bytes[..|b|];
    assert restA == bytes[|a|..] && restB == bytes[|b|..];
  }

  lemma FinishedLineIff(bytes: Bytes, lines: seq<Bytes>, pending: Bytes)
    requires IsSplit(bytes, lines, pending)
    ensures lines != [] <==> NEWLINE in bytes
    ensures lines != [] ==> IsSplit(Concat(lines[1..]) + pending, lines[1..], pending)
    ensures lines != [] ==> bytes == lines[0] + (Concat(lines[1..]) + pending)
  {
    if lines == [] {
      assert bytes == pending;
    } else {
      assert bytes == lines[0] + (Concat(lines[1..]) + pending);
      assert lines[0][|lines[0]| - 1] == NEWLINE && lines[0][|lines[0]| - 1] in lines[0];
    }
  }

  /** There is only one way to cut bytes into finished lines and an unfinished one. */
  lemma {:induction false} SplitIsUnique(
      bytes: Bytes, lines: seq<Bytes>, pending: Bytes, lines': seq<Bytes>, pending': Bytes)
    requires IsSplit(bytes, lines, pending) && IsSplit(bytes, lines', pending')
    ensures lines == lines' && pending == pending'
    decreases |lines|
  {
    FinishedLineIff(bytes, lines, pending);
    FinishedLineIff(bytes, lines', pending');
    if lines == [] {
      assert bytes == pending && bytes == pending';
    } else {
      var rest, rest' := Concat(lines[1..]) + pending, Concat(lines'[1..]) + pending';
      FirstLineIsUnique(bytes, lines[0], lines'[0], rest, rest');
      SplitIsUnique(rest, lines[1..], pending, lines'[1..], pending');
    }
  }

  // ------------------------------------------------------------------
  // One line

  predicate IsEnding(c: int) {
    c == NEWLINE || c == RETURN
  }

  /** The trimming loop of processRolloutLine. */
  method TrimLine(line: Bytes) returns (text: Bytes)
    ensures text <= line
    ensures text != [] ==> text[|text| - 1] != 10 && text[|text| - 1] != 13
    ensures forall i | |text| <= i < |line| :: line[i] == 10 || line[i] == 13
  {
    text := line;
    while |text| > 0 && IsEnding(text[|text| - 1])
      invariant text <= line
      invariant forall i | |text| <= i < |line| :: IsEnding(line[i])
    {
      text := text[..|text| - 1];
    }
  }

  // ------------------------------------------------------------------
  // The tail

  /** ReadBytes: through the next newline, or all there is and an error. */
  method ReadBytes(file: Bytes, pos: nat, look: Look) returns (chunk: Bytes, err: ReadError)
    requires pos <= look.length <= |file|
    ensures pos + |chunk| <= look.length && chunk == file[pos..pos + |chunk|]
    ensures err == NoError ==> IsLine(chunk)
    ensures err != NoError ==> NEWLINE !in chunk && pos + |chunk| == look.length
    ensures err == Failure ==> look.Broken?
    ensures err == EndOfFile ==> look.Grown?
  {
    var end := pos;
    while end < look.length
      invariant pos <= end <= look.length
      invariant NEWLINE !in file[pos..end]
    {
      end := end + 1;
      assert file[pos..end] == file[pos..end - 1] + [file[end - 1]];
      if file[end - 1] == NEWLINE {
        return file[pos..end], NoError;
      }
    }
    return file[pos..end], if look.Broken? then Failure else EndOfFile;
  }

  /** The file is only appended to, so each read can see at least what the last one saw. */
  ghost predicate Grows(file: Bytes, looks: seq<Look>) {
    && (forall i | 0 <= i < |looks| :: looks[i].length <= |file|)
    && (forall i, j | 0 <= i < j < |looks| :: looks[i].length <= looks[j].length)
  }

  lemma NoNewlineInBoth(a: Bytes, b: Bytes)
    requires NEWLINE !in a
    ensures NEWLINE !in b ==> NEWLINE !in a + b
    ensures IsLine(b) ==> IsLine(a + b)
  {
  }

  /**
   tailRolloutFile over the given reads, until a failure or until they run out (its
   done channel closing). `handed` is what processRolloutLine gets, `read` how far
   into the file the reads have come, `last` how the latest one ended.
   */
  method TailRolloutFile(file: Bytes, looks: seq<Look>)
    returns (handed: seq<Bytes>, pending: Bytes, read: nat, last: ReadError)
    requires Grows(file, looks)
    ensures read <= |file| && IsSplit(file[..read], handed, pending)
    ensures last == EndOfFile ==> looks != [] && read == looks[|looks| - 1].length
    ensures last == Failure ==> exists i :: 0 <= i < |looks| && looks[i].Broken? && read == looks[i].length
  {
    handed, pending, read, last := [], [], 0, NoError;
    for i := 0 to |looks|
      invariant read <= |file| && IsSplit(file[..read], handed, pending)
      invariant if i == 0 then read == 0 else read <= looks[i - 1].length
      invariant last != Failure && (last == EndOfFile ==> i > 0 && read == looks[i - 1].length)
    {
      assert i > 0 ==> looks[i - 1].length <= looks[i].length;
      var chunk, err := ReadBytes(file, read, looks[i]);
      assert file[..read + |chunk|] == file[..read] + chunk;
      NoNewlineInBoth(pending, chunk);
      assert Concat(handed) + (pending + chunk) == file[..read + |chunk|];
      pending, read, last := pending + chunk, read + |chunk|, err;
      match err {
        case NoError =>
          ConcatAppend(handed, pending);
          handed := handed + [pending];
          pending := [];
        case EndOfFile =>
        case Failure =>
          return;
      }
    }
  }
}
