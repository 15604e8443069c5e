/**
 Assistant-text recovery: each model segment may arrive on stream-json (the
 authoritative copy) and on OTel. The OTel copies are buffered and, at the end
 of a turn, matched against what stream-json delivered in this turn and the one
 before; a copy that matches nothing is surfaced.
 */
module AssistantRecovery {
  import opened AssistantText

  const CONVERSATION_QUERY_SOURCE := "sdk"

  datatype Event =
    | Segment(index: nat, text: string, otel: bool, querySource: string, recovered: bool)
    | Other(id: nat)

  predicate IsOTelCopy(e: Event) {
    e.Segment? && e.otel
  }

  predicate IsDelivery(e: Event) {
    e.Segment? && !e.otel
  }

  predicate IsSideCall(e: Event) {
    IsOTelCopy(e) && e.querySource != "" && e.querySource != CONVERSATION_QUERY_SOURCE
  }

  /** An OTel copy of something the model said in the conversation itself. */
  predicate IsConversationCopy(e: Event) {
    IsOTelCopy(e) && !IsSideCall(e)
  }

  predicate IsCopyOf(e: Event, key: string) {
    IsConversationCopy(e) && Normalize(e.text) == key
  }

  predicate IsDeliveryOf(e: Event, key: string) {
    IsDelivery(e) && Normalize(e.text) == key
  }

  // ------------------------------------------------------------------
  // The record as values

  type Tally = map<string, nat>

  function Get(m: Tally, key: string): nat {
    if key in m then m[key] else 0
  }

  function Minus(a: nat, b: nat): nat {
    if a < b then 0 else a - b
  }

  function Min(a: nat, b: nat): nat {
    if a < b then a else b
  }

  /**
   delivered / before: how often stream-json delivered each text in this turn
   and the last, less what matching copies consumed; pending: OTel copies not
   yet reconciled; sent: what went out to the bridge server.
   */
  datatype Book = Book(delivered: Tally, before: Tally, pending: seq<Event>, sent: seq<Event>) {
    function Available(key: string): nat {
      Get(delivered, key) + Get(before, key)
    }
  }

  const EMPTY_BOOK := Book(map[], map[], [], [])

  /** How many of the copies are conversation copies of one text. */
  function Copies(copies: seq<Event>, key: string): nat {
    if copies == [] then 0
    else Copies(copies[..|copies| - 1], key) + if IsCopyOf(copies[|copies| - 1], key) then 1 else 0
  }

  /**
   The copies nobody delivered, in arrival order: a conversation copy is one of
   them when the copies of the same text before it already use up every delivery.
   */
  function Undelivered(copies: seq<Event>, b: Book): seq<string> {
    if copies == [] then []
    else
      var earlier, last := copies[..|copies| - 1], copies[|copies| - 1];
      Undelivered(earlier, b) +
      if IsConversationCopy(last) && Copies(earlier, Normalize(last.text)) >= b.Available(Normalize(last.text))
      then [last.text] else []
  }

  /** The events a flush sends: source otel, marked recovered, numbered from 0. */
  function Resurfaced(texts: seq<string>): (events: seq<Event>)
    ensures |events| == |texts|
  {
    if texts == [] then []
    else
      var n := |texts| - 1;
      Resurfaced(texts[..n]) + [Segment(n, texts[n], true, "", true)]
  }

  function Emitted(b: Book, e: Event): Book {
    if IsOTelCopy(e) then b.(pending := b.pending + [e])
    else if IsDelivery(e) then
      var key := Normalize(e.text);
      b.(delivered := b.delivered[key := Get(b.delivered, key) + 1], sent := b.sent + [e])
    else b.(sent := b.sent + [e])
  }

  function Begun(b: Book): Book {
    b.(delivered := map[], before := b.delivered)
  }

  /** This turn's deliveries are consumed before the last turn's. */
  function ConsumedNow(b: Book, copies: seq<Event>): Tally {
    map key | key in b.delivered :: Minus(b.delivered[key], Copies(copies, key))
  }

  function ConsumedBefore(b: Book, copies: seq<Event>): Tally {
    map key | key in b.before :: Minus(b.before[key], Minus(Copies(copies, key), Get(b.delivered, key)))
  }

  function Flushed(b: Book): Book {
    Book(
      ConsumedNow(b, b.pending),
      ConsumedBefore(b, b.pending),
      [],
      b.sent + Resurfaced(Undelivered(b.pending, b)))
  }

  // ------------------------------------------------------------------
  // The harness fields, changed in place

  lemma NextCopy(pending: seq<Event>, i: nat, key: string)
    requires i < |pending|
    ensures Copies(pending[..i + 1], key) == Copies(pending[..i], key) + if IsCopyOf(pending[i], key) then 1 else 0
  {
    assert pending[..i + 1][..i] == pending[..i] && pending[..i + 1][i] == pending[i];
  }

  /** What is left of this turn's deliveries after one more copy, given what was left before it. */
  function TakeNow(now: Tally, e: Event): Tally {
    if IsConversationCopy(e) && Get(now, Normalize(e.text)) > 0
    then now[Normalize(e.text) := now[Normalize(e.text)] - 1] else now
  }

  /** The last turn's deliveries are used only when this turn's are used up. */
  function TakeBefore(now: Tally, before: Tally, e: Event): Tally {
    if IsConversationCopy(e) && Get(now, Normalize(e.text)) == 0 && Get(before, Normalize(e.text)) > 0
    then before[Normalize(e.text) := before[Normalize(e.text)] - 1] else before
  }

  predicate Unmatched(now: Tally, before: Tally, e: Event) {
    IsConversationCopy(e) && Get(now, Normalize(e.text)) == 0 && Get(before, Normalize(e.text)) == 0
  }

  lemma NextNow(b: Book, pending: seq<Event>, i: nat)
    requires i < |pending|
    ensures ConsumedNow(b, pending[..i + 1]) == TakeNow(ConsumedNow(b, pending[..i]), pending[i])
  {
    forall k {
      NextCopy(pending, i, k);
    }
  }

  lemma NextBefore(b: Book, pending: seq<Event>, i: nat)
    requires i < |pending|
    ensures ConsumedBefore(b, pending[..i + 1])
         == TakeBefore(ConsumedNow(b, pending[..i]), ConsumedBefore(b, pending[..i]), pending[i])
  {
    forall k {
      NextCopy(pending, i, k);
    }
  }

  lemma NextText(b: Book, pending: seq<Event>, i: nat)
    requires i < |pending|
    ensures Undelivered(pending[..i + 1], b)
         == Undelivered(pending[..i], b) +
            if Unmatched(ConsumedNow(b, pending[..i]), ConsumedBefore(b, pending[..i]), pending[i])
            then [pending[i].text] else []
  {
    assert pending[..i + 1][..i] == pending[..i] && pending[..i + 1][i] == pending[i];
  }

  class Recovery {
    var deliveredText: Tally
    var deliveredBefore: Tally
    var pendingOTel: seq<Event>
    var sent: seq<Event>

    ghost predicate Valid()
      reads this
    {
      forall e | e in pendingOTel :: IsOTelCopy(e)
    }

    ghost function State(): Book
      reads this
    {
      Book(deliveredText, deliveredBefore, pendingOTel, sent)
    }

    constructor ()
      ensures Valid() && State() == EMPTY_BOOK
    {
      deliveredText, deliveredBefore, pendingOTel, sent := map[], map[], [], [];
    }

    method Emit(e: Event)
      requires Valid()
      modifies this
      ensures Valid() && State() == Emitted(old(State()), e)
      ensures deliveredBefore == old(deliveredBefore)
      ensures e.Segment? && e.otel ==> pendingOTel == old(pendingOTel) + [e] && sent == old(sent)
      ensures !(e.Segment? && e.otel) ==> pendingOTel == old(pendingOTel) && sent == old(sent) + [e]
      ensures forall key :: Get(deliveredText, key) == Get(old(deliveredText), key)
                            + if e.Segment? && !e.otel && Normalize(e.text) == key then 1 else 0
    {
      if e.Segment? {
        if e.otel {
          pendingOTel := pendingOTel + [e];
          return;
        }
        var key := Normalize(e.text);
        deliveredText := deliveredText[key := Get(deliveredText, key) + 1];
      }
      sent := sent + [e];
    }

    method BeginTurn()
      requires Valid()
      modifies this
      ensures Valid() && State() == Begun(old(State()))
      ensures deliveredText == map[] && deliveredBefore == old(deliveredText)
      ensures pendingOTel == old(pendingOTel) && sent == old(sent)
    {
      deliveredBefore := deliveredText;
      deliveredText := map[];
    }

    /** Match one buffered copy against a delivery, this turn's before the last turn's. */
    method Reconcile(e: Event) returns (unmatched: bool)
      requires IsOTelCopy(e)
      modifies `deliveredText, `deliveredBefore
      ensures unmatched == Unmatched(old(deliveredText), old(deliveredBefore), e)
      ensures deliveredText == TakeNow(old(deliveredText), e)
      ensures deliveredBefore == TakeBefore(old(deliveredText), old(deliveredBefore), e)
      ensures e.querySource !in {"", "sdk"} ==>
                !unmatched && deliveredText == old(deliveredText) && deliveredBefore == old(deliveredBefore)
      ensures e.querySource in {"", "sdk"} ==>
                var key := Normalize(e.text);
                var now, before := Get(old(deliveredText), key), Get(old(deliveredBefore), key);
                && (unmatched <==> now == 0 && before == 0)
                && Get(deliveredText, key) == (if now > 0 then now - 1 else 0)
                && Get(deliveredBefore, key) == if now == 0 && before > 0 then before - 1 else before
      ensures forall key | key != Normalize(e.text) ::
                && Get(deliveredText, key) == Get(old(deliveredText), key)
                && Get(deliveredBefore, key) == Get(old(deliveredBefore), key)
    {
      unmatched := false;
      if e.querySource != "" && e.querySource != CONVERSATION_QUERY_SOURCE {
        return;
      }
      var key := Normalize(e.text);
      if Get(deliveredText, key) > 0 {
        deliveredText := deliveredText[key := deliveredText[key] - 1];
      } else if Get(deliveredBefore, key) > 0 {
        deliveredBefore := deliveredBefore[key := deliveredBefore[key] - 1];
      } else {
        unmatched := true;
      }
    }

    /** The part of a flush that runs under the lock: empty the buffer and reconcile it. */
    method TakeUndelivered() returns (texts: seq<string>)
      requires Valid()
      modifies this
      ensures pendingOTel == [] && sent == old(sent)
      ensures deliveredText == ConsumedNow(old(State()), old(pendingOTel))
      ensures deliveredBefore == ConsumedBefore(old(State()), old(pendingOTel))
      ensures texts == Undelivered(old(pendingOTel), old(State()))
    {
      ghost var b := State();
      var pending := pendingOTel;
      pendingOTel, texts := [], [];
      for i := 0 to |pending|
        modifies `deliveredText, `deliveredBefore
        invariant deliveredText == ConsumedNow(b, pending[..i])
        invariant deliveredBefore == ConsumedBefore(b, pending[..i])
        invariant texts == Undelivered(pending[..i], b)
      {
        NextNow(b, pending, i);
        NextBefore(b, pending, i);
        NextText(b, pending, i);
        assert pending[i] in pending;
        var unmatched := Reconcile(pending[i]);
        if unmatched {
          texts := texts + [pending[i].text];
        }
      }
      assert pending[..|pending|] == pending;
    }

    method FlushRecoveredAssistant()
      requires Valid()
      modifies this
      ensures Valid() && State() == Flushed(old(State()))
      ensures pendingOTel == [] && old(sent) <= sent
      ensures
        var texts := Undelivered(old(pendingOTel), old(State()));
        && |sent| == |old(sent)| + |texts|
        && forall i | 0 <= i < |texts| :: sent[|old(sent)| + i] == Segment(i, texts[i], true, "", true)
    {
      FlushSendsInOrder(State());
      var texts := TakeUndelivered();
      for i := 0 to |texts|
        invariant State() == Flushed(old(State())).(sent := old(sent) + Resurfaced(texts[..i]))
      {
        assert texts[..i + 1][..i] == texts[..i];
        sent := sent + [Segment(i, texts[i], true, "", true)];
      }
      assert texts[..|texts|] == texts;
    }
  }

  // ------------------------------------------------------------------
  // One flush

  lemma {:induction false} ResurfacedAt(texts: seq<string>, i: nat)
    requires i < |texts|
    ensures Resurfaced(texts)[i] == Segment(i, texts[i], true, "", true)
    decreases |texts|
  {
    if i < |texts| - 1 {
      ResurfacedAt(texts[..|texts| - 1], i);
    }
  }

  /** A flush sends the undelivered texts after everything already sent, in arrival order, numbered from 0. */
  lemma FlushSendsInOrder(b: Book)
    ensures
      var texts, sent := Undelivered(b.pending, b), Flushed(b).sent;
      && b.sent <= sent
      && |sent| == |b.sent| + |texts|
      && forall i | 0 <= i < |texts| :: sent[|b.sent| + i] == Segment(i, texts[i], true, "", true)
  {
    var texts := Undelivered(b.pending, b);
    forall i | 0 <= i < |texts|
      ensures Flushed(b).sent[|b.sent| + i] == Segment(i, texts[i], true, "", true)
    {
      ResurfacedAt(texts, i);
    }
  }

  /** Last turn's deliveries of a text are consumed only once none of this turn's are left. */
  lemma CurrentTurnGoesFirst(b: Book, key: string)
    ensures
      var f := Flushed(b);
      && Get(f.delivered, key) <= Get(b.delivered, key) && Get(f.before, key) <= Get(b.before, key)
      && (Get(f.delivered, key) > 0 ==> Get(f.before, key) == Get(b.before, key))
      && Get(f.delivered, key) + Get(f.before, key)
         == Get(b.delivered, key) + Get(b.before, key)
            - Min(Copies(b.pending, key), Get(b.delivered, key) + Get(b.before, key))
  {
  }

  /** The texts, in order, of the copies carrying one key. */
  function TextsOf(copies: seq<Event>, key: string): seq<string> {
    if copies == [] then []
    else
      var last := copies[|copies| - 1];
      TextsOf(copies[..|copies| - 1], key) + if IsCopyOf(last, key) then [last.text] else []
  }

  function OfKey(texts: seq<string>, key: string): seq<string> {
    if texts == [] then []
    else
      var last := texts[|texts| - 1];
      OfKey(texts[..|texts| - 1], key) + if Normalize(last) == key then [last] else []
  }

  lemma OfKeySnoc(texts: seq<string>, last: string, key: string)
    ensures OfKey(texts + [last], key) == OfKey(texts, key) + if Normalize(last) == key then [last] else []
  {
    assert (texts + [last])[..|texts|] == texts;
  }

  lemma DropOfSnoc(mine: seq<string>, x: string, limit: nat)
    ensures (mine + [x])[Min(|mine| + 1, limit)..]
         == mine[Min(|mine|, limit)..] + if |mine| >= limit then [x] else []
  {
  }

  /**
   Per text, a flush matches the first min(pending, delivered) copies and
   surfaces exactly the later ones, in the order they arrived.
   */
  lemma {:induction false} FlushSurfacesTheRest(copies: seq<Event>, b: Book, key: string)
    ensures |TextsOf(copies, key)| == Copies(copies, key)
    ensures OfKey(Undelivered(copies, b), key)
         == TextsOf(copies, key)[Min(Copies(copies, key), b.Available(key))..]
  {
    if copies != [] {
      var earlier, last := copies[..|copies| - 1], copies[|copies| - 1];
      FlushSurfacesTheRest(earlier, b, key);
      var u, mine := Undelivered(earlier, b), TextsOf(earlier, key);
      assert u + [] == u && mine + [] == mine;
      if IsConversationCopy(last) {
        OfKeySnoc(u, last.text, key);
        DropOfSnoc(mine, last.text, b.Available(key));
      }
    }
  }

  /** The order across all texts is kept too: what is surfaced is a subsequence of what was buffered. */
  predicate IsSubsequence(part: seq<string>, whole: seq<string>) {
    if part == [] then true
    else if whole == [] then false
    else
      || (part[|part| - 1] == whole[|whole| - 1] && IsSubsequence(part[..|part| - 1], whole[..|whole| - 1]))
      || IsSubsequence(part, whole[..|whole| - 1])
  }

  function ConversationTexts(copies: seq<Event>): seq<string> {
    if copies == [] then []
    else
      var last := copies[|copies| - 1];
      ConversationTexts(copies[..|copies| - 1]) + if IsConversationCopy(last) then [last.text] else []
  }

  lemma {:induction false} FlushKeepsArrivalOrder(copies: seq<Event>, b: Book)
    ensures IsSubsequence(Undelivered(copies, b), ConversationTexts(copies))
  {
    if copies != [] {
      var earlier, last := copies[..|copies| - 1], copies[|copies| - 1];
      FlushKeepsArrivalOrder(earlier, b);
      var u, c := Undelivered(earlier, b), ConversationTexts(earlier);
      assert u + [] == u && c + [] == c;
      if IsConversationCopy(last) {
        assert (c + [last.text])[..|c|] == c && (u + [last.text])[..|u|] == u;
      }
    }
  }

  /** A second flush forwards nothing and changes nothing. */
  lemma SecondFlushIsIdle(b: Book)
    ensures Flushed(Flushed(b)) == Flushed(b)
  {
    var f := Flushed(b);
    assert Undelivered(f.pending, f) == [];
    assert f.sent + Resurfaced([]) == f.sent;
  }

  /** A flush surfaces something exactly when some text has more copies than unconsumed deliveries. */
  lemma {:induction false} FlushSurfacesWhenShort(copies: seq<Event>, b: Book)
    ensures Undelivered(copies, b) == [] <==> forall key :: Copies(copies, key) <= b.Available(key)
  {
    if copies != [] {
      var earlier, last := copies[..|copies| - 1], copies[|copies| - 1];
      FlushSurfacesWhenShort(earlier, b);
      if IsConversationCopy(last) {
        var key := Normalize(last.text);
        assert Copies(copies, key) == Copies(earlier, key) + 1;
        forall k | k != key
          ensures Copies(copies, k) == Copies(earlier, k)
        {
        }
        if Undelivered(copies, b) != [] && Undelivered(earlier, b) == [] {
          assert Copies(copies, key) > b.Available(key);
        }
        if Undelivered(earlier, b) != [] {
          var k :| Copies(earlier, k) > b.Available(k);
          assert Copies(copies, k) > b.Available(k);
        }
      } else {
        forall k
          ensures Copies(copies, k) == Copies(earlier, k)
        {
        }
      }
    }
  }

  // ------------------------------------------------------------------
  // Runs

  datatype Op = Emit(e: Event) | BeginTurn | Flush

  function Step(b: Book, op: Op): Book {
    match op
    case Emit(e) => Emitted(b, e)
    case BeginTurn => Begun(b)
    case Flush => Flushed(b)
  }

  function Run(ops: seq<Op>): Book {
    if ops == [] then EMPTY_BOOK else Step(Run(ops[..|ops| - 1]), ops[|ops| - 1])
  }

  /** Neither translator marks an event recovered; only a flush does. */
  predicate FromTranslators(ops: seq<Op>) {
    forall op | op in ops && op.Emit? && op.e.Segment? :: !op.e.recovered
  }

  // Tallies of one text over a run.

  function CopiesReceived(ops: seq<Op>, key: string): nat {
    if ops == [] then 0
    else
      var last := ops[|ops| - 1];
      CopiesReceived(ops[..|ops| - 1], key) + if last.Emit? && IsCopyOf(last.e, key) then 1 else 0
  }

  function Deliveries(ops: seq<Op>, key: string): nat {
    if ops == [] then 0
    else
      var last := ops[|ops| - 1];
      Deliveries(ops[..|ops| - 1], key) + if last.Emit? && IsDeliveryOf(last.e, key) then 1 else 0
  }

  /** The deliveries consumed by matching copies. */
  function Matched(ops: seq<Op>, key: string): int {
    if ops == [] then 0
    else
      var b := Run(ops[..|ops| - 1]);
      Matched(ops[..|ops| - 1], key) +
      if ops[|ops| - 1].Flush? then b.Available(key) - Flushed(b).Available(key) else 0
  }

  /** The deliveries that left the two-turn window unconsumed. */
  function Expired(ops: seq<Op>, key: string): nat {
    if ops == [] then 0
    else
      Expired(ops[..|ops| - 1], key) +
      if ops[|ops| - 1].BeginTurn? then Get(Run(ops[..|ops| - 1]).before, key) else 0
  }

  function Recovered(sent: seq<Event>, key: string): nat {
    if sent == [] then 0
    else
      var last := sent[|sent| - 1];
      Recovered(sent[..|sent| - 1], key) +
      if last.Segment? && last.recovered && Normalize(last.text) == key then 1 else 0
  }

  lemma RecoveredSnoc(sent: seq<Event>, e: Event, key: string)
    ensures Recovered(sent + [e], key)
         == Recovered(sent, key) + if e.Segment? && e.recovered && Normalize(e.text) == key then 1 else 0
  {
    assert (sent + [e])[..|sent|] == sent;
  }

  lemma {:induction false} RecoveredOfResurfaced(sent: seq<Event>, texts: seq<string>, key: string)
    ensures Recovered(sent + Resurfaced(texts), key) == Recovered(sent, key) + |OfKey(texts, key)|
  {
    if texts == [] {
      assert sent + Resurfaced(texts) == sent;
    } else {
      var earlier := texts[..|texts| - 1];
      RecoveredOfResurfaced(sent, earlier, key);
      var e := Segment(|texts| - 1, texts[|texts| - 1], true, "", true);
      assert sent + Resurfaced(texts) == (sent + Resurfaced(earlier)) + [e];
      RecoveredSnoc(sent + Resurfaced(earlier), e, key);
    }
  }

  /** What one flush does to the tallies: every pending copy is matched or surfaced. */
  lemma FlushAccounts(b: Book, key: string)
    ensures Recovered(Flushed(b).sent, key) - Recovered(b.sent, key) + b.Available(key) - Flushed(b).Available(key)
         == Copies(b.pending, key)
    ensures b.Available(key) - Flushed(b).Available(key) == Min(Copies(b.pending, key), b.Available(key))
  {
    FlushSurfacesTheRest(b.pending, b, key);
    RecoveredOfResurfaced(b.sent, Undelivered(b.pending, b), key);
  }

  /** What one step does to the tallies of one text. */
  lemma StepConserves(b: Book, op: Op, key: string)
    requires op.Emit? && op.e.Segment? ==> !op.e.recovered
    ensures var s := Step(b, op);
            var matched := if op.Flush? then b.Available(key) - s.Available(key) else 0;
            && 0 <= matched
            && matched + Recovered(s.sent, key) + Copies(s.pending, key)
               == Recovered(b.sent, key) + Copies(b.pending, key) + (if op.Emit? && IsCopyOf(op.e, key) then 1 else 0)
            && matched + s.Available(key) + (if op.BeginTurn? then Get(b.before, key) else 0)
               == b.Available(key) + if op.Emit? && IsDeliveryOf(op.e, key) then 1 else 0
  {
    hide Flushed, Recovered, Copies;
    match op
    case Emit(e) => EmitConserves(b, e, key);
    case BeginTurn =>
    case Flush => FlushEmpties(b, key);
  }

  lemma EmitConserves(b: Book, e: Event, key: string)
    requires e.Segment? ==> !e.recovered
    ensures
      var s := Emitted(b, e);
      && Recovered(s.sent, key) + Copies(s.pending, key)
         == Recovered(b.sent, key) + Copies(b.pending, key) + (if IsCopyOf(e, key) then 1 else 0)
      && s.Available(key) == b.Available(key) + if IsDeliveryOf(e, key) then 1 else 0
  {
    hide Normalize, Copies, Recovered;
    if IsOTelCopy(e) {
      CopiesSnoc(b.pending, e, key);
    } else {
      RecoveredSnoc(b.sent, e, key);
    }
  }

  lemma CopiesSnoc(copies: seq<Event>, e: Event, key: string)
    ensures Copies(copies + [e], key) == Copies(copies, key) + if IsCopyOf(e, key) then 1 else 0
  {
    assert (copies + [e])[..|copies|] == copies;
  }

  lemma FlushEmpties(b: Book, key: string)
    ensures Copies(Flushed(b).pending, key) == 0
    ensures Recovered(Flushed(b).sent, key) + b.Available(key)
         == Recovered(b.sent, key) + Flushed(b).Available(key) + Copies(b.pending, key)
    ensures Flushed(b).Available(key) <= b.Available(key)
  {
    hide Recovered;
    FlushAccounts(b, key);
  }

  /**
   Conservation over every run and for every text: a conversation copy is
   matched, surfaced or still pending, and a delivery is consumed at most once:
   matched, still in the window, or expired. So matched never exceeds delivered.
   */
  lemma {:induction false} CopiesAreConserved(ops: seq<Op>, key: string)
    requires FromTranslators(ops)
    ensures CopiesReceived(ops, key)
         == Matched(ops, key) + Recovered(Run(ops).sent, key) + Copies(Run(ops).pending, key)
    ensures Deliveries(ops, key) == Matched(ops, key) + Run(ops).Available(key) + Expired(ops, key)
    ensures 0 <= Matched(ops, key) <= Deliveries(ops, key)
  {
    if ops != [] {
      assert ops[|ops| - 1] in ops;
      CopiesAreConserved(ops[..|ops| - 1], key);
      StepConserves(Run(ops[..|ops| - 1]), ops[|ops| - 1], key);
    }
  }

  // Side calls are never matched and never surfaced.

  function SideCalls(copies: seq<Event>): nat {
    if copies == [] then 0
    else SideCalls(copies[..|copies| - 1]) + if IsSideCall(copies[|copies| - 1]) then 1 else 0
  }

  function OTelReceived(ops: seq<Op>): nat {
    if ops == [] then 0
    else
      var last := ops[|ops| - 1];
      OTelReceived(ops[..|ops| - 1]) + if last.Emit? && IsOTelCopy(last.e) then 1 else 0
  }

  function SideCallsSkipped(ops: seq<Op>): nat {
    if ops == [] then 0
    else
      SideCallsSkipped(ops[..|ops| - 1]) +
      if ops[|ops| - 1].Flush? then SideCalls(Run(ops[..|ops| - 1]).pending) else 0
  }

  function MatchedCopies(copies: seq<Event>, b: Book): nat {
    if copies == [] then 0
    else
      var earlier, last := copies[..|copies| - 1], copies[|copies| - 1];
      MatchedCopies(earlier, b) +
      if IsConversationCopy(last) && Copies(earlier, Normalize(last.text)) < b.Available(Normalize(last.text))
      then 1 else 0
  }

  function TotalMatched(ops: seq<Op>): nat {
    if ops == [] then 0
    else
      var b := Run(ops[..|ops| - 1]);
      TotalMatched(ops[..|ops| - 1]) + if ops[|ops| - 1].Flush? then MatchedCopies(b.pending, b) else 0
  }

  function TotalRecovered(sent: seq<Event>): nat {
    if sent == [] then 0
    else
      var last := sent[|sent| - 1];
      TotalRecovered(sent[..|sent| - 1]) + if last.Segment? && last.recovered then 1 else 0
  }

  lemma {:induction false} PendingSplit(copies: seq<Event>, b: Book)
    requires forall e | e in copies :: IsOTelCopy(e)
    ensures |copies| == MatchedCopies(copies, b) + |Undelivered(copies, b)| + SideCalls(copies)
  {
    if copies != [] {
      var earlier, last := copies[..|copies| - 1], copies[|copies| - 1];
      assert last in copies;
      PendingSplit(earlier, b);
    }
  }

  lemma {:induction false} TotalRecoveredGrows(sent: seq<Event>, texts: seq<string>)
    ensures TotalRecovered(sent + Resurfaced(texts)) == TotalRecovered(sent) + |texts|
  {
    if texts == [] {
      assert sent + Resurfaced(texts) == sent;
    } else {
      var n := |texts| - 1;
      TotalRecoveredGrows(sent, texts[..n]);
      var sent' := sent + Resurfaced(texts[..n]);
      var e := Segment(n, texts[n], true, "", true);
      assert sent + Resurfaced(texts) == sent' + [e];
      assert (sent' + [e])[..|sent'|] == sent';
    }
  }

  /** What one step does to the totals. */
  lemma StepAccounts(b: Book, op: Op)
    requires forall e | e in b.pending :: IsOTelCopy(e)
    requires op.Emit? && op.e.Segment? ==> !op.e.recovered
    ensures forall e | e in Step(b, op).pending :: IsOTelCopy(e)
    ensures TotalRecovered(Step(b, op).sent) + |Step(b, op).pending|
            + (if op.Flush? then MatchedCopies(b.pending, b) + SideCalls(b.pending) else 0)
         == TotalRecovered(b.sent) + |b.pending| + if op.Emit? && IsOTelCopy(op.e) then 1 else 0
  {
    match op
    case Emit(e) =>
      if !IsOTelCopy(e) {
        assert (b.sent + [e])[..|b.sent|] == b.sent;
      }
    case BeginTurn =>
    case Flush =>
      PendingSplit(b.pending, b);
      TotalRecoveredGrows(b.sent, Undelivered(b.pending, b));
  }

  /** The same balance counted over all OTel copies at once, side calls included. */
  lemma {:induction false} EveryCopyIsAccountedFor(ops: seq<Op>)
    requires FromTranslators(ops)
    ensures forall e | e in Run(ops).pending :: IsOTelCopy(e)
    ensures OTelReceived(ops)
         == TotalMatched(ops) + TotalRecovered(Run(ops).sent) + SideCallsSkipped(ops) + |Run(ops).pending|
  {
    if ops != [] {
      assert ops[|ops| - 1] in ops;
      EveryCopyIsAccountedFor(ops[..|ops| - 1]);
      StepAccounts(Run(ops[..|ops| - 1]), ops[|ops| - 1]);
    }
  }
}
