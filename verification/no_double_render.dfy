/**
 When a run can not render a segment twice. Every conversation copy is paired
 with the delivery it duplicates, so surfacing any of them is a double render.
 */
module NoDoubleRender {
  import opened AssistantText
  import opened AssistantRecovery

  predicate CopyAt(ops: seq<Op>, p: int) {
    0 <= p < |ops| && ops[p].Emit? && IsConversationCopy(ops[p].e)
  }

  predicate DeliveryAt(ops: seq<Op>, p: int) {
    0 <= p < |ops| && ops[p].Emit? && IsDelivery(ops[p].e)
  }

  function KeyAt(ops: seq<Op>, p: int): string {
    if 0 <= p < |ops| && ops[p].Emit? && ops[p].e.Segment? then Normalize(ops[p].e.text) else ""
  }

  /** The turn a step belongs to: how many turns began before it. */
  function Turn(ops: seq<Op>, p: nat): nat {
    if p == 0 || p > |ops| then 0 else Turn(ops, p - 1) + if ops[p - 1].BeginTurn? then 1 else 0
  }

  /** The copy at c is in the buffer when step f runs. */
  predicate PendingAt(ops: seq<Op>, c: int, f: int) {
    CopyAt(ops, c) && c < f <= |ops| && forall q | c < q < f :: !ops[q].Flush?
  }

  /**
   Each copy has a delivery of its own with the same text, and is flushed after
   that delivery, in its turn or in the next one.
   */
  ghost predicate Paired(ops: seq<Op>, pair: map<int, int>) {
    && (forall c | CopyAt(ops, c) ::
          c in pair && DeliveryAt(ops, pair[c]) && KeyAt(ops, pair[c]) == KeyAt(ops, c))
    && (forall c, c' | CopyAt(ops, c) && CopyAt(ops, c') && c != c' :: pair[c] != pair[c'])
    && (forall c, f | 0 <= f < |ops| && ops[f].Flush? && PendingAt(ops, c, f) ::
          pair[c] < f && Turn(ops, pair[c]) <= Turn(ops, f) <= Turn(ops, pair[c]) + 1)
  }

  /** No text is delivered in two consecutive turns. */
  ghost predicate NoConsecutiveRepeat(ops: seq<Op>) {
    forall d, d' | DeliveryAt(ops, d) && DeliveryAt(ops, d') && KeyAt(ops, d) == KeyAt(ops, d') ::
      Turn(ops, d') != Turn(ops, d) + 1
  }

  /** What stream-json (and everything else that is not an OTel copy) sent, in order. */
  function Forwarded(ops: seq<Op>): seq<Event> {
    if ops == [] then []
    else
      var last := ops[|ops| - 1];
      Forwarded(ops[..|ops| - 1]) + if last.Emit? && !IsOTelCopy(last.e) then [last.e] else []
  }

  // ------------------------------------------------------------------
  // The bookkeeping over prefixes

  function DeliveredIn(ops: seq<Op>, p: nat, turn: int, key: string): set<int> {
    set d | 0 <= d < p && DeliveryAt(ops, d) && Turn(ops, d) == turn && KeyAt(ops, d) == key
  }

  /** The deliveries whose copy has been flushed before step p. */
  ghost function Claimed(ops: seq<Op>, pair: map<int, int>, p: nat): set<int> {
    set c | 0 <= c < p && CopyAt(ops, c) && c in pair && !PendingAt(ops, c, p) :: pair[c]
  }

  /** The deliveries of one text whose copy is in the buffer at step p. */
  ghost function Awaiting(ops: seq<Op>, pair: map<int, int>, p: nat, key: string): set<int> {
    set c | 0 <= c < p && PendingAt(ops, c, p) && c in pair && KeyAt(ops, c) == key :: pair[c]
  }

  /**
   One text's counts, as sets of deliveries: now and before are this turn's and
   the last turn's, claimed those whose copy was flushed, waiting those whose
   copy is in the buffer.
   */
  ghost predicate Window(b: Book, key: string, now: set<int>, before: set<int>, claimed: set<int>, waiting: set<int>) {
    && Get(b.delivered, key) == |now - claimed|
    && Get(b.before, key) == |before - claimed|
    && Copies(b.pending, key) == |waiting|
  }

  predicate AllBelow(s: set<int>, bound: int) {
    forall d | d in s :: d < bound
  }

  ghost predicate Tracks(ops: seq<Op>, pair: map<int, int>, p: nat, b: Book, key: string) {
    var turn := Turn(ops, p) as int;
    && Window(b, key, DeliveredIn(ops, p, turn, key), DeliveredIn(ops, p, turn - 1, key),
              Claimed(ops, pair, p), Awaiting(ops, pair, p, key))
    && AllBelow(Claimed(ops, pair, p), p)
  }

  lemma EmitWindow(b: Book, e: Event, key: string,
                   now: set<int>, before: set<int>, claimed: set<int>, waiting: set<int>, d: int, w: int)
    requires Window(b, key, now, before, claimed, waiting)
    requires d !in now && d !in claimed
    requires IsCopyOf(e, key) ==> w !in waiting
    ensures Window(Emitted(b, e), key, if IsDeliveryOf(e, key) then now + {d} else now, before,
                   claimed, if IsCopyOf(e, key) then waiting + {w} else waiting)
  {
    if IsDeliveryOf(e, key) {
      assert (now + {d}) - claimed == (now - claimed) + {d};
    }
    if IsOTelCopy(e) {
      assert (b.pending + [e])[..|b.pending|] == b.pending;
    }
  }

  lemma FlushWindow(b: Book, key: string,
                    now: set<int>, before: set<int>, claimed: set<int>, waiting: set<int>, claimed': set<int>)
    requires Window(b, key, now, before, claimed, waiting)
    requires (before == {} && waiting <= now - claimed) || (now == {} && waiting <= before - claimed)
    requires now - claimed' == (now - claimed) - waiting
    requires before - claimed' == (before - claimed) - waiting
    ensures Window(Flushed(b), key, now, before, claimed', {})
    ensures Copies(b.pending, key) <= b.Available(key)
  {
    if before == {} && waiting <= now - claimed {
      assert before - claimed == {} && before - claimed' == {};
      assert |(now - claimed) - waiting| == |now - claimed| - |waiting|;
    } else {
      assert now - claimed == {} && now - claimed' == {};
      assert |(before - claimed) - waiting| == |before - claimed| - |waiting|;
    }
  }

  lemma {:induction false} TurnGrows(ops: seq<Op>, d: nat, p: nat)
    requires d <= p <= |ops|
    ensures Turn(ops, d) <= Turn(ops, p)
    decreases p
  {
    if d < p {
      TurnGrows(ops, d, p - 1);
    }
  }

  lemma NoFutureTurn(ops: seq<Op>, p: nat, key: string)
    requires p <= |ops|
    ensures DeliveredIn(ops, p, Turn(ops, p) + 1, key) == {}
  {
    forall d | 0 <= d < p
      ensures Turn(ops, d) <= Turn(ops, p)
    {
      TurnGrows(ops, d, p);
    }
  }

  lemma PendingStep(ops: seq<Op>, c: int, p: nat)
    requires p < |ops|
    ensures c < p ==> (PendingAt(ops, c, p + 1) <==> PendingAt(ops, c, p) && !ops[p].Flush?)
    ensures CopyAt(ops, p) ==> PendingAt(ops, p, p + 1)
  {
  }

  /** Until a flush, no delivery gets claimed, and only a copy of its own joins the waiting ones. */
  lemma QuietStep(ops: seq<Op>, pair: map<int, int>, p: nat, key: string)
    requires Paired(ops, pair) && p < |ops| && !ops[p].Flush?
    ensures Claimed(ops, pair, p + 1) == Claimed(ops, pair, p)
    ensures CopyAt(ops, p) ==> p in pair
    ensures Awaiting(ops, pair, p + 1, key)
         == if CopyAt(ops, p) && KeyAt(ops, p) == key
            then Awaiting(ops, pair, p, key) + {pair[p]} else Awaiting(ops, pair, p, key)
    ensures CopyAt(ops, p) ==> pair[p] !in Awaiting(ops, pair, p, key)
  {
    forall c {
      PendingStep(ops, c, p);
    }
  }

  lemma TurnStep(ops: seq<Op>, p: nat)
    requires p < |ops|
    ensures Turn(ops, p + 1) == Turn(ops, p) + if ops[p].BeginTurn? then 1 else 0
  {
  }

  lemma DeliveredStep(ops: seq<Op>, p: nat, turn: int, key: string)
    requires p < |ops|
    ensures p !in DeliveredIn(ops, p, turn, key)
    ensures DeliveredIn(ops, p + 1, turn, key)
         == if DeliveryAt(ops, p) && Turn(ops, p) == turn && KeyAt(ops, p) == key
            then DeliveredIn(ops, p, turn, key) + {p as int} else DeliveredIn(ops, p, turn, key)
  {
  }

  lemma EmitTracks(ops: seq<Op>, pair: map<int, int>, p: nat, b: Book, key: string)
    requires Paired(ops, pair) && p < |ops| && ops[p].Emit?
    requires Tracks(ops, pair, p, b, key)
    ensures Tracks(ops, pair, p + 1, Emitted(b, ops[p].e), key)
  {
    hide Paired, DeliveredIn, Claimed, Awaiting, Turn, Normalize, Copies, Window, Emitted;
    QuietStep(ops, pair, p, key);
    TurnStep(ops, p);
    var turn, e := Turn(ops, p) as int, ops[p].e;
    DeliveredStep(ops, p, turn, key);
    DeliveredStep(ops, p, turn - 1, key);
    EmitWindow(b, e, key, DeliveredIn(ops, p, turn, key), DeliveredIn(ops, p, turn - 1, key),
               Claimed(ops, pair, p), Awaiting(ops, pair, p, key), p, if CopyAt(ops, p) then pair[p] else 0);
  }

  lemma BeginTracks(ops: seq<Op>, pair: map<int, int>, p: nat, b: Book, key: string)
    requires Paired(ops, pair) && p < |ops| && ops[p].BeginTurn?
    requires Tracks(ops, pair, p, b, key)
    ensures Tracks(ops, pair, p + 1, Begun(b), key)
  {
    hide Paired, NoConsecutiveRepeat, DeliveredIn, Claimed, Awaiting, Turn, Normalize, Copies;
    QuietStep(ops, pair, p, key);
    TurnStep(ops, p);
    var turn := Turn(ops, p) as int;
    DeliveredStep(ops, p, turn, key);
    DeliveredStep(ops, p, turn + 1, key);
    NoFutureTurn(ops, p, key);
    assert {} - Claimed(ops, pair, p) == {};
  }

  /** A flush claims exactly the deliveries whose copies were waiting. */
  lemma FlushClaims(ops: seq<Op>, pair: map<int, int>, p: nat, key: string)
    requires Paired(ops, pair) && p < |ops| && ops[p].Flush?
    ensures Awaiting(ops, pair, p + 1, key) == {}
    ensures Awaiting(ops, pair, p, key) !! Claimed(ops, pair, p)
    ensures var claimed' := Claimed(ops, pair, p + 1);
            forall d | d in claimed' :: d in Claimed(ops, pair, p) || d < p
    ensures forall d | DeliveryAt(ops, d) && KeyAt(ops, d) == key ::
              d in Claimed(ops, pair, p + 1) <==> d in Claimed(ops, pair, p) || d in Awaiting(ops, pair, p, key)
  {
    forall c {
      PendingStep(ops, c, p);
    }
    forall d | d in Claimed(ops, pair, p + 1) && d !in Claimed(ops, pair, p)
      ensures d < p
      ensures DeliveryAt(ops, d) && KeyAt(ops, d) == key ==> d in Awaiting(ops, pair, p, key)
    {
      var c :| 0 <= c < p + 1 && CopyAt(ops, c) && c in pair && !PendingAt(ops, c, p + 1) && d == pair[c];
      assert PendingAt(ops, c, p);
    }
    forall d | d in Claimed(ops, pair, p) || d in Awaiting(ops, pair, p, key)
      ensures d in Claimed(ops, pair, p + 1)
    {
      var c :| 0 <= c < p && CopyAt(ops, c) && c in pair && d == pair[c]
            && (!PendingAt(ops, c, p) || (PendingAt(ops, c, p) && KeyAt(ops, c) == key));
      assert !PendingAt(ops, c, p + 1);
    }
  }

  lemma FlushDrops(ops: seq<Op>, pair: map<int, int>, p: nat, turn: int, key: string)
    requires Paired(ops, pair) && p < |ops| && ops[p].Flush?
    ensures DeliveredIn(ops, p, turn, key) - Claimed(ops, pair, p + 1)
         == (DeliveredIn(ops, p, turn, key) - Claimed(ops, pair, p)) - Awaiting(ops, pair, p, key)
  {
    hide Paired, Claimed, Awaiting;
    FlushClaims(ops, pair, p, key);
  }

  lemma ClaimedStaysBelow(ops: seq<Op>, pair: map<int, int>, p: nat)
    requires Paired(ops, pair) && p < |ops| && ops[p].Flush?
    requires AllBelow(Claimed(ops, pair, p), p)
    ensures AllBelow(Claimed(ops, pair, p + 1), p + 1)
  {
    hide Paired, Claimed;
    var claimed' := Claimed(ops, pair, p + 1);
    forall d | d in claimed'
      ensures d < p + 1
    {
      FlushClaims(ops, pair, p, KeyAt(ops, d));
    }
  }

  /** The waiting deliveries of one text all lie in one turn of the window, still unclaimed. */
  lemma WaitingInOneTurn(ops: seq<Op>, pair: map<int, int>, p: nat, key: string)
    requires Paired(ops, pair) && NoConsecutiveRepeat(ops) && p < |ops| && ops[p].Flush?
    ensures var turn := Turn(ops, p) as int;
            var waiting, claimed := Awaiting(ops, pair, p, key), Claimed(ops, pair, p);
            var now, before := DeliveredIn(ops, p, turn, key), DeliveredIn(ops, p, turn - 1, key);
            || (before == {} && waiting <= now - claimed)
            || (now == {} && waiting <= before - claimed)
  {
    FlushClaims(ops, pair, p, key);
    var turn := Turn(ops, p) as int;
    var waiting := Awaiting(ops, pair, p, key);
    var now, before := DeliveredIn(ops, p, turn, key), DeliveredIn(ops, p, turn - 1, key);
    forall d | d in waiting
      ensures d in now || d in before
    {
      var c :| 0 <= c < p && PendingAt(ops, c, p) && c in pair && KeyAt(ops, c) == key && d == pair[c];
    }
    forall d, d' | d in before && d' in now
      ensures false
    {
    }
  }

  lemma FlushTracks(ops: seq<Op>, pair: map<int, int>, p: nat, b: Book, key: string)
    requires Paired(ops, pair) && NoConsecutiveRepeat(ops) && p < |ops| && ops[p].Flush?
    requires Tracks(ops, pair, p, b, key)
    ensures Tracks(ops, pair, p + 1, Flushed(b), key)
    ensures Copies(b.pending, key) <= b.Available(key)
  {
    hide Paired, NoConsecutiveRepeat, DeliveredIn, Claimed, Awaiting, Turn, Normalize, Copies, Window, Flushed;
    FlushClaims(ops, pair, p, key);
    WaitingInOneTurn(ops, pair, p, key);
    ClaimedStaysBelow(ops, pair, p);
    TurnStep(ops, p);
    var turn := Turn(ops, p) as int;
    FlushDrops(ops, pair, p, turn, key);
    FlushDrops(ops, pair, p, turn - 1, key);
    DeliveredStep(ops, p, turn, key);
    DeliveredStep(ops, p, turn - 1, key);
    var waiting, claimed, claimed' := Awaiting(ops, pair, p, key), Claimed(ops, pair, p), Claimed(ops, pair, p + 1);
    var now, before := DeliveredIn(ops, p, turn, key), DeliveredIn(ops, p, turn - 1, key);
    FlushWindow(b, key, now, before, claimed, waiting, claimed');
  }

  ghost predicate TracksAll(ops: seq<Op>, pair: map<int, int>, p: nat, b: Book) {
    forall key: string :: Tracks(ops, pair, p, b, key)
  }

  lemma KeyTracks(ops: seq<Op>, pair: map<int, int>, p: nat, b: Book, key: string)
    requires Paired(ops, pair) && NoConsecutiveRepeat(ops) && p < |ops|
    requires Tracks(ops, pair, p, b, key)
    ensures Tracks(ops, pair, p + 1, Step(b, ops[p]), key)
    ensures ops[p].Flush? ==> Copies(b.pending, key) <= b.Available(key)
  {
    hide Paired, NoConsecutiveRepeat, Tracks;
    match ops[p]
    case Emit(e) => EmitTracks(ops, pair, p, b, key);
    case BeginTurn => BeginTracks(ops, pair, p, b, key);
    case Flush => FlushTracks(ops, pair, p, b, key);
  }

  lemma StepTracks(ops: seq<Op>, pair: map<int, int>, p: nat, b: Book)
    requires Paired(ops, pair) && NoConsecutiveRepeat(ops) && p < |ops|
    requires TracksAll(ops, pair, p, b)
    ensures TracksAll(ops, pair, p + 1, Step(b, ops[p]))
    ensures ops[p].Flush? ==> forall key :: Copies(b.pending, key) <= b.Available(key)
  {
    hide Paired, NoConsecutiveRepeat, Tracks, Step;
    var q, s := p + 1, Step(b, ops[p]);
    forall key: string
      ensures Tracks(ops, pair, q, s, key)
    {
      KeyTracks(ops, pair, p, b, key);
    }
    if ops[p].Flush? {
      forall key
        ensures Copies(b.pending, key) <= b.Available(key)
      {
        KeyTracks(ops, pair, p, b, key);
      }
    }
  }

  lemma StepForwards(b: Book, op: Op)
    requires op.Flush? ==> forall key :: Copies(b.pending, key) <= b.Available(key)
    ensures Step(b, op).sent == b.sent + if op.Emit? && !IsOTelCopy(op.e) then [op.e] else []
  {
    if op.Flush? {
      FlushSurfacesWhenShort(b.pending, b);
      assert Resurfaced([]) == [];
    }
  }

  lemma StartTracks(ops: seq<Op>, pair: map<int, int>)
    ensures TracksAll(ops, pair, 0, EMPTY_BOOK)
  {
    forall key: string
      ensures Tracks(ops, pair, 0, EMPTY_BOOK, key)
    {
      assert DeliveredIn(ops, 0, 0, key) == {} && DeliveredIn(ops, 0, -1, key) == {};
      assert Claimed(ops, pair, 0) == {} && Awaiting(ops, pair, 0, key) == {};
    }
  }

  lemma {:induction false} RunTracks(ops: seq<Op>, pair: map<int, int>, p: nat)
    requires Paired(ops, pair) && NoConsecutiveRepeat(ops) && p <= |ops|
    ensures TracksAll(ops, pair, p, Run(ops[..p]))
    ensures Run(ops[..p]).sent == Forwarded(ops[..p])
  {
    hide Paired, NoConsecutiveRepeat, TracksAll, Step;
    if p > 0 {
      var q := p - 1;
      RunTracks(ops, pair, q);
      var b := Run(ops[..q]);
      assert ops[..p][..q] == ops[..q] && ops[..p][q] == ops[q];
      StepTracks(ops, pair, q, b);
      StepForwards(b, ops[q]);
    } else {
      assert ops[..0] == [];
      StartTracks(ops, pair);
    }
  }

  /** No text has more pending copies than unconsumed deliveries. */
  ghost predicate NoneShort(b: Book) {
    forall key :: Copies(b.pending, key) <= b.Available(key)
  }

  ghost predicate NoFlushShort(ops: seq<Op>) {
    forall f | 0 <= f < |ops| && ops[f].Flush? :: NoneShort(Run(ops[..f]))
  }

  lemma NoFlushShortSnoc(ops: seq<Op>)
    requires ops != []
    ensures
      var n := |ops| - 1;
      NoFlushShort(ops) <==> NoFlushShort(ops[..n]) && (ops[n].Flush? ==> NoneShort(Run(ops[..n])))
  {
    hide NoneShort, Run;
    var n := |ops| - 1;
    assert forall f | 0 <= f <= n :: ops[..n][..f] == ops[..f];
    assert forall f | 0 <= f < n :: ops[..n][f] == ops[f];
    assert ops[..n][..n] == ops[..n];
  }

  /**
   In any run what goes out is exactly what stream-json delivered, once and in order,
   if and only if at every flush no text has more pending copies than deliveries.
   */
  lemma {:induction false} RenderedOnceIff(ops: seq<Op>)
    ensures Run(ops).sent == Forwarded(ops) <==> NoFlushShort(ops)
    ensures |Run(ops).sent| >= |Forwarded(ops)|
    ensures |Run(ops).sent| == |Forwarded(ops)| ==> NoFlushShort(ops)
  {
    hide NoFlushShort, Emitted;
    if ops == [] {
      NothingFlushed(ops);
    } else {
      var n := |ops| - 1;
      var b := Run(ops[..n]);
      RenderedOnceIff(ops[..n]);
      NoFlushShortSnoc(ops);
      StepSends(b, ops[n]);
    }
  }

  lemma NothingFlushed(ops: seq<Op>)
    requires ops == []
    ensures NoFlushShort(ops)
  {
  }

  lemma StepSends(b: Book, op: Op)
    ensures
      var own := if op.Emit? && !IsOTelCopy(op.e) then [op.e] else [];
      var sent := Step(b, op).sent;
      && |sent| >= |b.sent| + |own|
      && (!op.Flush? || NoneShort(b) ==> sent == b.sent + own)
      && (op.Flush? && !NoneShort(b) ==> |sent| > |b.sent|)
  {
    if op.Flush? {
      FlushSurfacesWhenShort(b.pending, b);
      assert Resurfaced([]) == [];
    }
  }

  /** The healthy path never renders a segment twice: out goes what stream-json delivered, once, in order. */
  lemma NothingIsRenderedTwice(ops: seq<Op>, pair: map<int, int>)
    requires Paired(ops, pair) && NoConsecutiveRepeat(ops)
    ensures Run(ops).sent == Forwarded(ops)
  {
    RunTracks(ops, pair, |ops|);
    assert ops[..|ops|] == ops;
  }

  // ------------------------------------------------------------------
  // The repeat assumption is needed

  function Delivery(text: string): Event {
    Segment(0, text, false, "", false)
  }

  function LateCopy(text: string): Event {
    Segment(0, text, true, CONVERSATION_QUERY_SOURCE, false)
  }

  /**
   Two consecutive turns deliver the same text and both copies are late. The
   first copy consumes the second turn's count, because a flush looks at the
   current turn first; the second copy then finds nothing and is surfaced.
   */
  function LateTwins(text: string): seq<Op> {
    [ BeginTurn, Op.Emit(Delivery(text)), Flush,
      BeginTurn, Op.Emit(Delivery(text)), Op.Emit(LateCopy(text)), Flush,
      BeginTurn, Op.Emit(LateCopy(text)), Flush ]
  }

  /** The books before and after each step of a run determine its outcome. */
  lemma {:induction false} RunIs(ops: seq<Op>, books: seq<Book>)
    requires |books| == |ops| + 1 && books[0] == EMPTY_BOOK
    requires forall i | 0 <= i < |ops| :: books[i + 1] == Step(books[i], ops[i])
    ensures Run(ops) == books[|ops|]
  {
    hide Step;
    if ops != [] {
      RunIs(ops[..|ops| - 1], books[..|ops|]);
    }
  }

  lemma FlushEmptyBuffer(b: Book)
    requires b.pending == []
    ensures Flushed(b) == b
  {
    assert Undelivered([], b) == [] && Resurfaced([]) == [];
    assert ConsumedNow(b, []) == b.delivered && ConsumedBefore(b, []) == b.before;
  }

  lemma CopiesOfOne(text: string, k: string)
    ensures Copies([LateCopy(text)], k) == if k == Normalize(text) then 1 else 0
  {
    assert [LateCopy(text)][..0] == [];
  }

  lemma FlushMatchesOne(b: Book, text: string)
    requires b.pending == [LateCopy(text)] && Get(b.delivered, Normalize(text)) > 0
    ensures var key := Normalize(text);
            Flushed(b) == b.(delivered := b.delivered[key := b.delivered[key] - 1], pending := [])
  {
    forall k {
      CopiesOfOne(text, k);
    }
    assert b.pending[..0] == [];
    assert Undelivered(b.pending, b) == [] && Resurfaced([]) == [];
    assert ConsumedBefore(b, b.pending) == b.before;
  }

  lemma FlushSurfacesOne(b: Book, text: string)
    requires b.pending == [LateCopy(text)] && b.delivered == map[] && b.Available(Normalize(text)) == 0
    ensures Flushed(b) == b.(pending := [], sent := b.sent + [Segment(0, text, true, "", true)])
  {
    hide Normalize;
    var copies, key := b.pending, Normalize(text);
    forall k ensures Copies(copies, k) == if k == key then 1 else 0 {
      CopiesOfOne(text, k);
    }
    assert Undelivered(copies, b) == [text] by {
      assert copies[..0] == [] && Copies([], key) == 0;
    }
    assert Resurfaced([text]) == [Segment(0, text, true, "", true)] by {
      assert [text][..0] == [];
    }
    assert ConsumedNow(b, copies) == map[];
    assert ConsumedBefore(b, copies) == b.before;
  }

  /** The books of the run, step by step. */
  function LateTwinsBooks(text: string): seq<Book> {
    var key, d, late := Normalize(text), Delivery(text), LateCopy(text);
    [ EMPTY_BOOK, EMPTY_BOOK,
      Book(map[key := 1], map[], [], [d]),
      Book(map[key := 1], map[], [], [d]),
      Book(map[], map[key := 1], [], [d]),
      Book(map[key := 1], map[key := 1], [], [d, d]),
      Book(map[key := 1], map[key := 1], [late], [d, d]),
      Book(map[key := 0], map[key := 1], [], [d, d]),
      Book(map[], map[key := 0], [], [d, d]),
      Book(map[], map[key := 0], [late], [d, d]),
      Book(map[], map[key := 0], [], [d, d, Segment(0, text, true, "", true)]) ]
  }

  lemma LateTwinsStep(text: string, i: nat)
    requires i < 10
    ensures LateTwinsBooks(text)[i + 1] == Step(LateTwinsBooks(text)[i], LateTwins(text)[i])
  {
    hide Normalize, Flushed;
    var books := LateTwinsBooks(text);
    FlushEmptyBuffer(books[2]);
    FlushMatchesOne(books[6], text);
    FlushSurfacesOne(books[9], text);
  }

  lemma LateTwinsRenderAgain(text: string)
    ensures Run(LateTwins(text)).sent == [Delivery(text), Delivery(text), Segment(0, text, true, "", true)]
  {
    hide Normalize, Step, Run;
    forall i: nat | i < 10
      ensures LateTwinsBooks(text)[i + 1] == Step(LateTwinsBooks(text)[i], LateTwins(text)[i])
    {
      LateTwinsStep(text, i);
    }
    RunIs(LateTwins(text), LateTwinsBooks(text));
  }

  lemma LateTwinsTurns(text: string)
    ensures var ops := LateTwins(text);
            Turn(ops, 1) == 1 && Turn(ops, 4) == 2 && Turn(ops, 6) == 2 && Turn(ops, 9) == 3
  {
    var ops := LateTwins(text);
    assert Turn(ops, 1) == 1;
    assert Turn(ops, 2) == 1 && Turn(ops, 3) == 1 && Turn(ops, 4) == 2;
    assert Turn(ops, 5) == 2 && Turn(ops, 6) == 2 && Turn(ops, 7) == 2 && Turn(ops, 8) == 3;
  }

  lemma LateTwinsPairing(text: string)
    ensures Paired(LateTwins(text), map[5 := 1, 8 := 4])
  {
    var ops, pair := LateTwins(text), map[5 := 1, 8 := 4];
    LateTwinsTurns(text);
    forall c, f | 0 <= f < |ops| && ops[f].Flush? && PendingAt(ops, c, f)
      ensures (c == 5 && f == 6) || (c == 8 && f == 9)
    {
      assert ops[6].Flush?;
    }
  }

  /**
   Every assumption but the one on repeats holds of this run, whatever the text,
   and it renders the answer a third time.
   */
  lemma RepeatAssumptionIsNeeded(text: string)
    ensures Paired(LateTwins(text), map[5 := 1, 8 := 4])
    ensures !NoConsecutiveRepeat(LateTwins(text))
    ensures Run(LateTwins(text)).sent == [Delivery(text), Delivery(text), Segment(0, text, true, "", true)]
  {
    LateTwinsPairing(text);
    LateTwinsTurns(text);
    LateTwinsRenderAgain(text);
    assert DeliveryAt(LateTwins(text), 1) && DeliveryAt(LateTwins(text), 4);
  }
}
