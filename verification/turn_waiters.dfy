/**
 Turn waiters: channels handed to requests and closed when a turn ends. Closing a
 channel twice panics; a waiter left open hangs its request.
 */
module TurnWaiting {
  /** Channels 0..made-1 have been handed out; `current` is h.turnWaiter. */
  datatype Waiters = Waiters(current: int, made: nat, closes: seq<nat>)

  const NO_WAITER := -1

  predicate Closed(w: Waiters, c: int) {
    c in w.closes
  }

  function CloseCurrent(w: Waiters): Waiters {
    if w.current < 0 then w else w.(closes := w.closes + [w.current])
  }

  function Registered(w: Waiters): Waiters {
    var v := CloseCurrent(w);
    Waiters(v.made, v.made + 1, v.closes)
  }

  function Signalled(w: Waiters): Waiters {
    CloseCurrent(w).(current := NO_WAITER)
  }

  ghost predicate ClosedOnce(closes: seq<nat>) {
    forall i, j | 0 <= i < j < |closes| :: closes[i] != closes[j]
  }

  /** A handed-out channel is open exactly when it is the current one, and none was closed twice. */
  ghost predicate Sound(w: Waiters) {
    && NO_WAITER <= w.current < w.made
    && ClosedOnce(w.closes)
    && (forall c | c in w.closes :: c < w.made)
    && (forall c | 0 <= c < w.made :: Closed(w, c) <==> c != w.current)
  }

  /** Everything closed stays closed and everything handed out stays handed out. */
  ghost predicate Later(w: Waiters, v: Waiters) {
    w.made <= v.made && w.closes <= v.closes
  }

  lemma CloseCurrentClosesAll(w: Waiters)
    requires Sound(w)
    ensures
      var v := CloseCurrent(w);
      && ClosedOnce(v.closes)
      && w.closes <= v.closes
      && (forall c | c in v.closes :: c < w.made)
      && forall c | 0 <= c < w.made :: Closed(v, c)
  {
    var v := CloseCurrent(w);
    if w.current != NO_WAITER {
      assert !Closed(w, w.current);
      assert v.closes[|w.closes|] == w.current;
    }
    forall c | 0 <= c < w.made
      ensures Closed(v, c)
    {
      assert Closed(w, c) <==> c != w.current;
      if c != w.current {
        var i :| 0 <= i < |w.closes| && w.closes[i] == c;
        assert v.closes[i] == c;
      }
    }
  }

  lemma RegisterIsSound(w: Waiters)
    requires Sound(w)
    ensures Sound(Registered(w)) && Later(w, Registered(w))
    ensures forall c | 0 <= c < w.made :: Closed(Registered(w), c)
    ensures !Closed(Registered(w), w.made)
  {
    CloseCurrentClosesAll(w);
    assert forall c :: Closed(CloseCurrent(w), c) <==> Closed(Registered(w), c);
  }

  lemma SignalIsSound(w: Waiters)
    requires Sound(w)
    ensures Sound(Signalled(w)) && Later(w, Signalled(w))
    ensures forall c | 0 <= c < w.made :: Closed(Signalled(w), c)
  {
    CloseCurrentClosesAll(w);
    assert forall c :: Closed(CloseCurrent(w), c) <==> Closed(Signalled(w), c);
  }

  class Channel {
    var closed: bool

    constructor ()
      ensures !closed
    {
      closed := false;
    }

    /** Closing a closed channel panics. */
    method Close()
      requires !closed
      modifies this
      ensures closed
    {
      closed := true;
    }
  }

  /** h.turnWaiter, with the lock around each method. */
  class TurnWaiters {
    var turnWaiter: Channel?
    ghost var handed: seq<Channel>
    ghost var closes: seq<nat>

    ghost predicate Valid()
      reads this, handed
    {
      && (forall i, j | 0 <= i < j < |handed| :: handed[i] != handed[j])
      && (turnWaiter != null ==> handed != [] && turnWaiter == handed[|handed| - 1])
      && Sound(Abstract())
      && forall i | 0 <= i < |handed| :: handed[i].closed <==> Closed(Abstract(), i)
    }

    ghost function Abstract(): Waiters
      reads this
    {
      Waiters(if turnWaiter == null then NO_WAITER else |handed| - 1, |handed|, closes)
    }

    constructor ()
      ensures Valid() && Abstract() == Waiters(NO_WAITER, 0, [])
    {
      turnWaiter, handed, closes := null, [], [];
    }

    method RegisterTurnWaiter() returns (waiter: Channel)
      requires Valid()
      modifies this, handed
      ensures Valid() && fresh(waiter)
      ensures handed == old(handed) + [waiter] && turnWaiter == waiter
      ensures Abstract() == Registered(old(Abstract()))
      ensures !waiter.closed && forall c | c in old(handed) :: c.closed
    {
      RegisterIsSound(Abstract());
      if turnWaiter != null {
        turnWaiter.Close();
        closes := closes + [|handed| - 1];
      }
      waiter := new Channel();
      turnWaiter := waiter;
      handed := handed + [waiter];
    }

    method SignalTurnEnd()
      requires Valid()
      modifies this, handed
      ensures Valid() && handed == old(handed)
      ensures Abstract() == Signalled(old(Abstract()))
      ensures turnWaiter == null && forall c | c in handed :: c.closed
    {
      SignalIsSound(Abstract());
      if turnWaiter != null {
        turnWaiter.Close();
        closes := closes + [|handed| - 1];
        turnWaiter := null;
      }
    }
  }
}
