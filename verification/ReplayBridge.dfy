/**
  The bridge to the browser: a bounded buffer of events emitted before the first subscriber,
  replayed into the broadcast channel. A receiver gets what is sent after it subscribed; the
  lagging of slow receivers is not modelled.
*/
module ReplayBridge {

  const PENDING_CAPACITY: nat := 256
  /** The channel capacity that the application asks for. */
  const CHANNEL_CAPACITY: nat := 256

  /* ---- The bridge, one call after the other ---- */

  datatype Bridge<E> = Bridge(first: bool, pending: seq<E>, sent: seq<E>)

  function Buffered<E>(pending: seq<E>, e: E): seq<E> {
    (if |pending| >= PENDING_CAPACITY then pending[1..] else pending) + [e]
  }

  function Emitted<E>(b: Bridge<E>, e: E): Bridge<E> {
    Bridge(b.first, if b.first then Buffered(b.pending, e) else b.pending, b.sent + [e])
  }

  function Subscribed<E>(b: Bridge<E>): Bridge<E> {
    if b.first then Bridge(false, [], b.sent + b.pending) else b
  }

  class WebUiBridge<E> {
    var firstSubscriber: bool
    var events: seq<E>
    var sent: seq<E>

    ghost function Value(): Bridge<E>
      reads this
    {
      Bridge(firstSubscriber, events, sent)
    }

    constructor ()
      ensures Value() == Bridge(true, [], [])
    {
      firstSubscriber, events, sent := true, [], [];
    }

    method Send(e: E)
      modifies this`sent
      ensures sent == old(sent) + [e]
    {
      sent := sent + [e];
    }

    method EmitEvent(e: E)
      modifies this
      ensures sent == old(sent) + [e] && firstSubscriber == old(firstSubscriber)
      ensures events ==
        if !firstSubscriber then old(events)
        else if |old(events)| >= 256 then old(events)[1..] + [e]
        else old(events) + [e]
      ensures Value() == Emitted(old(Value()), e)
    {
      if firstSubscriber {
        if |events| >= PENDING_CAPACITY {
          events := events[1..];
        }
        events := events + [e];
      }
      Send(e);
    }

    /** The receiver is the position in the channel from which it receives. */
    method Subscribe() returns (receiver: nat)
      modifies this
      ensures !firstSubscriber
      ensures sent == old(sent) + if old(firstSubscriber) then old(events) else []
      ensures events == if old(firstSubscriber) then [] else old(events)
      ensures Value() == Subscribed(old(Value()))
      ensures receiver == |old(sent)|
    {
      receiver := |sent|;
      if firstSubscriber {
        firstSubscriber := false;
        while events != []
          invariant !firstSubscriber && sent + events == old(sent) + old(events)
          decreases |events|
        {
          Send(events[0]);
          events := events[1..];
        }
      }
    }
  }

  datatype Call<E> = Emit(e: E) | Subscribe

  function After<E>(b: Bridge<E>, calls: seq<Call<E>>): Bridge<E> {
    if calls == [] then b
    else
      var c := After(b, calls[..|calls| - 1]);
      match calls[|calls| - 1]
      case Emit(e) => Emitted(c, e)
      case Subscribe => Subscribed(c)
  }

  function Events<E>(calls: seq<Call<E>>): seq<E> {
    if calls == [] then []
    else
      Events(calls[..|calls| - 1])
      + match calls[|calls| - 1] case Emit(e) => [e] case Subscribe => []
  }

  function Newest<E>(s: seq<E>, n: nat): seq<E> {
    if |s| > n then s[|s| - n..] else s
  }

  lemma {:induction false} BuffersTheNewest<E>(calls: seq<Call<E>>)
    requires forall c <- calls :: c.Emit?
    ensures var b := After(Bridge(true, [], []), calls);
      var events := Events(calls);
      b.first && b.pending == (if |events| <= 256 then events else events[|events| - 256..])
  {
    if calls != [] {
      var earlier, last := calls[..|calls| - 1], calls[|calls| - 1];
      assert last in calls && forall c <- earlier :: c in calls;
      BuffersTheNewest(earlier);
      hide Newest, Buffered;
      BuffersOneMore(Events(earlier), last.e);
    }
  }

  lemma BuffersOneMore<E>(events: seq<E>, e: E)
    ensures Buffered(Newest(events, PENDING_CAPACITY), e) == Newest(events + [e], PENDING_CAPACITY)
  {
  }

  lemma {:induction false} SendsFromThenOn<E>(b: Bridge<E>, calls: seq<Call<E>>)
    requires !b.first
    ensures var c := After(b, calls); !c.first && c.sent == b.sent + Events(calls)
  {
    if calls != [] {
      SendsFromThenOn(b, calls[..|calls| - 1]);
    }
  }

  /** When calls do not overlap, the first subscriber receives the last 256 events emitted
      before it, once and in order, and then every later one; the replay fits the channel. */
  lemma FirstSubscriberGetsAll<E>(before: seq<Call<E>>, after: seq<Call<E>>)
    requires forall c <- before :: c.Emit?
    ensures var b := After(Bridge(true, [], []), before);
      var end := After(Subscribed(b), after);
      var events := Events(before);
      var replay := if |events| <= 256 then events else events[|events| - 256..];
      && |b.sent| <= |end.sent| && end.sent[|b.sent|..] == replay + Events(after)
      && |replay| <= CHANNEL_CAPACITY == 256
  {
    BuffersTheNewest(before);
    var b := After(Bridge(true, [], []), before);
    SendsFromThenOn(Subscribed(b), after);
    hide After, Events;
    assert (b.sent + b.pending) + Events(after) == b.sent + (b.pending + Events(after));
  }

  /** A later subscriber receives exactly what is emitted after it. */
  lemma LaterSubscriberGetsTheRest<E>(b: Bridge<E>, after: seq<Call<E>>)
    requires !b.first
    ensures var end := After(Subscribed(b), after);
      |b.sent| <= |end.sent| && end.sent[|b.sent|..] == Events(after)
  {
    SendsFromThenOn(b, after);
  }
}
