/**
  The bridge under concurrent calls. An emit first takes the lock to buffer the event and then
  sends it unlocked; a subscribe first opens its receiver and then takes the lock, and the
  first one drains the buffer send by send while it holds the lock. Other sends may fall
  between any two of these steps. Events are identified by the order of their first step.
*/
module ReplayRaces {
  import opened Wrappers
  import opened ReplayBridge

  datatype Delivery = Delivery(event: nat, replayed: bool)

  /** `taps` holds where each receiver started; `inFlight` the events not yet sent;
      `evicted` those pushed out of the buffer before it was drained. */
  datatype Races = Races(first: bool, buffer: seq<nat>, sent: seq<Delivery>, emitted: nat,
                         inFlight: set<nat>, evicted: set<nat>, taps: seq<nat>,
                         waiting: set<nat>, drainer: Option<nat>, draining: bool)

  const QUIET := Races(true, [], [], 0, {}, {}, [], {}, None, false)

  datatype Step = BufferEvent | SendEvent(e: nat) | Tap | TakeLock(r: nat) | DrainOne | Unlock

  predicate Enabled(b: Races, st: Step) {
    match st
    case BufferEvent => !b.draining
    case SendEvent(e) => e in b.inFlight
    case Tap => true
    case TakeLock(r) => !b.draining && r in b.waiting
    case DrainOne => b.draining && b.buffer != []
    case Unlock => b.draining && b.buffer == []
  }

  function Next(b: Races, st: Step): Races
    requires Enabled(b, st)
  {
    match st
    case BufferEvent =>
      var full := |b.buffer| >= PENDING_CAPACITY;
      b.(emitted := b.emitted + 1, inFlight := b.inFlight + {b.emitted},
         buffer := if b.first then Buffered(b.buffer, b.emitted) else b.buffer,
         evicted := if b.first && full then b.evicted + {b.buffer[0]} else b.evicted)
    case SendEvent(e) =>
      b.(sent := b.sent + [Delivery(e, false)], inFlight := b.inFlight - {e})
    case Tap => b.(taps := b.taps + [|b.sent|], waiting := b.waiting + {|b.taps|})
    case TakeLock(r) =>
      var c := b.(waiting := b.waiting - {r});
      if b.first then c.(first := false, drainer := Some(r), draining := true) else c
    case DrainOne =>
      b.(sent := b.sent + [Delivery(b.buffer[0], true)], buffer := b.buffer[1..])
    case Unlock => b.(draining := false)
  }

  predicate Run(b: Races, steps: seq<Step>, c: Races)
    decreases |steps|
  {
    if steps == [] then c == b
    else Enabled(b, steps[0]) && Run(Next(b, steps[0]), steps[1..], c)
  }

  /* ---- What every step keeps ---- */

  predicate Ordered(buffer: seq<nat>, bound: nat) {
    && |buffer| <= PENDING_CAPACITY
    && (forall i, j :: 0 <= i < j < |buffer| ==> buffer[i] < buffer[j])
    && (forall i :: 0 <= i < |buffer| ==> buffer[i] < bound)
  }

  predicate Bounded(b: Races) {
    && Ordered(b.buffer, b.emitted)
    && (forall e <- b.inFlight :: e < b.emitted)
    && (forall r <- b.waiting :: r < |b.taps|)
    && (forall k :: 0 <= k < |b.taps| ==> b.taps[k] <= |b.sent|)
    && (b.first <==> b.drainer.None?)
    && (b.drainer.Some? ==> b.drainer.value < |b.taps|)
    && (b.first ==> !b.draining)
    && (!b.first && !b.draining ==> b.buffer == [])
  }

  /** No delivery is made twice: an event is sent once, and replayed once. */
  ghost predicate SentOnce(b: Races) {
    && (forall i, j :: 0 <= i < j < |b.sent| ==> b.sent[i] != b.sent[j])
    && (forall i :: 0 <= i < |b.sent| ==> Accounted(b, b.sent[i]))
  }

  predicate Accounted(b: Races, d: Delivery) {
    && d.event < b.emitted
    && (!d.replayed ==> d.event !in b.inFlight)
    && (d.replayed ==> !b.first && d.event !in b.buffer)
  }

  /** Where the receiver of the subscriber that drained the buffer starts. */
  function Start(b: Races): nat
    requires Bounded(b) && !b.first
  {
    b.taps[b.drainer.value]
  }

  predicate Receives(b: Races, d: Delivery)
    requires Bounded(b)
  {
    !b.first && d in b.sent[Start(b)..]
  }

  /** Every event is still buffered, was evicted, or is or will be among what the draining
      subscriber receives. */
  ghost predicate Covered(b: Races)
    requires Bounded(b)
  {
    forall e: nat :: e < b.emitted ==> Reached(b, e)
  }

  lemma BufferingKeepsOrder(b: Races)
    requires Ordered(b.buffer, b.emitted)
    ensures Ordered(Buffered(b.buffer, b.emitted), b.emitted + 1)
    ensures Ordered(b.buffer, b.emitted + 1)
  {
  }

  lemma RestKeepsOrder(b: Races)
    requires Ordered(b.buffer, b.emitted) && b.buffer != []
    ensures Ordered(b.buffer[1..], b.emitted)
  {
  }

  lemma BoundedKept(b: Races, st: Step)
    requires Bounded(b) && Enabled(b, st)
    ensures Bounded(Next(b, st))
  {
    hide Ordered, Buffered;
    match st
    case BufferEvent => BufferingKeepsOrder(b);
    case SendEvent(_) =>
    case Tap =>
    case TakeLock(_) =>
    case DrainOne => RestKeepsOrder(b);
    case Unlock =>
  }

  lemma AccountedStays(b: Races, st: Step, d: Delivery)
    requires Bounded(b) && Enabled(b, st) && Accounted(b, d)
    ensures Accounted(Next(b, st), d)
  {
  }

  lemma NewDelivery(b: Races, st: Step)
    requires Bounded(b) && SentOnce(b) && Enabled(b, st) && (st.SendEvent? || st.DrainOne?)
    ensures var d := if st.SendEvent? then Delivery(st.e, false) else Delivery(b.buffer[0], true);
      d !in b.sent && Next(b, st).sent == b.sent + [d] && Accounted(Next(b, st), d)
  {
  }

  lemma SentOnceKept(b: Races, st: Step)
    requires Bounded(b) && SentOnce(b) && Enabled(b, st)
    ensures SentOnce(Next(b, st))
  {
    hide Accounted, Bounded;
    if st.SendEvent? || st.DrainOne? {
      NewDelivery(b, st);
    }
    forall i | 0 <= i < |b.sent| ensures Accounted(Next(b, st), b.sent[i]) {
      AccountedStays(b, st, b.sent[i]);
    }
  }

  lemma ReceiverKeeps(b: Races, st: Step, d: Delivery)
    requires Bounded(b) && Enabled(b, st) && Bounded(Next(b, st)) && Receives(b, d)
    ensures Receives(Next(b, st), d)
  {
    var c := Next(b, st);
    assert Start(c) == Start(b) && c.sent[Start(b)..] == b.sent[Start(b)..] + c.sent[|b.sent|..];
  }

  lemma NewestIsReceived(b: Races, d: Delivery)
    requires Bounded(b) && !b.first && b.sent != [] && d == b.sent[|b.sent| - 1]
    requires Start(b) < |b.sent|
    ensures Receives(b, d)
  {
    assert b.sent[Start(b)..][|b.sent| - 1 - Start(b)] == d;
  }

  predicate Reached(b: Races, e: nat)
    requires Bounded(b)
  {
    || e in b.buffer || e in b.evicted || Receives(b, Delivery(e, true))
    || (!b.first && (e in b.inFlight || Receives(b, Delivery(e, false))))
  }

  lemma ReachedStays(b: Races, st: Step, e: nat)
    requires Bounded(b) && Enabled(b, st) && Bounded(Next(b, st)) && Reached(b, e)
    ensures Reached(Next(b, st), e)
  {
    var c := Next(b, st);
    if !b.first && Receives(b, Delivery(e, true)) {
      ReceiverKeeps(b, st, Delivery(e, true));
    } else if !b.first && Receives(b, Delivery(e, false)) {
      ReceiverKeeps(b, st, Delivery(e, false));
    } else if e in b.buffer {
      StaysBuffered(b, st, e);
    } else if e !in b.evicted && st == SendEvent(e) {
      NewestIsReceived(c, Delivery(e, false));
    }
  }

  lemma StaysBuffered(b: Races, st: Step, e: nat)
    requires Bounded(b) && Enabled(b, st) && Bounded(Next(b, st)) && e in b.buffer
    ensures Reached(Next(b, st), e)
  {
    var c := Next(b, st);
    var i :| 0 <= i < |b.buffer| && b.buffer[i] == e;
    match st
    case BufferEvent =>
      if i > 0 {
        assert b.buffer[1..][i - 1] == e;
      }
    case DrainOne =>
      if i > 0 {
        assert b.buffer[1..][i - 1] == e;
      } else {
        NewestIsReceived(c, Delivery(e, true));
      }
    case _ =>
  }

  lemma NewEventReached(b: Races)
    requires Bounded(b) && Enabled(b, BufferEvent) && Bounded(Next(b, BufferEvent))
    ensures Reached(Next(b, BufferEvent), b.emitted)
  {
  }

  lemma CoveredKept(b: Races, st: Step)
    requires Bounded(b) && Covered(b) && Enabled(b, st) && Bounded(Next(b, st))
    ensures Covered(Next(b, st))
  {
    hide Bounded, Receives;
    var c := Next(b, st);
    forall e: nat | e < c.emitted ensures Reached(c, e) {
      if e < b.emitted {
        ReachedStays(b, st, e);
      } else {
        NewEventReached(b);
      }
    }
  }

  /** An event is pushed out only by 256 later ones. */
  ghost predicate EvictedLate(b: Races) {
    forall e <- b.evicted :: e + PENDING_CAPACITY < b.emitted
  }

  lemma {:induction false} IncreasingSpreads(q: seq<nat>, k: nat)
    requires k < |q| && forall i, j :: 0 <= i < j < |q| ==> q[i] < q[j]
    ensures q[0] + k <= q[k]
  {
    if k > 0 {
      IncreasingSpreads(q, k - 1);
    }
  }

  lemma EvictedLateKept(b: Races, st: Step)
    requires Bounded(b) && EvictedLate(b) && Enabled(b, st)
    ensures EvictedLate(Next(b, st))
  {
    if st.BufferEvent? && |b.buffer| >= PENDING_CAPACITY {
      IncreasingSpreads(b.buffer, PENDING_CAPACITY - 1);
    }
  }

  lemma {:induction false} KeptAlong(b: Races, steps: seq<Step>, c: Races)
    requires Bounded(b) && SentOnce(b) && Covered(b) && EvictedLate(b) && Run(b, steps, c)
    ensures Bounded(c) && SentOnce(c) && Covered(c) && EvictedLate(c)
    decreases |steps|
  {
    hide Bounded, SentOnce, Covered, EvictedLate, Enabled, Next;
    if steps != [] {
      BoundedKept(b, steps[0]);
      SentOnceKept(b, steps[0]);
      CoveredKept(b, steps[0]);
      EvictedLateKept(b, steps[0]);
      KeptAlong(Next(b, steps[0]), steps[1..], c);
    }
  }

  /* ---- Nothing is lost ---- */

  /** How often event `e` occurs among deliveries. */
  function Copies(s: seq<Delivery>, e: nat): nat {
    multiset(s)[Delivery(e, false)] + multiset(s)[Delivery(e, true)]
  }

  lemma {:induction false} DistinctOccursOnce(s: seq<Delivery>, d: Delivery)
    requires forall i, j :: 0 <= i < j < |s| ==> s[i] != s[j]
    ensures multiset(s)[d] <= 1
  {
    if s != [] {
      var n := |s| - 1;
      DistinctOccursOnce(s[..n], d);
      assert s == s[..n] + [s[n]];
      if s[n] == d {
        assert d !in s[..n];
        assert d !in multiset(s[..n]);
      }
    }
  }

  predicate HasDrained(b: Races, r: nat) {
    b.drainer == Some(r) && !b.draining
  }

  /** Completed, and not pushed out of the buffer. */
  predicate IsDue(b: Races, e: nat) {
    e < b.emitted && e !in b.inFlight && e !in b.evicted
  }

  /** The 256 newest events are never missing. */
  lemma NewestAreDue(steps: seq<Step>, b: Races, e: nat)
    requires Run(QUIET, steps, b) && e < b.emitted <= e + 256
    ensures IsDue(b, e) <==> e !in b.inFlight
  {
    hide Run;
    KeptAlong(QUIET, steps, b);
  }

  /** Whatever interleaves, every receiver gets every event at most twice, and the subscriber
      that drained the buffer gets each completed event that was not evicted at least once. */
  lemma ReplayLosesNothing(steps: seq<Step>, b: Races, r: nat, e: nat)
    requires Run(QUIET, steps, b) && r < |b.taps|
    ensures b.taps[r] <= |b.sent| && Copies(b.sent[b.taps[r]..], e) <= 2
    ensures HasDrained(b, r) && IsDue(b, e) ==> 1 <= Copies(b.sent[b.taps[r]..], e)
  {
    KeptAlong(QUIET, steps, b);
    hide Run;
    var received := b.sent[b.taps[r]..];
    DistinctOccursOnce(received, Delivery(e, false));
    DistinctOccursOnce(received, Delivery(e, true));
    if HasDrained(b, r) && IsDue(b, e) {
      assert Reached(b, e);
      assert Delivery(e, true) in multiset(received) || Delivery(e, false) in multiset(received);
    }
  }

  /* ---- Calls that do not overlap ---- */

  function EventsOf(s: seq<Delivery>): seq<nat> {
    seq(|s|, i requires 0 <= i < |s| => s[i].event)
  }

  /** The bridge as the calls see it that do not overlap. */
  function Alone(b: Races): Bridge<nat> {
    Bridge(b.first, b.buffer, EventsOf(b.sent))
  }

  /** An emit that nothing interrupts is one emit of the sequential bridge. */
  lemma EmitAlone(b: Races)
    requires !b.draining
    ensures var x := Next(b, BufferEvent);
      && x.emitted == b.emitted + 1 && b.emitted in x.inFlight && x.taps == b.taps
      && var z := Next(x, SendEvent(b.emitted));
         && Alone(z) == Emitted(Alone(b), b.emitted)
         && z.taps == b.taps && z.emitted == b.emitted + 1 && z.waiting == b.waiting
         && z.drainer == b.drainer && z.draining == b.draining
         && z.inFlight == b.inFlight - {b.emitted}
         && z.evicted == (if b.first && |b.buffer| >= 256 then b.evicted + {b.buffer[0]} else b.evicted)
  {
    assert EventsOf(b.sent + [Delivery(b.emitted, false)]) == EventsOf(b.sent) + [b.emitted];
  }

  lemma {:induction false} DrainAlone(b: Races) returns (steps: seq<Step>, z: Races)
    requires b.draining
    ensures Run(b, steps, z) && Alone(z) == Bridge(b.first, [], EventsOf(b.sent) + b.buffer)
    ensures z.taps == b.taps && z.emitted == b.emitted && z.waiting == b.waiting && !z.draining
    ensures z.drainer == b.drainer && z.inFlight == b.inFlight && z.evicted == b.evicted
    decreases |b.buffer|
  {
    if b.buffer == [] {
      z := Next(b, Unlock);
      steps := [Unlock];
      assert steps[1..] == [] && Run(z, [], z);
    } else {
      var x := Next(b, DrainOne);
      assert EventsOf(x.sent) == EventsOf(b.sent) + [b.buffer[0]];
      var rest;
      rest, z := DrainAlone(x);
      steps := [DrainOne] + rest;
      assert steps[1..] == rest;
    }
  }

  /** A subscribe that nothing interrupts is one of the sequential bridge, and its receiver
      starts behind what was sent before it. */
  lemma SubscribeAlone(b: Races) returns (steps: seq<Step>, z: Races)
    requires !b.draining && |b.taps| !in b.waiting
    ensures Run(b, steps, z) && Alone(z) == Subscribed(Alone(b))
    ensures z.taps == b.taps + [|b.sent|] && z.emitted == b.emitted && z.waiting == b.waiting
    ensures z.drainer == (if b.first then Some(|b.taps|) else b.drainer) && !z.draining
    ensures z.inFlight == b.inFlight && z.evicted == b.evicted
  {
    var r := |b.taps|;
    var x := Next(b, Tap);
    var y := Next(x, TakeLock(r));
    assert y.waiting == b.waiting && y.sent == b.sent && y.buffer == b.buffer;
    if b.first {
      var rest;
      rest, z := DrainAlone(y);
      steps := [Tap, TakeLock(r)] + rest;
      assert steps[1..] == [TakeLock(r)] + rest && steps[1..][1..] == rest;
    } else {
      z := y;
      steps := [Tap, TakeLock(r)];
      assert steps[1..] == [TakeLock(r)] && steps[1..][1..] == [] && Run(z, [], z);
    }
  }
}
