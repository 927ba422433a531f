/** The expiration notifier of pkg/storage/local.go as a transition system: any number of Add calls
    and the Monitor goroutine, which share the heap and two channels of capacity one. One event is
    one heap operation (each holds the heap's lock) or one channel operation. */
module ExpirationNotifier {
  import opened Common
  import opened ExpirationHeap

  /** Where an Add call is: it has pushed; it has compared itself with the top; it is past the
      rescan signal; it has compared the length with one. */
  datatype Stage = Added | Compared(first: bool) | Signalled | Counted(one: bool)

  datatype Adder = Adder(entry: Entry, stage: Stage) {
    /** The call may still send on rescanChan. */
    predicate MaySignal() { stage.Added? || stage == Compared(true) }
  }

  /** Where the Monitor goroutine is. */
  datatype Waiter =
    | Looping                                          // WaitAll, before Len
    | Counting                                         // WaitOne, before Len
    | Peeking                                          // WaitOne, before Peek
    | Waiting(e: Entry)                                // in WaitOne's select
    | Popping(e: Entry)                                // the timer or ForceExpiration was chosen
    | Notifying(e: Entry, popped: Option<Entry>)       // about to send on expirationChan
    | Parked                                           // in Monitor's select

  datatype State = State(
    heap: Heap,
    rescan: bool,                  // rescanChan holds a token
    wake: bool,                    // addChan holds a token
    adders: map<nat, Adder>,
    waiter: Waiter,
    notified: seq<(string, Option<Entry>)>)  // each hash sent, with the entry popped for it

  datatype Event =
    | Add(t: nat, e: Entry) | Compare(t: nat) | Signal(t: nat) | Count(t: nat) | Finish(t: nat)
    | CheckAll | CheckOne | Look | Expire | Rescan | PopTop | Notify | Wake

  function At(s: State, t: nat, stage: Stage): State
    requires t in s.adders
  {
    s.(adders := s.adders[t := Adder(s.adders[t].entry, stage)])
  }

  function NextAdder(s: State, ev: Event): Option<State>
    requires ev.Compare? || ev.Signal? || ev.Count? || ev.Finish?
  {
    if ev.t !in s.adders then None else
    match (ev, s.adders[ev.t].stage)
    case (Compare(t), Added) => Some(At(s, t, Compared(s.heap != [] && s.heap[0].hash == s.adders[t].entry.hash)))
    case (Signal(t), Compared(first)) => Some(At(s, t, Signalled).(rescan := s.rescan || first))
    case (Count(t), Signalled) => Some(At(s, t, Counted(|s.heap| == 1)))
    case (Finish(t), Counted(one)) => Some(s.(adders := s.adders - {t}, wake := s.wake || one))
    case _ => None
  }

  function NextWaiter(s: State, ev: Event): Option<State> {
    match (ev, s.waiter)
    case (CheckAll, Looping) => Some(s.(waiter := if |s.heap| > 0 then Counting else Parked))
    case (CheckOne, Counting) => Some(s.(waiter := if |s.heap| == 0 then Looping else Peeking))
    case (Look, Peeking) => Some(s.(waiter := Waiting(if s.heap == [] then Entry("", 0) else s.heap[0])))
    case (Expire, Waiting(e)) => Some(s.(waiter := Popping(e)))
    case (Rescan, Waiting(_)) => if s.rescan then Some(s.(waiter := Counting, rescan := false)) else None
    case (PopTop, Popping(e)) =>
      Some(if s.heap == [] then s.(waiter := Notifying(e, None))
           else s.(waiter := Notifying(e, Some(s.heap[0])), heap := Popped(s.heap)))
    case (Notify, Notifying(e, popped)) => Some(s.(waiter := Looping, notified := s.notified + [(e.hash, popped)]))
    case (Wake, Parked) => if s.wake then Some(s.(waiter := Looping, wake := false)) else None
    case _ => None
  }

  /** The state after an event, or None where it cannot happen. */
  function Next(s: State, ev: Event): Option<State> {
    match ev
    case Add(t, e) =>
      if t in s.adders then None
      else Some(s.(heap := Pushed(s.heap, e), adders := s.adders[t := Adder(e, Added)]))
    case Compare(_) => NextAdder(s, ev)
    case Signal(_) => NextAdder(s, ev)
    case Count(_) => NextAdder(s, ev)
    case Finish(_) => NextAdder(s, ev)
    case _ => NextWaiter(s, ev)
  }

  const INIT: State := State([], false, false, map[], Looping, [])

  function Run(events: seq<Event>): Option<State> {
    if events == [] then Some(INIT) else
    var before := Run(events[..|events| - 1]);
    if before.None? then None else Next(before.value, events[|events| - 1])
  }

  // ------------------------------------------------------------ no lost rescan

  ghost predicate NoneMaySignal(s: State) {
    forall t | t in s.adders :: !s.adders[t].MaySignal()
  }

  /** An Add either finds no other Add that may still signal, or brings a date of its own. */
  ghost predicate Orderly(s: State, ev: Event) {
    ev.Add? ==> NoneMaySignal(s) || forall k | 0 <= k < |s.heap| :: s.heap[k].date != ev.e.date
  }

  ghost predicate OrderlyRun(events: seq<Event>) {
    events != [] ==>
      var front := events[..|events| - 1];
      OrderlyRun(front) && (Run(front).Some? ==> Orderly(Run(front).value, events[|events| - 1]))
  }

  /** x is in the heap once and strictly earlier than everything else in it. */
  ghost predicate Alone(x: Entry, entries: multiset<Entry>) {
    entries[x] == 1 && forall y | y in entries :: y == x || x.date < y.date
  }

  lemma AloneIsTop(s: Heap, x: Entry)
    requires IsHeap(s) && Alone(x, multiset(s))
    ensures s != [] && s[0] == x
  {
    assert x in multiset(s);
    TopIsMinimum(s);
  }

  /** The entry the waiter has picked and not popped. */
  function Picked(w: Waiter): Option<Entry> {
    match w
    case Waiting(e) => Some(e)
    case Popping(e) => Some(e)
    case _ => None
  }

  predicate PickedOk(heap: Heap, w: Waiter) {
    match w
    case Peeking => heap != []
    case Waiting(e) => e in heap
    case Popping(e) => e in heap
    case _ => true
  }

  ghost predicate InHeap(s: State) { IsHeap(s.heap) && PickedOk(s.heap, s.waiter) }

  /** The Add call of entry x may still signal. */
  ghost predicate Announces(s: State, t: nat, x: Entry) {
    t in s.adders && s.adders[t].entry == x && s.adders[t].MaySignal()
  }

  /** A picked entry that is no longer the earliest will be reconsidered: the token is there, or the
      Add call of the earliest entry, which nothing ties with, is yet to send it. */
  ghost predicate Guarded(s: State) {
    Picked(s.waiter).Some? && s.heap != [] && s.heap[0].date < Picked(s.waiter).value.date && !s.rescan
    ==> Alone(s.heap[0], multiset(s.heap)) && exists t :: Announces(s, t, s.heap[0])
  }

  lemma HeapKept(s: State, ev: Event)
    requires IsHeap(s.heap) && Next(s, ev).Some?
    ensures IsHeap(Next(s, ev).value.heap)
  {
    match ev
    case Add(_, e) => PushKeepsHeap(s.heap, e);
    case PopTop => if s.heap != [] { PopKeepsHeap(s.heap); }
    case _ =>
  }

  lemma InHeapKept(s: State, ev: Event)
    requires InHeap(s) && Next(s, ev).Some?
    ensures InHeap(Next(s, ev).value)
  {
    HeapKept(s, ev);
    if ev.Add? { PushKeepsEntries(s.heap, ev.e); }
  }

  lemma PushKeepsEntries(s: Heap, e: Entry)
    ensures Pushed(s, e) != [] && forall x | x in s :: x in Pushed(s, e)
  {
    PushKeepsHeap(s, e);
    forall x | x in s ensures x in Pushed(s, e) {
      assert x in multiset(s) && x in multiset(Pushed(s, e));
    }
  }

  /** A push that ends up with an entry earlier than bound on top, where there was none. */
  lemma NewTopIsAlone(s: Heap, e: Entry, bound: int)
    requires IsHeap(s) && (s == [] || bound <= s[0].date)
    requires Pushed(s, e) != [] && Pushed(s, e)[0].date < bound
    ensures Alone(e, multiset(Pushed(s, e))) && Pushed(s, e)[0] == e
  {
    PushKeepsHeap(s, e);
    if s != [] { TopIsMinimum(s); }
    assert Pushed(s, e)[0] in multiset(Pushed(s, e));
    AloneIsTop(Pushed(s, e), e);
  }

  lemma PushBesideAlone(s: Heap, e: Entry)
    requires IsHeap(s) && s != [] && Alone(s[0], multiset(s))
    requires forall k | 0 <= k < |s| :: s[k].date != e.date
    ensures var h := Pushed(s, e); h != [] && Alone(h[0], multiset(h)) && (h[0] == s[0] || h[0] == e)
  {
    PushKeepsHeap(s, e);
    assert e !in multiset(s);
    assert s[0].date != e.date;
    AloneIsTop(Pushed(s, e), if e.date < s[0].date then e else s[0]);
  }

  lemma GuardedByAdd(s: State, ev: Event)
    requires ev.Add? && InHeap(s) && Guarded(s) && Orderly(s, ev) && Next(s, ev).Some?
    ensures Guarded(Next(s, ev).value)
  {
    var s' := Next(s, ev).value;
    PushKeepsHeap(s.heap, ev.e);
    if Picked(s.waiter).Some? && s'.heap[0].date < Picked(s.waiter).value.date && !s.rescan {
      var bound := Picked(s.waiter).value.date;
      if s.heap == [] || bound <= s.heap[0].date {
        NewTopIsAlone(s.heap, ev.e, bound);
        assert Announces(s', ev.t, ev.e);
      } else {
        var t :| Announces(s, t, s.heap[0]);
        PushBesideAlone(s.heap, ev.e);
        assert Announces(s', t, s.heap[0]) && Announces(s', ev.t, ev.e);
      }
    }
  }

  lemma GuardedByAdder(s: State, ev: Event)
    requires ev.Compare? || ev.Signal? || ev.Count? || ev.Finish?
    requires Guarded(s) && Next(s, ev).Some?
    ensures Guarded(Next(s, ev).value)
  {
    var s' := Next(s, ev).value;
    if Picked(s.waiter).Some? && s.heap != [] && s.heap[0].date < Picked(s.waiter).value.date && !s'.rescan {
      var t :| Announces(s, t, s.heap[0]);
      assert Announces(s', t, s.heap[0]);
    }
  }

  lemma GuardedKept(s: State, ev: Event)
    requires InHeap(s) && Guarded(s) && Orderly(s, ev) && Next(s, ev).Some?
    ensures Guarded(Next(s, ev).value)
  {
    match ev
    case Add(_, _) => GuardedByAdd(s, ev);
    case Compare(_) => GuardedByAdder(s, ev);
    case Signal(_) => GuardedByAdder(s, ev);
    case Count(_) => GuardedByAdder(s, ev);
    case Finish(_) => GuardedByAdder(s, ev);
    case Expire =>
      if s.heap != [] && s.heap[0].date < s.waiter.e.date && !s.rescan {
        var t :| Announces(s, t, s.heap[0]);
        assert Announces(Next(s, ev).value, t, s.heap[0]);
      }
    case _ =>
  }

  lemma {:induction false} OrderlyRunGuards(events: seq<Event>)
    requires Run(events).Some? && OrderlyRun(events)
    ensures InHeap(Run(events).value) && Guarded(Run(events).value)
  {
    if events != [] {
      var front, ev := events[..|events| - 1], events[|events| - 1];
      OrderlyRunGuards(front);
      InHeapKept(Run(front).value, ev);
      GuardedKept(Run(front).value, ev);
    }
  }

  lemma {:induction false} RunStaysInHeap(events: seq<Event>)
    requires Run(events).Some?
    ensures InHeap(Run(events).value)
  {
    if events != [] {
      var front, ev := events[..|events| - 1], events[|events| - 1];
      RunStaysInHeap(front);
      InHeapKept(Run(front).value, ev);
    }
  }

  /** The waiter never waits past the earliest date: while it waits for a later one and no Add may
      still signal, the rescan token is there. */
  lemma RescanNeverLost(events: seq<Event>)
    requires Run(events).Some? && OrderlyRun(events)
    ensures var s := Run(events).value;
            s.waiter.Waiting? && (exists x :: x in multiset(s.heap) && x.date < s.waiter.e.date) && NoneMaySignal(s)
            ==> s.rescan
  {
    var s := Run(events).value;
    OrderlyRunGuards(events);
    if s.heap != [] { TopIsMinimum(s.heap); }
  }

  ghost predicate DistinctDates(s: Heap) {
    forall i, j | 0 <= i < j < |s| :: s[i].date != s[j].date
  }

  ghost predicate NoneEarlier(s: Heap, e: Entry) { forall k | 0 <= k < |s| :: e.date <= s[k].date }

  /** In every run, however Adds overlap: the entry popped after the timer has the date that was
      waited for exactly when nothing in the heap is earlier, and with distinct dates it is then, and
      only then, the entry whose hash is sent. */
  lemma PoppedExactly(events: seq<Event>)
    requires Run(events).Some? && Run(events).value.waiter.Popping?
    ensures var s := Run(events).value; var t := Next(s, PopTop);
            && t.Some? && t.value.waiter.Notifying? && t.value.waiter.e == s.waiter.e && t.value.waiter.popped.Some?
            && (t.value.waiter.popped.value.date == s.waiter.e.date <==> NoneEarlier(s.heap, s.waiter.e))
            && (DistinctDates(s.heap) ==>
                  (t.value.waiter.popped.value == s.waiter.e <==> NoneEarlier(s.heap, s.waiter.e)))
  {
    var s := Run(events).value;
    RunStaysInHeap(events);
    TopIsEarliest(s.heap);
    var k :| 0 <= k < |s.heap| && s.heap[k] == s.waiter.e;
  }

  lemma TopIsEarliest(s: Heap)
    requires IsHeap(s) && s != []
    ensures NoneEarlier(s, s[0])
  {
    TopIsMinimum(s);
    forall k | 0 <= k < |s| ensures s[0].date <= s[k].date { assert s[k] in multiset(s); }
  }

  /** With distinct dates, no token and no Add that may still signal, the entry popped is the one
      whose hash is sent. */
  lemma PoppedIsNotified(events: seq<Event>)
    requires Run(events).Some? && OrderlyRun(events)
    ensures var s := Run(events).value;
            s.waiter.Popping? && !s.rescan && NoneMaySignal(s) && DistinctDates(s.heap)
            ==> Next(s, PopTop).Some? && Next(s, PopTop).value.waiter == Notifying(s.waiter.e, Some(s.waiter.e))
  {
    var s := Run(events).value;
    OrderlyRunGuards(events);
    if s.waiter.Popping? {
      PoppedExactly(events);
      TopIsEarliest(s.heap);
    }
  }

  // -------------------------------------------------------------- no lost wake

  /** An Add starts only when no other is under way. */
  ghost predicate Sequential(s: State, ev: Event) {
    ev.Add? ==> s.adders == map[]
  }

  ghost predicate SequentialRun(events: seq<Event>) {
    events != [] ==>
      var front := events[..|events| - 1];
      SequentialRun(front) && (Run(front).Some? ==> Sequential(Run(front).value, events[|events| - 1]))
  }

  /** The Add call is going to find itself alone in the heap, or has. */
  ghost predicate WillWake(s: State, t: nat) {
    t in s.adders && (if s.adders[t].stage.Counted? then s.adders[t].stage.one else |s.heap| == 1)
  }

  ghost predicate Awake(s: State) {
    && (forall t, u | t in s.adders && u in s.adders :: t == u)
    && (s.waiter.Parked? && s.heap != [] ==> s.wake || exists t :: WillWake(s, t))
  }

  lemma AwakeKept(s: State, ev: Event)
    requires Awake(s) && Sequential(s, ev) && Next(s, ev).Some?
    ensures Awake(Next(s, ev).value)
  {
    var s' := Next(s, ev).value;
    match ev
    case Add(t, e) =>
      PushKeepsHeap(s.heap, e);
      if s.heap == [] { assert WillWake(s', t); }
    case Compare(t) => if WillWake(s, t) { assert WillWake(s', t); }
    case Signal(t) => if WillWake(s, t) { assert WillWake(s', t); }
    case Count(t) => if WillWake(s, t) { assert WillWake(s', t); }
    case _ =>
  }

  /** With sequential Adds the goroutine is never parked on a non-empty heap without a token. */
  lemma {:induction false} WakeNeverLost(events: seq<Event>)
    requires Run(events).Some? && SequentialRun(events)
    ensures Awake(Run(events).value)
    ensures var s := Run(events).value; s.waiter.Parked? && s.heap != [] && s.adders == map[] ==> s.wake
  {
    if events != [] {
      var front, ev := events[..|events| - 1], events[|events| - 1];
      WakeNeverLost(front);
      AwakeKept(Run(front).value, ev);
    }
  }

  lemma {:induction false} SequentialIsOrderly(events: seq<Event>)
    requires SequentialRun(events)
    ensures OrderlyRun(events)
  {
    if events != [] { SequentialIsOrderly(events[..|events| - 1]); }
  }

  // ------------------------------------------------- what the conditions rule out

  lemma Go(events: seq<Event>, s: State, ev: Event) returns (longer: seq<Event>, s': State)
    requires Run(events) == Some(s) && Next(s, ev).Some?
    ensures longer == events + [ev] && s' == Next(s, ev).value && Run(longer) == Some(s')
  {
    longer, s' := events + [ev], Next(s, ev).value;
    assert longer[..|events|] == events;
  }

  /** Nobody will wake the parked goroutine: the heap is too long for any Add to do so. */
  ghost predicate Dead(s: State) {
    && s.waiter.Parked? && !s.wake && |s.heap| >= 2
    && forall t | t in s.adders :: s.adders[t].stage != Counted(true)
  }

  ghost predicate AwakeAtOne(s: State) {
    s.waiter.Parked? && |s.heap| == 1 ==> s.wake || exists t :: WillWake(s, t)
  }

  lemma AwakeAtOneKept(s: State, ev: Event)
    requires AwakeAtOne(s) && Next(s, ev).Some?
    ensures AwakeAtOne(Next(s, ev).value)
  {
    var s' := Next(s, ev).value;
    if ev.Add? {
      PushKeepsHeap(s.heap, ev.e);
      if s.heap == [] { assert WillWake(s', ev.t); }
    } else if s.waiter.Parked? && s'.waiter.Parked? && |s.heap| == 1 && !s.wake {
      var t :| WillWake(s, t);
      if !s'.wake { assert WillWake(s', t); }
    }
  }

  lemma {:induction false} RunAwakeAtOne(events: seq<Event>)
    requires Run(events).Some?
    ensures AwakeAtOne(Run(events).value)
  {
    if events != [] {
      var front := events[..|events| - 1];
      RunAwakeAtOne(front);
      AwakeAtOneKept(Run(front).value, events[|events| - 1]);
    }
  }

  /** An Add that starts now leaves nobody to wake the parked goroutine: no token is there, no Add
      is about to send one, and every later count finds at least two entries. */
  ghost predicate Kills(s: State) {
    && s.waiter.Parked? && !s.wake && s.heap != []
    && forall t | t in s.adders :: s.adders[t].stage != Counted(true)
  }

  /** Only an Add kills the goroutine, and exactly in such a state. */
  lemma DeadStep(s: State, ev: Event)
    requires Next(s, ev).Some?
    ensures Dead(Next(s, ev).value) <==> Dead(s) || (ev.Add? && Kills(s))
  {
    match ev
    case Add(_, _) => AddStep(s, ev);
    case Compare(_) => AdderStep(s, ev);
    case Signal(_) => AdderStep(s, ev);
    case Count(_) => AdderStep(s, ev);
    case Finish(_) => AdderStep(s, ev);
    case _ =>
  }

  lemma AddStep(s: State, ev: Event)
    requires ev.Add? && Next(s, ev).Some?
    ensures Dead(Next(s, ev).value) <==> Kills(s)
    ensures Dead(s) ==> Kills(s)
  {
    var s' := Next(s, ev).value;
    PushKeepsHeap(s.heap, ev.e);
    assert |s'.heap| == |s.heap| + 1 by { assert |multiset(s'.heap)| == |multiset(s.heap)| + 1; }
    assert forall u | u in s.adders :: u in s'.adders && s'.adders[u] == s.adders[u];
  }

  lemma AdderStep(s: State, ev: Event)
    requires (ev.Compare? || ev.Signal? || ev.Count? || ev.Finish?) && Next(s, ev).Some?
    ensures Dead(Next(s, ev).value) <==> Dead(s)
  {
    var s' := Next(s, ev).value;
    if Dead(s') {
      forall u | u in s.adders ensures s.adders[u].stage != Counted(true) {
        assert u != ev.t ==> u in s'.adders && s'.adders[u] == s.adders[u];
      }
    }
  }

  /** The event is an Add issued in a state in which it kills the goroutine. */
  ghost predicate KillsAfter(front: seq<Event>, ev: Event) {
    ev.Add? && Run(front).Some? && Kills(Run(front).value)
  }

  ghost predicate KilledAt(events: seq<Event>, k: int) { 0 <= k < |events| && KillsAfter(events[..k], events[k]) }

  lemma KilledBefore(front: seq<Event>, ev: Event, k: int)
    requires k != |front|
    ensures KilledAt(front + [ev], k) <==> KilledAt(front, k)
  {
    if 0 <= k < |front| { assert (front + [ev])[..k] == front[..k]; }
  }

  lemma KilledSoFar(front: seq<Event>, ev: Event)
    ensures (exists k :: KilledAt(front + [ev], k)) <==> (exists k :: KilledAt(front, k)) || KillsAfter(front, ev)
  {
    assert KilledAt(front + [ev], |front|) <==> KillsAfter(front, ev) by {
      assert (front + [ev])[..|front|] == front;
    }
    forall k | k != |front| ensures KilledAt(front + [ev], k) <==> KilledAt(front, k) { KilledBefore(front, ev, k); }
  }

  /** In every run the goroutine is dead exactly when some Add of the run killed it. */
  lemma {:induction false} DeadExactly(events: seq<Event>)
    requires Run(events).Some?
    ensures Dead(Run(events).value) <==> exists k :: KilledAt(events, k)
  {
    if events != [] {
      var front, ev := events[..|events| - 1], events[|events| - 1];
      DeadExactly(front);
      DeadStep(Run(front).value, ev);
      assert events == front + [ev];
      KilledSoFar(front, ev);
    }
  }

  /** In every run, however Adds overlap: parked on a non-empty heap with no Add under way, the
      token is missing exactly when some Add of the run killed the goroutine. */
  lemma ParkedIsAwakeOrDead(events: seq<Event>)
    requires Run(events).Some?
    ensures var s := Run(events).value;
            s.waiter.Parked? && s.heap != [] && s.adders == map[] ==> (!s.wake <==> exists k :: KilledAt(events, k))
  {
    RunAwakeAtOne(events);
    DeadExactly(events);
  }

  /** The Add that kills a goroutine overlaps one that has not counted yet. */
  lemma KillersOverlap(events: seq<Event>)
    requires Run(events).Some? && Kills(Run(events).value) && !Dead(Run(events).value)
    ensures var s := Run(events).value;
            |s.heap| == 1 && exists t :: t in s.adders && !s.adders[t].stage.Counted?
  {
    RunAwakeAtOne(events);
    var s := Run(events).value;
    var t :| WillWake(s, t);
    assert t in s.adders && !s.adders[t].stage.Counted?;
  }

  lemma DeadStays(s: State, ev: Event)
    requires Dead(s) && Next(s, ev).Some?
    ensures Dead(Next(s, ev).value) && Next(s, ev).value.notified == s.notified
  {
    DeadStep(s, ev);
  }

  /** Once dead, no continuation, with more Adds or without, ever notifies anything. */
  lemma {:induction false} DeadForever(events: seq<Event>, more: seq<Event>)
    requires Run(events).Some? && Dead(Run(events).value) && Run(events + more).Some?
    ensures Dead(Run(events + more).value) && Run(events + more).value.notified == Run(events).value.notified
  {
    if more == [] {
      assert events + more == events;
    } else {
      var front := more[..|more| - 1];
      assert (events + more)[..|events + more| - 1] == events + front;
      DeadForever(events, front);
      DeadStays(Run(events + front).value, more[|more| - 1]);
    }
  }

  /** Two Adds that overlap while the goroutine is parked are enough: each finds two entries. */
  lemma OverlappingAddsLoseWake(first: Entry, second: Entry)
    ensures Run([CheckAll, Add(0, first), Add(1, second)]).Some?
    ensures Dead(Run([CheckAll, Add(0, first), Add(1, second)]).value)
  {
    var events, s := Go([], INIT, CheckAll);
    events, s := Go(events, s, Add(0, first));
    PushKeepsHeap([], first);
    PushKeepsHeap(s.heap, second);
    events, s := Go(events, s, Add(1, second));
    assert events == [CheckAll, Add(0, first), Add(1, second)];
  }

  lemma SequentialOn(events: seq<Event>, s: State, ev: Event)
    requires SequentialRun(events) && Run(events) == Some(s) && Sequential(s, ev)
    ensures SequentialRun(events + [ev])
  {
    assert (events + [ev])[..|events|] == events;
  }

  lemma GoOn(events: seq<Event>, s: State, ev: Event) returns (longer: seq<Event>, s': State)
    requires Run(events) == Some(s) && SequentialRun(events) && Sequential(s, ev) && Next(s, ev).Some?
    ensures s' == Next(s, ev).value && Run(longer) == Some(s') && SequentialRun(longer)
  {
    longer, s' := Go(events, s, ev);
    SequentialOn(events, s, ev);
  }

  /** An Add call from start to end, where no other is under way. */
  lemma WholeAdd(events: seq<Event>, s: State, e: Entry) returns (longer: seq<Event>, s': State)
    requires Run(events) == Some(s) && SequentialRun(events) && s.adders == map[]
    ensures Run(longer) == Some(s') && SequentialRun(longer)
    ensures s'.heap == Pushed(s.heap, e) && s'.adders == map[] && s'.waiter == s.waiter && s'.notified == s.notified
  {
    longer, s' := GoOn(events, s, Add(0, e));
    longer, s' := GoOn(longer, s', Compare(0));
    longer, s' := GoOn(longer, s', Signal(0));
    longer, s' := GoOn(longer, s', Count(0));
    longer, s' := GoOn(longer, s', Finish(0));
  }

  /** From WaitAll on a non-empty heap to the choice of the timer, undisturbed. */
  lemma TimerChosen(events: seq<Event>, s: State) returns (longer: seq<Event>, s': State)
    requires Run(events) == Some(s) && SequentialRun(events) && s.waiter.Looping? && s.heap != []
    ensures Run(longer) == Some(s') && SequentialRun(longer)
    ensures s' == s.(waiter := Popping(s.heap[0]))
  {
    longer, s' := GoOn(events, s, CheckAll);
    longer, s' := GoOn(longer, s', CheckOne);
    longer, s' := GoOn(longer, s', Look);
    longer, s' := GoOn(longer, s', Expire);
  }

  /** Sequential Adds and distinct dates are not enough for PoppedIsNotified: an earlier entry added
      between the choice of the timer and the Pop is dropped in place of the one notified. */
  lemma EarlierEntryIsDropped(later: Entry, earlier: Entry) returns (events: seq<Event>)
    requires earlier.date < later.date
    ensures Run(events).Some? && SequentialRun(events)
    ensures Run(events).value.notified == [(later.hash, Some(earlier))]
  {
    var s: State;
    events, s := WholeAdd([], INIT, later);
    SingleHeap(later);
    events, s := TimerChosen(events, s);
    events, s := WholeAdd(events, s, earlier);
    EarlierOnTop(later, earlier);
    events, s := TopDropped(events, s);
  }

  /** Pop and the notification that follows. */
  lemma TopDropped(events: seq<Event>, s: State) returns (longer: seq<Event>, s': State)
    requires Run(events) == Some(s) && SequentialRun(events) && s.waiter.Popping? && s.heap != []
    ensures Run(longer) == Some(s') && SequentialRun(longer)
    ensures s'.notified == s.notified + [(s.waiter.e.hash, Some(s.heap[0]))]
  {
    PoppedThenNotified(s);
    longer, s' := GoOn(events, s, PopTop);
    longer, s' := GoOn(longer, s', Notify);
  }

  lemma PoppedThenNotified(s: State)
    requires s.waiter.Popping? && s.heap != []
    ensures Next(s, PopTop).Some? && Next(Next(s, PopTop).value, Notify).Some?
    ensures Next(Next(s, PopTop).value, Notify).value.notified == s.notified + [(s.waiter.e.hash, Some(s.heap[0]))]
  {
  }

  lemma EarlierOnTop(later: Entry, earlier: Entry)
    requires earlier.date < later.date
    ensures Pushed([later], earlier) != [] && Pushed([later], earlier)[0] == earlier
  {
    PushKeepsHeap([later], earlier);
    AloneIsTop(Pushed([later], earlier), earlier);
  }

  lemma SingleHeap(e: Entry)
    ensures Pushed([], e) == [e]
  {
    PushKeepsHeap([], e);
    assert Pushed([], e)[0] in multiset(Pushed([], e));
  }
}
