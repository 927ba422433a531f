/** What becomes of the entries and tokens of the expiration notifier, in every run. */
module ExpirationRuns {
  import opened Common
  import opened ExpirationHeap
  import opened ExpirationNotifier

  // ------------------------------------------------------------ entries conserved

  function EntriesAdded(events: seq<Event>): multiset<Entry> {
    if events == [] then multiset{} else
    EntriesAdded(events[..|events| - 1]) + AddedBy(events[|events| - 1])
  }

  function Bag(p: Option<Entry>): multiset<Entry> { if p.Some? then multiset{p.value} else multiset{} }

  function PoppedFor(notified: seq<(string, Option<Entry>)>): multiset<Entry> {
    if notified == [] then multiset{}
    else PoppedFor(notified[..|notified| - 1]) + Bag(notified[|notified| - 1].1)
  }

  /** The entries popped: for hashes sent, and for the one about to be. */
  function AllPopped(s: State): multiset<Entry> {
    PoppedFor(s.notified) + if s.waiter.Notifying? then Bag(s.waiter.popped) else multiset{}
  }

  lemma NotifiedNext(notified: seq<(string, Option<Entry>)>, n: (string, Option<Entry>))
    ensures PoppedFor(notified + [n]) == PoppedFor(notified) + Bag(n.1)
  {
    assert (notified + [n])[..|notified|] == notified;
  }

  function AddedBy(ev: Event): multiset<Entry> { if ev.Add? then multiset{ev.e} else multiset{} }

  lemma OneMoves(from: multiset<Entry>, rest: multiset<Entry>, to: multiset<Entry>, x: Entry)
    requires rest + multiset{x} == from
    ensures rest + (to + multiset{x}) == from + to
  {
  }

  lemma TopMoves(s: State, t: State, top: Entry)
    requires multiset(t.heap) + multiset{top} == multiset(s.heap) && t.notified == s.notified
    requires !s.waiter.Notifying? && t.waiter.Notifying? && t.waiter.popped == Some(top)
    ensures multiset(t.heap) + AllPopped(t) == multiset(s.heap) + AllPopped(s)
  {
    OneMoves(multiset(s.heap), multiset(t.heap), PoppedFor(s.notified), top);
  }

  lemma PopMoves(s: State)
    requires s.waiter.Popping?
    ensures var t := Next(s, PopTop).value; multiset(t.heap) + AllPopped(t) == multiset(s.heap) + AllPopped(s)
  {
    if s.heap == [] {
      assert AllPopped(Next(s, PopTop).value) == AllPopped(s);
    } else {
      PopKeepsHeap(s.heap);
      TopMoves(s, Next(s, PopTop).value, s.heap[0]);
    }
  }

  lemma NotifyMoves(s: State)
    requires s.waiter.Notifying?
    ensures var t := Next(s, Notify).value; t.heap == s.heap && AllPopped(t) == AllPopped(s)
  {
    NotifiedNext(s.notified, (s.waiter.e.hash, s.waiter.popped));
  }

  /** Nothing was pushed or popped, and no hash was sent. */
  ghost predicate SameEntries(s: State, t: State) {
    && t.heap == s.heap && t.notified == s.notified
    && (t.waiter == s.waiter || (!s.waiter.Notifying? && !t.waiter.Notifying?))
  }

  lemma SamePopped(s: State, t: State)
    requires SameEntries(s, t)
    ensures AllPopped(t) == AllPopped(s)
  {
  }

  lemma AddersMoveNothing(s: State, ev: Event)
    requires (ev.Compare? || ev.Signal? || ev.Count? || ev.Finish?) && Next(s, ev).Some?
    ensures SameEntries(s, Next(s, ev).value)
  {
  }

  lemma WaiterMovesNothing(s: State, ev: Event)
    requires (ev.CheckAll? || ev.CheckOne? || ev.Look? || ev.Expire? || ev.Rescan? || ev.Wake?) && Next(s, ev).Some?
    ensures SameEntries(s, Next(s, ev).value)
  {
  }

  lemma OthersMoveNothing(s: State, ev: Event)
    requires Next(s, ev).Some? && !ev.Add? && !ev.PopTop? && !ev.Notify?
    ensures Next(s, ev).value.heap == s.heap && AllPopped(Next(s, ev).value) == AllPopped(s)
  {
    if ev.Compare? || ev.Signal? || ev.Count? || ev.Finish? {
      AddersMoveNothing(s, ev);
    } else {
      WaiterMovesNothing(s, ev);
    }
    SamePopped(s, Next(s, ev).value);
  }

  lemma EntriesStep(s: State, ev: Event)
    requires Next(s, ev).Some?
    ensures var t := Next(s, ev).value;
            multiset(t.heap) + AllPopped(t) == multiset(s.heap) + AllPopped(s) + AddedBy(ev)
  {
    match ev
    case Add(_, e) => PushKeepsHeap(s.heap, e);
    case PopTop => PopMoves(s);
    case Notify => NotifyMoves(s);
    case _ => OthersMoveNothing(s, ev);
  }

  /** In every run each entry added is in the heap or was popped, as often as it was added. */
  lemma {:induction false} EntriesConserved(events: seq<Event>)
    requires Run(events).Some?
    ensures var s := Run(events).value; multiset(s.heap) + AllPopped(s) == EntriesAdded(events)
  {
    if events != [] {
      var front := events[..|events| - 1];
      EntriesConserved(front);
      EntriesStep(Run(front).value, events[|events| - 1]);
    }
  }

  // ------------------------------------------------------------------ tokens

  predicate SendsRescan(s: State, ev: Event) {
    ev.Signal? && ev.t in s.adders && s.adders[ev.t].stage == Compared(true)
  }

  predicate SendsWake(s: State, ev: Event) {
    ev.Finish? && ev.t in s.adders && s.adders[ev.t].stage == Counted(true)
  }

  /** A rescan token was sent since the last one was taken. */
  predicate RescanSent(events: seq<Event>) {
    events != [] &&
    var front, ev := events[..|events| - 1], events[|events| - 1];
    (Run(front).Some? && SendsRescan(Run(front).value, ev)) || (!ev.Rescan? && RescanSent(front))
  }

  predicate WakeSent(events: seq<Event>) {
    events != [] &&
    var front, ev := events[..|events| - 1], events[|events| - 1];
    (Run(front).Some? && SendsWake(Run(front).value, ev)) || (!ev.Wake? && WakeSent(front))
  }

  lemma TokensStep(s: State, ev: Event)
    requires Next(s, ev).Some?
    ensures Next(s, ev).value.rescan <==> SendsRescan(s, ev) || (!ev.Rescan? && s.rescan)
    ensures Next(s, ev).value.wake <==> SendsWake(s, ev) || (!ev.Wake? && s.wake)
    ensures (ev.Rescan? ==> s.rescan) && (ev.Wake? ==> s.wake)
  {
  }

  /** In every run each channel holds a token exactly when one was sent since the last was taken; a token
      is taken only where there is one. */
  lemma {:induction false} TokensExactly(events: seq<Event>)
    requires Run(events).Some?
    ensures var s := Run(events).value; (s.rescan <==> RescanSent(events)) && (s.wake <==> WakeSent(events))
  {
    if events != [] {
      var front := events[..|events| - 1];
      TokensExactly(front);
      TokensStep(Run(front).value, events[|events| - 1]);
    }
  }

  // ------------------------------------------------------- what can still be popped

  ghost predicate LeadsTo(events: seq<Event>, longer: seq<Event>, s: State) {
    events <= longer && Run(longer) == Some(s)
  }

  lemma Step(events: seq<Event>, s: State, ev: Event) returns (longer: seq<Event>, s': State)
    requires Run(events) == Some(s) && Next(s, ev).Some?
    ensures LeadsTo(events, longer, s') && s' == Next(s, ev).value
  {
    longer, s' := Go(events, s, ev);
  }

  lemma Chained(a: seq<Event>, b: seq<Event>, c: seq<Event>, s: State, t: State)
    requires LeadsTo(a, b, s) && LeadsTo(b, c, t)
    ensures LeadsTo(a, c, t)
  {
  }

  /** The entry was popped, or still can be from WaitAll. */
  ghost predicate Nearer(s: State, s': State, e: Entry) {
    || AllPopped(s')[e] > AllPopped(s)[e]
    || (s'.waiter.Looping? && e in s'.heap && AllPopped(s')[e] == AllPopped(s)[e])
  }

  lemma FromNotifying(events: seq<Event>, s: State) returns (longer: seq<Event>, s': State)
    requires Run(events) == Some(s) && s.waiter.Notifying?
    ensures LeadsTo(events, longer, s') && s'.waiter.Looping? && s'.heap == s.heap && AllPopped(s') == AllPopped(s)
  {
    NotifyMoves(s);
    longer, s' := Step(events, s, Notify);
  }

  lemma FromPopping(events: seq<Event>, s: State, e: Entry) returns (longer: seq<Event>, s': State)
    requires Run(events) == Some(s) && s.waiter.Popping? && e in s.heap
    ensures LeadsTo(events, longer, s') && Nearer(s, s', e) && s'.waiter.Looping? && |s'.heap| < |s.heap|
  {
    PopKeepsHeap(s.heap);
    var mid, t := Step(events, s, PopTop);
    longer, s' := FromNotifying(mid, t);
    Chained(events, mid, longer, t, s');
    assert AllPopped(t) == AllPopped(s) + multiset{s.heap[0]};
    if s.heap[0] != e { assert e in multiset(s.heap) && e in multiset(s'.heap); }
    assert |multiset(s'.heap)| < |multiset(s.heap)|;
  }

  lemma FromWaiting(events: seq<Event>, s: State, e: Entry) returns (longer: seq<Event>, s': State)
    requires Run(events) == Some(s) && s.waiter.Waiting? && e in s.heap
    ensures LeadsTo(events, longer, s') && Nearer(s, s', e) && s'.waiter.Looping? && |s'.heap| < |s.heap|
  {
    var mid, t := Step(events, s, Expire);
    longer, s' := FromPopping(mid, t, e);
    Chained(events, mid, longer, t, s');
  }

  lemma FromPeeking(events: seq<Event>, s: State, e: Entry) returns (longer: seq<Event>, s': State)
    requires Run(events) == Some(s) && s.waiter.Peeking? && e in s.heap
    ensures LeadsTo(events, longer, s') && Nearer(s, s', e) && s'.waiter.Looping? && |s'.heap| < |s.heap|
  {
    var mid, t := Step(events, s, Look);
    longer, s' := FromWaiting(mid, t, e);
    Chained(events, mid, longer, t, s');
  }

  lemma FromCounting(events: seq<Event>, s: State, e: Entry) returns (longer: seq<Event>, s': State)
    requires Run(events) == Some(s) && s.waiter.Counting? && e in s.heap
    ensures LeadsTo(events, longer, s') && Nearer(s, s', e) && s'.waiter.Looping? && |s'.heap| < |s.heap|
  {
    var mid, t := Step(events, s, CheckOne);
    longer, s' := FromPeeking(mid, t, e);
    Chained(events, mid, longer, t, s');
  }

  /** From WaitAll every entry is popped in its turn. */
  lemma {:induction false} FromLooping(events: seq<Event>, s: State, e: Entry) returns (longer: seq<Event>, s': State)
    requires Run(events) == Some(s) && s.waiter.Looping? && e in s.heap
    ensures LeadsTo(events, longer, s') && AllPopped(s')[e] > AllPopped(s)[e]
    decreases |s.heap|
  {
    var first, t := Step(events, s, CheckAll);
    var second, u := FromCounting(first, t, e);
    longer, s' := second, u;
    Chained(events, first, second, t, u);
    if AllPopped(u)[e] == AllPopped(s)[e] {
      longer, s' := FromLooping(second, u, e);
      Chained(events, second, longer, u, s');
    }
  }

  // The parked goroutine.

  lemma CountsOne(events: seq<Event>, s: State, t: nat) returns (longer: seq<Event>, s': State)
    requires Run(events) == Some(s) && t in s.adders && s.adders[t].stage.Signalled? && |s.heap| == 1
    ensures LeadsTo(events, longer, s') && t in s'.adders && s'.adders[t].stage == Counted(true)
    ensures s'.heap == s.heap && s'.waiter == s.waiter && s'.notified == s.notified
  {
    longer, s' := Step(events, s, Count(t));
  }

  lemma SignalsThenCounts(events: seq<Event>, s: State, t: nat) returns (longer: seq<Event>, s': State)
    requires Run(events) == Some(s) && t in s.adders && s.adders[t].stage.Compared? && |s.heap| == 1
    ensures LeadsTo(events, longer, s') && t in s'.adders && s'.adders[t].stage == Counted(true)
    ensures s'.heap == s.heap && s'.waiter == s.waiter && s'.notified == s.notified
  {
    var mid, u := Step(events, s, Signal(t));
    longer, s' := CountsOne(mid, u, t);
    Chained(events, mid, longer, u, s');
  }

  /** An Add that finds itself alone in the heap is going to send a token. */
  lemma WillSend(events: seq<Event>, s: State, t: nat) returns (longer: seq<Event>, s': State)
    requires Run(events) == Some(s) && WillWake(s, t)
    ensures LeadsTo(events, longer, s') && t in s'.adders && s'.adders[t].stage == Counted(true)
    ensures s'.heap == s.heap && s'.waiter == s.waiter && s'.notified == s.notified
  {
    longer, s' := events, s;
    match s.adders[t].stage {
      case Counted(_) =>
      case Signalled => longer, s' := CountsOne(events, s, t);
      case Compared(_) => longer, s' := SignalsThenCounts(events, s, t);
      case Added =>
        var mid, u := Step(events, s, Compare(t));
        longer, s' := SignalsThenCounts(mid, u, t);
        Chained(events, mid, longer, u, s');
    }
  }

  lemma SomeoneWakes(events: seq<Event>, s: State) returns (t: nat)
    requires Run(events) == Some(s) && s.waiter.Parked? && s.heap != [] && !s.wake && !Dead(s)
    ensures WillWake(s, t)
  {
    RunAwakeAtOne(events);
    if |s.heap| == 1 {
      t :| WillWake(s, t);
    } else {
      t :| t in s.adders && s.adders[t].stage == Counted(true);
    }
  }

  lemma Woken(events: seq<Event>, s: State) returns (longer: seq<Event>, s': State)
    requires Run(events) == Some(s) && s.waiter.Parked? && s.wake
    ensures LeadsTo(events, longer, s') && s'.waiter.Looping? && s'.heap == s.heap && s'.notified == s.notified
  {
    longer, s' := Step(events, s, Wake);
  }

  /** A parked goroutine that is not dead can be woken. */
  lemma FromParked(events: seq<Event>, s: State) returns (longer: seq<Event>, s': State)
    requires Run(events) == Some(s) && s.waiter.Parked? && s.heap != [] && !Dead(s)
    ensures LeadsTo(events, longer, s') && s'.waiter.Looping? && s'.heap == s.heap && s'.notified == s.notified
  {
    if s.wake {
      longer, s' := Woken(events, s);
    } else {
      var t := SomeoneWakes(events, s);
      var first, u := WillSend(events, s, t);
      var second, v := Step(first, u, Finish(t));
      longer, s' := Woken(second, v);
      Chained(events, first, second, u, v);
      Chained(events, second, longer, v, s');
    }
  }

  /** Wherever the goroutine is, it comes back to WaitAll. */
  lemma ToLooping(events: seq<Event>, s: State, e: Entry) returns (longer: seq<Event>, s': State)
    requires Run(events) == Some(s) && e in s.heap && !Dead(s)
    ensures LeadsTo(events, longer, s') && Nearer(s, s', e)
  {
    match s.waiter {
      case Looping => longer, s' := events, s;
      case Counting => longer, s' := FromCounting(events, s, e);
      case Peeking => longer, s' := FromPeeking(events, s, e);
      case Waiting(_) => longer, s' := FromWaiting(events, s, e);
      case Popping(_) => longer, s' := FromPopping(events, s, e);
      case Notifying(_, _) => longer, s' := FromNotifying(events, s);
      case Parked => longer, s' := FromParked(events, s);
    }
  }

  /** Some continuation pops the entry. */
  ghost predicate CanBePopped(events: seq<Event>, e: Entry)
    requires Run(events).Some?
  {
    exists longer :: events <= longer && Run(longer).Some?
      && AllPopped(Run(longer).value)[e] > AllPopped(Run(events).value)[e]
  }

  /** After any run an entry of the heap can still be popped exactly unless the goroutine is dead. */
  lemma PoppableExactly(events: seq<Event>, e: Entry)
    requires Run(events).Some? && e in Run(events).value.heap
    ensures CanBePopped(events, e) <==> !Dead(Run(events).value)
  {
    var s := Run(events).value;
    if Dead(s) {
      forall longer | events <= longer && Run(longer).Some? ensures AllPopped(Run(longer).value) == AllPopped(s) {
        assert events + longer[|events|..] == longer;
        DeadForever(events, longer[|events|..]);
      }
    } else {
      var first, t := ToLooping(events, s, e);
      if AllPopped(t)[e] == AllPopped(s)[e] {
        var longer, u := FromLooping(first, t, e);
        Chained(events, first, longer, t, u);
        assert events <= longer && Run(longer).Some? && AllPopped(Run(longer).value)[e] > AllPopped(s)[e];
      }
    }
  }
}
