/** Exactly when the waiter is left waiting past the earliest date. */
module ExpirationRescan {
  import opened ExpirationHeap
  import opened ExpirationNotifier

  /** The waiter waits for a later entry than the earliest, with no token to make it look again. */
  ghost predicate Behind(s: State) {
    s.waiter.Waiting? && s.heap != [] && s.heap[0].date < s.waiter.e.date && !s.rescan
  }

  /** Behind, and no Add call is going to send the token. */
  ghost predicate RescanLost(s: State) { Behind(s) && NoneMaySignal(s) }

  /** The comparison of Add call t is the last that could have helped, and fails: another entry is
      on top, and no other call may still signal. */
  ghost predicate Loses(s: State, ev: Event) {
    && ev.Compare? && ev.t in s.adders && Behind(s) && s.heap[0].hash != s.adders[ev.t].entry.hash
    && OthersMayNotSignal(s, ev.t)
  }

  ghost predicate OthersMayNotSignal(s: State, t: nat) {
    forall u | u in s.adders && u != t :: !s.adders[u].MaySignal()
  }

  lemma SignalsSplit(s: State, t: nat)
    requires t in s.adders
    ensures NoneMaySignal(s) <==> OthersMayNotSignal(s, t) && !s.adders[t].MaySignal()
  {
  }

  lemma OthersStay(s: State, ev: Event)
    requires (ev.Compare? || ev.Signal? || ev.Count? || ev.Finish?) && Next(s, ev).Some?
    ensures OthersMayNotSignal(Next(s, ev).value, ev.t) <==> OthersMayNotSignal(s, ev.t)
  {
    var s' := Next(s, ev).value;
    assert forall u | u != ev.t :: u in s.adders <==> u in s'.adders;
    assert forall u | u in s.adders && u != ev.t :: s'.adders[u] == s.adders[u];
  }

  lemma LostByCompare(s: State, ev: Event)
    requires ev.Compare? && Next(s, ev).Some?
    ensures RescanLost(Next(s, ev).value) <==> Loses(s, ev)
    ensures !RescanLost(s)
  {
    OthersStay(s, ev);
    SignalsSplit(s, ev.t);
    SignalsSplit(Next(s, ev).value, ev.t);
  }

  lemma LostByOther(s: State, ev: Event)
    requires (ev.Signal? || ev.Count?) && Next(s, ev).Some?
    ensures RescanLost(Next(s, ev).value) <==> RescanLost(s)
  {
    OthersStay(s, ev);
    SignalsSplit(s, ev.t);
    SignalsSplit(Next(s, ev).value, ev.t);
  }

  lemma LostByFinish(s: State, ev: Event)
    requires ev.Finish? && Next(s, ev).Some?
    ensures RescanLost(Next(s, ev).value) <==> RescanLost(s)
  {
    OthersStay(s, ev);
    SignalsSplit(s, ev.t);
  }

  /** Events that end the waiting, or bring a call that may signal. */
  predicate Relieves(ev: Event) { ev.Add? || ev.Expire? }

  /** An event loses the rescan exactly when it is such a comparison, and once lost it stays so until
      the timer or the next Add. */
  lemma LostStep(s: State, ev: Event)
    requires InHeap(s) && Next(s, ev).Some?
    ensures RescanLost(Next(s, ev).value) <==> (RescanLost(s) && !Relieves(ev)) || Loses(s, ev)
  {
    match ev
    case Add(t, e) => assert Next(s, ev).value.adders[t].MaySignal();
    case Compare(_) => LostByCompare(s, ev);
    case Signal(_) => LostByOther(s, ev);
    case Count(_) => LostByOther(s, ev);
    case Finish(_) => LostByFinish(s, ev);
    case _ =>
  }

  /** Event k loses the rescan, and nothing relieves the waiter afterwards. */
  ghost predicate LostAt(events: seq<Event>, k: int) {
    && 0 <= k < |events| && LosesAt(events[..k], events[k])
    && forall j | k < j < |events| :: !Relieves(events[j])
  }

  ghost predicate LosesAt(front: seq<Event>, ev: Event) { Run(front).Some? && Loses(Run(front).value, ev) }

  lemma LostBefore(front: seq<Event>, ev: Event, k: int)
    requires k != |front|
    ensures LostAt(front + [ev], k) <==> LostAt(front, k) && !Relieves(ev)
  {
    var events := front + [ev];
    if 0 <= k < |front| { assert events[..k] == front[..k] && events[k] == front[k] && events[|front|] == ev; }
    assert forall j | 0 <= j < |front| :: events[j] == front[j];
  }

  lemma LostLast(front: seq<Event>, ev: Event)
    ensures LostAt(front + [ev], |front|) <==> LosesAt(front, ev)
  {
    assert (front + [ev])[..|front|] == front;
  }

  lemma LostSoFar(front: seq<Event>, ev: Event)
    ensures (exists k :: LostAt(front + [ev], k)) <==>
              (!Relieves(ev) && exists k :: LostAt(front, k)) || LosesAt(front, ev)
  {
    LostLast(front, ev);
    forall k | k != |front| ensures LostAt(front + [ev], k) <==> LostAt(front, k) && !Relieves(ev) {
      LostBefore(front, ev, k);
    }
  }

  lemma LostNext(front: seq<Event>, ev: Event)
    requires Run(front + [ev]).Some?
    ensures Run(front).Some?
    ensures RescanLost(Run(front + [ev]).value) <==>
              (RescanLost(Run(front).value) && !Relieves(ev)) || LosesAt(front, ev)
  {
    assert (front + [ev])[..|front|] == front;
    RunStaysInHeap(front);
    LostStep(Run(front).value, ev);
  }

  /** In every run, however Adds overlap: the waiter waits past the earliest date with no token and
      no Add that may still signal exactly when some comparison lost the rescan, and neither the timer
      nor an Add has relieved it since. */
  lemma {:induction false} RescanLostExactly(events: seq<Event>)
    requires Run(events).Some?
    ensures RescanLost(Run(events).value) <==> exists k :: LostAt(events, k)
  {
    if events != [] {
      var front, ev := events[..|events| - 1], events[|events| - 1];
      assert events == front + [ev];
      RescanLostExactly(front);
      LostNext(front, ev);
      LostSoFar(front, ev);
    }
  }

  /** What RescanLost says of the heap: an entry is earlier than the one waited for. */
  lemma LostExactly(events: seq<Event>)
    requires Run(events).Some?
    ensures var s := Run(events).value;
            RescanLost(s) <==>
              && s.waiter.Waiting? && (exists x :: x in multiset(s.heap) && x.date < s.waiter.e.date)
              && !s.rescan && NoneMaySignal(s)
  {
    var s := Run(events).value;
    RunStaysInHeap(events);
    if s.heap != [] {
      TopIsMinimum(s.heap);
      assert s.heap[0] in multiset(s.heap);
    }
  }
}
