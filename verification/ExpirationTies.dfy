/** Why RescanNeverLost asks that overlapping Adds bring dates of their own: heapify may exchange
    entries with equal dates, so that of three overlapping Adds none finds itself on top. */
module ExpirationTies {
  import opened Common
  import opened ExpirationHeap
  import opened ExpirationNotifier

  lemma Stays(s: Heap, i: nat)
    requires Earliest(s, i) == i
    ensures SiftedDown(s, i) == s
  {
  }

  lemma Sinks(s: Heap, i: nat, m: nat)
    requires m == Earliest(s, i) != i
    ensures SiftedDown(s, i) == SiftedDown(Swapped(s, m, i), m)
  {
  }

  lemma SmallHeapify(s: Heap)
    ensures HeapifiedFrom(s, 2) == SiftedDown(SiftedDown(SiftedDown(s, 2), 1), 0)
    ensures HeapifiedFrom(s, 1) == SiftedDown(SiftedDown(s, 1), 0)
  {
    assert forall x :: HeapifiedFrom(x, 0) == HeapifiedFrom(SiftedDown(x, 0), -1) == SiftedDown(x, 0);
  }

  lemma PushSecond(w: Entry, z: Entry)
    requires w.date < z.date
    ensures Pushed([w], z) == [w, z]
  {
    assert [w] + [z] == [w, z] && Swapped([w, z], 1, 0) == [z, w] && Swapped([z, w], 1, 0) == [w, z];
    Stays([z, w], 1);
    Sinks([z, w], 0, 1);
    Stays([w, z], 1);
    SmallHeapify([z, w]);
  }

  lemma PushThird(w: Entry, z: Entry, f: Entry)
    requires f.date < w.date < z.date
    ensures Pushed([w, z], f) == [f, z, w]
  {
    var s := [f, z, w];
    assert Swapped([w, z, f], 2, 0) == s;
    Stays(s, 1);
    Stays(s, 0);
    SmallHeapify(s);
  }

  lemma PushFourth(w: Entry, z: Entry, f: Entry, g: Entry)
    requires f.date == g.date < w.date < z.date
    ensures Pushed([f, z, w], g) == [g, f, w, z]
  {
    var s, r := [g, z, w, f], [g, f, w, z];
    assert [f, z, w] + [g] == [f, z, w, g] && Swapped([f, z, w, g], 3, 0) == s && Swapped(s, 3, 1) == r;
    Stays(s, 2);
    Sinks(s, 1, 3);
    Stays(r, 3);
    Stays(r, 0);
    SmallHeapify(s);
  }

  lemma PushFifth(w: Entry, z: Entry, f: Entry, g: Entry, y: Entry)
    requires f.date == g.date < w.date < z.date < y.date
    ensures Pushed([g, f, w, z], y) == [f, g, w, z, y]
  {
    var s, r, u := [y, f, w, z, g], [f, y, w, z, g], [f, g, w, z, y];
    assert [g, f, w, z] + [y] == [g, f, w, z, y] && Swapped([g, f, w, z, y], 4, 0) == s;
    assert Swapped(s, 1, 0) == r && Swapped(r, 4, 1) == u;
    Stays(s, 2);
    Stays(s, 1);
    Sinks(s, 0, 1);
    Sinks(r, 1, 4);
    Stays(u, 4);
    SmallHeapify(s);
  }

  /** Two entries, the waiter waiting for the earlier one, no token, no Add under way. */
  ghost predicate Settled(s: State, w: Entry, z: Entry) {
    s.heap == [w, z] && s.waiter == Waiting(w) && !s.rescan && s.adders == map[]
  }

  lemma Settle(w: Entry, z: Entry) returns (events: seq<Event>, s: State)
    requires w.date < z.date
    ensures Run(events) == Some(s) && Settled(s, w, z)
  {
    events, s := WholeAdd([], INIT, w);
    SingleHeap(w);
    events, s := WholeAdd(events, s, z);
    PushSecond(w, z);
    events, s := Chosen(events, s);
    if s.rescan {
      events, s := Go(events, s, Rescan);
      events, s := Go(events, s, CheckOne);
      events, s := Go(events, s, Look);
    }
  }

  lemma Chosen(events: seq<Event>, s: State) returns (longer: seq<Event>, s': State)
    requires Run(events) == Some(s) && s.waiter.Looping? && s.heap != []
    ensures Run(longer) == Some(s') && s' == s.(waiter := Waiting(s.heap[0]))
  {
    longer, s' := Go(events, s, CheckAll);
    longer, s' := Go(longer, s', CheckOne);
    longer, s' := Go(longer, s', Look);
  }

  /** f and g tie; f compares itself with the top while g is there. */
  lemma FirstTwo(events: seq<Event>, s: State, w: Entry, z: Entry, f: Entry, g: Entry)
    returns (longer: seq<Event>, s': State)
    requires Run(events) == Some(s) && Settled(s, w, z)
    requires f.date == g.date < w.date < z.date && f.hash != g.hash
    ensures Run(longer) == Some(s') && s'.heap == [g, f, w, z] && s'.waiter == Waiting(w) && !s'.rescan
    ensures s'.adders == map[1 := Adder(f, Compared(false)), 2 := Adder(g, Added)]
  {
    longer, s' := Go(events, s, Add(1, f));
    PushThird(w, z, f);
    longer, s' := Go(longer, s', Add(2, g));
    PushFourth(w, z, f, g);
    longer, s' := Go(longer, s', Compare(1));
  }

  /** A third push brings f to the top before g compares itself with it. */
  lemma ThirdAdd(events: seq<Event>, s: State, w: Entry, z: Entry, f: Entry, g: Entry, y: Entry)
    returns (longer: seq<Event>, s': State)
    requires Run(events) == Some(s) && s.heap == [g, f, w, z]
    requires s.adders == map[1 := Adder(f, Compared(false)), 2 := Adder(g, Added)]
    requires f.date == g.date < w.date < z.date < y.date
    ensures Run(longer) == Some(s') && s'.heap != [] && s'.heap[0] == f
    ensures s'.waiter == s.waiter && s'.rescan == s.rescan
    ensures s'.adders == map[1 := Adder(f, Compared(false)), 2 := Adder(g, Added), 3 := Adder(y, Added)]
  {
    PushFifth(w, z, f, g, y);
    longer, s' := Go(events, s, Add(3, y));
  }

  lemma NeitherOnTop(events: seq<Event>, s: State, f: Entry, g: Entry, y: Entry)
    returns (longer: seq<Event>, s': State)
    requires Run(events) == Some(s) && s.heap != [] && s.heap[0] == f && f.hash != g.hash && f.hash != y.hash
    requires s.adders == map[1 := Adder(f, Compared(false)), 2 := Adder(g, Added), 3 := Adder(y, Added)]
    ensures Run(longer) == Some(s') && s'.heap == s.heap && s'.waiter == s.waiter && s'.rescan == s.rescan
    ensures NoneMaySignal(s')
  {
    longer, s' := Go(events, s, Compare(2));
    longer, s' := Go(longer, s', Compare(3));
  }

  /** The waiter then waits for w although f and g expire earlier, with no token and no Add that
      may still signal. */
  lemma TiesLoseRescan(w: Entry, z: Entry, f: Entry, g: Entry, y: Entry) returns (events: seq<Event>)
    requires f.date == g.date < w.date < z.date < y.date && f.hash != g.hash && f.hash != y.hash
    ensures Run(events).Some?
    ensures var s := Run(events).value;
            s.waiter == Waiting(w) && f in multiset(s.heap) && !s.rescan && NoneMaySignal(s)
  {
    var s: State;
    events, s := Settle(w, z);
    events, s := FirstTwo(events, s, w, z, f, g);
    events, s := ThirdAdd(events, s, w, z, f, g, y);
    events, s := NeitherOnTop(events, s, f, g, y);
  }
}
