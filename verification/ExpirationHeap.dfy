/** The expiration heap of pkg/storage/local.go: a binary heap by date, rebuilt bottom-up after
    every Push and Pop. The functions say what the loops of the class compute; the lemmas say what
    that is. */
module ExpirationHeap {
  import opened Common

  datatype Entry = Entry(hash: string, date: int)

  type Heap = seq<Entry>

  function Swapped(s: Heap, m: nat, n: nat): Heap
    requires m < |s| && n < |s|
  {
    s[m := s[n]][n := s[m]]
  }

  /** The earliest of entry i and its two children, preferring i, then the left one. */
  function Earliest(s: Heap, i: nat): (m: nat)
    ensures m == i || (m < |s| && (m == 2 * i + 1 || m == 2 * i + 2))
  {
    var l, r := 2 * i + 1, 2 * i + 2;
    var m := if l < |s| && s[l].date < s[i].date then l else i;
    if r < |s| && s[r].date < s[m].date then r else m
  }

  function SiftedDown(s: Heap, i: nat): Heap
    decreases |s| - i
  {
    var m := Earliest(s, i);
    if m == i then s else SiftedDown(Swapped(s, m, i), m)
  }

  /** siftDown at i, i - 1, ..., 0. */
  function HeapifiedFrom(s: Heap, i: int): Heap
    decreases i + 1
  {
    if i < 0 then s else HeapifiedFrom(SiftedDown(s, i), i - 1)
  }

  function Heapified(s: Heap): Heap { HeapifiedFrom(s, |s| / 2) }

  function Pushed(s: Heap, e: Entry): Heap {
    Heapified(Swapped(s + [e], |s|, 0))
  }

  function Popped(s: Heap): Heap
    requires s != []
  {
    Heapified(s[0 := s[|s| - 1]][..|s| - 1])
  }

  // ----------------------------------------------------------- the heap order

  function Parent(k: nat): nat
    requires k > 0
  {
    (k - 1) / 2
  }

  /** No entry below an index from lo on is earlier than its parent. */
  ghost predicate OrderedFrom(s: Heap, lo: int) {
    forall k | 0 < k < |s| && lo <= Parent(k) :: s[Parent(k)].date <= s[k].date
  }

  ghost predicate IsHeap(s: Heap) { OrderedFrom(s, 0) }

  /** Ordered from lo on, except that entry i may be too late for its children; its parent is not. */
  ghost predicate OrderedBut(s: Heap, lo: nat, i: nat) {
    && (forall k | 0 < k < |s| && lo <= Parent(k) && Parent(k) != i :: s[Parent(k)].date <= s[k].date)
    && (forall k | 0 < k < |s| && Parent(k) == i && lo < i && lo <= Parent(i) :: s[Parent(i)].date <= s[k].date)
  }

  lemma SwapKeeps(s: Heap, m: nat, n: nat)
    requires m < |s| && n < |s|
    ensures multiset(Swapped(s, m, n)) == multiset(s) && |Swapped(s, m, n)| == |s|
  {
  }

  lemma SwapOrders(s: Heap, lo: nat, i: nat)
    requires lo <= i && OrderedBut(s, lo, i) && Earliest(s, i) != i
    ensures OrderedBut(Swapped(s, Earliest(s, i), i), lo, Earliest(s, i))
  {
    var m := Earliest(s, i);
    var t := Swapped(s, m, i);
    assert Parent(m) == i;
    forall k | 0 < k < |t| && lo <= Parent(k) && Parent(k) != m ensures t[Parent(k)].date <= t[k].date {
      if Parent(k) == i { assert k == 2 * i + 1 || k == 2 * i + 2; }
    }
    forall k | 0 < k < |t| && Parent(k) == m ensures t[Parent(m)].date <= t[k].date {
      assert s[Parent(k)].date <= s[k].date;
    }
  }

  /** siftDown repairs the order below the index it starts from and keeps the entries. */
  lemma {:induction false} SiftDownRepairs(s: Heap, lo: nat, i: nat)
    requires lo <= i && OrderedBut(s, lo, i)
    ensures OrderedFrom(SiftedDown(s, i), lo)
    ensures multiset(SiftedDown(s, i)) == multiset(s) && |SiftedDown(s, i)| == |s|
    decreases |s| - i
  {
    var m := Earliest(s, i);
    if m == i {
      forall k | 0 < k < |s| && lo <= Parent(k) ensures s[Parent(k)].date <= s[k].date {
        if Parent(k) == i { assert k == 2 * i + 1 || k == 2 * i + 2; }
      }
    } else {
      SwapOrders(s, lo, i);
      SwapKeeps(s, m, i);
      SiftDownRepairs(Swapped(s, m, i), lo, m);
    }
  }

  lemma {:induction false} HeapifyFromRepairs(s: Heap, i: int)
    requires -1 <= i && OrderedFrom(s, i + 1)
    ensures IsHeap(HeapifiedFrom(s, i))
    ensures multiset(HeapifiedFrom(s, i)) == multiset(s) && |HeapifiedFrom(s, i)| == |s|
    decreases i + 1
  {
    if i >= 0 {
      SiftDownRepairs(s, i, i);
      HeapifyFromRepairs(SiftedDown(s, i), i - 1);
    }
  }

  /** heapify makes a heap of any slice, with the same entries: the indices above half the length,
      where it does not start, have no children. */
  lemma HeapifyRepairs(s: Heap)
    ensures IsHeap(Heapified(s)) && multiset(Heapified(s)) == multiset(s) && |Heapified(s)| == |s|
  {
    HeapifyFromRepairs(s, |s| / 2);
  }

  lemma PushKeepsHeap(s: Heap, e: Entry)
    ensures IsHeap(Pushed(s, e)) && multiset(Pushed(s, e)) == multiset(s) + multiset{e}
    ensures |Pushed(s, e)| == |s| + 1
  {
    SwapKeeps(s + [e], |s|, 0);
    HeapifyRepairs(Swapped(s + [e], |s|, 0));
  }

  lemma PopKeepsHeap(s: Heap)
    requires s != []
    ensures IsHeap(Popped(s)) && multiset(Popped(s)) + multiset{s[0]} == multiset(s)
    ensures |Popped(s)| == |s| - 1
  {
    var n := |s| - 1;
    var t := s[0 := s[n]][..n];
    assert s == s[..n] + [s[n]];
    assert s[..n] == if n == 0 then [] else [s[0]] + s[1..n];
    assert t == if n == 0 then [] else [s[n]] + s[1..n];
    HeapifyRepairs(t);
  }

  lemma {:induction false} TopIsEarliest(s: Heap, k: nat)
    requires IsHeap(s) && k < |s|
    ensures s[0].date <= s[k].date
  {
    if k > 0 { TopIsEarliest(s, Parent(k)); }
  }

  /** No entry is earlier than e. */
  ghost predicate IsEarliest(e: Entry, entries: multiset<Entry>) {
    forall x | x in entries :: e.date <= x.date
  }

  lemma TopIsMinimum(s: Heap)
    requires IsHeap(s) && s != []
    ensures s[0] in multiset(s) && IsEarliest(s[0], multiset(s))
  {
    forall x | x in multiset(s) ensures s[0].date <= x.date {
      var k :| 0 <= k < |s| && s[k] == x;
      TopIsEarliest(s, k);
    }
  }

  // ------------------------------------------------------------------- runs

  datatype Op = Push(e: Entry) | Pop

  /** The slice, everything pushed and everything popped, in order. */
  datatype History = History(heap: Heap, pushed: seq<Entry>, popped: seq<Entry>)

  function After(h: History, op: Op): History {
    match op
    case Push(e) => History(Pushed(h.heap, e), h.pushed + [e], h.popped)
    case Pop => if h.heap == [] then h else History(Popped(h.heap), h.pushed, h.popped + [h.heap[0]])
  }

  function Ran(ops: seq<Op>): History {
    if ops == [] then History([], [], []) else After(Ran(ops[..|ops| - 1]), ops[|ops| - 1])
  }

  /** After any sequence of operations the slice is a heap holding the pushes minus the pops. */
  lemma {:induction false} RunsKeepHeap(ops: seq<Op>)
    ensures var h := Ran(ops); IsHeap(h.heap) && multiset(h.heap) + multiset(h.popped) == multiset(h.pushed)
  {
    if ops != [] {
      var h := Ran(ops[..|ops| - 1]);
      RunsKeepHeap(ops[..|ops| - 1]);
      match ops[|ops| - 1]
      case Push(e) => PushKeepsHeap(h.heap, e);
      case Pop => if h.heap != [] { PopKeepsHeap(h.heap); }
    }
  }

  /** In any run, a Pop returns an entry that was pushed and not popped yet, and the earliest such;
      it returns nothing only when there is none. */
  lemma PopReturnsMinimum(ops: seq<Op>)
    ensures var h, left := Ran(ops), multiset(Ran(ops).pushed) - multiset(Ran(ops).popped);
            && (h.heap == [] <==> left == multiset{})
            && (h.heap != [] ==>
                  && h.heap[0] in left && IsEarliest(h.heap[0], left)
                  && Ran(ops + [Pop]).popped == h.popped + [h.heap[0]])
  {
    var h := Ran(ops);
    RunsKeepHeap(ops);
    assert multiset(h.pushed) - multiset(h.popped) == multiset(h.heap);
    assert (ops + [Pop])[..|ops|] == ops;
    if h.heap != [] {
      TopIsMinimum(h.heap);
    }
  }

  function Drained(s: Heap): seq<Entry>
    decreases |s|
  {
    if s == [] then [] else PopKeepsHeap(s); [s[0]] + Drained(Popped(s))
  }

  ghost predicate Sorted(s: seq<Entry>) {
    forall i, j | 0 <= i < j < |s| :: s[i].date <= s[j].date
  }

  lemma {:induction false} DrainKeeps(s: Heap)
    ensures multiset(Drained(s)) == multiset(s)
    decreases |s|
  {
    if s != [] {
      PopKeepsHeap(s);
      DrainKeeps(Popped(s));
    }
  }

  /** Popping until the heap is empty gives all its entries, sorted by date. */
  lemma {:induction false} DrainSorts(s: Heap)
    requires IsHeap(s)
    ensures Sorted(Drained(s)) && multiset(Drained(s)) == multiset(s)
    decreases |s|
  {
    DrainKeeps(s);
    if s != [] {
      PopKeepsHeap(s);
      DrainSorts(Popped(s));
      TopIsMinimum(s);
      LaterFollow(s[0], Drained(Popped(s)), multiset(s));
    }
  }

  lemma LaterFollow(e: Entry, rest: seq<Entry>, entries: multiset<Entry>)
    requires IsEarliest(e, entries) && multiset(rest) <= entries && Sorted(rest)
    ensures Sorted([e] + rest)
  {
    forall j | 0 <= j < |rest| ensures e.date <= rest[j].date {
      assert rest[j] in multiset(rest);
    }
  }

  // -------------------------------------------------------------- the class

  class ExpirationHeap {
    var heap: Heap

    constructor ()
      ensures heap == []
    {
      heap := [];
    }

    method SiftDown(start: nat)
      modifies this
      ensures heap == SiftedDown(old(heap), start)
    {
      var i: nat := start;
      while true
        invariant SiftedDown(heap, i) == SiftedDown(old(heap), start)
        decreases |heap| - i
      {
        var l, r, m := 2 * i + 1, 2 * i + 2, i;
        if l < |heap| && heap[l].date < heap[m].date { m := l; }
        if r < |heap| && heap[r].date < heap[m].date { m := r; }
        if m == i { break; }
        heap := heap[m := heap[i]][i := heap[m]];
        i := m;
      }
    }

    method Heapify()
      modifies this
      ensures heap == Heapified(old(heap))
    {
      var i: int := |heap| / 2;
      while i >= 0
        invariant HeapifiedFrom(heap, i) == Heapified(old(heap))
        decreases i
      {
        SiftDown(i);
        i := i - 1;
      }
    }

    /** The heap property and the entries come from PushKeepsHeap and PopKeepsHeap. */
    method Push(hash: string, date: int)
      modifies this
      ensures heap == Pushed(old(heap), Entry(hash, date))
      ensures IsHeap(heap) && multiset(heap) == multiset(old(heap)) + multiset{Entry(hash, date)}
    {
      PushKeepsHeap(heap, Entry(hash, date));
      heap := heap + [Entry(hash, date)];
      heap := heap[|heap| - 1 := heap[0]][0 := heap[|heap| - 1]];
      Heapify();
    }

    method Peek() returns (e: Option<Entry>)
      requires IsHeap(heap)
      ensures e.None? <==> heap == []
      ensures e.Some? ==> e.value in multiset(heap) && IsEarliest(e.value, multiset(heap))
    {
      if |heap| == 0 { return None; }
      TopIsMinimum(heap);
      return Some(heap[0]);
    }

    method Pop() returns (e: Option<Entry>)
      requires IsHeap(heap)
      modifies this
      ensures e.None? <==> old(heap) == []
      ensures e.None? ==> heap == []
      ensures e.Some? ==>
                && heap == Popped(old(heap)) && IsHeap(heap)
                && multiset(heap) + multiset{e.value} == multiset(old(heap))
                && IsEarliest(e.value, multiset(old(heap)))
    {
      if |heap| == 0 { return None; }
      TopIsMinimum(heap);
      PopKeepsHeap(heap);
      e := Some(heap[0]);
      heap := heap[0 := heap[|heap| - 1]];
      heap := heap[..|heap| - 1];
      Heapify();
    }
  }
}
