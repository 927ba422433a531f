/** What a Get of the layered cache returns, exactly, and when that may be out of date. */
module ChainReads {
  import opened Common
  import opened ChainStorage

  // ---------------------------------------------------------------- the search

  /** An object with a date is out of date after it; one without never is. */
  predicate OutOfDate(o: Object, now: int) { 0 < o.expires < now }

  /** Layer j has the key and, if it keeps its objects in memory, not out of date. */
  predicate Answers(kinds: seq<Kind>, layers: seq<Layer>, j: int, k: string, now: int)
    requires |kinds| == |layers|
  {
    0 <= j < |layers| && k in layers[j] && (kinds[j].Volatile? ==> !OutOfDate(layers[j][k], now))
  }

  /** A layer after it was searched in vain. */
  function Passed(kind: Kind, layer: Layer, k: string): Layer { if kind.Volatile? then layer - {k} else layer }

  /** Layers i, ..., r.i - 1 were searched in vain, the others not touched. */
  ghost predicate PassedOver(kinds: seq<Kind>, layers: seq<Layer>, i: int, r: Found, k: string)
    requires |kinds| == |layers|
  {
    && |r.layers| == |layers|
    && (forall j | 0 <= j < |layers| ::
          r.layers[j] == if i <= j < r.i then Passed(kinds[j], layers[j], k) else layers[j])
  }

  function Served(kind: Kind, o: Object, date: int): Object { if kind.Remote? then Object(o.data, date) else o }

  /** The search finds the key in the first layer that answers, and nowhere if none does; on the way
      it removes what is out of date. */
  lemma {:induction false} SearchExactly(
    kinds: seq<Kind>, layers: seq<Layer>, i: nat, k: string, now: int, date: int)
    requires |kinds| == |layers| && i <= |layers|
    ensures var r := FindFrom(kinds, layers, i, k, now, date);
            && (forall j | i <= j < r.i :: !Answers(kinds, layers, j, k, now))
            && (r.i < |layers| <==> Answers(kinds, layers, r.i, k, now))
            && r.found == (if r.i < |layers| then Some(Served(kinds[r.i], layers[r.i][k], date)) else None)
            && PassedOver(kinds, layers, i, r, k)
    decreases |layers| - i
  {
    if i < |layers| {
      var (l, o) := GetLayer(kinds[i], layers[i], k, now, date);
      if o.None? {
        assert l == Passed(kinds[i], layers[i], k);
        var rest := layers[i := l];
        SearchExactly(kinds, rest, i + 1, k, now, date);
        forall j | i < j ensures Answers(kinds, rest, j, k, now) == Answers(kinds, layers, j, k, now) { }
      } else {
        assert layers[i := l] == layers;
      }
    }
  }

  // ---------------------------------------------------------- after a Put

  /** What was put last is what is got next, as long as it is not out of date. */
  lemma PutThenGet(kinds: seq<Kind>, s: State, k: string, o: Object, now: int, date: int)
    requires Sized(kinds, s) && VolatileFirst(kinds) && kinds != []
    requires PutSucceeds(kinds, s, k, o) && !OutOfDate(o, now)
    ensures ResultOf(kinds, Next(kinds, s, DoPut(k, o)).layers, k, now, date) == Hit(Some(Served(kinds[0], o, date)))
  {
    PutIsAtomic(kinds, s.layers, k, o);
    var layers := Next(kinds, s, DoPut(k, o)).layers;
    SearchExactly(kinds, layers, 0, k, now, date);
    assert Answers(kinds, layers, 0, k, now);
  }

  // ---------------------------------------------------------- after a backfill

  lemma {:induction false} FillReaches(kinds: seq<Kind>, layers: seq<Layer>, f: Fill)
    requires |kinds| == |layers| && 0 < f.i <= |layers|
    requires forall j | 0 <= j < f.i && kinds[j].Volatile? :: f.k !in layers[j]
    ensures var r := Backfilled(kinds, layers, f);
            forall j | 0 <= j < |layers| :: r[j] == if j < f.i then layers[j][f.k := f.o] else layers[j]
    decreases f.i
  {
    var r := FillOnce(kinds, layers, f);
    if r.rest.Some? { FillReaches(kinds, r.layers, r.rest.value); }
  }

  /** The backfill of a Get that found its object below the first layer puts it into every layer above,
      refused nowhere; the next Get finds it in the first. */
  lemma BackfillReaches(kinds: seq<Kind>, layers: seq<Layer>, k: string, now: int, date: int)
    requires |kinds| == |layers|
    requires FillFor(FindFrom(kinds, layers, 0, k, now, date), k).Some?
    ensures var r := FindFrom(kinds, layers, 0, k, now, date);
            var filled := Backfilled(kinds, r.layers, FillFor(r, k).value);
            && (forall j | 0 <= j < |layers| ::
                  filled[j] == if j < r.i then r.layers[j][k := r.found.value] else layers[j])
            && (!OutOfDate(r.found.value, now) ==> FindFrom(kinds, filled, 0, k, now, date).i == 0)
  {
    var r := FindFrom(kinds, layers, 0, k, now, date);
    var f := FillFor(r, k).value;
    SearchExactly(kinds, layers, 0, k, now, date);
    FillReaches(kinds, r.layers, f);
    var filled := Backfilled(kinds, r.layers, f);
    assert filled[0] == r.layers[0][k := f.o];
  }

  /** The steps of the backfill that Get g left behind, with nothing in between. */
  function Steps(g: nat, n: nat): seq<Event> { seq(n, _ => Step(g)) }

  lemma StepsSplit(events: seq<Event>, g: nat, n: nat)
    requires n > 0
    ensures events + Steps(g, n) == events + [Step(g)] + Steps(g, n - 1)
  {
    assert Steps(g, n) == [Step(g)] + Steps(g, n - 1);
  }

  lemma {:induction false} IdleSteps(kinds: seq<Kind>, events: seq<Event>, g: nat, more: seq<Event>)
    requires g !in Run(kinds, events).fills && forall i | 0 <= i < |more| :: more[i] == Step(g)
    ensures Run(kinds, events + more) == Run(kinds, events)
  {
    if more == [] {
      assert events + more == events;
    } else {
      var front := more[..|more| - 1];
      IdleSteps(kinds, events, g, front);
      assert events + more == (events + front) + [Step(g)];
      RunNext(kinds, events + front, Step(g));
    }
  }

  lemma OneStep(kinds: seq<Kind>, s: State, g: nat)
    requires Sized(kinds, s) && g in s.fills
    ensures var t, f := Next(kinds, s, Step(g)), s.fills[g];
            && t.stored == s.stored && t.fills - {g} == s.fills - {g}
            && (g in t.fills ==> t.fills[g].i == f.i - 1)
            && Backfilled(kinds, s.layers, f)
               == if g in t.fills then Backfilled(kinds, t.layers, t.fills[g]) else t.layers
  {
  }

  /** As many steps as there are layers above complete the backfill. */
  lemma {:induction false} StepsFinish(kinds: seq<Kind>, events: seq<Event>, g: nat)
    requires g in Run(kinds, events).fills
    ensures var s, f := Run(kinds, events), Run(kinds, events).fills[g];
            Run(kinds, events + Steps(g, f.i)) == s.(layers := Backfilled(kinds, s.layers, f), fills := s.fills - {g})
    decreases Run(kinds, events).fills[g].i
  {
    var s, f := Run(kinds, events), Run(kinds, events).fills[g];
    var next := events + [Step(g)];
    RunNext(kinds, events, Step(g));
    OneStep(kinds, s, g);
    StepsSplit(events, g, f.i);
    if g in Run(kinds, next).fills {
      StepsFinish(kinds, next, g);
    } else {
      IdleSteps(kinds, next, g, Steps(g, f.i - 1));
    }
  }

  /** A Get after any run: layers in memory that were passed over no longer have the key, and a backfill
      is under way exactly if the object was found below the first layer. */
  lemma GetExactly(kinds: seq<Kind>, events: seq<Event>, g: nat, k: string, now: int, date: int)
    requires g !in Run(kinds, events).fills
    ensures var s, t := Run(kinds, events), Run(kinds, events + [Find(g, k, now, date)]);
            var r := FindFrom(kinds, s.layers, 0, k, now, date);
            && t.layers == r.layers && PassedOver(kinds, s.layers, 0, r, k) && t.stored == s.stored
            && t.fills == if r.found.Some? && r.i > 0 then s.fills[g := Fill(k, r.found.value, r.i)] else s.fills
  {
    RunNext(kinds, events, Find(g, k, now, date));
    SearchExactly(kinds, Run(kinds, events).layers, 0, k, now, date);
  }

  /** Its backfill, with nothing in between: every layer above the one that answered has the object, and
      the backfill is over. */
  lemma GetThenBackfill(kinds: seq<Kind>, events: seq<Event>, g: nat, k: string, now: int, date: int)
    requires g !in Run(kinds, events).fills
    requires var r := FindFrom(kinds, Run(kinds, events).layers, 0, k, now, date); r.found.Some? && r.i > 0
    ensures var s := Run(kinds, events);
            var r := FindFrom(kinds, s.layers, 0, k, now, date);
            var t := Run(kinds, events + [Find(g, k, now, date)] + Steps(g, r.i));
            && t.fills == s.fills && t.stored == s.stored
            && forall j | 0 <= j < r.i :: t.layers[j] == r.layers[j][k := r.found.value]
  {
    var s := Run(kinds, events);
    GetExactly(kinds, events, g, k, now, date);
    StepsFinish(kinds, events + [Find(g, k, now, date)], g);
    BackfillReaches(kinds, s.layers, k, now, date);
  }

  // ------------------------------------------------------------- out of date

  /** Every object that a Get at a certain time finds is not out of date then. */
  ghost predicate FreshAnswer(kinds: seq<Kind>, s: State, k: string, now: int, date: int)
    requires Sized(kinds, s)
  {
    var g := ResultOf(kinds, s.layers, k, now, date);
    g.Hit? && g.found.Some? ==> !OutOfDate(g.found.value, now)
  }

  ghost predicate AlwaysFresh(kinds: seq<Kind>, s: State)
    requires Sized(kinds, s)
  {
    forall k, now, date :: FreshAnswer(kinds, s, k, now, date)
  }

  /** Only a layer in memory looks at the date: an object out of date is served from any other. */
  lemma OldObjectIsServed(kinds: seq<Kind>, j: nat, k: string, o: Object, now: int)
    requires j < |kinds| && !kinds[j].Volatile? && OutOfDate(o, now)
    ensures !AlwaysFresh(kinds, Run(kinds, PutThenEvict(k, o, j)))
  {
    PutThenEvicted(kinds, k, o, j);
    var s := Run(kinds, PutThenEvict(k, o, j));
    SearchExactly(kinds, s.layers, 0, k, now, o.expires);
    assert Answers(kinds, s.layers, j, k, now);
    assert !FreshAnswer(kinds, s, k, now, o.expires);
  }

  /** No Get ever returns an object that is out of date, after any run, exactly when all layers are in
      memory. */
  lemma FreshExactly(kinds: seq<Kind>)
    ensures (forall events :: AlwaysFresh(kinds, Run(kinds, events)))
       <==> forall j | 0 <= j < |kinds| :: kinds[j].Volatile?
  {
    if j :| 0 <= j < |kinds| && !kinds[j].Volatile? {
      OldObjectIsServed(kinds, j, "", Object("", 1), 2);
    } else {
      forall events ensures AlwaysFresh(kinds, Run(kinds, events)) {
        var s := Run(kinds, events);
        forall k, now, date ensures FreshAnswer(kinds, s, k, now, date) {
          SearchExactly(kinds, s.layers, 0, k, now, date);
        }
      }
    }
  }
}
