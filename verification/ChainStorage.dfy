/** The layered cache of pkg/storage/chain.go over the stores it is built from. */
module ChainStorage {
  import opened Common

  /** An expiration date of zero means that the object does not expire. */
  datatype Object = Object(data: string, expires: int)

  type Layer = map<string, Object>

  /** The in-memory store refuses a key it already has and drops expired objects when it is asked
      for them. The local and the remote store overwrite. The remote store does not keep the date:
      what it returns carries the bucket's own. */
  datatype Kind = Volatile | Local | Remote

  function PutLayer(kind: Kind, layer: Layer, k: string, o: Object): Option<Layer> {
    if kind.Volatile? && k in layer then None else Some(layer[k := o])
  }

  predicate Expired(o: Object, now: int) { o.expires > 0 && o.expires < now }

  /** The layer afterwards, and the object found; date is the one a bucket would report. */
  function GetLayer(kind: Kind, layer: Layer, k: string, now: int, date: int): (Layer, Option<Object>) {
    if k !in layer then (layer, None)
    else
      match kind
      case Volatile => if Expired(layer[k], now) then (layer - {k}, None) else (layer, Some(layer[k]))
      case Local => (layer, Some(layer[k]))
      case Remote => (layer, Some(layer[k].(expires := date)))
  }

  datatype Stored = Stored(layers: seq<Layer>, ok: bool)

  /** Put from layer i on: in order, up to the first refusal. */
  function PutFrom(kinds: seq<Kind>, layers: seq<Layer>, i: nat, k: string, o: Object): (r: Stored)
    requires |kinds| == |layers|
    ensures |r.layers| == |layers|
    decreases |layers| - i
  {
    if i >= |layers| then Stored(layers, true) else
    var l := PutLayer(kinds[i], layers[i], k, o);
    if l.None? then Stored(layers, false) else PutFrom(kinds, layers[i := l.value], i + 1, k, o)
  }

  datatype Found = Found(layers: seq<Layer>, i: nat, found: Option<Object>)

  /** The search from layer i on: the first layer that has the key, or the number of layers. */
  function FindFrom(kinds: seq<Kind>, layers: seq<Layer>, i: nat, k: string, now: int, date: int): (r: Found)
    requires |kinds| == |layers| && i <= |layers|
    ensures |r.layers| == |layers| && i <= r.i <= |layers| && (r.found.Some? ==> r.i < |layers|)
    decreases |layers| - i
  {
    if i == |layers| then Found(layers, i, None) else
    var (l, o) := GetLayer(kinds[i], layers[i], k, now, date);
    if o.Some? then Found(layers[i := l], i, o) else FindFrom(kinds, layers[i := l], i + 1, k, now, date)
  }

  /** What Get returns. With no layers it reports success and no object. */
  datatype Got = Hit(found: Option<Object>) | Miss

  function ResultOf(kinds: seq<Kind>, layers: seq<Layer>, k: string, now: int, date: int): Got
    requires |kinds| == |layers|
  {
    var r := FindFrom(kinds, layers, 0, k, now, date);
    if r.found.Some? then Hit(r.found) else if layers == [] then Hit(None) else Miss
  }

  /** Without layers every Get reports success and no object; with layers a success has one. */
  lemma SuccessWithoutObject(kinds: seq<Kind>, layers: seq<Layer>, k: string, now: int, date: int)
    requires |kinds| == |layers|
    ensures ResultOf(kinds, layers, k, now, date) == Hit(None) <==> layers == []
  {
  }

  /** The goroutine a Get leaves behind: it has yet to put o into layers i - 1, ..., 0. */
  datatype Fill = Fill(k: string, o: Object, i: nat)

  /** The backfill for what a search found, if there is a layer above. */
  function FillFor(r: Found, k: string): Option<Fill> {
    if r.found.Some? && r.i > 0 then Some(Fill(k, r.found.value, r.i)) else None
  }

  datatype Filled = Filled(layers: seq<Layer>, rest: Option<Fill>)

  /** One Put of a backfill; it ends at the first layer or at a refusal. */
  function FillOnce(kinds: seq<Kind>, layers: seq<Layer>, f: Fill): (r: Filled)
    requires |kinds| == |layers| && 0 < f.i <= |layers|
    ensures |r.layers| == |layers|
  {
    var l := PutLayer(kinds[f.i - 1], layers[f.i - 1], f.k, f.o);
    if l.None? then Filled(layers, None)
    else Filled(layers[f.i - 1 := l.value], if f.i == 1 then None else Some(f.(i := f.i - 1)))
  }

  /** A whole backfill, undisturbed. */
  function Backfilled(kinds: seq<Kind>, layers: seq<Layer>, f: Fill): (r: seq<Layer>)
    requires |kinds| == |layers| && 0 < f.i <= |layers|
    ensures |r| == |layers|
    decreases f.i
  {
    var r := FillOnce(kinds, layers, f);
    if r.rest.None? then r.layers else Backfilled(kinds, r.layers, r.rest.value)
  }

  // ------------------------------------------------------------------- runs

  /** A Put, the search of Get g, one step of the backfill Get g left behind, an eviction. */
  datatype Event =
    | DoPut(k: string, o: Object)
    | Find(g: nat, k: string, now: int, date: int)
    | Step(g: nat)
    | Evict(i: nat, k: string)

  /** The layers, for each key the object of its last successful Put, and the backfills under way. */
  datatype State = State(layers: seq<Layer>, stored: map<string, Object>, fills: map<nat, Fill>)

  ghost predicate Sized(kinds: seq<Kind>, s: State) {
    |kinds| == |s.layers| && forall g | g in s.fills :: 0 < s.fills[g].i <= |s.layers|
  }

  function NextFind(kinds: seq<Kind>, s: State, g: nat, k: string, now: int, date: int): State
    requires Sized(kinds, s)
  {
    if g in s.fills then s else
    var r := FindFrom(kinds, s.layers, 0, k, now, date);
    var f := FillFor(r, k);
    s.(layers := r.layers, fills := if f.Some? then s.fills[g := f.value] else s.fills)
  }

  function NextStep(kinds: seq<Kind>, s: State, g: nat): State
    requires Sized(kinds, s)
  {
    if g !in s.fills then s else
    var r := FillOnce(kinds, s.layers, s.fills[g]);
    s.(layers := r.layers, fills := if r.rest.Some? then s.fills[g := r.rest.value] else s.fills - {g})
  }

  /** The state after an event; events that cannot happen change nothing. */
  function Next(kinds: seq<Kind>, s: State, ev: Event): (t: State)
    requires Sized(kinds, s)
    ensures Sized(kinds, t)
  {
    match ev
    case DoPut(k, o) =>
      var r := PutFrom(kinds, s.layers, 0, k, o);
      s.(layers := r.layers, stored := if r.ok then s.stored[k := o] else s.stored)
    case Find(g, k, now, date) => NextFind(kinds, s, g, k, now, date)
    case Step(g) => NextStep(kinds, s, g)
    case Evict(i, k) => if i < |s.layers| then s.(layers := s.layers[i := s.layers[i] - {k}]) else s
  }

  function Run(kinds: seq<Kind>, events: seq<Event>): (s: State)
    ensures Sized(kinds, s)
  {
    if events == [] then State(seq(|kinds|, _ => map[]), map[], map[])
    else Next(kinds, Run(kinds, events[..|events| - 1]), events[|events| - 1])
  }

  lemma RunNext(kinds: seq<Kind>, events: seq<Event>, ev: Event)
    ensures Run(kinds, events + [ev]) == Next(kinds, Run(kinds, events), ev)
  {
    assert (events + [ev])[..|events|] == events;
  }

  // ---------------------------------------------------------------- one map

  /** Two objects are the same, with or without regard to their dates. */
  predicate Same(a: Object, b: Object, dates: bool) {
    a.data == b.data && (dates ==> a.expires == b.expires)
  }

  /** Every layer that has a key, and every backfill of it, has the object of its last successful Put. */
  ghost predicate LayersAgree(layers: seq<Layer>, stored: map<string, Object>, dates: bool) {
    forall i, k | 0 <= i < |layers| && k in layers[i] :: k in stored && Same(layers[i][k], stored[k], dates)
  }

  ghost predicate FillsAgree(s: State, dates: bool) {
    forall g | g in s.fills :: s.fills[g].k in s.stored && Same(s.fills[g].o, s.stored[s.fills[g].k], dates)
  }

  ghost predicate Agree(s: State, dates: bool) {
    LayersAgree(s.layers, s.stored, dates) && FillsAgree(s, dates)
  }

  /** No volatile layer below the first one. */
  ghost predicate VolatileFirst(kinds: seq<Kind>) {
    forall i | 0 < i < |kinds| :: !kinds[i].Volatile?
  }

  ghost predicate NoRemote(kinds: seq<Kind>) {
    forall i | 0 <= i < |kinds| :: !kinds[i].Remote?
  }

  predicate PutSucceeds(kinds: seq<Kind>, s: State, k: string, o: Object)
    requires |kinds| == |s.layers|
  {
    PutFrom(kinds, s.layers, 0, k, o).ok
  }

  /** No backfill of key k with another object is under way. */
  ghost predicate Undisturbed(s: State, k: string, o: Object, dates: bool) {
    forall g | g in s.fills && s.fills[g].k == k :: Same(s.fills[g].o, o, dates)
  }

  /** A Put that succeeds finds no backfill of its key with another object under way. */
  ghost predicate Proper(kinds: seq<Kind>, s: State, ev: Event, dates: bool)
    requires Sized(kinds, s)
  {
    ev.DoPut? && PutSucceeds(kinds, s, ev.k, ev.o) ==> Undisturbed(s, ev.k, ev.o, dates)
  }

  /** All events from position n on are proper. */
  ghost predicate ProperFrom(kinds: seq<Kind>, events: seq<Event>, n: nat, dates: bool) {
    forall j | n <= j < |events| :: Proper(kinds, Run(kinds, events[..j]), events[j], dates)
  }

  lemma {:induction false} PutOverwrites(kinds: seq<Kind>, layers: seq<Layer>, i: nat, k: string, o: Object)
    requires |kinds| == |layers| && 0 < i <= |layers| && VolatileFirst(kinds)
    ensures var r := PutFrom(kinds, layers, i, k, o);
            && r.ok
            && (forall j | 0 <= j < i :: r.layers[j] == layers[j])
            && (forall j | i <= j < |layers| :: r.layers[j] == layers[j][k := o])
    decreases |layers| - i
  {
    if i < |layers| { PutOverwrites(kinds, layers[i := layers[i][k := o]], i + 1, k, o); }
  }

  /** With the volatile layer first, Put changes all layers or none. */
  lemma PutIsAtomic(kinds: seq<Kind>, layers: seq<Layer>, k: string, o: Object)
    requires |kinds| == |layers| && VolatileFirst(kinds)
    ensures var r := PutFrom(kinds, layers, 0, k, o);
            && (!r.ok <==> layers != [] && kinds[0].Volatile? && k in layers[0])
            && (!r.ok ==> r.layers == layers)
            && (r.ok ==> forall j | 0 <= j < |layers| :: r.layers[j] == layers[j][k := o])
  {
    if layers != [] && PutLayer(kinds[0], layers[0], k, o).Some? {
      PutOverwrites(kinds, layers[0 := layers[0][k := o]], 1, k, o);
    }
  }

  lemma {:induction false} FindAgrees(
    kinds: seq<Kind>, layers: seq<Layer>, i: nat, k: string, now: int, date: int,
    stored: map<string, Object>, dates: bool)
    requires |kinds| == |layers| && i <= |layers| && LayersAgree(layers, stored, dates) && (dates ==> NoRemote(kinds))
    ensures var r := FindFrom(kinds, layers, i, k, now, date);
            && LayersAgree(r.layers, stored, dates)
            && (r.found.Some? ==> k in stored && Same(r.found.value, stored[k], dates))
    decreases |layers| - i
  {
    if i < |layers| {
      var (l, o) := GetLayer(kinds[i], layers[i], k, now, date);
      if o.None? { FindAgrees(kinds, layers[i := l], i + 1, k, now, date, stored, dates); }
    }
  }

  lemma PutAgrees(kinds: seq<Kind>, s: State, k: string, o: Object, dates: bool)
    requires Sized(kinds, s) && VolatileFirst(kinds) && Agree(s, dates) && Proper(kinds, s, DoPut(k, o), dates)
    ensures Agree(Next(kinds, s, DoPut(k, o)), dates)
  {
    PutIsAtomic(kinds, s.layers, k, o);
  }

  lemma NextAgrees(kinds: seq<Kind>, s: State, ev: Event, dates: bool)
    requires Sized(kinds, s) && VolatileFirst(kinds) && (dates ==> NoRemote(kinds))
    requires Agree(s, dates) && Proper(kinds, s, ev, dates)
    ensures Agree(Next(kinds, s, ev), dates)
  {
    match ev
    case DoPut(k, o) => PutAgrees(kinds, s, k, o, dates);
    case Find(_, k, now, date) => FindAgrees(kinds, s.layers, 0, k, now, date, s.stored, dates);
    case Step(_) =>
    case Evict(_, _) =>
  }

  lemma ProperFront(kinds: seq<Kind>, events: seq<Event>, dates: bool)
    requires events != [] && ProperFrom(kinds, events, 0, dates)
    ensures ProperFrom(kinds, events[..|events| - 1], 0, dates)
    ensures Proper(kinds, Run(kinds, events[..|events| - 1]), events[|events| - 1], dates)
  {
    var front := events[..|events| - 1];
    assert forall j | 0 <= j < |front| :: front[..j] == events[..j];
  }

  /** After any run in which Puts do not overlap backfills of their key with another object, all
      layers that have a key agree with its last successful Put, the volatile layer being first. */
  lemma {:induction false} RunAgrees(kinds: seq<Kind>, events: seq<Event>, dates: bool)
    requires VolatileFirst(kinds) && (dates ==> NoRemote(kinds)) && ProperFrom(kinds, events, 0, dates)
    ensures Agree(Run(kinds, events), dates)
  {
    if events != [] {
      ProperFront(kinds, events, dates);
      RunAgrees(kinds, events[..|events| - 1], dates);
      NextAgrees(kinds, Run(kinds, events[..|events| - 1]), events[|events| - 1], dates);
    }
  }

  /** A Get that finds an object finds that of the key's last successful Put. */
  ghost predicate RightAnswer(kinds: seq<Kind>, s: State, k: string, now: int, date: int, dates: bool)
    requires Sized(kinds, s)
  {
    var g := ResultOf(kinds, s.layers, k, now, date);
    g.Hit? && g.found.Some? ==> k in s.stored && Same(g.found.value, s.stored[k], dates)
  }

  /** Every Get answers right. */
  ghost predicate Faithful(kinds: seq<Kind>, s: State, dates: bool)
    requires Sized(kinds, s)
  {
    forall k, now, date :: RightAnswer(kinds, s, k, now, date, dates)
  }

  lemma AgreeIsFaithful(kinds: seq<Kind>, s: State, dates: bool)
    requires Sized(kinds, s) && (dates ==> NoRemote(kinds)) && Agree(s, dates)
    ensures Faithful(kinds, s, dates)
  {
    forall k, now, date ensures RightAnswer(kinds, s, k, now, date, dates) {
      FindAgrees(kinds, s.layers, 0, k, now, date, s.stored, dates);
    }
  }

  // ----------------------------------------------- runs that go wrong, exactly

  /** The key is evicted from layers 0, ..., n - 1. */
  function Evictions(n: nat, k: string): seq<Event> {
    if n == 0 then [] else Evictions(n - 1, k) + [Evict(n - 1, k)]
  }

  ghost predicate PutFree(events: seq<Event>) { forall j | 0 <= j < |events| :: !events[j].DoPut? }

  lemma {:induction false} EvictionsPutNothing(n: nat, k: string)
    ensures PutFree(Evictions(n, k))
  {
    if n > 0 { EvictionsPutNothing(n - 1, k); }
  }

  lemma {:induction false} EvictedFrom(kinds: seq<Kind>, events: seq<Event>, n: nat, k: string)
    requires n <= |kinds|
    ensures var s, t := Run(kinds, events), Run(kinds, events + Evictions(n, k));
            && t.stored == s.stored && t.fills == s.fills
            && (forall j | 0 <= j < n :: k !in t.layers[j])
            && (forall j | n <= j < |kinds| :: t.layers[j] == s.layers[j])
  {
    if n == 0 {
      assert events + Evictions(n, k) == events;
    } else {
      EvictedFrom(kinds, events, n - 1, k);
      assert events + Evictions(n, k) == (events + Evictions(n - 1, k)) + [Evict(n - 1, k)];
      RunNext(kinds, events + Evictions(n - 1, k), Evict(n - 1, k));
    }
  }

  /** The first layer that has the key answers, unless it is volatile and the object expired. */
  lemma {:induction false} FoundAt(kinds: seq<Kind>, layers: seq<Layer>, i: nat, j: nat, k: string, now: int, date: int)
    requires |kinds| == |layers| && i <= j < |layers| && k in layers[j] && (forall m | i <= m < j :: k !in layers[m])
    requires now <= layers[j][k].expires || layers[j][k].expires <= 0
    ensures var r, o := FindFrom(kinds, layers, i, k, now, date), layers[j][k];
            r.i == j && r.layers == layers && r.found == Some(if kinds[j].Remote? then o.(expires := date) else o)
    decreases j - i
  {
    if i < j {
      assert layers[i := layers[i]] == layers;
      FoundAt(kinds, layers, i + 1, j, k, now, date);
    } else {
      assert layers[i := layers[i]] == layers;
    }
  }

  lemma {:induction false} FreshPut(kinds: seq<Kind>, layers: seq<Layer>, i: nat, k: string, o: Object)
    requires |kinds| == |layers| && i <= |layers| && forall j | i <= j < |layers| :: k !in layers[j]
    ensures var r := PutFrom(kinds, layers, i, k, o);
            && r.ok
            && (forall j | 0 <= j < i :: r.layers[j] == layers[j])
            && (forall j | i <= j < |layers| :: r.layers[j] == layers[j][k := o])
    decreases |layers| - i
  {
    if i < |layers| { FreshPut(kinds, layers[i := layers[i][k := o]], i + 1, k, o); }
  }

  lemma {:induction false} RefusedPut(kinds: seq<Kind>, layers: seq<Layer>, i: nat, j: nat, k: string, o: Object)
    requires |kinds| == |layers| && i <= j < |layers| && kinds[j].Volatile? && k in layers[j]
    ensures var r := PutFrom(kinds, layers, i, k, o);
            !r.ok && forall m | 0 <= m < i :: r.layers[m] == layers[m]
    decreases |layers| - i
  {
    var l := PutLayer(kinds[i], layers[i], k, o);
    if l.Some? { RefusedPut(kinds, layers[i := l.value], i + 1, j, k, o); }
  }

  /** One Put into an empty chain, then evictions from the first n layers. */
  function PutThenEvict(k: string, o: Object, n: nat): seq<Event> { [DoPut(k, o)] + Evictions(n, k) }

  lemma PutThenEvicted(kinds: seq<Kind>, k: string, o: Object, n: nat)
    requires n <= |kinds|
    ensures var s := Run(kinds, PutThenEvict(k, o, n));
            && s.stored == map[k := o] && s.fills == map[]
            && (forall j | 0 <= j < n :: k !in s.layers[j])
            && (forall j | n <= j < |kinds| :: s.layers[j] == map[k := o])
  {
    assert [] + [DoPut(k, o)] == [DoPut(k, o)];
    RunNext(kinds, [], DoPut(k, o));
    FreshPut(kinds, Run(kinds, []).layers, 0, k, o);
    EvictedFrom(kinds, [DoPut(k, o)], n, k);
  }

  /** A run in which only Puts made while no backfill is under way occur is proper. */
  lemma ProperWithoutFills(kinds: seq<Kind>, events: seq<Event>, dates: bool)
    requires forall j | 0 <= j < |events| && events[j].DoPut? :: Run(kinds, events[..j]).fills == map[]
    ensures ProperFrom(kinds, events, 0, dates)
  {
  }

  lemma RefusedState(kinds: seq<Kind>, j: nat, k: string, kept: Object, refused: Object)
    requires 0 < j < |kinds| && kinds[j].Volatile?
    ensures var before := PutThenEvict(k, kept, 1);
            var t := Run(kinds, before + [DoPut(k, refused)]);
            && !PutSucceeds(kinds, Run(kinds, before), k, refused)
            && t.stored == map[k := kept] && k in t.layers[0] && t.layers[0][k] == refused
  {
    var before := PutThenEvict(k, kept, 1);
    PutThenEvicted(kinds, k, kept, 1);
    RunNext(kinds, before, DoPut(k, refused));
    var layers := Run(kinds, before).layers;
    RefusedPut(kinds, layers[0 := layers[0][k := refused]], 1, j, k, refused);
  }

  /** A volatile layer at index j > 0 refuses the second Put of a key after the layers above it
      have taken it: the Put fails, and Get returns its object all the same. */
  lemma FailedPutIsServed(kinds: seq<Kind>, j: nat, k: string, kept: Object, refused: Object)
    requires 0 < j < |kinds| && kinds[j].Volatile? && kept.data != refused.data
    ensures var events := PutThenEvict(k, kept, 1) + [DoPut(k, refused)];
            && !PutSucceeds(kinds, Run(kinds, PutThenEvict(k, kept, 1)), k, refused)
            && ProperFrom(kinds, events, 0, true) && !Faithful(kinds, Run(kinds, events), false)
  {
    var before := PutThenEvict(k, kept, 1);
    RefusedState(kinds, j, k, kept, refused);
    ServedFrom(kinds, Run(kinds, before + [DoPut(k, refused)]), 0, k, false);
    FailedPutIsProper(kinds, before, k, kept, refused);
  }

  /** The first layer that has the key has another object than the last successful Put. */
  lemma ServedFrom(kinds: seq<Kind>, s: State, j: nat, k: string, dates: bool)
    requires Sized(kinds, s) && j < |s.layers| && k in s.layers[j] && (forall m | 0 <= m < j :: k !in s.layers[m])
    requires k in s.stored && !Same(s.layers[j][k], s.stored[k], dates)
    ensures !Faithful(kinds, s, dates)
  {
    var o := s.layers[j][k];
    FoundAt(kinds, s.layers, 0, j, k, o.expires, o.expires);
    assert !RightAnswer(kinds, s, k, o.expires, o.expires, dates);
  }

  lemma FailedPutIsProper(kinds: seq<Kind>, before: seq<Event>, k: string, kept: Object, refused: Object)
    requires before == PutThenEvict(k, kept, 1) && !PutSucceeds(kinds, Run(kinds, before), k, refused)
    ensures ProperFrom(kinds, before + [DoPut(k, refused)], 0, true)
  {
    var events := before + [DoPut(k, refused)];
    assert Evictions(1, k) == [Evict(0, k)] by { assert Evictions(0, k) == []; }
    assert events == [DoPut(k, kept), Evict(0, k), DoPut(k, refused)];
    assert events[..0] == [] && events[..2] == before;
  }

  /** An object read from a remote layer comes with the bucket's date instead of its own. */
  lemma RemoteDateIsServed(kinds: seq<Kind>, j: nat, k: string, o: Object, date: int)
    requires j < |kinds| && kinds[j].Remote? && date != o.expires
    ensures var events := PutThenEvict(k, o, j);
            && ResultOf(kinds, Run(kinds, events).layers, k, o.expires, date) == Hit(Some(Object(o.data, date)))
            && ProperFrom(kinds, events, 0, true) && !Faithful(kinds, Run(kinds, events), true)
  {
    var events := PutThenEvict(k, o, j);
    PutThenEvicted(kinds, k, o, j);
    var s := Run(kinds, events);
    FoundAt(kinds, s.layers, 0, j, k, o.expires, date);
    assert !RightAnswer(kinds, s, k, o.expires, date, true);
    EvictionsPutNothing(j, k);
    assert events[..0] == [];
    ProperWithoutFills(kinds, events, true);
  }

  /** In runs whose Puts do not overlap backfills of their key with another object, every Get hit
      returns the last successful Put exactly when no layer below the first is volatile and, if
      dates are to be kept too, none is remote. */
  lemma KeptExactly(kinds: seq<Kind>, dates: bool)
    ensures (forall events | ProperFrom(kinds, events, 0, dates) :: Faithful(kinds, Run(kinds, events), dates))
       <==> VolatileFirst(kinds) && (dates ==> NoRemote(kinds))
  {
    if VolatileFirst(kinds) && (dates ==> NoRemote(kinds)) {
      forall events | ProperFrom(kinds, events, 0, dates) ensures Faithful(kinds, Run(kinds, events), dates) {
        RunAgrees(kinds, events, dates);
        AgreeIsFaithful(kinds, Run(kinds, events), dates);
      }
    } else if !VolatileFirst(kinds) {
      var j :| 0 < j < |kinds| && kinds[j].Volatile?;
      var o, p := Object("", 0), Object("x", 0);
      FailedPutIsServed(kinds, j, "", o, p);
      var events := PutThenEvict("", o, 1) + [DoPut("", p)];
      ExactIsStricter(kinds, events, dates);
    } else {
      var j :| 0 <= j < |kinds| && kinds[j].Remote?;
      RemoteDateIsServed(kinds, j, "", Object("", 0), 1);
    }
  }

  lemma ExactIsStricter(kinds: seq<Kind>, events: seq<Event>, dates: bool)
    ensures ProperFrom(kinds, events, 0, true) ==> ProperFrom(kinds, events, 0, dates)
    ensures Faithful(kinds, Run(kinds, events), dates) ==> Faithful(kinds, Run(kinds, events), false)
  {
    var s := Run(kinds, events);
    if Faithful(kinds, s, dates) {
      forall k, now, date ensures RightAnswer(kinds, s, k, now, date, false) {
        assert RightAnswer(kinds, s, k, now, date, dates);
      }
    }
    if ProperFrom(kinds, events, 0, true) {
      forall j | 0 <= j < |events| ensures Proper(kinds, Run(kinds, events[..j]), events[j], dates) {
        assert Proper(kinds, Run(kinds, events[..j]), events[j], true);
      }
    }
  }

  /** The data part: exactly when no layer below the first is volatile. */
  lemma OneMapExactly(kinds: seq<Kind>)
    ensures (forall events | ProperFrom(kinds, events, 0, false) :: Faithful(kinds, Run(kinds, events), false))
       <==> VolatileFirst(kinds)
  {
    KeptExactly(kinds, false);
  }

  /** Data and expiration date: exactly when, besides, no layer is remote. */
  lemma DatesKeptExactly(kinds: seq<Kind>)
    ensures (forall events | ProperFrom(kinds, events, 0, true) :: Faithful(kinds, Run(kinds, events), true))
       <==> VolatileFirst(kinds) && NoRemote(kinds)
  {
    KeptExactly(kinds, true);
  }

  // ---------------------------------------------------------- late backfills

  /** A continuation in which the backfill of Get g writes after the key has left the layers above. */
  function Undoing(g: nat, f: Fill): seq<Event> { Evictions(f.i, f.k) + [Step(g)] }

  lemma StepAfterEvictions(kinds: seq<Kind>, events: seq<Event>, g: nat)
    requires g in Run(kinds, events).fills
    ensures var s, f := Run(kinds, events), Run(kinds, events).fills[g];
            var t := Run(kinds, events + Undoing(g, f));
            && t.stored == s.stored && f.k in t.layers[f.i - 1] && t.layers[f.i - 1][f.k] == f.o
            && (forall m | 0 <= m < f.i - 1 :: f.k !in t.layers[m])
  {
    var f := Run(kinds, events).fills[g];
    EvictedFrom(kinds, events, f.i, f.k);
    assert events + Undoing(g, f) == (events + Evictions(f.i, f.k)) + [Step(g)];
    RunNext(kinds, events + Evictions(f.i, f.k), Step(g));
  }

  /** A Put that succeeds while a backfill of its key with another object is under way can be undone:
      a Get later returns the object that was replaced. */
  lemma LatePutIsUndone(kinds: seq<Kind>, events: seq<Event>, k: string, o: Object, g: nat, dates: bool)
    requires PutSucceeds(kinds, Run(kinds, events), k, o) && g in Run(kinds, events).fills
    requires Run(kinds, events).fills[g].k == k && !Same(Run(kinds, events).fills[g].o, o, dates)
    ensures var more := Undoing(g, Run(kinds, events).fills[g]);
            PutFree(more) && !Faithful(kinds, Run(kinds, events + [DoPut(k, o)] + more), dates)
  {
    var f := Run(kinds, events).fills[g];
    RunNext(kinds, events, DoPut(k, o));
    StepAfterEvictions(kinds, events + [DoPut(k, o)], g);
    ServedFrom(kinds, Run(kinds, events + [DoPut(k, o)] + Undoing(g, f)), f.i - 1, k, dates);
    EvictionsPutNothing(f.i, k);
  }

  lemma ProperAt(kinds: seq<Kind>, events: seq<Event>, all: seq<Event>, j: nat, dates: bool)
    requires ProperFrom(kinds, events, 0, dates) && events <= all && j < |events|
    ensures Proper(kinds, Run(kinds, all[..j]), all[j], dates)
  {
    assert all[..j] == events[..j];
  }

  lemma ProperJoined(kinds: seq<Kind>, events: seq<Event>, ev: Event, all: seq<Event>, dates: bool)
    requires ProperFrom(kinds, events, 0, dates) && Proper(kinds, Run(kinds, events), ev, dates)
    requires events + [ev] <= all && ProperFrom(kinds, all, |events| + 1, dates)
    ensures ProperFrom(kinds, all, 0, dates)
  {
    assert all[..|events|] == events && all[|events|] == ev;
    forall j | 0 <= j < |events| ensures Proper(kinds, Run(kinds, all[..j]), all[j], dates) {
      ProperAt(kinds, events, all, j, dates);
    }
  }

  /** Exactly when a Put is safe: after any proper run, every Get in every proper continuation
      returns the last successful Put if and only if no backfill of the key with another object was
      under way at the Put. */
  lemma PutIsSafeExactly(kinds: seq<Kind>, events: seq<Event>, k: string, o: Object, dates: bool)
    requires VolatileFirst(kinds) && (dates ==> NoRemote(kinds)) && ProperFrom(kinds, events, 0, dates)
    requires PutSucceeds(kinds, Run(kinds, events), k, o)
    ensures (forall more | ProperFrom(kinds, events + [DoPut(k, o)] + more, |events| + 1, dates) ::
               Faithful(kinds, Run(kinds, events + [DoPut(k, o)] + more), dates))
       <==> Undisturbed(Run(kinds, events), k, o, dates)
  {
    if Undisturbed(Run(kinds, events), k, o, dates) {
      forall more | ProperFrom(kinds, events + [DoPut(k, o)] + more, |events| + 1, dates)
        ensures Faithful(kinds, Run(kinds, events + [DoPut(k, o)] + more), dates)
      {
        ProperJoined(kinds, events, DoPut(k, o), events + [DoPut(k, o)] + more, dates);
        RunAgrees(kinds, events + [DoPut(k, o)] + more, dates);
        AgreeIsFaithful(kinds, Run(kinds, events + [DoPut(k, o)] + more), dates);
      }
    } else {
      var g :| g in Run(kinds, events).fills && Run(kinds, events).fills[g].k == k
               && !Same(Run(kinds, events).fills[g].o, o, dates);
      var more := Undoing(g, Run(kinds, events).fills[g]);
      LatePutIsUndone(kinds, events, k, o, g, dates);
      ProperWithoutPuts(kinds, events + [DoPut(k, o)], more, dates);
    }
  }

  lemma ProperWithoutPuts(kinds: seq<Kind>, events: seq<Event>, more: seq<Event>, dates: bool)
    requires PutFree(more)
    ensures ProperFrom(kinds, events + more, |events|, dates)
  {
    forall j | |events| <= j < |events + more|
      ensures Proper(kinds, Run(kinds, (events + more)[..j]), (events + more)[j], dates)
    {
      assert (events + more)[j] == more[j - |events|];
    }
  }

  /** The run in which a Get returns a replaced object: put, evict, search (which finds the object in
      layer 1), put anew, evict, and only then the backfill. */
  function ReplacedObjectRun(k: string, before: Object, after: Object): seq<Event> {
    PutThenEvict(k, before, 1) + [Find(0, k, 0, before.expires)] + [DoPut(k, after)]
    + Undoing(0, Fill(k, before, 1))
  }

  lemma FillUnderWay(kinds: seq<Kind>, k: string, o: Object)
    requires |kinds| > 1 && VolatileFirst(kinds)
    ensures var s := Run(kinds, PutThenEvict(k, o, 1) + [Find(0, k, 0, o.expires)]);
            && s.fills == map[0 := Fill(k, o, 1)] && k !in s.layers[0]
  {
    PutThenEvicted(kinds, k, o, 1);
    RunNext(kinds, PutThenEvict(k, o, 1), Find(0, k, 0, o.expires));
    FoundBelow(kinds, Run(kinds, PutThenEvict(k, o, 1)).layers, k, o.expires);
  }

  lemma FoundBelow(kinds: seq<Kind>, layers: seq<Layer>, k: string, date: int)
    requires |kinds| == |layers| > 1 && !kinds[1].Volatile? && k !in layers[0] && k in layers[1]
    ensures var r, o := FindFrom(kinds, layers, 0, k, 0, date), layers[1][k];
            r.i == 1 && r.layers == layers && r.found == Some(if kinds[1].Remote? then o.(expires := date) else o)
  {
    assert layers[0 := layers[0]] == layers && layers[1 := layers[1]] == layers;
  }

  lemma ReplacedObjectIsServed(kinds: seq<Kind>, k: string, before: Object, after: Object)
    requires |kinds| > 1 && VolatileFirst(kinds) && before.data != after.data
    ensures !Faithful(kinds, Run(kinds, ReplacedObjectRun(k, before, after)), false)
  {
    var events := PutThenEvict(k, before, 1) + [Find(0, k, 0, before.expires)];
    FillUnderWay(kinds, k, before);
    PutIsAtomic(kinds, Run(kinds, events).layers, k, after);
    LatePutIsUndone(kinds, events, k, after, 0, false);
  }

  lemma {:induction false} NoFillsInOneLayer(kinds: seq<Kind>, events: seq<Event>)
    requires |kinds| <= 1
    ensures Run(kinds, events).fills == map[]
  {
    if events != [] {
      NoFillsInOneLayer(kinds, events[..|events| - 1]);
      OneLayerStep(kinds, Run(kinds, events[..|events| - 1]), events[|events| - 1]);
    }
  }

  lemma OneLayerStep(kinds: seq<Kind>, s: State, ev: Event)
    requires |kinds| <= 1 && Sized(kinds, s) && s.fills == map[]
    ensures Next(kinds, s, ev).fills == map[]
  {
  }

  /** With backfills as late as they like, the chain is one map after all runs exactly when it has at
      most one layer. */
  lemma LateBackfillsExactly(kinds: seq<Kind>)
    ensures (forall events :: Faithful(kinds, Run(kinds, events), false)) <==> |kinds| <= 1
  {
    if |kinds| <= 1 {
      forall events ensures Faithful(kinds, Run(kinds, events), false) {
        forall j | 0 <= j < |events| ensures Run(kinds, events[..j]).fills == map[] {
          NoFillsInOneLayer(kinds, events[..j]);
        }
        ProperWithoutFills(kinds, events, false);
        RunAgrees(kinds, events, false);
        AgreeIsFaithful(kinds, Run(kinds, events), false);
      }
    } else if VolatileFirst(kinds) {
      ReplacedObjectIsServed(kinds, "", Object("", 0), Object("x", 0));
    } else {
      var j :| 0 < j < |kinds| && kinds[j].Volatile?;
      FailedPutIsServed(kinds, j, "", Object("", 0), Object("x", 0));
    }
  }

  // ------------------------------------------------------------- the class

  class ChainStorageProvider {
    const kinds: seq<Kind>
    var layers: seq<Layer>

    ghost predicate Valid()
      reads this
    {
      |layers| == |kinds|
    }

    constructor (kinds: seq<Kind>)
      ensures Valid() && this.kinds == kinds && layers == Run(kinds, []).layers
    {
      this.kinds := kinds;
      layers := seq(|kinds|, _ => map[]);
    }

    method Put(k: string, o: Object) returns (ok: bool)
      requires Valid()
      modifies this
      ensures Valid() && Stored(layers, ok) == PutFrom(kinds, old(layers), 0, k, o)
    {
      var i := 0;
      while i < |layers|
        invariant Valid() && i <= |layers|
        invariant PutFrom(kinds, layers, i, k, o) == PutFrom(kinds, old(layers), 0, k, o)
      {
        var l := PutLayer(kinds[i], layers[i], k, o);
        if l.None? { return false; }
        layers := layers[i := l.value];
        i := i + 1;
      }
      return true;
    }

    /** The search, its answer, and the backfill that is started. */
    method Get(k: string, now: int, date: int) returns (g: Got, fill: Option<Fill>)
      requires Valid()
      modifies this
      ensures Valid() && g == ResultOf(kinds, old(layers), k, now, date)
      ensures var r := FindFrom(kinds, old(layers), 0, k, now, date); layers == r.layers && fill == FillFor(r, k)
    {
      ghost var all := FindFrom(kinds, layers, 0, k, now, date);
      var i := 0;
      var o: Option<Object> := None;
      while i < |layers|
        invariant Valid() && i <= |layers| && o.None?
        invariant FindFrom(kinds, layers, i, k, now, date) == all
      {
        var (l, found) := GetLayer(kinds[i], layers[i], k, now, date);
        layers, o := layers[i := l], found;
        if o.Some? { break; }
        i := i + 1;
      }
      if o.None? { return if |layers| == 0 then Hit(None) else Miss, None; }
      return Hit(o), if i > 0 then Some(Fill(k, o.value, i)) else None;
    }

    /** The goroutine's loop, where nothing comes between its Puts. */
    method Backfill(f: Fill)
      requires Valid() && 0 < f.i <= |layers|
      modifies this
      ensures Valid() && layers == Backfilled(kinds, old(layers), f)
    {
      var i := f.i - 1;
      while i >= 0
        invariant Valid() && -1 <= i < f.i
        invariant Backfilled(kinds, old(layers), f)
               == if i < 0 then layers else Backfilled(kinds, layers, Fill(f.k, f.o, i + 1))
        decreases i
      {
        var l := PutLayer(kinds[i], layers[i], f.k, f.o);
        if l.None? { break; }
        layers := layers[i := l.value];
        i := i - 1;
      }
    }
  }
}
