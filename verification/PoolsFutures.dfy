/** Who has each future, in every run of the split queue. */
module PoolsFutures {
  import opened Common
  import opened Pools

  datatype Owner =
    | Free
    | Offered(x: Site)
    | Owed(x: Site, c: nat)    // accepted by worker c, pool x has yet to fill it
    | Orphaned(x: Site)        // the same, but the worker was stopped
    | Filled(c: nat)
    | Taken(c: nat)
    | Lost                     // filled, the worker was stopped

  type Owners = map<nat, Owner>

  ghost predicate FreeOk(k: Core, own: Owners) {
    forall f :: k.free[f] == if f in own && own[f].Free? then 1 else 0
  }

  ghost predicate BuffersOk(k: Core, own: Owners) {
    && (forall f :: f in own <==> f in k.buffers)
    && (forall f | f in own :: f in k.buffers && (k.buffers[f].Some? <==> own[f].Filled? || own[f].Lost?))
    && (forall f :: f in k.abandoned <==> f in own && (own[f].Orphaned? || own[f].Lost?))
  }

  predicate ManagerOk(m: Manager, own: Owners, x: Site) {
    && (m.Offering? ==> m.f in own && own[m.f] == Offered(x))
    && (m.Filling? || m.Holding? ==> m.f in own && (own[m.f].Owed? || own[m.f].Orphaned?) && own[m.f].x == x)
  }

  ghost predicate ManagersOk(k: Core, own: Owners) {
    ManagerOk(k.managers.local, own, Local) && ManagerOk(k.managers.remote, own, Remote)
  }

  predicate WorkerOk(w: Worker, own: Owners, c: nat) {
    && (w.pc.Promised? ==> w.pc.f in own && (own[w.pc.f] == Owed(w.site, c) || own[w.pc.f] == Filled(c)))
    && (w.pc.Took? ==> w.pc.f in own && own[w.pc.f] == Taken(c))
  }

  ghost predicate WorkersOk(k: Core, own: Owners) {
    forall c | c in k.workers :: WorkerOk(k.workers[c], own, c)
  }

  /** The worker or manager named as the owner does have the future. */
  predicate OwnerOk(k: Core, o: Owner, f: nat) {
    match o
    case Offered(x) => k.managers.Of(x) == Offering(f)
    case Owed(x, c) => k.managers.Of(x).Owes(f) && c in k.workers && k.workers[c] == Worker(x, Promised(f))
    case Orphaned(x) => k.managers.Of(x).Owes(f)
    case Filled(c) => c in k.workers && k.workers[c].pc == Promised(f)
    case Taken(c) => c in k.workers && k.workers[c].pc.Took? && k.workers[c].pc.f == f
    case _ => true
  }

  ghost predicate OwnersOk(k: Core, own: Owners) {
    forall f | f in own :: OwnerOk(k, own[f], f)
  }

  ghost predicate Owned(k: Core, own: Owners) {
    FreeOk(k, own) && BuffersOk(k, own) && ManagersOk(k, own) && WorkersOk(k, own) && OwnersOk(k, own)
  }

  ghost predicate TablesOk(k: Core, own: Owners) { FreeOk(k, own) && BuffersOk(k, own) }

  ghost predicate HandsOk(k: Core, own: Owners) { ManagersOk(k, own) && WorkersOk(k, own) && OwnersOk(k, own) }

  lemma ReuseTables(k: Core, own: Owners, x: Site, f: nat)
    requires TablesOk(k, own) && k.managers.Of(x).Ready? && f in k.free
    ensures f in own && own[f].Free? && TablesOk(k.Reuse(x, f), own[f := Offered(x)])
  {
    assert k.free[f] >= 1;
  }

  lemma ReuseHands(k: Core, own: Owners, x: Site, f: nat)
    requires HandsOk(k, own) && k.managers.Of(x).Ready? && f in k.free && f in own && own[f].Free?
    ensures HandsOk(k.Reuse(x, f), own[f := Offered(x)])
  {
  }

  lemma ReuseOwned(k: Core, own: Owners, x: Site, f: nat)
    requires Owned(k, own) && k.managers.Of(x).Ready? && f in k.free
    ensures Owned(k.Reuse(x, f), own[f := Offered(x)])
  {
    ReuseTables(k, own, x, f);
    ReuseHands(k, own, x, f);
  }

  lemma CreateTables(k: Core, own: Owners, x: Site, f: nat)
    requires TablesOk(k, own) && k.managers.Of(x).Ready? && f !in k.free && f !in k.buffers
    ensures f !in own && TablesOk(k.Create(x, f), own[f := Offered(x)])
  {
  }

  lemma CreateHands(k: Core, own: Owners, x: Site, f: nat)
    requires HandsOk(k, own) && k.managers.Of(x).Ready? && f !in own
    ensures HandsOk(k.Create(x, f), own[f := Offered(x)])
  {
  }

  lemma CreateOwned(k: Core, own: Owners, x: Site, f: nat)
    requires Owned(k, own) && k.managers.Of(x).Ready? && f !in k.free && f !in k.buffers
    ensures Owned(k.Create(x, f), own[f := Offered(x)])
  {
    CreateTables(k, own, x, f);
    CreateHands(k, own, x, f);
  }

  lemma AcceptOwned(k: Core, own: Owners, x: Site, f: nat, c: nat)
    requires Owned(k, own) && k.managers.Of(x) == Offering(f) && c in k.workers && k.workers[c] == Worker(x, Idle)
    ensures Owned(k.Accept(x, f, c), own[f := Owed(x, c)])
  {
  }

  lemma FillOwed(k: Core, own: Owners, x: Site, f: nat, t: Task)
    requires Owned(k, own) && k.managers.Of(x) == Holding(f, t) && own[f].Owed?
    ensures Owned(k.Fill(x, f, t), own[f := Filled(own[f].c)])
  {
  }

  lemma FillOrphaned(k: Core, own: Owners, x: Site, f: nat, t: Task)
    requires Owned(k, own) && k.managers.Of(x) == Holding(f, t) && own[f].Orphaned?
    ensures Owned(k.Fill(x, f, t), own[f := Lost])
  {
  }

  lemma TakeOwned(k: Core, own: Owners, c: nat, f: nat, t: Task)
    requires Owned(k, own) && c in k.workers && k.workers[c].pc == Promised(f)
    requires f in k.buffers && k.buffers[f] == Some(t)
    ensures Owned(k.Take(c, k.workers[c].site, f, t), own[f := Taken(c)])
  {
    assert WorkerOk(k.workers[c], own, c);
  }

  lemma PutBackOwned(k: Core, own: Owners, c: nat, f: nat, t: Task)
    requires Owned(k, own) && c in k.workers && k.workers[c].pc == Took(f, t)
    ensures Owned(k.PutBack(c, k.workers[c].site, f, t), own[f := Free])
  {
    assert WorkerOk(k.workers[c], own, c);
  }

  /** The owner of a future whose worker was stopped. */
  function Unowned(o: Owner): Owner { if o.Owed? then Orphaned(o.x) else Lost }

  lemma AbandonTables(k: Core, own: Owners, c: nat, f: nat)
    requires TablesOk(k, own) && f in own && (own[f].Owed? || own[f].Filled?)
    ensures TablesOk(k.Abandon(c, f), own[f := Unowned(own[f])])
  {
  }

  lemma AbandonHands(k: Core, own: Owners, c: nat, f: nat)
    requires HandsOk(k, own) && c in k.workers && k.workers[c].pc == Promised(f)
    requires f in own && (own[f] == Owed(k.workers[c].site, c) || own[f] == Filled(c))
    ensures HandsOk(k.Abandon(c, f), own[f := Unowned(own[f])])
  {
  }

  lemma AbandonOwned(k: Core, own: Owners, c: nat, f: nat)
    requires Owned(k, own) && c in k.workers && k.workers[c].pc == Promised(f)
    ensures f in own && Owned(k.Abandon(c, f), own[f := Unowned(own[f])])
  {
    assert WorkerOk(k.workers[c], own, c);
    AbandonTables(k, own, c, f);
    AbandonHands(k, own, c, f);
  }

  /** A worker without a future comes, goes, or does something else without one. */
  lemma WorkerOwned(k: Core, own: Owners, c: nat, w: Worker)
    requires Owned(k, own) && (c in k.workers ==> k.workers[c].pc.FutureOf().None?) && w.pc.FutureOf().None?
    ensures Owned(k.Move(c, w), own) && Owned(k.Leave(c), own)
  {
  }

  lemma HoldOwned(k: Core, own: Owners, x: Site, f: nat, t: Task)
    requires Owned(k, own) && k.managers.Of(x) == Filling(f)
    ensures Owned(k.Manage(x, Holding(f, t)), own)
  {
  }

  ghost predicate HasOwners(k: Core) { exists own :: Owned(k, own) }

  lemma ManagerEventOwned(s: State, own: Owners, ev: Event)
    requires Next(s, ev).Some? && Owned(s.core, own) && (ev.Offer? || ev.Accept? || ev.Select? || ev.Fill?)
    ensures HasOwners(Next(s, ev).value.core)
  {
    var k := s.core;
    match ev
    case Offer(x, f) => if f in k.free { ReuseOwned(k, own, x, f); } else { CreateOwned(k, own, x, f); }
    case Accept(x, c) => AcceptOwned(k, own, x, k.managers.Of(x).f, c);
    case Select(x, _, t) => HoldOwned(k, own, x, k.managers.Of(x).f, t);
    case Fill(x) =>
      var m := k.managers.Of(x);
      if own[m.f].Owed? { FillOwed(k, own, x, m.f, m.t); } else { FillOrphaned(k, own, x, m.f, m.t); }
    case _ =>
  }

  lemma WorkerEventOwned(s: State, own: Owners, ev: Event)
    requires Next(s, ev).Some? && Owned(s.core, own) && (ev.Stop? || ev.Take? || ev.PutBack?)
    ensures HasOwners(Next(s, ev).value.core)
  {
    var k := s.core;
    match ev
    case Stop(c) =>
      if k.workers[c].pc.Promised? {
        AbandonOwned(k, own, c, k.workers[c].pc.f);
      } else {
        WorkerOwned(k, own, c, k.workers[c]);
      }
    case Take(c) => TakeOwned(k, own, c, k.workers[c].pc.f, k.buffers[k.workers[c].pc.f].value);
    case PutBack(c) => PutBackOwned(k, own, c, k.workers[c].pc.f, k.workers[c].pc.t);
    case _ =>
  }

  lemma QuietEventOwned(s: State, own: Owners, ev: Event)
    requires Next(s, ev).Some? && Owned(s.core, own) && (ev.Spawn? || ev.Runner?)
    ensures HasOwners(Next(s, ev).value.core)
  {
    var k := s.core;
    match ev
    case Spawn(c, x) => WorkerOwned(k, own, c, Worker(x, Idle));
    case Runner(c, step) =>
      WorkerOwned(k, own, c, Worker(k.workers[c].site, Advanced(k.workers[c].pc, step).value));
    case _ =>
  }

  lemma EventOwned(s: State, ev: Event)
    requires Next(s, ev).Some? && HasOwners(s.core)
    ensures HasOwners(Next(s, ev).value.core)
  {
    var own: Owners :| Owned(s.core, own);
    match ev
    case Exec(_, _) =>
    case Enqueue(_) =>
    case Offer(_, _) => ManagerEventOwned(s, own, ev);
    case Accept(_, _) => ManagerEventOwned(s, own, ev);
    case Select(_, _, _) => ManagerEventOwned(s, own, ev);
    case Fill(_) => ManagerEventOwned(s, own, ev);
    case Stop(_) => WorkerEventOwned(s, own, ev);
    case Take(_) => WorkerEventOwned(s, own, ev);
    case PutBack(_) => WorkerEventOwned(s, own, ev);
    case Spawn(_, _) => QuietEventOwned(s, own, ev);
    case Runner(_, _) => QuietEventOwned(s, own, ev);
  }

  lemma {:induction false} RunOwned(events: seq<Event>)
    requires Run(events).Some?
    ensures HasOwners(Run(events).value.core)
  {
    if events == [] {
      assert Owned(INIT.core, map[]);
    } else {
      var front := events[..|events| - 1];
      RunOwned(front);
      EventOwned(Run(front).value, events[|events| - 1]);
    }
  }
}
