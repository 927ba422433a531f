/** What every run of the split queue keeps: tasks, the pools they run in, futures, lost tasks. */
module PoolsResults {
  import opened Common
  import opened Pools
  import opened PoolsFutures
  import opened PoolsTasks

  // --------------------------------------------------- only in an allowed pool

  predicate Allowed(s: State, t: Task, x: Site) {
    t in s.tasks && Selects(x, QueueFor(s.tasks[t]))
  }

  predicate ManagerAllowed(s: State, x: Site) {
    s.core.managers.Of(x).Holding? ==> Allowed(s, s.core.managers.Of(x).t, x)
  }

  predicate WorkerAllowed(s: State, c: nat)
    requires c in s.core.workers
  {
    var r := s.core.workers[c];
    && (r.pc.HasTask() ==> Allowed(s, r.pc.t, r.site))
    && (r.pc.Promised? && r.pc.f in s.core.buffers && s.core.buffers[r.pc.f].Some?
        ==> Allowed(s, s.core.buffers[r.pc.f].value, r.site))
  }

  ghost predicate QueuesAllowed(s: State) {
    forall q, t | (q, t) in s.queued :: t in s.tasks && q == QueueFor(s.tasks[t])
  }

  ghost predicate RanAllowed(s: State) {
    forall t, x | (t, x) in s.ran :: Allowed(s, t, x)
  }

  ghost predicate PoolsAllowed(s: State) {
    && ManagerAllowed(s, Local) && ManagerAllowed(s, Remote)
    && (forall c | c in s.core.workers :: WorkerAllowed(s, c))
  }

  lemma QueuesAllowedKept(s: State, ev: Event)
    requires Next(s, ev).Some? && QueuesAllowed(s)
    ensures QueuesAllowed(Next(s, ev).value)
  {
    forall q, t | (q, t) in Next(s, ev).value.queued
      ensures t in Next(s, ev).value.tasks && q == QueueFor(Next(s, ev).value.tasks[t])
    {
      QueueDelta(s, ev, q, t);
      TaskKnown(s, ev, t);
    }
  }

  lemma QueueDelta(s: State, ev: Event, q: Queue, t: Task)
    requires Next(s, ev).Some? && (q, t) in Next(s, ev).value.queued
    ensures (q, t) in s.queued || (t in s.tasks && q == QueueFor(s.tasks[t]))
  {
  }

  lemma TaskKnown(s: State, ev: Event, t: Task)
    requires Next(s, ev).Some? && t in s.tasks
    ensures t in Next(s, ev).value.tasks && Next(s, ev).value.tasks[t] == s.tasks[t]
  {
  }

  lemma TasksStay(s: State, ev: Event, t: Task, x: Site)
    requires Next(s, ev).Some? && Allowed(s, t, x)
    ensures Allowed(Next(s, ev).value, t, x)
  {
  }

  lemma RanDelta(s: State, ev: Event, t: Task, x: Site)
    requires Next(s, ev).Some? && (t, x) in Next(s, ev).value.ran
    ensures || (t, x) in s.ran
            || exists c :: c in s.core.workers && s.core.workers[c].pc == Uncounted(t) && s.core.workers[c].site == x
  {
  }

  lemma WithOf(ms: Managers, y: Site, m: Manager, x: Site)
    ensures ms.With(y, m).Of(x) == if x == y then m else ms.Of(x)
  {
  }

  /** Only a Select makes a manager hold a task. */
  lemma ManagersDelta(s: State, ev: Event)
    requires Next(s, ev).Some?
    ensures || Next(s, ev).value.core.managers == s.core.managers
            || exists y, m: Manager ::
                 && Next(s, ev).value.core.managers == s.core.managers.With(y, m)
                 && (m.Holding? ==> ev.Select? && y == ev.site && m.t == ev.t)
  {
    var ms := s.core.managers;
    match ev
    case Offer(y, f) => assert Next(s, ev).value.core.managers == ms.With(y, Offering(f));
    case Accept(y, _) => assert Next(s, ev).value.core.managers == ms.With(y, Filling(ms.Of(y).f));
    case Select(y, _, t) => assert Next(s, ev).value.core.managers == ms.With(y, Holding(ms.Of(y).f, t));
    case Fill(y) => assert Next(s, ev).value.core.managers == ms.With(y, Ready);
    case _ =>
  }

  lemma ManagerDelta(s: State, ev: Event, x: Site)
    requires Next(s, ev).Some? && Next(s, ev).value.core.managers.Of(x).Holding?
    ensures var t := Next(s, ev).value.core.managers.Of(x).t;
            || (s.core.managers.Of(x).Holding? && s.core.managers.Of(x).t == t)
            || (ev.Select? && ev.t == t && ev.site == x)
  {
    ManagersDelta(s, ev);
    if Next(s, ev).value.core.managers != s.core.managers {
      var y, m: Manager :| Next(s, ev).value.core.managers == s.core.managers.With(y, m)
                           && (m.Holding? ==> ev.Select? && y == ev.site && m.t == ev.t);
      WithOf(s.core.managers, y, m, x);
    }
  }

  /** The worker has the task it had, or takes it from the future it was promised. */
  ghost predicate TaskFrom(s: State, c: nat, t: Task) {
    && c in s.core.workers
    && var pc := s.core.workers[c].pc;
       if pc.HasTask() then pc.t == t
       else pc.Promised? && pc.f in s.core.buffers && s.core.buffers[pc.f] == Some(t)
  }

  lemma TaskStays(s: State, ev: Event, c: nat)
    requires !(ev.Stop? || ev.Take? || ev.PutBack? || ev.Runner?)
    requires Next(s, ev).Some? && c in Next(s, ev).value.core.workers && Next(s, ev).value.core.workers[c].pc.HasTask()
    ensures TaskFrom(s, c, Next(s, ev).value.core.workers[c].pc.t)
  {
    match ev
    case Exec(_, _) =>
    case Enqueue(_) =>
    case Offer(_, _) =>
    case Accept(_, _) =>
    case Select(_, _, _) =>
    case Fill(_) =>
    case Spawn(_, _) =>
    case _ =>
  }

  lemma TaskMoves(s: State, ev: Event, c: nat)
    requires ev.Stop? || ev.Take? || ev.PutBack?
    requires Next(s, ev).Some? && c in Next(s, ev).value.core.workers && Next(s, ev).value.core.workers[c].pc.HasTask()
    ensures TaskFrom(s, c, Next(s, ev).value.core.workers[c].pc.t)
  {
    match ev
    case Stop(_) =>
    case Take(_) =>
    case PutBack(_) =>
    case _ =>
  }

  lemma RunnerKeepsTask(s: State, r: nat, step: RunnerStep, c: nat)
    requires NextRunner(s, r, step).Some? && c in NextRunner(s, r, step).value.core.workers
    requires NextRunner(s, r, step).value.core.workers[c].pc.HasTask()
    ensures TaskFrom(s, c, NextRunner(s, r, step).value.core.workers[c].pc.t)
  {
  }

  lemma TaskDelta(s: State, ev: Event, c: nat)
    requires Next(s, ev).Some? && c in Next(s, ev).value.core.workers && Next(s, ev).value.core.workers[c].pc.HasTask()
    ensures TaskFrom(s, c, Next(s, ev).value.core.workers[c].pc.t)
  {
    if ev.Runner? {
      RunnerKeepsTask(s, ev.c, ev.step, c);
    } else if ev.Stop? || ev.Take? || ev.PutBack? {
      TaskMoves(s, ev, c);
    } else {
      TaskStays(s, ev, c);
    }
  }

  lemma SiteStays(s: State, ev: Event, c: nat)
    requires Next(s, ev).Some? && c in s.core.workers && c in Next(s, ev).value.core.workers
    ensures s.core.workers[c].site == Next(s, ev).value.core.workers[c].site
  {
  }

  lemma BufferDelta(s: State, ev: Event, f: nat, t: Task)
    requires Next(s, ev).Some? && f in Next(s, ev).value.core.buffers && Next(s, ev).value.core.buffers[f] == Some(t)
    ensures || (f in s.core.buffers && s.core.buffers[f] == Some(t))
            || (ev.Fill? && s.core.managers.Of(ev.site) == Holding(f, t))
  {
  }

  lemma AdvancedHasNoFuture(pc: Pc, step: RunnerStep)
    requires Advanced(pc, step).Some?
    ensures !Advanced(pc, step).value.Promised?
  {
  }

  lemma RunnerPromises(s: State, d: nat, step: RunnerStep, c: nat)
    requires NextRunner(s, d, step).Some? && c in NextRunner(s, d, step).value.core.workers
    requires NextRunner(s, d, step).value.core.workers[c].pc.Promised?
    ensures c in s.core.workers && s.core.workers[c] == NextRunner(s, d, step).value.core.workers[c]
  {
    AdvancedHasNoFuture(s.core.workers[d].pc, step);
  }

  lemma PromiseDelta(s: State, ev: Event, c: nat)
    requires Next(s, ev).Some? && c in Next(s, ev).value.core.workers && Next(s, ev).value.core.workers[c].pc.Promised?
    ensures || (ev.Accept? && s.core.managers.Of(ev.site) == Offering(Next(s, ev).value.core.workers[c].pc.f))
            || (c in s.core.workers && s.core.workers[c] == Next(s, ev).value.core.workers[c])
  {
    if ev.Runner? { RunnerPromises(s, ev.c, ev.step, c); }
  }

  /** A future gets its task from the manager of the pool of the worker that has it. */
  lemma SamePool(k: Core, own: Owners, x: Site, c: nat)
    requires Owned(k, own) && c in k.workers && k.workers[c].pc.Promised?
    requires k.managers.Of(x).FutureOf() == Some(k.workers[c].pc.f)
    ensures k.workers[c].site == x
  {
    assert WorkerOk(k.workers[c], own, c);
  }

  lemma OfferedEmpty(k: Core, x: Site)
    requires HasOwners(k) && k.managers.Of(x).Offering?
    ensures k.managers.Of(x).f in k.buffers && k.buffers[k.managers.Of(x).f].None?
  {
  }

  lemma WorkerAllowedKept(s: State, ev: Event, c: nat)
    requires Next(s, ev).Some? && HasOwners(s.core) && PoolsAllowed(s) && c in Next(s, ev).value.core.workers
    ensures WorkerAllowed(Next(s, ev).value, c)
  {
    var k' := Next(s, ev).value.core;
    var pc := k'.workers[c].pc;
    if pc.HasTask() {
      TaskDelta(s, ev, c);
      SiteStays(s, ev, c);
      assert WorkerAllowed(s, c);
      TasksStay(s, ev, pc.t, k'.workers[c].site);
    } else if pc.Promised? && pc.f in k'.buffers && k'.buffers[pc.f].Some? {
      var t := k'.buffers[pc.f].value;
      PromiseDelta(s, ev, c);
      BufferDelta(s, ev, pc.f, t);
      if ev.Accept? && s.core.managers.Of(ev.site) == Offering(pc.f) { OfferedEmpty(s.core, ev.site); }
      PromiseAllowed(s, ev, c, pc.f, t);
      TasksStay(s, ev, t, k'.workers[c].site);
    }
  }

  lemma PromiseAllowed(s: State, ev: Event, c: nat, f: nat, t: Task)
    requires HasOwners(s.core) && PoolsAllowed(s) && c in s.core.workers && s.core.workers[c].pc == Promised(f)
    requires (f in s.core.buffers && s.core.buffers[f] == Some(t))
          || (ev.Fill? && s.core.managers.Of(ev.site) == Holding(f, t))
    ensures Allowed(s, t, s.core.workers[c].site)
  {
    var own: Owners :| Owned(s.core, own);
    assert WorkerAllowed(s, c);
    if ev.Fill? && s.core.managers.Of(ev.site) == Holding(f, t) { SamePool(s.core, own, ev.site, c); }
  }

  lemma ManagerAllowedKept(s: State, ev: Event, x: Site)
    requires Next(s, ev).Some? && QueuesAllowed(s) && PoolsAllowed(s)
    ensures ManagerAllowed(Next(s, ev).value, x)
  {
    var m := Next(s, ev).value.core.managers.Of(x);
    if m.Holding? {
      ManagerDelta(s, ev, x);
      assert ManagerAllowed(s, Local) && ManagerAllowed(s, Remote);
      TasksStay(s, ev, m.t, x);
    }
  }

  lemma RanAllowedKept(s: State, ev: Event)
    requires Next(s, ev).Some? && PoolsAllowed(s) && RanAllowed(s)
    ensures RanAllowed(Next(s, ev).value)
  {
    forall t, x | (t, x) in Next(s, ev).value.ran ensures Allowed(Next(s, ev).value, t, x) {
      RanDelta(s, ev, t, x);
      if (t, x) !in s.ran {
        var c :| c in s.core.workers && s.core.workers[c].pc == Uncounted(t) && s.core.workers[c].site == x;
        assert WorkerAllowed(s, c);
      }
      TasksStay(s, ev, t, x);
    }
  }

  lemma {:induction false} RunAllowed(events: seq<Event>)
    requires Run(events).Some?
    ensures QueuesAllowed(Run(events).value) && PoolsAllowed(Run(events).value) && RanAllowed(Run(events).value)
  {
    if events != [] {
      var front, ev := events[..|events| - 1], events[|events| - 1];
      var s, s' := Run(front).value, Run(events).value;
      RunAllowed(front);
      RunOwned(front);
      QueuesAllowedKept(s, ev);
      RanAllowedKept(s, ev);
      ManagerAllowedKept(s, ev, Local);
      ManagerAllowedKept(s, ev, Remote);
      forall c | c in s'.core.workers ensures WorkerAllowed(s', c) { WorkerAllowedKept(s, ev, c); }
    }
  }

  // ------------------------------------------------------------- main results

  /** In every run at most one of a task's Local and Remote is ever run, and exactly one of them
      once it has completed. */
  lemma RunAtMostOnce(events: seq<Event>, t: Task)
    requires Run(events).Some?
    ensures var s := Run(events).value;
            && s.ran[(t, Local)] + s.ran[(t, Remote)] <= 1
            && (forall x | t in s.completed.At(x) :: s.completed.At(x)[t] == s.ran[(t, x)] == 1)
  {
    RunLocated(events);
    var s := Run(events).value;
    var w: Places :| Placed(s, w) && RanOk(s, w);
    RanOnce(s, w, t);
  }

  lemma RanOnce(s: State, w: Places, t: Task)
    requires ListsOk(s, w) && RanOk(s, w)
    ensures s.ran[(t, Local)] + s.ran[(t, Remote)] <= 1
    ensures forall x | t in s.completed.At(x) :: s.completed.At(x)[t] == s.ran[(t, x)] == 1
  {
    assert s.ran[(t, Local)] == One(HasRunAt(s.core, w, t, Local));
    assert s.ran[(t, Remote)] == One(HasRunAt(s.core, w, t, Remote));
    assert s.completed.local[t] == One(t in w && w[t] == Done(Local));
    assert s.completed.remote[t] == One(t in w && w[t] == Done(Remote));
  }

  /** A task submitted for one pool only is never run by the other. */
  lemma ExclusiveTasksStay(events: seq<Event>, t: Task)
    requires Run(events).Some? && t in Run(events).value.tasks
    ensures var s := Run(events).value;
            && (s.tasks[t].OnlyLocal? ==> (t, Remote) !in s.ran)
            && (s.tasks[t].OnlyRemote? ==> (t, Local) !in s.ran)
  {
    RunAllowed(events);
  }

  ghost predicate Held(k: Core, t: Task) { exists x: Site :: k.managers.Of(x).Holding? && k.managers.Of(x).t == t }

  ghost predicate InFuture(k: Core, t: Task) { exists f :: f in k.buffers && k.buffers[f] == Some(t) }

  ghost predicate WithWorker(k: Core, t: Task) {
    exists c :: c in k.workers && k.workers[c].pc.HasTask() && k.workers[c].pc.t == t
  }

  function InQueues(s: State, t: Task): nat {
    s.queued[(Shared, t)] + s.queued[(Own(Local), t)] + s.queued[(Own(Remote), t)]
  }

  lemma InLists(s: State, w: Places, t: Task)
    requires ListsOk(s, w) && t in w
    ensures s.entering[t] + InQueues(s, t) + s.completed.local[t] + s.completed.remote[t] == One(!w[t].InCore())
  {
    match w[t]
    case Queued(Shared) =>
    case Queued(Own(Local)) =>
    case Queued(Own(Remote)) =>
    case Done(Local) =>
    case Done(Remote) =>
    case _ =>
  }

  lemma InManager(k: Core, w: Places, t: Task)
    requires CoreOk(k, w) && t in w
    ensures Held(k, t) <==> w[t].Managed?
  {
    if w[t].Managed? { assert PlaceOk(k, w[t], t) && k.managers.Of(w[t].x).t == t; }
  }

  lemma InBuffer(k: Core, w: Places, t: Task)
    requires CoreOk(k, w) && t in w
    ensures InFuture(k, t) <==> w[t].Buffered?
  {
    if w[t].Buffered? { assert PlaceOk(k, w[t], t); }
  }

  lemma InWorker(k: Core, w: Places, t: Task)
    requires CoreOk(k, w) && t in w
    ensures WithWorker(k, t) <==> w[t].Worked?
  {
    if w[t].Worked? { assert PlaceOk(k, w[t], t); }
  }

  /** In every run each submitted task is in exactly one of: its Exec call, a queue, a manager's
      hand, a future's buffer, a worker's hands, the completed tasks. */
  lemma TaskInOnePlace(events: seq<Event>, t: Task)
    requires Run(events).Some? && t in Run(events).value.tasks
    ensures var s := Run(events).value;
            s.entering[t] + InQueues(s, t)
            + One(Held(s.core, t)) + One(InFuture(s.core, t)) + One(WithWorker(s.core, t))
            + s.completed.local[t] + s.completed.remote[t] == 1
  {
    RunLocated(events);
    var s := Run(events).value;
    var w: Places :| Placed(s, w) && RanOk(s, w);
    InLists(s, w, t);
    InManager(s.core, w, t);
    InBuffer(s.core, w, t);
    InWorker(s.core, w, t);
  }

  /** At most one worker of a pool waits for a future that is still empty: the pool's manager
      takes a task from the queues only for a worker that is ready to run it. */
  lemma OneUnfilledFuture(events: seq<Event>, c: nat, d: nat)
    requires Run(events).Some?
    requires var k := Run(events).value.core;
             && c in k.workers && d in k.workers && k.workers[c].site == k.workers[d].site
             && k.workers[c].pc.Promised? && k.workers[c].pc.f in k.buffers && k.buffers[k.workers[c].pc.f].None?
             && k.workers[d].pc.Promised? && k.workers[d].pc.f in k.buffers && k.buffers[k.workers[d].pc.f].None?
    ensures c == d
  {
    RunOwned(events);
    var k := Run(events).value.core;
    var own: Owners :| Owned(k, own);
    assert WorkerOk(k.workers[c], own, c) && WorkerOk(k.workers[d], own, d);
    assert OwnerOk(k, own[k.workers[c].pc.f], k.workers[c].pc.f);
    assert OwnerOk(k, own[k.workers[d].pc.f], k.workers[d].pc.f);
  }

  // --------------------------------------------------------------- lost tasks

  /** Tasks that were put into a future whose worker had been stopped. */
  function LostTasks(k: Core): set<Task> {
    set f | f in k.abandoned && f in k.buffers && k.buffers[f].Some? :: k.buffers[f].value
  }

  lemma StopsCount(s: State, ev: Event)
    requires Next(s, ev).Some? && |s.core.abandoned| <= s.stops
    ensures |Next(s, ev).value.core.abandoned| <= Next(s, ev).value.stops
  {
  }

  lemma {:induction false} AbandonedBounded(events: seq<Event>)
    requires Run(events).Some?
    ensures |Run(events).value.core.abandoned| <= Run(events).value.stops
  {
    if events != [] {
      AbandonedBounded(events[..|events| - 1]);
      StopsCount(Run(events[..|events| - 1]).value, events[|events| - 1]);
    }
  }

  lemma {:induction false} ValuesBounded(k: Core, futures: set<nat>)
    requires futures <= k.abandoned
    ensures |set f | f in futures && f in k.buffers && k.buffers[f].Some? :: k.buffers[f].value| <= |futures|
  {
    var values := set f | f in futures && f in k.buffers && k.buffers[f].Some? :: k.buffers[f].value;
    if futures == {} {
      assert values == {};
    } else {
      var g :| g in futures;
      var rest := futures - {g};
      ValuesBounded(k, rest);
      var fewer := set f | f in rest && f in k.buffers && k.buffers[f].Some? :: k.buffers[f].value;
      if g in k.buffers && k.buffers[g].Some? {
        assert values == fewer + {k.buffers[g].value};
      } else {
        assert values == fewer;
      }
    }
  }

  /** No more tasks are lost than stop signals were received; a task in any other future's buffer
      has a worker waiting for it. */
  lemma LossesBounded(events: seq<Event>)
    requires Run(events).Some?
    ensures var s := Run(events).value;
            && |LostTasks(s.core)| <= s.stops
            && (forall f | f in s.core.buffers && s.core.buffers[f].Some? && f !in s.core.abandoned ::
                  exists c :: c in s.core.workers && s.core.workers[c].pc == Promised(f))
  {
    var k := Run(events).value.core;
    AbandonedBounded(events);
    ValuesBounded(k, k.abandoned);
    RunOwned(events);
    var own: Owners :| Owned(k, own);
    forall f | f in k.buffers && k.buffers[f].Some? && f !in k.abandoned
      ensures exists c :: c in k.workers && k.workers[c].pc == Promised(f)
    {
      assert OwnerOk(k, own[f], f);
    }
  }

  /** Without stop signals nothing is lost: a manager that has taken a task is about to put it into
      a future that a worker of its pool is waiting for. */
  lemma NothingLostWithoutStops(events: seq<Event>, x: Site)
    requires Run(events).Some? && Run(events).value.stops == 0
    ensures var k := Run(events).value.core;
            && LostTasks(k) == {}
            && (k.managers.Of(x).Holding? ==>
                  exists c :: c in k.workers && k.workers[c] == Worker(x, Promised(k.managers.Of(x).f)))
  {
    var k := Run(events).value.core;
    AbandonedBounded(events);
    RunOwned(events);
    var own: Owners :| Owned(k, own);
    if k.managers.Of(x).Holding? {
      var f := k.managers.Of(x).f;
      assert f !in k.abandoned && OwnerOk(k, own[f], f);
    }
  }

  lemma LostStays(s: State, ev: Event, t: Task)
    requires Next(s, ev).Some? && HasOwners(s.core) && t in LostTasks(s.core)
    ensures t in LostTasks(Next(s, ev).value.core)
  {
    var own: Owners :| Owned(s.core, own);
    var f :| f in s.core.abandoned && f in s.core.buffers && s.core.buffers[f] == Some(t);
    LostFutureStays(s, own, ev, f);
  }

  lemma LostFutureStays(s: State, own: Owners, ev: Event, f: nat)
    requires Next(s, ev).Some? && Owned(s.core, own)
    requires f in s.core.abandoned && f in s.core.buffers && s.core.buffers[f].Some?
    ensures f in Next(s, ev).value.core.abandoned && f in Next(s, ev).value.core.buffers
    ensures Next(s, ev).value.core.buffers[f] == s.core.buffers[f]
  {
    if ev.Take? { assert WorkerOk(s.core.workers[ev.c], own, ev.c); }
  }

  /** A lost task is lost for good: it is in no worker's hands after any continuation. */
  lemma {:induction false} LostForever(events: seq<Event>, more: seq<Event>, t: Task)
    requires Run(events).Some? && t in LostTasks(Run(events).value.core) && Run(events + more).Some?
    ensures t in LostTasks(Run(events + more).value.core)
  {
    if more == [] {
      assert events + more == events;
    } else {
      var front := more[..|more| - 1];
      assert (events + more)[..|events + more| - 1] == events + front;
      LostForever(events, front, t);
      RunOwned(events + front);
      LostStays(Run(events + front).value, more[|more| - 1], t);
    }
  }

  lemma Go(events: seq<Event>, s: State, ev: Event) returns (longer: seq<Event>, s': State)
    requires Run(events) == Some(s) && Next(s, ev).Some?
    ensures longer == events + [ev] && s' == Next(s, ev).value && Run(longer) == Some(s')
  {
    longer, s' := events + [ev], Next(s, ev).value;
    assert longer[..|events|] == events;
  }

  /** The bound is met: a worker stopped after it was given a future costs the next task. */
  lemma StopLosesTask(t: Task) returns (events: seq<Event>)
    ensures Run(events).Some? && Run(events).value.stops == 1 && LostTasks(Run(events).value.core) == {t}
  {
    var s: State;
    events, s := WorkerStopped();
    events, s := TaskQueued(events, s, t);
    events, s := Go(events, s, Select(Local, Shared, t));
    events, s := Go(events, s, Fill(Local));
    assert s.core.abandoned == {0} && s.core.buffers == map[0 := Some(t)];
  }

  lemma TaskQueued(events: seq<Event>, s: State, t: Task) returns (longer: seq<Event>, s': State)
    requires Run(events) == Some(s) && s.tasks == map[] && s.entering == multiset{} && s.queued == multiset{}
    ensures Run(longer) == Some(s') && s'.core == s.core && s'.stops == s.stops && s'.queued == multiset{(Shared, t)}
  {
    longer, s' := Go(events, s, Exec(t, Unknown));
    longer, s' := Go(longer, s', Enqueue(t));
  }

  lemma WorkerStopped() returns (events: seq<Event>, s: State)
    ensures Run(events) == Some(s) && s.stops == 1
    ensures s.tasks == map[] && s.entering == multiset{} && s.queued == multiset{}
    ensures s.core == Core(Managers(Filling(0), Ready), map[0 := None], multiset{}, map[], {0})
  {
    events, s := Go([], INIT, Spawn(0, Local));
    events, s := Go(events, s, Offer(Local, 0));
    events, s := Go(events, s, Accept(Local, 0));
    events, s := Go(events, s, Stop(0));
  }
}
