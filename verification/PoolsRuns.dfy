/** What the split queue can always still do: which pools can take a waiting task, and which tasks
    can still be completed, after any run. */
module PoolsRuns {
  import opened Common
  import opened Pools
  import opened PoolsFutures
  import opened PoolsTasks
  import opened PoolsResults
  import opened PoolsLosses

  /** The pools that may run a task: both, unless it was submitted for one only. */
  predicate MayRun(e: Exclusivity, x: Site) {
    match e
    case Unknown => true
    case OnlyLocal => x == Local
    case OnlyRemote => x == Remote
  }

  // ------------------------------------------------------------- taking a task

  /** The manager of pool x can take the task from some queue. */
  ghost predicate CanTake(s: State, x: Site, t: Task) { exists q :: Next(s, Select(x, q, t)).Some? }

  lemma QueueOf(s: State, q: Queue, t: Task)
    requires QueuesAllowed(s) && (q, t) in s.queued
    ensures t in s.tasks && q == QueueFor(s.tasks[t])
  {
  }

  /** A manager that has a worker to serve can take a queued task exactly when the task may run in its
      pool. */
  lemma TakesExactly(events: seq<Event>, x: Site, q: Queue, t: Task)
    requires Run(events).Some? && Run(events).value.core.managers.Of(x).Filling? && (q, t) in Run(events).value.queued
    ensures t in Run(events).value.tasks
    ensures CanTake(Run(events).value, x, t) <==> MayRun(Run(events).value.tasks[t], x)
  {
    var s := Run(events).value;
    RunAllowed(events);
    QueueOf(s, q, t);
    if MayRun(s.tasks[t], x) { assert Next(s, Select(x, q, t)).Some?; }
    if p :| Next(s, Select(x, p, t)).Some? { QueueOf(s, p, t); }
  }

  // ------------------------------------------------------------- a worker's way

  function Left(pc: Pc): nat {
    match pc
    case Took(_, _) => 6
    case Starting(_) => 5
    case Uncounted(_) => 4
    case Running(_) => 3
    case Returned(_) => 2
    case Ended(_) => 1
    case _ => 0
  }

  function Ahead(c: nat, pc: Pc): Event {
    match pc
    case Took(_, _) => PutBack(c)
    case Starting(_) => Runner(c, DecQueued)
    case Uncounted(_) => Runner(c, Start)
    case Running(_) => Runner(c, Return)
    case Returned(_) => Runner(c, DecActive)
    case _ => Runner(c, IncCompleted)
  }

  function RunOnce(ran: multiset<(Task, Site)>, w: Worker, t: Task): multiset<(Task, Site)> {
    if w.pc.HasRun() then ran else ran + multiset{(t, w.site)}
  }

  /** Worker c has its task still, is nearer its end, and no other task was run or completed. */
  ghost predicate Nearer(s: State, s': State, c: nat)
    requires c in s.core.workers && s.core.workers[c].pc.HasTask()
  {
    var w := s.core.workers[c];
    && c in s'.core.workers && s'.core.workers[c].site == w.site && s'.core.workers[c].pc.HasTask()
    && s'.core.workers[c].pc.t == w.pc.t && Left(s'.core.workers[c].pc) < Left(w.pc) && s'.completed == s.completed
    && RunOnce(s'.ran, s'.core.workers[c], w.pc.t) == RunOnce(s.ran, w, w.pc.t)
  }

  lemma RunnerStepped(s: State, c: nat, w: Worker, step: RunnerStep)
    requires c in s.core.workers && s.core.workers[c] == w && Advanced(w.pc, step).Some? && !step.IncCompleted?
    ensures Next(s, Runner(c, step)).Some? && Nearer(s, Next(s, Runner(c, step)).value, c)
  {
    var s' := Next(s, Runner(c, step)).value;
    assert s'.core.workers[c] == Worker(w.site, Advanced(w.pc, step).value);
    match step {
      case DecQueued =>
      case Start =>
      case Return =>
      case DecActive =>
    }
  }

  lemma PutBackStepped(s: State, c: nat)
    requires c in s.core.workers && s.core.workers[c].pc.Took?
    ensures Next(s, PutBack(c)).Some? && Nearer(s, Next(s, PutBack(c)).value, c)
  {
  }

  lemma LastStepped(s: State, c: nat)
    requires c in s.core.workers && s.core.workers[c].pc.Ended?
    ensures var w, s' := s.core.workers[c], Next(s, Runner(c, IncCompleted));
            s'.Some? && s'.value.completed == s.completed.With(w.site, w.pc.t) && s'.value.ran == s.ran
  {
  }

  /** A worker that has a task and has not come to its end goes one step further with it. */
  lemma OneStep(s: State, c: nat)
    requires c in s.core.workers && s.core.workers[c].pc.HasTask() && !s.core.workers[c].pc.Ended?
    ensures var s' := Next(s, Ahead(c, s.core.workers[c].pc)); s'.Some? && Nearer(s, s'.value, c)
  {
    var w := s.core.workers[c];
    match w.pc {
      case Took(_, _) => PutBackStepped(s, c);
      case Starting(_) => RunnerStepped(s, c, w, DecQueued);
      case Uncounted(_) => RunnerStepped(s, c, w, Start);
      case Running(_) => RunnerStepped(s, c, w, Return);
      case Returned(_) => RunnerStepped(s, c, w, DecActive);
    }
  }

  /** A worker that has a task can complete it in its pool; nothing else is run meanwhile. */
  lemma {:induction false} Finishes(events: seq<Event>, s: State, c: nat) returns (longer: seq<Event>, s': State)
    requires Run(events) == Some(s) && c in s.core.workers && s.core.workers[c].pc.HasTask()
    ensures GoesOn(events, longer) && Run(longer) == Some(s')
    ensures var w := s.core.workers[c];
            s'.completed == s.completed.With(w.site, w.pc.t) && s'.ran == RunOnce(s.ran, w, w.pc.t)
    decreases Left(s.core.workers[c].pc)
  {
    var w := s.core.workers[c];
    if w.pc.Ended? {
      LastStepped(s, c);
      longer, s' := Step(events, s, Runner(c, IncCompleted));
    } else {
      OneStep(s, c);
      var first, mid := Step(events, s, Ahead(c, w.pc));
      longer, s' := Finishes(first, mid, c);
      OnAndOn(events, first, longer);
    }
  }

  /** A worker whose future has its task. */
  lemma TakesAndFinishes(events: seq<Event>, s: State, c: nat, x: Site, f: nat, t: Task)
    returns (longer: seq<Event>, s': State)
    requires Run(events) == Some(s) && c in s.core.workers && s.core.workers[c] == Worker(x, Promised(f))
    requires f in s.core.buffers && s.core.buffers[f] == Some(t)
    ensures GoesOn(events, longer) && Run(longer) == Some(s')
    ensures s'.completed == s.completed.With(x, t) && s'.ran == s.ran + multiset{(t, x)}
  {
    var first, mid := Step(events, s, Take(c));
    longer, s' := Finishes(first, mid, c);
    OnAndOn(events, first, longer);
  }

  // ------------------------------------------------------------ a waiting task

  predicate Waiting(s: State, t: Task) {
    t in s.tasks && (t in s.entering || (QueueFor(s.tasks[t]), t) in s.queued)
  }

  /** Nothing was run or completed, and the task is still waiting. */
  ghost predicate StillWaiting(s: State, s': State, t: Task) {
    && s'.ran == s.ran && s'.completed == s.completed && Waiting(s', t) && t in s.tasks && s'.tasks[t] == s.tasks[t]
  }

  lemma FillsFirst(events: seq<Event>, s: State, x: Site, t: Task) returns (longer: seq<Event>, s': State)
    requires Run(events) == Some(s) && Waiting(s, t) && s.core.managers.Of(x).Holding?
    ensures GoesOn(events, longer) && Run(longer) == Some(s') && StillWaiting(s, s', t) && s'.core.managers.Of(x).Ready?
  {
    RunOwned(events);
    OwedIsEmpty(s.core, x, s.core.managers.Of(x).f);
    longer, s' := Step(events, s, Fill(x));
  }

  lemma EnqueuesAnother(events: seq<Event>, s: State, t: Task) returns (longer: seq<Event>, s': State, u: Task)
    requires Run(events) == Some(s) && Waiting(s, t)
    ensures GoesOn(events, longer) && Run(longer) == Some(s') && StillWaiting(s, s', t)
    ensures s'.core == s.core && (Shared, u) in s'.queued && u != t
  {
    u := AboveAll(s.tasks.Keys);
    var mid, one := Step(events, s, Exec(u, Unknown));
    longer, s' := Step(mid, one, Enqueue(u));
    OnAndOn(events, mid, longer);
  }

  lemma SelectsAnother(events: seq<Event>, s: State, x: Site, t: Task, u: Task)
    returns (longer: seq<Event>, s': State)
    requires Run(events) == Some(s) && Waiting(s, t) && s.core.managers.Of(x).Filling?
    requires (Shared, u) in s.queued && u != t
    ensures GoesOn(events, longer) && Run(longer) == Some(s') && StillWaiting(s, s', t)
    ensures s'.core.managers.Of(x).Holding?
  {
    longer, s' := Step(events, s, Select(x, Shared, u));
  }

  lemma TakesAnother(events: seq<Event>, s: State, x: Site, t: Task) returns (longer: seq<Event>, s': State)
    requires Run(events) == Some(s) && Waiting(s, t) && s.core.managers.Of(x).Filling?
    ensures GoesOn(events, longer) && Run(longer) == Some(s') && StillWaiting(s, s', t)
    ensures s'.core.managers.Of(x).Holding?
  {
    var mid, one, u := EnqueuesAnother(events, s, t);
    longer, s' := SelectsAnother(mid, one, x, t, u);
    OnAndOn(events, mid, longer);
  }

  /** The manager serves the worker it may have accepted, with another task, and is free. */
  lemma Frees(events: seq<Event>, s: State, x: Site, t: Task) returns (longer: seq<Event>, s': State)
    requires Run(events) == Some(s) && Waiting(s, t)
    ensures GoesOn(events, longer) && Run(longer) == Some(s') && StillWaiting(s, s', t)
    ensures s'.core.managers.Of(x).Ready? || s'.core.managers.Of(x).Offering?
  {
    longer, s' := events, s;
    if s.core.managers.Of(x).Filling? { longer, s' := TakesAnother(events, s, x, t); }
    if s'.core.managers.Of(x).Holding? {
      var first := longer;
      longer, s' := FillsFirst(first, s', x, t);
      OnAndOn(events, first, longer);
    }
  }

  /** Its offer of an empty future is made. */
  lemma Offers(events: seq<Event>, s: State, x: Site, t: Task) returns (longer: seq<Event>, s': State)
    requires Run(events) == Some(s) && Waiting(s, t)
    ensures GoesOn(events, longer) && Run(longer) == Some(s') && StillWaiting(s, s', t)
    ensures s'.core.managers.Of(x).Offering?
  {
    longer, s' := Frees(events, s, x, t);
    if s'.core.managers.Of(x).Ready? {
      var first := longer;
      var f := AboveAll(s'.core.buffers.Keys);
      longer, s' := Step(first, s', Offer(x, f));
      OnAndOn(events, first, longer);
    }
  }

  /** Worker c of pool x has an empty future, which the pool's manager is to fill. */
  ghost predicate Serves(s: State, x: Site, c: nat) {
    && s.core.managers.Of(x).Filling? && c in s.core.workers
    && s.core.workers[c] == Worker(x, Promised(s.core.managers.Of(x).f))
  }

  /** And a new worker accepts it. */
  lemma Accepts(events: seq<Event>, s: State, x: Site, t: Task) returns (longer: seq<Event>, s': State, c: nat)
    requires Run(events) == Some(s) && Waiting(s, t)
    ensures GoesOn(events, longer) && Run(longer) == Some(s') && StillWaiting(s, s', t) && Serves(s', x, c)
  {
    var first, one := Offers(events, s, x, t);
    c := AboveAll(one.core.workers.Keys);
    var second, two := Step(first, one, Spawn(c, x));
    longer, s' := Step(second, two, Accept(x, c));
    OnAndOn(events, first, second);
    OnAndOn(events, second, longer);
  }

  lemma Enqueues(events: seq<Event>, s: State, x: Site, c: nat, t: Task) returns (longer: seq<Event>, s': State)
    requires Run(events) == Some(s) && Waiting(s, t) && Serves(s, x, c)
    ensures GoesOn(events, longer) && Run(longer) == Some(s') && StillWaiting(s, s', t) && Serves(s', x, c)
    ensures (QueueFor(s'.tasks[t]), t) in s'.queued
  {
    longer, s' := events, s;
    if t in s.entering { longer, s' := Step(events, s, Enqueue(t)); }
  }

  /** A task held for a worker's future is completed by that worker. */
  lemma HeldFinishes(events: seq<Event>, s: State, x: Site, c: nat) returns (longer: seq<Event>, s': State)
    requires Run(events) == Some(s) && s.core.managers.Of(x).Holding? && c in s.core.workers
    requires s.core.workers[c] == Worker(x, Promised(s.core.managers.Of(x).f))
    ensures GoesOn(events, longer) && Run(longer) == Some(s')
    ensures var t := s.core.managers.Of(x).t;
            s'.completed == s.completed.With(x, t) && s'.ran == s.ran + multiset{(t, x)}
  {
    var m := s.core.managers.Of(x);
    RunOwned(events);
    OwedIsEmpty(s.core, x, m.f);
    var first, mid := Step(events, s, Fill(x));
    longer, s' := TakesAndFinishes(first, mid, c, x, m.f, m.t);
    OnAndOn(events, first, longer);
  }

  /** After any run a waiting task can be run and completed, and nothing else run meanwhile, in each
      pool that its exclusivity allows. */
  lemma WaitingCanRun(events: seq<Event>, t: Task, x: Site) returns (longer: seq<Event>)
    requires Run(events).Some? && Waiting(Run(events).value, t) && MayRun(Run(events).value.tasks[t], x)
    ensures GoesOn(events, longer) && Run(longer).Some?
    ensures Run(longer).value.completed == Run(events).value.completed.With(x, t)
    ensures Run(longer).value.ran == Run(events).value.ran + multiset{(t, x)}
  {
    var s := Run(events).value;
    var first, one, c := Accepts(events, s, x, t);
    var second, two := Enqueues(first, one, x, c, t);
    var third, three := Step(second, two, Select(x, QueueFor(two.tasks[t]), t));
    var s': State;
    longer, s' := HeldFinishes(third, three, x, c);
    OnAndOn(events, first, second);
    OnAndOn(events, second, third);
    OnAndOn(events, third, longer);
  }

  /** From the start: any task can be the one that is run, in any pool its exclusivity allows. */
  lemma TaskCanRun(t: Task, e: Exclusivity, x: Site) returns (events: seq<Event>)
    requires MayRun(e, x)
    ensures Run(events).Some? && Run(events).value.ran == multiset{(t, x)}
    ensures Run(events).value.completed.At(x) == multiset{t}
  {
    var first, s := Step([], INIT, Exec(t, e));
    events := WaitingCanRun(first, t, x);
  }

  // ------------------------------------------------ which tasks can be completed

  ghost predicate IsComplete(s: State, t: Task) { t in s.completed.local || t in s.completed.remote }

  /** Some continuation, with whatever stop signals, completes the task. */
  ghost predicate CanComplete(events: seq<Event>, t: Task) {
    exists longer :: events <= longer && Run(longer).Some? && IsComplete(Run(longer).value, t)
  }

  ghost predicate HeldForStopped(k: Core, t: Task, x: Site) {
    k.managers.Of(x).Holding? && k.managers.Of(x).t == t && k.managers.Of(x).f in k.abandoned
  }

  /** The task is in the future of a worker that was stopped, or about to be put there. */
  ghost predicate Doomed(k: Core, t: Task) {
    t in LostTasks(k) || HeldForStopped(k, t, Local) || HeldForStopped(k, t, Remote)
  }

  lemma HeldHasWorker(k: Core, x: Site) returns (c: nat)
    requires HasOwners(k) && k.managers.Of(x).Holding? && k.managers.Of(x).f !in k.abandoned
    ensures c in k.workers && k.workers[c] == Worker(x, Promised(k.managers.Of(x).f))
  {
    var own: Owners :| Owned(k, own);
    var f := k.managers.Of(x).f;
    assert ManagerOk(k.managers.Of(x), own, x);
    assert OwnerOk(k, own[f], f);
    c := own[f].c;
  }

  lemma BufferedHasWorker(k: Core, f: nat) returns (c: nat)
    requires HasOwners(k) && f in k.buffers && k.buffers[f].Some? && f !in k.abandoned
    ensures c in k.workers && k.workers[c].pc == Promised(f)
  {
    var own: Owners :| Owned(k, own);
    assert own[f].Filled? && OwnerOk(k, own[f], f);
    c := own[f].c;
  }

  lemma QueuedIsWaiting(s: State, w: Places, t: Task)
    requires ListsOk(s, w) && QueuesAllowed(s) && t in w && (w[t].Entering? || w[t].Queued?)
    ensures Waiting(s, t)
  {
    if w[t].Queued? {
      assert s.queued[(w[t].q, t)] == 1;
      QueueOf(s, w[t].q, t);
    } else {
      assert s.entering[t] == 1;
    }
  }

  lemma WaitingCompletes(events: seq<Event>, t: Task) returns (longer: seq<Event>)
    requires Run(events).Some? && Waiting(Run(events).value, t)
    ensures GoesOn(events, longer) && Run(longer).Some? && IsComplete(Run(longer).value, t)
  {
    var x := if Run(events).value.tasks[t].OnlyRemote? then Remote else Local;
    longer := WaitingCanRun(events, t, x);
  }

  lemma InCoreCompletes(events: seq<Event>, s: State, w: Places, t: Task) returns (longer: seq<Event>)
    requires Run(events) == Some(s) && HasOwners(s.core) && CoreOk(s.core, w)
    requires t in w && w[t].InCore() && !Doomed(s.core, t)
    ensures GoesOn(events, longer) && Run(longer).Some? && IsComplete(Run(longer).value, t)
  {
    var s': State;
    assert PlaceOk(s.core, w[t], t);
    match w[t] {
      case Managed(x) =>
        assert !HeldForStopped(s.core, t, x);
        var c := HeldHasWorker(s.core, x);
        longer, s' := HeldFinishes(events, s, x, c);
      case Buffered(f) =>
        var c := BufferedHasWorker(s.core, f);
        longer, s' := TakesAndFinishes(events, s, c, s.core.workers[c].site, f, t);
      case Worked(c) =>
        longer, s' := Finishes(events, s, c);
    }
  }

  lemma DoneIsComplete(s: State, w: Places, t: Task)
    requires ListsOk(s, w) && t in w && w[t].Done?
    ensures IsComplete(s, t)
  {
    assert s.completed.At(w[t].at)[t] == 1;
  }

  lemma PlacedCompletes(events: seq<Event>, s: State, w: Places, t: Task) returns (longer: seq<Event>)
    requires Run(events) == Some(s) && HasOwners(s.core) && QueuesAllowed(s) && ListsOk(s, w) && CoreOk(s.core, w)
    requires t in s.tasks && !Doomed(s.core, t)
    ensures GoesOn(events, longer) && Run(longer).Some? && IsComplete(Run(longer).value, t)
  {
    if w[t].InCore() {
      longer := InCoreCompletes(events, s, w, t);
    } else if w[t].Done? {
      longer := events;
      DoneIsComplete(s, w, t);
    } else {
      QueuedIsWaiting(s, w, t);
      longer := WaitingCompletes(events, t);
    }
  }

  /** A task that is not doomed can be completed without another stop signal. */
  lemma StillCompletes(events: seq<Event>, t: Task) returns (longer: seq<Event>)
    requires Run(events).Some? && t in Run(events).value.tasks && !Doomed(Run(events).value.core, t)
    ensures GoesOn(events, longer) && Run(longer).Some? && IsComplete(Run(longer).value, t)
  {
    var s := Run(events).value;
    RunOwned(events);
    RunAllowed(events);
    RunLocated(events);
    var w: Places :| Placed(s, w) && RanOk(s, w);
    longer := PlacedCompletes(events, s, w, t);
  }

  lemma AbandonedForGood(s: State, ev: Event)
    requires Next(s, ev).Some?
    ensures s.core.abandoned <= Next(s, ev).value.core.abandoned
  {
  }

  lemma HoldsUntilFilled(s: State, ev: Event, x: Site)
    requires Next(s, ev).Some? && s.core.managers.Of(x).Holding? && ev != Fill(x)
    ensures Next(s, ev).value.core.managers.Of(x) == s.core.managers.Of(x)
  {
    var ms := s.core.managers;
    match ev
    case Offer(y, f) => WithOf(ms, y, Offering(f), x);
    case Accept(y, _) => WithOf(ms, y, Filling(ms.Of(y).f), x);
    case Select(y, _, t) => WithOf(ms, y, Holding(ms.Of(y).f, t), x);
    case Fill(y) => WithOf(ms, y, Ready, x);
    case _ => assert Next(s, ev).value.core.managers == ms;
  }

  lemma HeldStaysDoomed(s: State, ev: Event, t: Task, x: Site)
    requires Next(s, ev).Some? && HeldForStopped(s.core, t, x)
    ensures var k := Next(s, ev).value.core; HeldForStopped(k, t, x) || t in LostTasks(k)
  {
    AbandonedForGood(s, ev);
    if ev == Fill(x) {
      var f := s.core.managers.Of(x).f;
      assert Next(s, ev).value.core.buffers[f] == Some(t);
    } else {
      HoldsUntilFilled(s, ev, x);
    }
  }

  lemma DoomedStays(s: State, ev: Event, t: Task)
    requires Next(s, ev).Some? && HasOwners(s.core) && Doomed(s.core, t)
    ensures Doomed(Next(s, ev).value.core, t)
  {
    if t in LostTasks(s.core) {
      LostStays(s, ev, t);
    } else if HeldForStopped(s.core, t, Local) {
      HeldStaysDoomed(s, ev, t, Local);
    } else {
      HeldStaysDoomed(s, ev, t, Remote);
    }
  }

  lemma {:induction false} DoomedForever(events: seq<Event>, longer: seq<Event>, t: Task)
    requires events <= longer && Run(longer).Some? && Run(events).Some? && Doomed(Run(events).value.core, t)
    ensures Doomed(Run(longer).value.core, t)
  {
    if longer != events {
      var front := longer[..|longer| - 1];
      DoomedForever(events, front, t);
      RunOwned(front);
      DoomedStays(Run(front).value, longer[|longer| - 1], t);
    }
  }

  lemma DoomedIsNotComplete(s: State, t: Task)
    requires Located(s) && Doomed(s.core, t)
    ensures !IsComplete(s, t)
  {
    var w: Places :| Placed(s, w) && RanOk(s, w);
    assert t in w && !w[t].Done?;
    assert s.completed.local[t] == 0 && s.completed.remote[t] == 0;
  }

  /** After any run a submitted task can still be completed exactly unless it is in the future of a
      worker that was stopped, or held by a manager for such a future. */
  lemma CompletableExactly(events: seq<Event>, t: Task)
    requires Run(events).Some? && t in Run(events).value.tasks
    ensures CanComplete(events, t) <==> !Doomed(Run(events).value.core, t)
  {
    var k := Run(events).value.core;
    if !Doomed(k, t) {
      var longer := StillCompletes(events, t);
    } else if longer :| events <= longer && Run(longer).Some? && IsComplete(Run(longer).value, t) {
      DoomedForever(events, longer, t);
      RunLocated(longer);
      DoomedIsNotComplete(Run(longer).value, t);
    }
  }

  // ------------------------------------------------------------------ workers

  /** The worker was started and has not been stopped since. */
  predicate Lives(events: seq<Event>, c: nat) {
    events != [] &&
    match events[|events| - 1]
    case Spawn(d, _) => d == c || Lives(events[..|events| - 1], c)
    case Stop(d) => d != c && Lives(events[..|events| - 1], c)
    case _ => Lives(events[..|events| - 1], c)
  }

  function Stops(events: seq<Event>): nat {
    if events == [] then 0 else Stops(events[..|events| - 1]) + One(events[|events| - 1].Stop?)
  }

  /** The event is about one worker, and which. */
  predicate MovesWorker(ev: Event) {
    ev.Accept? || ev.Spawn? || ev.Stop? || ev.Take? || ev.PutBack? || ev.Runner?
  }

  lemma WorkersStay(s: State, ev: Event)
    requires Next(s, ev).Some? && !MovesWorker(ev)
    ensures Next(s, ev).value.core.workers == s.core.workers && Next(s, ev).value.stops == s.stops
  {
    match ev
    case Exec(_, _) => assert Next(s, ev).value.core == s.core;
    case Enqueue(_) => assert Next(s, ev).value.core == s.core;
    case Offer(x, f) => OfferKeepsWorkers(s.core, x, f);
    case Select(_, _, _) =>
    case Fill(_) =>
    case _ =>
  }

  lemma OfferKeepsWorkers(k: Core, x: Site, f: nat)
    ensures k.Reuse(x, f).workers == k.workers && k.Create(x, f).workers == k.workers
  {
  }

  lemma OneWorkerMoves(s: State, ev: Event, c: nat)
    requires Next(s, ev).Some? && MovesWorker(ev) && ev.c != c
    ensures var before, after := s.core.workers, Next(s, ev).value.core.workers;
            (c in after <==> c in before) && (c in before ==> after[c] == before[c])
  {
  }

  lemma OwnWorkerMoves(s: State, ev: Event)
    requires Next(s, ev).Some? && MovesWorker(ev)
    ensures ev.c in Next(s, ev).value.core.workers <==> !ev.Stop?
    ensures ev.c in s.core.workers <==> !ev.Spawn?
    ensures Next(s, ev).value.stops == s.stops + One(ev.Stop?)
  {
  }

  lemma WorkersStep(s: State, ev: Event, c: nat)
    requires Next(s, ev).Some?
    ensures c in Next(s, ev).value.core.workers <==> ev != Stop(c) && (c in s.core.workers || (ev.Spawn? && ev.c == c))
    ensures Next(s, ev).value.stops == s.stops + One(ev.Stop?)
  {
    if MovesWorker(ev) {
      OwnWorkerMoves(s, ev);
      if ev.c != c { OneWorkerMoves(s, ev, c); }
    } else {
      WorkersStay(s, ev);
    }
  }

  /** A stop signal is the end of the worker it reaches, and of no other. */
  lemma {:induction false} WorkersExactly(events: seq<Event>, c: nat)
    requires Run(events).Some?
    ensures c in Run(events).value.core.workers <==> Lives(events, c)
    ensures Run(events).value.stops == Stops(events)
  {
    if events != [] {
      var front := events[..|events| - 1];
      WorkersExactly(front, c);
      WorkersStep(Run(front).value, events[|events| - 1], c);
    }
  }

  // ------------------------------------------------------- the steps of a runner

  function Times(events: seq<Event>, ev: Event): nat { multiset(events)[ev] }

  lemma TimesNext(events: seq<Event>, ev: Event)
    requires events != []
    ensures Times(events, ev) == Times(events[..|events| - 1], ev) + One(events[|events| - 1] == ev)
  {
    assert events == events[..|events| - 1] + [events[|events| - 1]];
  }

  function PcOf(s: State, c: nat): Pc { if c in s.core.workers then s.core.workers[c].pc else Idle }

  /** Whether the worker is between an event and the next one its runner makes after it. */
  predicate Between(pc: Pc, first: Event) {
    match first
    case PutBack(_) => pc.Starting?
    case Runner(_, DecQueued) => pc.Uncounted?
    case Runner(_, Start) => pc.Running?
    case Runner(_, Return) => pc.Returned?
    case Runner(_, DecActive) => pc.Ended?
    case _ => false
  }

  /** Since it was started for a task, the worker has made each step as often as the one before it, or
      is between the two. */
  ghost predicate InOrder(events: seq<Event>, pc: Pc, first: Event, second: Event) {
    Times(events, first) == Times(events, second) + One(Between(pc, first))
  }

  predicate InRunner(pc: Pc) { pc.HasTask() && !pc.Took? }

  lemma RunnerMoves(s: State, c: nat, step: RunnerStep)
    requires Next(s, Runner(c, step)).Some?
    ensures Advanced(PcOf(s, c), step) == Some(PcOf(Next(s, Runner(c, step)).value, c))
  {
  }

  lemma PutBackMoves(s: State, c: nat)
    requires Next(s, PutBack(c)).Some?
    ensures PcOf(s, c).Took? && PcOf(Next(s, PutBack(c)).value, c).Starting?
  {
  }

  /** The event starts or stops worker c, or gives it a future or a task. */
  predicate Supplies(ev: Event, c: nat) { (ev.Accept? || ev.Spawn? || ev.Stop? || ev.Take?) && ev.c == c }

  predicate Advances(ev: Event, c: nat) { (ev.PutBack? || ev.Runner?) && ev.c == c }

  lemma ServedOutsideRunner(s: State, ev: Event, c: nat)
    requires Next(s, ev).Some? && Supplies(ev, c)
    ensures !InRunner(PcOf(s, c)) && !InRunner(PcOf(Next(s, ev).value, c))
  {
  }

  lemma OthersUntouched(s: State, ev: Event, c: nat)
    requires Next(s, ev).Some? && !Supplies(ev, c) && !Advances(ev, c)
    ensures PcOf(Next(s, ev).value, c) == PcOf(s, c)
  {
    if MovesWorker(ev) { OneWorkerMoves(s, ev, c); } else { WorkersStay(s, ev); }
  }

  /** How an event can change where worker c is. */
  predicate Changes(ev: Event, c: nat, pc: Pc, pc': Pc) {
    if ev == PutBack(c) then pc.Took? && pc'.Starting?
    else if ev.Runner? && ev.c == c then Advanced(pc, ev.step) == Some(pc')
    else pc == pc' || (!InRunner(pc) && !InRunner(pc'))
  }

  lemma PcChanges(s: State, ev: Event, c: nat)
    requires Next(s, ev).Some?
    ensures Changes(ev, c, PcOf(s, c), PcOf(Next(s, ev).value, c))
  {
    if ev == PutBack(c) {
      PutBackMoves(s, c);
    } else if ev.Runner? && ev.c == c {
      RunnerMoves(s, c, ev.step);
    } else if Supplies(ev, c) {
      ServedOutsideRunner(s, ev, c);
    } else {
      OthersUntouched(s, ev, c);
    }
  }

  lemma OrderStep(ev: Event, c: nat, pc: Pc, pc': Pc, first: Event, second: Event)
    requires Changes(ev, c, pc, pc') && Follows(c, first, second)
    ensures One(Between(pc', first)) + One(ev == second) == One(Between(pc, first)) + One(ev == first)
  {
  }

  /** The runner makes the second step right after the first. */
  predicate Follows(c: nat, first: Event, second: Event) {
    || (first == PutBack(c) && second == Runner(c, DecQueued))
    || (first == Runner(c, DecQueued) && second == Runner(c, Start))
    || (first == Runner(c, Start) && second == Runner(c, Return))
    || (first == Runner(c, Return) && second == Runner(c, DecActive))
    || (first == Runner(c, DecActive) && second == Runner(c, IncCompleted))
  }

  /** In every run each task a worker has put its future back for takes the five steps of the runner
      once each and in their order. */
  lemma {:induction false} StepsInOrder(events: seq<Event>, c: nat, first: Event, second: Event)
    requires Run(events).Some? && Follows(c, first, second)
    ensures InOrder(events, PcOf(Run(events).value, c), first, second)
  {
    if events != [] {
      var front := events[..|events| - 1];
      StepsInOrder(front, c, first, second);
      TimesNext(events, first);
      TimesNext(events, second);
      PcChanges(Run(front).value, events[|events| - 1], c);
      OrderStep(events[|events| - 1], c, PcOf(Run(front).value, c), PcOf(Run(events).value, c), first, second);
    }
  }
}
