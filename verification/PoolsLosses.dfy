/** What stop signals cost: exactly how many tasks can still be lost, after any run. */
module PoolsLosses {
  import opened Common
  import opened Pools
  import opened PoolsFutures
  import opened PoolsTasks
  import opened PoolsResults

  ghost predicate NoStop(events: seq<Event>) { forall i | 0 <= i < |events| :: !events[i].Stop? }

  /** Without another stop signal, n tasks can be lost in the end. */
  ghost predicate CanLose(events: seq<Event>, n: nat) {
    exists more :: NoStop(more) && Loses(events + more, n)
  }

  ghost predicate Loses(events: seq<Event>, n: nat) {
    Run(events).Some? && |LostTasks(Run(events).value.core)| == n
  }

  // ------------------------------------------------------------------ at most

  lemma OnlyStopsAbandon(s: State, ev: Event)
    requires Next(s, ev).Some? && !ev.Stop?
    ensures Next(s, ev).value.core.abandoned == s.core.abandoned
  {
  }

  lemma {:induction false} AbandonedStays(events: seq<Event>, more: seq<Event>)
    requires NoStop(more) && Run(events + more).Some?
    ensures Run(events).Some? && Run(events + more).value.core.abandoned == Run(events).value.core.abandoned
  {
    if more == [] {
      assert events + more == events;
    } else {
      var front := more[..|more| - 1];
      assert (events + more)[..|events + more| - 1] == events + front;
      AbandonedStays(events, front);
      OnlyStopsAbandon(Run(events + front).value, more[|more| - 1]);
    }
  }

  // ----------------------------------------------------------------- at least

  /** Pool x owes nothing to a worker that was stopped. */
  ghost predicate Quit(k: Core, x: Site) { forall f | f in k.abandoned :: !k.managers.Of(x).Owes(f) }

  ghost predicate SameBut(k: Core, k': Core, x: Site) {
    k'.abandoned == k.abandoned && forall y | y != x :: k'.managers.Of(y) == k.managers.Of(y)
  }

  /** The second run goes on from the first without a stop signal. */
  ghost predicate GoesOn(events: seq<Event>, longer: seq<Event>) {
    events <= longer && forall i | |events| <= i < |longer| :: !longer[i].Stop?
  }

  lemma OnAndOn(a: seq<Event>, b: seq<Event>, c: seq<Event>)
    requires GoesOn(a, b) && GoesOn(b, c)
    ensures GoesOn(a, c)
  {
  }

  lemma Step(events: seq<Event>, s: State, ev: Event) returns (longer: seq<Event>, s': State)
    requires Run(events) == Some(s) && Next(s, ev).Some? && !ev.Stop?
    ensures GoesOn(events, longer) && s' == Next(s, ev).value && Run(longer) == Some(s')
  {
    longer, s' := Go(events, s, ev);
  }

  lemma OwedIsEmpty(k: Core, x: Site, f: nat)
    requires HasOwners(k) && k.managers.Of(x).Owes(f)
    ensures f in k.buffers && k.buffers[f].None?
  {
  }

  /** A manager that has a task for the future puts it there. */
  lemma Filled(events: seq<Event>, s: State, x: Site) returns (longer: seq<Event>, s': State)
    requires Run(events) == Some(s) && s.core.managers.Of(x).Holding?
    ensures GoesOn(events, longer) && Run(longer) == Some(s') && SameBut(s.core, s'.core, x) && Quit(s'.core, x)
  {
    RunOwned(events);
    OwedIsEmpty(s.core, x, s.core.managers.Of(x).f);
    longer, s' := Step(events, s, Fill(x));
  }

  lemma NewTask(events: seq<Event>, s: State) returns (longer: seq<Event>, s': State, t: Task)
    requires Run(events) == Some(s)
    ensures GoesOn(events, longer) && Run(longer) == Some(s') && s'.core == s.core && (Shared, t) in s'.queued
  {
    t := AboveAll(s.tasks.Keys);
    var first, mid := Step(events, s, Exec(t, Unknown));
    longer, s' := Step(first, mid, Enqueue(t));
    OnAndOn(events, first, longer);
  }

  lemma Selected(events: seq<Event>, s: State, x: Site, t: Task) returns (longer: seq<Event>, s': State)
    requires Run(events) == Some(s) && s.core.managers.Of(x).Filling? && (Shared, t) in s.queued
    ensures GoesOn(events, longer) && Run(longer) == Some(s')
    ensures SameBut(s.core, s'.core, x) && s'.core.managers.Of(x).Holding?
  {
    longer, s' := Step(events, s, Select(x, Shared, t));
  }

  /** A manager that has a worker to serve takes a new task, and puts it into the future. */
  lemma Served(events: seq<Event>, s: State, x: Site) returns (longer: seq<Event>, s': State)
    requires Run(events) == Some(s) && s.core.managers.Of(x).Filling?
    ensures GoesOn(events, longer) && Run(longer) == Some(s') && SameBut(s.core, s'.core, x) && Quit(s'.core, x)
  {
    var first, queued, t := NewTask(events, s);
    var second, held := Selected(first, queued, x, t);
    longer, s' := Filled(second, held, x);
    OnAndOn(events, first, second);
    OnAndOn(events, second, longer);
  }

  /** Whatever pool x owes, it can give away without another stop signal. */
  lemma Quits(events: seq<Event>, s: State, x: Site) returns (longer: seq<Event>, s': State)
    requires Run(events) == Some(s)
    ensures GoesOn(events, longer) && Run(longer) == Some(s') && SameBut(s.core, s'.core, x) && Quit(s'.core, x)
  {
    longer, s' := events, s;
    if s.core.managers.Of(x).Holding? {
      longer, s' := Filled(events, s, x);
    } else if s.core.managers.Of(x).Filling? {
      longer, s' := Served(events, s, x);
    }
  }

  lemma OwesNowhere(k: Core, x: Site, f: nat)
    requires Quit(k, Local) && Quit(k, Remote) && f in k.abandoned
    ensures !k.managers.Of(x).Owes(f)
  {
  }

  /** When neither pool owes a stopped worker anything, every abandoned future has a task in it. */
  lemma AllLost(k: Core)
    requires HasOwners(k) && Quit(k, Local) && Quit(k, Remote)
    ensures forall f | f in k.abandoned :: f in k.buffers && k.buffers[f].Some?
  {
    var own: Owners :| Owned(k, own);
    forall f | f in k.abandoned ensures f in k.buffers && k.buffers[f].Some? {
      assert OwnerOk(k, own[f], f);
      OwesNowhere(k, if own[f].Orphaned? then own[f].x else Local, f);
    }
  }

  function Tasks(k: Core, futures: set<nat>): set<Task> {
    set f | f in futures && f in k.buffers && k.buffers[f].Some? :: k.buffers[f].value
  }

  /** Different futures have different tasks in them. */
  lemma {:induction false} EachItsOwn(k: Core, w: Places, futures: set<nat>)
    requires HoldersOk(k, w) && forall f | f in futures :: f in k.buffers && k.buffers[f].Some?
    ensures |Tasks(k, futures)| == |futures|
  {
    if futures == {} {
      assert Tasks(k, futures) == {};
    } else {
      var g :| g in futures;
      var rest := futures - {g};
      EachItsOwn(k, w, rest);
      assert Tasks(k, futures) == Tasks(k, rest) + {k.buffers[g].value};
      assert w[k.buffers[g].value] == Buffered(g);
      assert k.buffers[g].value !in Tasks(k, rest);
    }
  }

  lemma BothQuit(events: seq<Event>) returns (longer: seq<Event>, s: State)
    requires Run(events).Some?
    ensures GoesOn(events, longer) && Run(longer) == Some(s) && Quit(s.core, Local) && Quit(s.core, Remote)
    ensures s.core.abandoned == Run(events).value.core.abandoned
  {
    var first, mid := Quits(events, Run(events).value, Local);
    longer, s := Quits(first, mid, Remote);
    OnAndOn(events, first, longer);
    assert s.core.managers.Of(Local) == mid.core.managers.Of(Local);
  }

  lemma AbandonedAreLost(s: State)
    requires HasOwners(s.core) && Located(s) && Quit(s.core, Local) && Quit(s.core, Remote)
    ensures |LostTasks(s.core)| == |s.core.abandoned|
  {
    AllLost(s.core);
    var w: Places :| Placed(s, w) && RanOk(s, w);
    EachItsOwn(s.core, w, s.core.abandoned);
    assert LostTasks(s.core) == Tasks(s.core, s.core.abandoned);
  }

  lemma AllCanBeLost(events: seq<Event>) returns (more: seq<Event>)
    requires Run(events).Some?
    ensures NoStop(more) && Loses(events + more, |Run(events).value.core.abandoned|)
  {
    var longer, s := BothQuit(events);
    RunOwned(longer);
    RunLocated(longer);
    AbandonedAreLost(s);
    more := longer[|events|..];
    assert events + more == longer;
  }

  // -------------------------------------------------------------- main results

  /** After any run the most tasks that can be lost without another stop signal are as many as there
      are abandoned futures, and so many can. */
  lemma LossesExactly(events: seq<Event>)
    requires Run(events).Some?
    ensures var n := |Run(events).value.core.abandoned|;
            CanLose(events, n) && forall m: nat | CanLose(events, m) :: m <= n
  {
    var k := Run(events).value.core;
    var more := AllCanBeLost(events);
    forall m: nat | CanLose(events, m) ensures m <= |k.abandoned| {
      var more :| NoStop(more) && Loses(events + more, m);
      AbandonedStays(events, more);
      ValuesBounded(Run(events + more).value.core, k.abandoned);
    }
  }

  ghost predicate CanLoseSome(events: seq<Event>) { exists n: nat | n > 0 :: CanLose(events, n) }

  /** A task can be lost exactly when some future was abandoned. */
  lemma LossPossibleExactly(events: seq<Event>)
    requires Run(events).Some?
    ensures CanLoseSome(events) <==> Run(events).value.core.abandoned != {}
  {
    LossesExactly(events);
    if Run(events).value.core.abandoned != {} { assert |Run(events).value.core.abandoned| > 0; }
  }

  lemma PromisedIsNotAbandoned(k: Core, c: nat)
    requires HasOwners(k) && c in k.workers && k.workers[c].pc.Promised?
    ensures k.workers[c].pc.f !in k.abandoned
  {
    var own: Owners :| Owned(k, own);
    assert WorkerOk(k.workers[c], own, c);
  }

  /** A stop signal costs one task more, at worst, exactly when it reaches a worker that was given a
      future; one that reaches an idle worker costs nothing. */
  lemma StopCostsExactly(events: seq<Event>, c: nat)
    requires Run(events).Some? && Next(Run(events).value, Stop(c)).Some?
    ensures var k := Run(events).value.core;
            var n := |k.abandoned| + One(k.workers[c].pc.Promised?);
            CanLose(events + [Stop(c)], n) && forall m: nat | CanLose(events + [Stop(c)], m) :: m <= n
  {
    var k := Run(events).value.core;
    var longer, s' := Go(events, Run(events).value, Stop(c));
    RunOwned(events);
    if k.workers[c].pc.Promised? { PromisedIsNotAbandoned(k, c); }
    assert |s'.core.abandoned| == |k.abandoned| + One(k.workers[c].pc.Promised?);
    LossesExactly(longer);
  }

  /** The caller's form: where nothing was abandoned, stopping worker c can cost a task exactly when
      the worker has a future. */
  lemma StopIsSafeExactly(events: seq<Event>, c: nat)
    requires Run(events).Some? && Next(Run(events).value, Stop(c)).Some? && Run(events).value.core.abandoned == {}
    ensures CanLoseSome(events + [Stop(c)]) <==> Run(events).value.core.workers[c].pc.Promised?
  {
    StopCostsExactly(events, c);
  }
}
