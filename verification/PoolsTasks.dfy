/** Where each task is, in every run of the split queue: each is in one place, is run at most once,
    and only by a pool its exclusivity allows. */
module PoolsTasks {
  import opened Common
  import opened Pools

  datatype Place = Entering | Queued(q: Queue) | Managed(x: Site) | Buffered(f: nat) | Worked(c: nat) | Done(at: Site) {
    predicate InCore() { Managed? || Buffered? || Worked? }
  }

  type Places = map<Task, Place>

  ghost predicate EnteringOk(entering: multiset<Task>, w: Places) {
    forall t :: entering[t] == One(t in w && w[t].Entering?)
  }

  ghost predicate QueuedOk(queued: multiset<(Queue, Task)>, w: Places) {
    forall q, t :: queued[(q, t)] == One(t in w && w[t] == Queued(q))
  }

  ghost predicate CompletedOk(done: multiset<Task>, x: Site, w: Places) {
    forall t :: done[t] == One(t in w && w[t] == Done(x))
  }

  ghost predicate ListsOk(s: State, w: Places) {
    && (forall t :: t in w <==> t in s.tasks)
    && EnteringOk(s.entering, w) && QueuedOk(s.queued, w)
    && CompletedOk(s.completed.local, Local, w) && CompletedOk(s.completed.remote, Remote, w)
  }

  predicate HolderOk(m: Manager, w: Places, x: Site) {
    m.Holding? ==> m.t in w && w[m.t] == Managed(x)
  }

  ghost predicate HoldersOk(k: Core, w: Places) {
    && HolderOk(k.managers.local, w, Local) && HolderOk(k.managers.remote, w, Remote)
    && (forall f | f in k.buffers && k.buffers[f].Some? ::
          k.buffers[f].value in w && w[k.buffers[f].value] == Buffered(f))
    && (forall c | c in k.workers && k.workers[c].pc.HasTask() ::
          k.workers[c].pc.t in w && w[k.workers[c].pc.t] == Worked(c))
  }

  predicate PlaceOk(k: Core, p: Place, t: Task) {
    match p
    case Managed(x) => k.managers.Of(x).Holding? && k.managers.Of(x).t == t
    case Buffered(f) => f in k.buffers && k.buffers[f] == Some(t)
    case Worked(c) => c in k.workers && k.workers[c].pc.HasTask() && k.workers[c].pc.t == t
    case _ => true
  }

  ghost predicate CoreOk(k: Core, w: Places) {
    HoldersOk(k, w) && forall t | t in w :: PlaceOk(k, w[t], t)
  }

  ghost predicate Placed(s: State, w: Places) {
    ListsOk(s, w) && CoreOk(s.core, w)
  }

  // The tables: which lists a task is in.

  lemma EnteringPut(entering: multiset<Task>, w: Places, t: Task, p: Place)
    requires EnteringOk(entering, w)
    ensures EnteringOk((entering - multiset{t}) + if p.Entering? then multiset{t} else multiset{}, w[t := p])
  {
  }

  lemma QueuedPut(queued: multiset<(Queue, Task)>, w: Places, t: Task, p: Place)
    requires QueuedOk(queued, w) && (t in w ==> !w[t].Queued?)
    ensures QueuedOk(queued + if p.Queued? then multiset{(p.q, t)} else multiset{}, w[t := p])
  {
  }

  lemma QueuedTake(queued: multiset<(Queue, Task)>, w: Places, q: Queue, t: Task, p: Place)
    requires QueuedOk(queued, w) && (q, t) in queued && !p.Queued?
    ensures t in w && w[t] == Queued(q) && QueuedOk(queued - multiset{(q, t)}, w[t := p])
  {
    assert queued[(q, t)] >= 1;
  }

  lemma CompletedPut(done: multiset<Task>, x: Site, w: Places, t: Task, p: Place)
    requires CompletedOk(done, x, w) && (t in w ==> !w[t].Done?)
    ensures CompletedOk(done + if p == Done(x) then multiset{t} else multiset{}, x, w[t := p])
  {
  }

  lemma CompletedPuts(s: State, w: Places, t: Task, p: Place)
    requires ListsOk(s, w) && (t in w ==> !w[t].Done?)
    ensures var done := if p.Done? then s.completed.With(p.at, t) else s.completed;
            CompletedOk(done.local, Local, w[t := p]) && CompletedOk(done.remote, Remote, w[t := p])
  {
    CompletedPut(s.completed.local, Local, w, t, p);
    CompletedPut(s.completed.remote, Remote, w, t, p);
    assert s.completed.local + multiset{} == s.completed.local && s.completed.remote + multiset{} == s.completed.remote;
  }

  lemma ExecLists(s: State, w: Places, t: Task, x: Exclusivity)
    requires ListsOk(s, w) && NextExec(s, t, x).Some?
    ensures ListsOk(NextExec(s, t, x).value, w[t := Entering])
  {
    EnteringPut(s.entering, w, t, Entering);
    QueuedPut(s.queued, w, t, Entering);
    CompletedPuts(s, w, t, Entering);
    assert s.entering - multiset{t} == s.entering && s.queued + multiset{} == s.queued;
  }

  lemma EnqueueLists(s: State, w: Places, t: Task)
    requires ListsOk(s, w) && NextEnqueue(s, t).Some?
    ensures ListsOk(NextEnqueue(s, t).value, w[t := Queued(QueueFor(s.tasks[t]))])
  {
    assert s.entering[t] >= 1;
    EnteringPut(s.entering, w, t, Queued(QueueFor(s.tasks[t])));
    QueuedPut(s.queued, w, t, Queued(QueueFor(s.tasks[t])));
    CompletedPuts(s, w, t, Queued(QueueFor(s.tasks[t])));
    assert (s.entering - multiset{t}) + multiset{} == s.entering - multiset{t};
  }

  lemma SelectLists(s: State, w: Places, x: Site, q: Queue, t: Task)
    requires ListsOk(s, w) && NextSelect(s, x, q, t).Some?
    ensures t in w && w[t] == Queued(q) && ListsOk(NextSelect(s, x, q, t).value, w[t := Managed(x)])
  {
    QueuedTake(s.queued, w, q, t, Managed(x));
    EnteringPut(s.entering, w, t, Managed(x));
    CompletedPuts(s, w, t, Managed(x));
    assert (s.entering - multiset{t}) + multiset{} == s.entering;
  }

  lemma CompletedLists(s: State, w: Places, c: nat)
    requires ListsOk(s, w) && NextRunner(s, c, IncCompleted).Some?
    requires s.core.workers[c].pc.t in w && w[s.core.workers[c].pc.t].Worked?
    ensures ListsOk(NextRunner(s, c, IncCompleted).value, w[s.core.workers[c].pc.t := Done(s.core.workers[c].site)])
  {
    var t, p := s.core.workers[c].pc.t, Done(s.core.workers[c].site);
    EnteringPut(s.entering, w, t, p);
    QueuedPut(s.queued, w, t, p);
    CompletedPuts(s, w, t, p);
    assert (s.entering - multiset{t}) + multiset{} == s.entering && s.queued + multiset{} == s.queued;
  }

  lemma SameLists(s: State, s': State, w: Places, t: Task, p: Place)
    requires ListsOk(s, w) && t in w && w[t].InCore() && p.InCore()
    requires s'.tasks == s.tasks && s'.entering == s.entering && s'.queued == s.queued && s'.completed == s.completed
    ensures ListsOk(s', w[t := p])
  {
    EnteringPut(s.entering, w, t, p);
    QueuedPut(s.queued, w, t, p);
    CompletedPuts(s, w, t, p);
    assert (s.entering - multiset{t}) + multiset{} == s.entering && s.queued + multiset{} == s.queued;
  }

  // The pools: which manager, future or worker has a task.

  lemma ListCore(k: Core, w: Places, t: Task, p: Place)
    requires CoreOk(k, w) && (t in w ==> !w[t].InCore()) && !p.InCore()
    ensures CoreOk(k, w[t := p])
  {
  }

  lemma HoldCore(k: Core, w: Places, x: Site, f: nat, t: Task)
    requires CoreOk(k, w) && k.managers.Of(x) == Filling(f) && t in w && !w[t].InCore()
    ensures CoreOk(k.Manage(x, Holding(f, t)), w[t := Managed(x)])
  {
  }

  lemma FillCore(k: Core, w: Places, x: Site, f: nat, t: Task)
    requires CoreOk(k, w) && k.managers.Of(x) == Holding(f, t) && (f in k.buffers ==> k.buffers[f].None?)
    ensures CoreOk(k.Fill(x, f, t), w[t := Buffered(f)])
  {
  }

  lemma TakeCore(k: Core, w: Places, c: nat, x: Site, f: nat, t: Task)
    requires CoreOk(k, w) && f in k.buffers && k.buffers[f] == Some(t) && c in k.workers && !k.workers[c].pc.HasTask()
    ensures CoreOk(k.Take(c, x, f, t), w[t := Worked(c)])
  {
  }

  lemma FinishCore(k: Core, w: Places, c: nat, x: Site, t: Task)
    requires CoreOk(k, w) && c in k.workers && k.workers[c].pc == Ended(t)
    ensures CoreOk(k.Move(c, Worker(x, Idle)), w[t := Done(x)])
  {
  }

  /** The worker goes on with a task it has, or without one. */
  lemma WorkCore(k: Core, w: Places, c: nat, r: Worker)
    requires CoreOk(k, w)
    requires if r.pc.HasTask() then c in k.workers && k.workers[c].pc.HasTask() && k.workers[c].pc.t == r.pc.t
             else c in k.workers ==> !k.workers[c].pc.HasTask()
    ensures CoreOk(k.Move(c, r), w)
  {
  }

  lemma LeaveCore(k: Core, w: Places, c: nat)
    requires CoreOk(k, w) && c in k.workers && !k.workers[c].pc.HasTask()
    ensures CoreOk(k.Leave(c), w)
  {
  }

  lemma OfferCore(k: Core, w: Places, x: Site, f: nat)
    requires CoreOk(k, w) && !k.managers.Of(x).Holding?
    ensures CoreOk(k.Reuse(x, f), w) && (f !in k.buffers ==> CoreOk(k.Create(x, f), w))
    ensures CoreOk(k.Manage(x, Filling(f)), w)
  {
  }

  // Which tasks have been run, and where.

  predicate HasRunAt(k: Core, w: Places, t: Task, x: Site) {
    t in w &&
      match w[t]
      case Done(at) => at == x
      case Worked(c) => c in k.workers && k.workers[c].site == x && k.workers[c].pc.HasRun()
      case _ => false
  }

  ghost predicate RanOk(s: State, w: Places) {
    forall t, x :: s.ran[(t, x)] == One(HasRunAt(s.core, w, t, x))
  }

  lemma RunAtPut(k: Core, w: Places, t0: Task, p: Place, t: Task, x: Site)
    requires t0 in w ==> !w[t0].Worked? && !w[t0].Done?
    requires !p.Done? && (p.Worked? && p.c in k.workers ==> !k.workers[p.c].pc.HasRun())
    ensures HasRunAt(k, w[t0 := p], t, x) == HasRunAt(k, w, t, x)
  {
  }

  /** A worker's move neither starts nor ends the run of a task. */
  lemma RunAtMove(k: Core, w: Places, c: nat, r: Worker, t: Task, x: Site)
    requires CoreOk(k, w)
    requires c in k.workers ==> r.site == k.workers[c].site && r.pc.HasRun() == k.workers[c].pc.HasRun()
    requires c !in k.workers ==> !r.pc.HasRun()
    ensures HasRunAt(k.Move(c, r), w, t, x) == HasRunAt(k, w, t, x)
    ensures c in k.workers && !k.workers[c].pc.HasTask() ==> HasRunAt(k.Leave(c), w, t, x) == HasRunAt(k, w, t, x)
  {
    if t in w { assert PlaceOk(k, w[t], t); }
  }

  lemma RunAtStart(k: Core, w: Places, c: nat, t0: Task, t: Task, x: Site)
    requires CoreOk(k, w) && c in k.workers && k.workers[c].pc == Uncounted(t0)
    ensures One(HasRunAt(k.Move(c, Worker(k.workers[c].site, Running(t0))), w, t, x))
         == One(HasRunAt(k, w, t, x)) + One(t == t0 && x == k.workers[c].site)
  {
    if t in w { assert PlaceOk(k, w[t], t); }
  }

  lemma RunAtEnd(k: Core, w: Places, c: nat, t0: Task, t: Task, x: Site)
    requires CoreOk(k, w) && c in k.workers && k.workers[c].pc == Ended(t0)
    ensures HasRunAt(k.Move(c, Worker(k.workers[c].site, Idle)), w[t0 := Done(k.workers[c].site)], t, x)
         == HasRunAt(k, w, t, x)
  {
    if t in w { assert PlaceOk(k, w[t], t); }
  }

  // One event.

  ghost predicate Located(s: State) { exists w :: Placed(s, w) && RanOk(s, w) }

  lemma ExecutedLocated(s: State, w: Places, t: Task, x: Exclusivity)
    requires NextExec(s, t, x).Some? && Placed(s, w) && RanOk(s, w)
    ensures Located(NextExec(s, t, x).value)
  {
    var s', w' := NextExec(s, t, x).value, w[t := Entering];
    ExecLists(s, w, t, x);
    ListCore(s.core, w, t, Entering);
    forall u, y ensures s'.ran[(u, y)] == One(HasRunAt(s'.core, w', u, y)) { RunAtPut(s.core, w, t, Entering, u, y); }
    assert Placed(s', w') && RanOk(s', w');
  }

  lemma EnqueuedLocated(s: State, w: Places, t: Task)
    requires NextEnqueue(s, t).Some? && Placed(s, w) && RanOk(s, w)
    ensures Located(NextEnqueue(s, t).value)
  {
    var s', p := NextEnqueue(s, t).value, Queued(QueueFor(s.tasks[t]));
    var w' := w[t := p];
    EnqueueLists(s, w, t);
    assert s.entering[t] >= 1;
    ListCore(s.core, w, t, p);
    forall u, y ensures s'.ran[(u, y)] == One(HasRunAt(s'.core, w', u, y)) { RunAtPut(s.core, w, t, p, u, y); }
    assert Placed(s', w') && RanOk(s', w');
  }

  lemma OfferedLocated(s: State, w: Places, x: Site, f: nat)
    requires NextOffer(s, x, f).Some? && Placed(s, w) && RanOk(s, w)
    ensures Located(NextOffer(s, x, f).value)
  {
    OfferCore(s.core, w, x, f);
    assert Placed(NextOffer(s, x, f).value, w) && RanOk(NextOffer(s, x, f).value, w);
  }

  lemma AcceptedLocated(s: State, w: Places, x: Site, c: nat)
    requires NextAccept(s, x, c).Some? && Placed(s, w) && RanOk(s, w)
    ensures Located(NextAccept(s, x, c).value)
  {
    var s', f := NextAccept(s, x, c).value, s.core.managers.Of(x).f;
    OfferCore(s.core, w, x, f);
    WorkCore(s.core.Manage(x, Filling(f)), w, c, Worker(x, Promised(f)));
    forall t, y ensures s'.ran[(t, y)] == One(HasRunAt(s'.core, w, t, y)) {
      RunAtMove(s.core, w, c, Worker(x, Promised(f)), t, y);
    }
    assert Placed(s', w) && RanOk(s', w);
  }

  lemma SelectedLocated(s: State, w: Places, x: Site, q: Queue, t: Task)
    requires NextSelect(s, x, q, t).Some? && Placed(s, w) && RanOk(s, w)
    ensures Located(NextSelect(s, x, q, t).value)
  {
    var s' := NextSelect(s, x, q, t).value;
    SelectLists(s, w, x, q, t);
    HoldCore(s.core, w, x, s.core.managers.Of(x).f, t);
    forall u, y ensures s'.ran[(u, y)] == One(HasRunAt(s'.core, w[t := Managed(x)], u, y)) {
      RunAtPut(s.core, w, t, Managed(x), u, y);
    }
    assert Placed(s', w[t := Managed(x)]) && RanOk(s', w[t := Managed(x)]);
  }

  lemma FilledLocated(s: State, w: Places, x: Site)
    requires NextFill(s, x).Some? && Placed(s, w) && RanOk(s, w)
    ensures Located(NextFill(s, x).value)
  {
    var s', m := NextFill(s, x).value, s.core.managers.Of(x);
    FillCore(s.core, w, x, m.f, m.t);
    SameLists(s, s', w, m.t, Buffered(m.f));
    forall t, y ensures s'.ran[(t, y)] == One(HasRunAt(s'.core, w[m.t := Buffered(m.f)], t, y)) {
      RunAtPut(s.core, w, m.t, Buffered(m.f), t, y);
    }
    assert Placed(s', w[m.t := Buffered(m.f)]) && RanOk(s', w[m.t := Buffered(m.f)]);
  }

  lemma TakenLocated(s: State, w: Places, c: nat)
    requires NextTake(s, c).Some? && Placed(s, w) && RanOk(s, w)
    ensures Located(NextTake(s, c).value)
  {
    var s', r := NextTake(s, c).value, s.core.workers[c];
    var t0 := s.core.buffers[r.pc.f].value;
    TakeCore(s.core, w, c, r.site, r.pc.f, t0);
    SameLists(s, s', w, t0, Worked(c));
    forall t, y ensures s'.ran[(t, y)] == One(HasRunAt(s'.core, w[t0 := Worked(c)], t, y)) {
      RunAtMove(s.core, w, c, Worker(r.site, Took(r.pc.f, t0)), t, y);
      RunAtPut(s'.core, w, t0, Worked(c), t, y);
    }
    assert Placed(s', w[t0 := Worked(c)]) && RanOk(s', w[t0 := Worked(c)]);
  }

  lemma StoppedLocated(s: State, w: Places, c: nat)
    requires NextStop(s, c).Some? && Placed(s, w) && RanOk(s, w)
    ensures Located(NextStop(s, c).value)
  {
    var s' := NextStop(s, c).value;
    LeaveCore(s.core, w, c);
    forall t, y ensures s'.ran[(t, y)] == One(HasRunAt(s'.core, w, t, y)) {
      RunAtMove(s.core, w, c, s.core.workers[c], t, y);
    }
    assert Placed(s', w) && RanOk(s', w);
  }

  /** A worker that neither starts nor ends a task. */
  lemma MovedLocated(s: State, s': State, w: Places, c: nat, r: Worker)
    requires Placed(s, w) && RanOk(s, w) && s'.core.workers == s.core.workers[c := r]
    requires s'.core.managers == s.core.managers && s'.core.buffers == s.core.buffers && s'.ran == s.ran
    requires s'.tasks == s.tasks && s'.entering == s.entering && s'.queued == s.queued && s'.completed == s.completed
    requires if c in s.core.workers
             then r.site == s.core.workers[c].site && r.pc.HasRun() == s.core.workers[c].pc.HasRun()
                  && r.pc.HasTask() && s.core.workers[c].pc.HasTask() && r.pc.t == s.core.workers[c].pc.t
             else r.pc.Idle?
    ensures Located(s')
  {
    WorkCore(s.core, w, c, r);
    forall t, y ensures s'.ran[(t, y)] == One(HasRunAt(s'.core, w, t, y)) { RunAtMove(s.core, w, c, r, t, y); }
    assert Placed(s', w) && RanOk(s', w);
  }

  lemma StartedLocated(s: State, w: Places, c: nat)
    requires NextRunner(s, c, Start).Some? && Placed(s, w) && RanOk(s, w)
    ensures Located(NextRunner(s, c, Start).value)
  {
    var s', r := NextRunner(s, c, Start).value, s.core.workers[c];
    WorkCore(s.core, w, c, Worker(r.site, Running(r.pc.t)));
    forall t, y ensures s'.ran[(t, y)] == One(HasRunAt(s'.core, w, t, y)) {
      RunAtStart(s.core, w, c, r.pc.t, t, y);
    }
    assert Placed(s', w) && RanOk(s', w);
  }

  lemma CompletedLocated(s: State, w: Places, c: nat)
    requires NextRunner(s, c, IncCompleted).Some? && Placed(s, w) && RanOk(s, w)
    ensures Located(NextRunner(s, c, IncCompleted).value)
  {
    var s', r := NextRunner(s, c, IncCompleted).value, s.core.workers[c];
    var w' := w[r.pc.t := Done(r.site)];
    CompletedLists(s, w, c);
    FinishCore(s.core, w, c, r.site, r.pc.t);
    forall t, y ensures s'.ran[(t, y)] == One(HasRunAt(s'.core, w', t, y)) { RunAtEnd(s.core, w, c, r.pc.t, t, y); }
    assert Placed(s', w') && RanOk(s', w');
  }

  lemma RunnerLocated(s: State, w: Places, c: nat, step: RunnerStep)
    requires NextRunner(s, c, step).Some? && Placed(s, w) && RanOk(s, w)
    ensures Located(NextRunner(s, c, step).value)
  {
    if step.Start? {
      StartedLocated(s, w, c);
    } else if step.IncCompleted? {
      CompletedLocated(s, w, c);
    } else {
      MovedLocated(s, NextRunner(s, c, step).value, w, c, NextRunner(s, c, step).value.core.workers[c]);
    }
  }

  lemma WorkerLocated(s: State, w: Places, ev: Event)
    requires ev.Spawn? || ev.Stop? || ev.Take? || ev.PutBack? || ev.Runner?
    requires Next(s, ev).Some? && Placed(s, w) && RanOk(s, w)
    ensures Located(Next(s, ev).value)
  {
    match ev
    case Spawn(c, x) => MovedLocated(s, Next(s, ev).value, w, c, Worker(x, Idle));
    case Stop(c) => StoppedLocated(s, w, c);
    case Take(c) => TakenLocated(s, w, c);
    case PutBack(c) => MovedLocated(s, Next(s, ev).value, w, c, Next(s, ev).value.core.workers[c]);
    case Runner(c, step) => RunnerLocated(s, w, c, step);
    case _ =>
  }

  lemma TaskLocated(s: State, w: Places, ev: Event)
    requires ev.Exec? || ev.Enqueue? || ev.Offer? || ev.Accept? || ev.Select? || ev.Fill?
    requires Next(s, ev).Some? && Placed(s, w) && RanOk(s, w)
    ensures Located(Next(s, ev).value)
  {
    match ev
    case Exec(t, x) => ExecutedLocated(s, w, t, x);
    case Enqueue(t) => EnqueuedLocated(s, w, t);
    case Offer(x, f) => OfferedLocated(s, w, x, f);
    case Accept(x, c) => AcceptedLocated(s, w, x, c);
    case Select(x, q, t) => SelectedLocated(s, w, x, q, t);
    case Fill(x) => FilledLocated(s, w, x);
    case _ =>
  }

  lemma EventLocated(s: State, ev: Event)
    requires Next(s, ev).Some? && Located(s)
    ensures Located(Next(s, ev).value)
  {
    var w: Places :| Placed(s, w) && RanOk(s, w);
    if ev.Spawn? || ev.Stop? || ev.Take? || ev.PutBack? || ev.Runner? {
      WorkerLocated(s, w, ev);
    } else {
      TaskLocated(s, w, ev);
    }
  }

  lemma {:induction false} RunLocated(events: seq<Event>)
    requires Run(events).Some?
    ensures Located(Run(events).value)
  {
    if events == [] {
      assert Placed(INIT, map[]) && RanOk(INIT, map[]);
    } else {
      var front := events[..|events| - 1];
      RunLocated(front);
      EventLocated(Run(front).value, events[|events| - 1]);
    }
  }
}
