/** The consumer daemon's split queue over two worker pools (pkg/consumerd/queue.go,
    pkg/run/workerpool.go, pkg/consumerd/telemetry.go) as a transition system. One event is one
    channel operation, one counter update, or one call into or return from a task. Channels are
    modelled without their order and bound, pools without pausing: both only allow more runs. */
module Pools {
  import opened Common

  /** One Exec call's SplitTask. */
  type Task = nat

  /** A pool, and the half of a SplitTask it runs. */
  datatype Site = Local | Remote

  datatype Exclusivity = Unknown | OnlyLocal | OnlyRemote

  datatype Queue = Shared | Own(site: Site)

  function QueueFor(x: Exclusivity): Queue {
    match x
    case OnlyLocal => Own(Local)
    case OnlyRemote => Own(Remote)
    case Unknown => Shared
  }

  /** A pool's manager selects from the shared queue and its own. */
  predicate Selects(site: Site, q: Queue) { q == Shared || q == Own(site) }

  /** manageQueue: about to take a future from the pool of futures; offering it to the workers; it
      was accepted, selecting a task; about to send that task on the future's channel. */
  datatype Manager = Ready | Offering(f: nat) | Filling(f: nat) | Holding(f: nat, t: Task) {
    function FutureOf(): Option<nat> { if Ready? then None else Some(f) }
    /** A worker has accepted the future and it has not been filled. */
    predicate Owes(g: nat) { (Filling? || Holding?) && f == g }
  }

  datatype Managers = Managers(local: Manager, remote: Manager) {
    function Of(x: Site): Manager { if x.Local? then local else remote }
    function With(x: Site, m: Manager): Managers { if x.Local? then this.(local := m) else this.(remote := m) }
  }

  /** worker.Run and the runner it calls. */
  datatype Pc =
    | Idle
    | Promised(f: nat)          // has a future, waits for its task
    | Took(f: nat, t: Task)     // has its task, future not put back yet
    | Starting(t: Task)         // runner entered
    | Uncounted(t: Task)        // numQueued decremented
    | Running(t: Task)          // numRunning or numDelegated incremented, its task runs
    | Returned(t: Task)         // its task has returned
    | Ended(t: Task)            // numRunning or numDelegated decremented
  {
    function FutureOf(): Option<nat> { if Promised? || Took? then Some(f) else None }
    predicate HasTask() { !Idle? && !Promised? }
    predicate HasRun() { Running? || Returned? || Ended? }
    /** Between the two counter updates of a phase change. */
    predicate AtGap() { Uncounted? || Ended? }
  }

  datatype Worker = Worker(site: Site, pc: Pc)

  datatype Counters = Counters(queued: int, running: int, delegated: int, completedLocal: int, completedRemote: int) {
    function Sum(): int { queued + running + delegated + completedLocal + completedRemote }
  }

  /** The futures and whoever passes them on. */
  datatype Core = Core(
    managers: Managers,
    buffers: map<nat, Option<Task>>,       // each future's channel, of capacity one
    free: multiset<nat>,                   // futureTaskPool, shared by both pools
    workers: map<nat, Worker>,
    abandoned: set<nat>)                   // futures of workers that were stopped
  {
    function Manage(x: Site, m: Manager): Core { this.(managers := managers.With(x, m)) }
    function Move(c: nat, w: Worker): Core { this.(workers := workers[c := w]) }

    /** sync.Pool hands out a future put back earlier, or a new one. */
    function Reuse(x: Site, f: nat): Core { Manage(x, Offering(f)).(free := free - multiset{f}) }
    function Create(x: Site, f: nat): Core { Manage(x, Offering(f)).(buffers := buffers[f := None]) }
    function Accept(x: Site, f: nat, c: nat): Core { Manage(x, Filling(f)).Move(c, Worker(x, Promised(f))) }
    function Fill(x: Site, f: nat, t: Task): Core { Manage(x, Ready).(buffers := buffers[f := Some(t)]) }
    function Take(c: nat, x: Site, f: nat, t: Task): Core {
      Move(c, Worker(x, Took(f, t))).(buffers := buffers[f := None])
    }
    function PutBack(c: nat, x: Site, f: nat, t: Task): Core {
      Move(c, Worker(x, Starting(t))).(free := free + multiset{f})
    }
    function Leave(c: nat): Core { this.(workers := workers - {c}) }
    function Abandon(c: nat, f: nat): Core { Leave(c).(abandoned := abandoned + {f}) }
  }

  /** The tasks that have ended, by the pool that ran them. */
  datatype Completed = Completed(local: multiset<Task>, remote: multiset<Task>) {
    function At(x: Site): multiset<Task> { if x.Local? then local else remote }
    function With(x: Site, t: Task): Completed {
      if x.Local? then this.(local := local + multiset{t}) else this.(remote := remote + multiset{t})
    }
  }

  datatype State = State(
    tasks: map<Task, Exclusivity>,         // every Exec call so far
    entering: multiset<Task>,              // Exec calls that have not sent their task yet
    queued: multiset<(Queue, Task)>,
    core: Core,
    ran: multiset<(Task, Site)>,           // Local.Run and Remote.Run calls
    completed: Completed,
    stops: nat,                            // stop signals received
    count: Counters)

  datatype Event =
    | Exec(t: Task, x: Exclusivity) | Enqueue(t: Task)
    | Offer(site: Site, f: nat) | Accept(site: Site, c: nat) | Select(site: Site, q: Queue, t: Task) | Fill(site: Site)
    | Spawn(c: nat, site: Site) | Stop(c: nat)
    | Take(c: nat) | PutBack(c: nat)
    | Runner(c: nat, step: RunnerStep)

  function NextExec(s: State, t: Task, x: Exclusivity): Option<State> {
    if t in s.tasks then None
    else Some(s.(tasks := s.tasks[t := x], entering := s.entering + multiset{t},
                 count := s.count.(queued := s.count.queued + 1)))
  }

  function NextEnqueue(s: State, t: Task): Option<State> {
    if t !in s.entering || t !in s.tasks then None
    else Some(s.(entering := s.entering - multiset{t}, queued := s.queued + multiset{(QueueFor(s.tasks[t]), t)}))
  }

  // --------------------------------------------------------------- manageQueue

  function NextOffer(s: State, x: Site, f: nat): Option<State> {
    var k := s.core;
    if !k.managers.Of(x).Ready? then None
    else if f in k.free then Some(s.(core := k.Reuse(x, f)))
    else if f !in k.buffers then Some(s.(core := k.Create(x, f)))
    else None
  }

  function NextAccept(s: State, x: Site, c: nat): Option<State> {
    var k := s.core;
    if c !in k.workers || k.workers[c] != Worker(x, Idle) || !k.managers.Of(x).Offering? then None
    else Some(s.(core := k.Accept(x, k.managers.Of(x).f, c)))
  }

  function NextSelect(s: State, x: Site, q: Queue, t: Task): Option<State> {
    var m := s.core.managers.Of(x);
    if !m.Filling? || !Selects(x, q) || (q, t) !in s.queued then None
    else Some(s.(core := s.core.Manage(x, Holding(m.f, t)), queued := s.queued - multiset{(q, t)}))
  }

  /** The send blocks while the future's channel is full. */
  function NextFill(s: State, x: Site): Option<State> {
    var m := s.core.managers.Of(x);
    if !m.Holding? || m.f !in s.core.buffers || s.core.buffers[m.f].Some? then None
    else Some(s.(core := s.core.Fill(x, m.f, m.t)))
  }

  // ------------------------------------------------------------------- workers

  function NextSpawn(s: State, c: nat, x: Site): Option<State> {
    if c in s.core.workers then None else Some(s.(core := s.core.Move(c, Worker(x, Idle))))
  }

  /** A stop signal reaches a worker at either of its selects; a future it has is left behind. */
  function NextStop(s: State, c: nat): Option<State> {
    if c !in s.core.workers then None else
    match s.core.workers[c].pc
    case Idle => Some(s.(core := s.core.Leave(c), stops := s.stops + 1))
    case Promised(f) => Some(s.(core := s.core.Abandon(c, f), stops := s.stops + 1))
    case _ => None
  }

  function NextTake(s: State, c: nat): Option<State> {
    var k := s.core;
    if c !in k.workers || !k.workers[c].pc.Promised? then None else
    var f := k.workers[c].pc.f;
    if f !in k.buffers || k.buffers[f].None? then None
    else Some(s.(core := k.Take(c, k.workers[c].site, f, k.buffers[f].value)))
  }

  function NextPutBack(s: State, c: nat): Option<State> {
    var k := s.core;
    if c !in k.workers || !k.workers[c].pc.Took? then None
    else Some(s.(core := k.PutBack(c, k.workers[c].site, k.workers[c].pc.f, k.workers[c].pc.t)))
  }

  datatype RunnerStep = DecQueued | Start | Return | DecActive | IncCompleted

  /** localRunner and remoteRunner, step by step. */
  function Advanced(pc: Pc, step: RunnerStep): Option<Pc> {
    match (step, pc)
    case (DecQueued, Starting(t)) => Some(Uncounted(t))
    case (Start, Uncounted(t)) => Some(Running(t))
    case (Return, Running(t)) => Some(Returned(t))
    case (DecActive, Returned(t)) => Some(Ended(t))
    case (IncCompleted, Ended(_)) => Some(Idle)
    case _ => None
  }

  function Counted(k: Counters, x: Site, step: RunnerStep): Counters {
    match step
    case DecQueued => k.(queued := k.queued - 1)
    case Start => if x.Local? then k.(running := k.running + 1) else k.(delegated := k.delegated + 1)
    case Return => k
    case DecActive => if x.Local? then k.(running := k.running - 1) else k.(delegated := k.delegated - 1)
    case IncCompleted =>
      if x.Local? then k.(completedLocal := k.completedLocal + 1) else k.(completedRemote := k.completedRemote + 1)
  }

  function NextRunner(s: State, c: nat, step: RunnerStep): Option<State> {
    if c !in s.core.workers then None else
    var w := s.core.workers[c];
    var pc := Advanced(w.pc, step);
    if pc.None? then None
    else Some(s.(core := s.core.Move(c, Worker(w.site, pc.value)), count := Counted(s.count, w.site, step),
                 ran := if step.Start? then s.ran + multiset{(w.pc.t, w.site)} else s.ran,
                 completed := if step.IncCompleted? then s.completed.With(w.site, w.pc.t) else s.completed))
  }

  function Next(s: State, ev: Event): Option<State> {
    match ev
    case Exec(t, x) => NextExec(s, t, x)
    case Enqueue(t) => NextEnqueue(s, t)
    case Offer(site, f) => NextOffer(s, site, f)
    case Accept(site, c) => NextAccept(s, site, c)
    case Select(site, q, t) => NextSelect(s, site, q, t)
    case Fill(site) => NextFill(s, site)
    case Spawn(c, site) => NextSpawn(s, c, site)
    case Stop(c) => NextStop(s, c)
    case Take(c) => NextTake(s, c)
    case PutBack(c) => NextPutBack(s, c)
    case Runner(c, step) => NextRunner(s, c, step)
  }

  const INIT: State := State(
    map[], multiset{}, multiset{},
    Core(Managers(Ready, Ready), map[], multiset{}, map[], {}),
    multiset{}, Completed(multiset{}, multiset{}), 0,
    Counters(0, 0, 0, 0, 0))

  function Run(events: seq<Event>): Option<State> {
    if events == [] then Some(INIT) else
    var before := Run(events[..|events| - 1]);
    if before.None? then None else Next(before.value, events[|events| - 1])
  }
}
