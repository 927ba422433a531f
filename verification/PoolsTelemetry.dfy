/** The telemetry counters against the state they describe, in every run of the split queue. */
module PoolsTelemetry {
  import opened Common
  import opened Pools

  datatype Phase = Gap | Dequeued | ActiveAt(x: Site)

  /** Between two counter updates; past the decrement of numQueued; between the increment and the
      decrement of numRunning or numDelegated. */
  predicate In(w: Worker, p: Phase) {
    match p
    case Gap => w.pc.AtGap()
    case Dequeued => w.pc.AtGap() || w.pc.HasRun()
    case ActiveAt(x) => w.site == x && (w.pc.Running? || w.pc.Returned?)
  }

  function Members(m: map<nat, Worker>, p: Phase): set<nat> {
    set c | c in m && In(m[c], p)
  }

  function Size(k: Core, p: Phase): nat { |Members(k.workers, p)| }

  lemma Without(a: set<nat>, c: nat)
    ensures |a - {c}| == |a| - One(c in a)
  {
    if c in a { assert a == (a - {c}) + {c}; } else { assert a - {c} == a; }
  }

  lemma LeaveSize(m: map<nat, Worker>, c: nat, p: Phase)
    ensures |Members(m - {c}, p)| == |Members(m, p)| - One(c in m && In(m[c], p))
  {
    assert Members(m - {c}, p) == Members(m, p) - {c};
    Without(Members(m, p), c);
  }

  lemma MoveSize(m: map<nat, Worker>, c: nat, w: Worker, p: Phase)
    ensures |Members(m[c := w], p)| == |Members(m, p)| - One(c in m && In(m[c], p)) + One(In(w, p))
  {
    var a, b := Members(m, p), Members(m[c := w], p);
    assert forall d | d != c :: d in b <==> d in a;
    assert b - {c} == a - {c};
    Without(b, c);
    Without(a, c);
  }

  lemma OutsideSize(m: map<nat, Worker>, c: nat, w: Worker, p: Phase)
    requires !w.pc.AtGap() && !w.pc.HasRun() && (c in m ==> !m[c].pc.AtGap() && !m[c].pc.HasRun())
    ensures |Members(m[c := w], p)| == |Members(m, p)|
  {
    MoveSize(m, c, w, p);
  }

  /** Only the runners' steps change who is in a phase. */
  lemma OnlyRunners(s: State, ev: Event, p: Phase)
    requires Next(s, ev).Some? && !ev.Runner?
    ensures Size(Next(s, ev).value.core, p) == Size(s.core, p)
  {
    var k, m := s.core, s.core.workers;
    match ev
    case Accept(x, c) => OutsideSize(m, c, Worker(x, Promised(k.managers.Of(x).f)), p);
    case Spawn(c, x) => OutsideSize(m, c, Worker(x, Idle), p);
    case Stop(c) => LeaveSize(m, c, p);
    case Take(c) => OutsideSize(m, c, Worker(m[c].site, Took(m[c].pc.f, k.buffers[m[c].pc.f].value)), p);
    case PutBack(c) => OutsideSize(m, c, Worker(m[c].site, Starting(m[c].pc.t)), p);
    case _ =>
  }

  lemma RunnerSize(s: State, c: nat, step: RunnerStep, p: Phase)
    requires NextRunner(s, c, step).Some?
    ensures var w := s.core.workers[c];
            && Size(NextRunner(s, c, step).value.core, p)
            == Size(s.core, p) - One(In(w, p)) + One(In(Worker(w.site, Advanced(w.pc, step).value), p))
  {
    var w := s.core.workers[c];
    MoveSize(s.core.workers, c, Worker(w.site, Advanced(w.pc, step).value), p);
  }

  ghost predicate SumOk(s: State) {
    s.count.Sum() + Size(s.core, Gap) == |s.tasks|
  }

  ghost predicate ActiveOk(s: State) {
    s.count.running == Size(s.core, ActiveAt(Local)) && s.count.delegated == Size(s.core, ActiveAt(Remote))
  }

  ghost predicate QueuedOk(s: State) {
    && s.count.completedLocal == |s.completed.local| && s.count.completedRemote == |s.completed.remote|
    && s.count.queued + Size(s.core, Dequeued) + |s.completed.local| + |s.completed.remote| == |s.tasks|
  }

  lemma OtherCounts(s: State, ev: Event)
    requires Next(s, ev).Some? && !ev.Runner?
    ensures var s' := Next(s, ev).value;
            && s'.count == s.count.(queued := s.count.queued + One(ev.Exec?)) && |s'.tasks| == |s.tasks| + One(ev.Exec?)
            && s'.completed == s.completed
  {
  }

  lemma RunnerCounts(s: State, c: nat, step: RunnerStep)
    requires NextRunner(s, c, step).Some?
    ensures SumOk(s) ==> SumOk(NextRunner(s, c, step).value)
  {
    RunnerSize(s, c, step, Gap);
  }

  lemma RunnerActive(s: State, c: nat, step: RunnerStep)
    requires NextRunner(s, c, step).Some?
    ensures ActiveOk(s) ==> ActiveOk(NextRunner(s, c, step).value)
  {
    RunnerSize(s, c, step, ActiveAt(Local));
    RunnerSize(s, c, step, ActiveAt(Remote));
  }

  lemma RunnerQueued(s: State, c: nat, step: RunnerStep)
    requires NextRunner(s, c, step).Some?
    ensures QueuedOk(s) ==> QueuedOk(NextRunner(s, c, step).value)
  {
    RunnerSize(s, c, step, Dequeued);
  }

  lemma CountsKept(s: State, ev: Event)
    requires Next(s, ev).Some? && SumOk(s) && ActiveOk(s) && QueuedOk(s)
    ensures var s' := Next(s, ev).value; SumOk(s') && ActiveOk(s') && QueuedOk(s')
  {
    if ev.Runner? {
      RunnerCounts(s, ev.c, ev.step);
      RunnerActive(s, ev.c, ev.step);
      RunnerQueued(s, ev.c, ev.step);
    } else {
      OtherCounts(s, ev);
      OnlyRunners(s, ev, Gap);
      OnlyRunners(s, ev, ActiveAt(Local));
      OnlyRunners(s, ev, ActiveAt(Remote));
      OnlyRunners(s, ev, Dequeued);
    }
  }

  lemma NobodyAtFirst(m: map<nat, Worker>, p: Phase)
    requires m == map[]
    ensures |Members(m, p)| == 0
  {
    assert Members(m, p) == {};
  }

  lemma StartSum()
    ensures SumOk(INIT)
  {
    NobodyAtFirst(INIT.core.workers, Gap);
  }

  lemma StartActive()
    ensures ActiveOk(INIT)
  {
    NobodyAtFirst(INIT.core.workers, ActiveAt(Local));
    NobodyAtFirst(INIT.core.workers, ActiveAt(Remote));
  }

  lemma StartQueued()
    ensures QueuedOk(INIT)
  {
    NobodyAtFirst(INIT.core.workers, Dequeued);
  }

  /** numRunning and numDelegated are the numbers of workers with a task under way, the completed
      counters those of the tasks each pool ended, and numQueued counts every other task that no runner
      has dequeued, lost ones included. */
  lemma {:induction false} CountersExact(events: seq<Event>)
    requires Run(events).Some?
    ensures var s := Run(events).value; SumOk(s) && ActiveOk(s) && QueuedOk(s)
  {
    if events == [] {
      StartSum();
      StartActive();
      StartQueued();
    } else {
      CountersExact(events[..|events| - 1]);
      CountsKept(Run(events[..|events| - 1]).value, events[|events| - 1]);
    }
  }

  /** The five counters add up to the number of Exec calls exactly while no worker is between the
      two updates of a phase change; otherwise they fall short by the number of such workers. */
  lemma CountersConserved(events: seq<Event>)
    requires Run(events).Some?
    ensures var s := Run(events).value;
            && s.count.Sum() == |s.tasks| - Size(s.core, Gap)
            && (s.count.Sum() == |s.tasks| <==> forall c | c in s.core.workers :: !s.core.workers[c].pc.AtGap())
  {
    CountersExact(events);
    NobodyIn(Run(events).value.core.workers);
  }

  lemma NobodyIn(m: map<nat, Worker>)
    ensures |Members(m, Gap)| == 0 <==> forall c | c in m :: !m[c].pc.AtGap()
  {
    if c :| c in m && m[c].pc.AtGap() { assert c in Members(m, Gap); }
  }
}
