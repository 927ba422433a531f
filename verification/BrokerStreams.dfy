/** What an agent's stream holds, read off the events of any run: requests the agent has not answered,
    answers under way, and whether the stream is open and its loops still run. */
module BrokerStreams {
  import opened Common
  import opened Broker
  import opened BrokerTokens

  /** How often an event occurs in a run. */
  function Times(events: seq<Event>, ev: Event): nat { multiset(events)[ev] }

  lemma TimesNext(events: seq<Event>, ev: Event)
    requires events != []
    ensures Times(events, ev) == Times(events[..|events| - 1], ev) + One(events[|events| - 1] == ev)
  {
    var front, last := events[..|events| - 1], events[|events| - 1];
    assert events == front + [last];
  }

  lemma TimesIn(events: seq<Event>, ev: Event)
    ensures Times(events, ev) > 0 <==> ev in events
  {
  }

  // ------------------------------------------------------------------ the ends

  /** Whether stream k is open and its loops run, as far as the events tell. */
  ghost predicate EndsAre(events: seq<Event>, k: nat, a: Agent) {
    && (a.open <==> Stream(k, Close) !in events)
    && (a.send.SendStopped? <==> Stream(k, Deliver(false)) in events || Stream(k, StopSend) in events)
    && (a.recv.RecvStopped? <==> Stream(k, StopRecv) in events)
    && (Stream(k, StopSend) in events || Stream(k, StopRecv) in events ==> Stream(k, Close) in events)
  }

  ghost predicate NoStream(events: seq<Event>, k: nat) { forall m :: Stream(k, m) !in events }

  lemma StepEnds(a: Agent, m: StreamStep)
    requires StepAgent(a, m).Some?
    ensures var b := StepAgent(a, m).value;
            && (b.open <==> a.open && !m.Close?)
            && (b.send.SendStopped? <==> a.send.SendStopped? || m == Deliver(false) || m.StopSend?)
            && (b.recv.RecvStopped? <==> a.recv.RecvStopped? || m.StopRecv?)
            && (m.StopSend? || m.StopRecv? ==> !a.open)
  {
  }

  lemma Appended(events: seq<Event>, ev: Event)
    requires events != []
    ensures ev in events <==> ev in events[..|events| - 1] || ev == events[|events| - 1]
  {
    assert events == events[..|events| - 1] + [events[|events| - 1]];
  }

  predicate Inner(m: StreamStep) { m.Engage? || m.Dispatch? || m.Release? }

  /** What the last event is to stream k: a step of its own, a step on the broker's behalf, or nothing. */
  ghost predicate IsStep(ev: Event, k: nat, a: Agent, b: Agent, m: Option<StreamStep>) {
    && (m.None? ==> a == b) && (m.Some? ==> StepAgent(a, m.value) == Some(b))
    && (if m.Some? && !Inner(m.value) then ev == Stream(k, m.value) else forall n :: ev != Stream(k, n))
  }

  lemma EventIsStep(s: State, ev: Event, k: nat) returns (m: Option<StreamStep>)
    requires Next(s, ev).Some? && k in s.net.agents && k in Next(s, ev).value.net.agents
    ensures IsStep(ev, k, s.net.agents[k], Next(s, ev).value.net.agents[k], m)
  {
    m := EventSteps(s, ev, k);
    if ev.Stream? && ev.k == k { OutsideStream(s, ev, k, ev.m); }
  }

  lemma EndsStep(events: seq<Event>, k: nat, a: Agent, b: Agent, m: Option<StreamStep>)
    requires events != [] && EndsAre(events[..|events| - 1], k, a) && IsStep(events[|events| - 1], k, a, b, m)
    ensures EndsAre(events, k, b)
  {
    if m.Some? { StepEnds(a, m.value); }
    Appended(events, Stream(k, Close));
    Appended(events, Stream(k, Deliver(false)));
    Appended(events, Stream(k, StopSend));
    Appended(events, Stream(k, StopRecv));
  }

  lemma NewStream(s: State, ev: Event, k: nat)
    requires Next(s, ev).Some? && k !in s.net.agents
    ensures !(ev.Stream? && ev.k == k)
    ensures k in Next(s, ev).value.net.agents ==>
              ev.Connect? && ev.k == k && var b := Next(s, ev).value.net.agents[k];
              b.open && b.send.Idle? && b.recv.Listening? && b.unanswered == multiset{} && b.wire == multiset{}
  {
  }

  lemma OutsideStream(s: State, ev: Event, k: nat, m: StreamStep)
    requires Next(s, ev).Some? && ev == Stream(k, m)
    ensures !m.Engage? && !m.Dispatch? && !m.Release?
  {
  }

  lemma AgentsStay(s: State, ev: Event, k: nat)
    requires Next(s, ev).Some? && k in s.net.agents
    ensures k in Next(s, ev).value.net.agents
  {
  }

  lemma {:induction false} NoStreamBefore(events: seq<Event>, k: nat)
    requires Run(events).Some? && k !in Run(events).value.net.agents
    ensures NoStream(events, k)
  {
    if events != [] {
      var front, ev := events[..|events| - 1], events[|events| - 1];
      if k in Run(front).value.net.agents { AgentsStay(Run(front).value, ev, k); }
      NoStreamBefore(front, k);
      NewStream(Run(front).value, ev, k);
      assert events == front + [ev];
    }
  }

  lemma FirstEnds(events: seq<Event>, k: nat, b: Agent)
    requires events != [] && NoStream(events[..|events| - 1], k) && forall m :: events[|events| - 1] != Stream(k, m)
    requires b.open && b.send.Idle? && b.recv.Listening?
    ensures EndsAre(events, k, b)
  {
    Appended(events, Stream(k, Close));
    Appended(events, Stream(k, Deliver(false)));
    Appended(events, Stream(k, StopSend));
    Appended(events, Stream(k, StopRecv));
  }

  /** In every run a stream is open until it is closed; its send loop runs until a delivery fails or it
      stops, its receive loop until it stops; and neither stops before the stream is closed. */
  lemma {:induction false} EndsExactly(events: seq<Event>, k: nat)
    requires Run(events).Some? && k in Run(events).value.net.agents
    ensures EndsAre(events, k, Run(events).value.net.agents[k])
  {
    var front, ev := events[..|events| - 1], events[|events| - 1];
    var s, b := Run(front).value, Run(events).value.net.agents[k];
    if k in s.net.agents {
      EndsExactly(front, k);
      var m := EventIsStep(s, ev, k);
      EndsStep(events, k, s.net.agents[k], b, m);
    } else {
      NoStreamBefore(front, k);
      NewStream(s, ev, k);
      FirstEnds(events, k, b);
    }
  }

  // ---------------------------------------------------------- answers under way

  lemma StepWire(a: Agent, m: StreamStep, r: Response)
    requires StepAgent(a, m).Some?
    ensures StepAgent(a, m).value.wire[r] + One(m == Receive(r)) == a.wire[r] + One(m == AgentAnswers(r))
  {
  }

  /** In every run each answer an agent has sent was read once, or is under way: none is lost, none is
      read twice. */
  lemma {:induction false} WireExactly(events: seq<Event>, k: nat, r: Response)
    requires Run(events).Some? && k in Run(events).value.net.agents
    ensures Run(events).value.net.agents[k].wire[r] + Times(events, Stream(k, Receive(r)))
         == Times(events, Stream(k, AgentAnswers(r)))
  {
    var front, ev := events[..|events| - 1], events[|events| - 1];
    var s := Run(front).value;
    TimesNext(events, Stream(k, Receive(r)));
    TimesNext(events, Stream(k, AgentAnswers(r)));
    if k in s.net.agents {
      WireExactly(front, k, r);
      var m := EventIsStep(s, ev, k);
      if m.Some? { StepWire(s.net.agents[k], m.value, r); }
    } else {
      NoStreamBefore(front, k);
      NewStream(s, ev, k);
      TimesIn(front, Stream(k, Receive(r)));
      TimesIn(front, Stream(k, AgentAnswers(r)));
    }
  }

  // -------------------------------------------------------- requests not answered

  /** How often a request with that ID was sent down stream k. */
  function DeliveredTo(delivered: seq<(nat, CompileRequest)>, k: nat, id: Uuid): nat {
    if delivered == [] then 0 else
    var last := delivered[|delivered| - 1];
    DeliveredTo(delivered[..|delivered| - 1], k, id) + One(last.0 == k && last.1.id == id)
  }

  /** How often agent k has answered a request with that ID. */
  function AnsweredBy(events: seq<Event>, k: nat, id: Uuid): nat {
    if events == [] then 0 else
    var ev := events[|events| - 1];
    AnsweredBy(events[..|events| - 1], k, id)
    + One(ev.Stream? && ev.k == k && ev.m.AgentAnswers? && ev.m.answer.id == id)
  }

  lemma DeliveredNext(delivered: seq<(nat, CompileRequest)>, r: (nat, CompileRequest), k: nat, id: Uuid)
    ensures DeliveredTo(delivered + [r], k, id) == DeliveredTo(delivered, k, id) + One(r.0 == k && r.1.id == id)
  {
    assert (delivered + [r])[..|delivered|] == delivered;
  }

  lemma DeliveredStep(s: State, ev: Event, k: nat, id: Uuid)
    requires Next(s, ev).Some?
    ensures DeliveredTo(Next(s, ev).value.net.delivered, k, id)
         == DeliveredTo(s.net.delivered, k, id)
            + One(ev == Stream(k, Deliver(true)) && k in s.net.agents && s.net.agents[k].send.Delivering?
                  && s.net.agents[k].send.request.id == id)
  {
    if ev.Stream? && ev.m == Deliver(true) {
      DeliveredNext(s.net.delivered, (ev.k, s.net.agents[ev.k].send.request), k, id);
    } else {
      assert Next(s, ev).value.net.delivered == s.net.delivered;
    }
  }

  lemma StepUnanswered(a: Agent, m: StreamStep, id: Uuid)
    requires StepAgent(a, m).Some? && Honest(a, m)
    ensures StepAgent(a, m).value.unanswered[id] + One(m.AgentAnswers? && m.answer.id == id)
         == a.unanswered[id] + One(m == Deliver(true) && a.send.Delivering? && a.send.request.id == id)
  {
  }

  lemma {:induction false} NothingYet(events: seq<Event>, k: nat, id: Uuid)
    requires Run(events).Some? && k !in Run(events).value.net.agents
    ensures DeliveredTo(Run(events).value.net.delivered, k, id) == AnsweredBy(events, k, id) == 0
  {
    if events != [] {
      var front, ev := events[..|events| - 1], events[|events| - 1];
      if k in Run(front).value.net.agents { AgentsStay(Run(front).value, ev, k); }
      NothingYet(front, k, id);
      NewStream(Run(front).value, ev, k);
      DeliveredStep(Run(front).value, ev, k, id);
    }
  }

  /** With agents that answer only what they were asked, the requests an agent has not answered are
      exactly those sent to it and not answered by it. */
  lemma {:induction false} UnansweredExactly(events: seq<Event>, k: nat, id: Uuid)
    requires Run(events).Some? && HonestRun(events) && k in Run(events).value.net.agents
    ensures Run(events).value.net.agents[k].unanswered[id] + AnsweredBy(events, k, id)
         == DeliveredTo(Run(events).value.net.delivered, k, id)
  {
    var front, ev := events[..|events| - 1], events[|events| - 1];
    var s := Run(front).value;
    HonestFront(events);
    DeliveredStep(s, ev, k, id);
    if k in s.net.agents {
      UnansweredExactly(front, k, id);
      var m := EventIsStep(s, ev, k);
      if m.Some? { StepUnanswered(s.net.agents[k], m.value, id); }
    } else {
      NothingYet(front, k, id);
      NewStream(s, ev, k);
    }
  }

  /** All requests sent down stream k. */
  function Deliveries(delivered: seq<(nat, CompileRequest)>, k: nat): nat {
    if delivered == [] then 0
    else Deliveries(delivered[..|delivered| - 1], k) + One(delivered[|delivered| - 1].0 == k)
  }

  /** All answers agent k has sent. */
  function Answers(events: seq<Event>, k: nat): nat {
    if events == [] then 0 else
    var ev := events[|events| - 1];
    Answers(events[..|events| - 1], k) + One(ev.Stream? && ev.k == k && ev.m.AgentAnswers?)
  }

  lemma DeliveriesStep(s: State, ev: Event, k: nat)
    requires Next(s, ev).Some?
    ensures Deliveries(Next(s, ev).value.net.delivered, k)
         == Deliveries(s.net.delivered, k) + One(ev == Stream(k, Deliver(true)))
  {
    var d, e := s.net.delivered, Next(s, ev).value.net.delivered;
    if ev.Stream? && ev.m == Deliver(true) {
      assert e == d + [(ev.k, s.net.agents[ev.k].send.request)] && e[..|d|] == d;
    } else {
      assert e == d;
    }
  }

  lemma StepOutstanding(a: Agent, m: StreamStep)
    requires StepAgent(a, m).Some? && Honest(a, m)
    ensures |StepAgent(a, m).value.unanswered| + One(m.AgentAnswers?) == |a.unanswered| + One(m == Deliver(true))
  {
    if m.AgentAnswers? { assert |a.unanswered - multiset{m.answer.id}| == |a.unanswered| - 1; }
  }

  lemma {:induction false} NoneYet(events: seq<Event>, k: nat)
    requires Run(events).Some? && k !in Run(events).value.net.agents
    ensures Deliveries(Run(events).value.net.delivered, k) == Answers(events, k) == 0
  {
    if events != [] {
      var front, ev := events[..|events| - 1], events[|events| - 1];
      if k in Run(front).value.net.agents { AgentsStay(Run(front).value, ev, k); }
      NoneYet(front, k);
      NewStream(Run(front).value, ev, k);
      DeliveriesStep(Run(front).value, ev, k);
    }
  }

  lemma {:induction false} OutstandingExactly(events: seq<Event>, k: nat)
    requires Run(events).Some? && HonestRun(events) && k in Run(events).value.net.agents
    ensures |Run(events).value.net.agents[k].unanswered| + Answers(events, k)
         == Deliveries(Run(events).value.net.delivered, k)
  {
    var front, ev := events[..|events| - 1], events[|events| - 1];
    var s := Run(front).value;
    HonestFront(events);
    DeliveriesStep(s, ev, k);
    if k in s.net.agents {
      OutstandingExactly(front, k);
      var m := EventIsStep(s, ev, k);
      if m.Some? { StepOutstanding(s.net.agents[k], m.value); }
    } else {
      NoneYet(front, k);
      NewStream(s, ev, k);
    }
  }

  /** So an agent is never sent more requests than it has answered and its limit allows besides. */
  lemma DeliveriesBounded(events: seq<Event>, k: nat)
    requires Run(events).Some? && HonestRun(events) && k in Run(events).value.net.agents
    ensures Deliveries(Run(events).value.net.delivered, k)
         <= Answers(events, k) + Run(events).value.net.agents[k].limit
  {
    OutstandingExactly(events, k);
    ConcurrencyBounded(events, k);
  }

  // ---------------------------------------------------------- responses conserved

  /** The receive loop has read the response and not put it into the queue yet. */
  predicate Holding(a: Agent, r: Response) { a.recv == Received(r) || a.recv == Unlocked(r) }

  function Holders(agents: map<nat, Agent>, r: Response): set<nat> { set k | k in agents && Holding(agents[k], r) }

  function InHands(s: State, r: Response): nat { |Holders(s.net.agents, r)| }

  /** How often the broker has the response: in its queue, or in a receive loop's hands. */
  function Inside(s: State, r: Response): nat { s.net.queue[r] + InHands(s, r) }

  lemma SizeWithout(a: set<nat>, k: nat)
    ensures |a| == |a - {k}| + One(k in a)
  {
    if k in a { assert a == (a - {k}) + {k}; } else { assert a - {k} == a; }
  }

  lemma OnlyOneDiffers(before: set<nat>, after: set<nat>, k: nat)
    requires forall j | j != k :: j in before <==> j in after
    ensures |after| + One(k in before) == |before| + One(k in after)
  {
    SizeWithout(before, k);
    SizeWithout(after, k);
    assert after - {k} == before - {k};
  }

  lemma HoldersUpdate(agents: map<nat, Agent>, k: nat, b: Agent, r: Response)
    ensures |Holders(agents[k := b], r)| + One(k in agents && Holding(agents[k], r))
         == |Holders(agents, r)| + One(Holding(b, r))
  {
    OnlyOneDiffers(Holders(agents, r), Holders(agents[k := b], r), k);
  }

  /** The event brings the response into the broker: it is read from a stream, it is the reply to a
      request that needs no agent, or it declares one defunct. */
  predicate Brings(s: State, ev: Event, r: Response) {
    match ev
    case Stream(_, m) => m == Receive(r)
    case StoreInflight(c) => c in s.core.carriers && s.core.carriers[c].ToQueue? && s.core.carriers[c].reply == r
    case Cleanup(_, id) => r == Response(id, Defunct)
    case _ => false
  }

  predicate Handles(ev: Event, r: Response) { ev.HandleResponse? && ev.resp == r }

  /** The step puts the response into the queue. */
  predicate Forwards(a: Agent, m: StreamStep, r: Response) {
    (m.ReturnToken? && a.recv == Unlocked(r)) || (m.UnlockToken? && a.recv == Received(r) && a.locked == 0)
  }

  lemma StepHolds(a: Agent, m: StreamStep, r: Response)
    requires StepAgent(a, m).Some?
    ensures One(Holding(StepAgent(a, m).value, r)) + One(Forwards(a, m, r)) == One(Holding(a, r)) + One(m == Receive(r))
  {
  }

  lemma StreamQueues(s: State, k: nat, m: StreamStep, r: Response)
    requires Next(s, Stream(k, m)).Some?
    ensures k in s.net.agents && StepAgent(s.net.agents[k], m).Some?
    ensures Next(s, Stream(k, m)).value.net.queue[r] == s.net.queue[r] + One(Forwards(s.net.agents[k], m, r))
    ensures Next(s, Stream(k, m)).value.net.agents == s.net.agents[k := StepAgent(s.net.agents[k], m).value]
  {
  }

  lemma StreamBrings(s: State, ev: Event, r: Response)
    requires Next(s, ev).Some? && ev.Stream?
    ensures var t := Next(s, ev).value; Inside(t, r) == Inside(s, r) + One(Brings(s, ev, r))
  {
    StreamQueues(s, ev.k, ev.m, r);
    var a := s.net.agents[ev.k];
    StepHolds(a, ev.m, r);
    HoldersUpdate(s.net.agents, ev.k, StepAgent(a, ev.m).value, r);
  }

  lemma SameReceivers(s: State, ev: Event, r: Response)
    requires Next(s, ev).Some? && !ev.Stream?
    ensures InHands(Next(s, ev).value, r) == InHands(s, r)
  {
    var t := Next(s, ev).value;
    forall k ensures k in Holders(t.net.agents, r) <==> k in Holders(s.net.agents, r) { SameReceiver(s, ev, k); }
    assert Holders(t.net.agents, r) == Holders(s.net.agents, r);
  }

  lemma SameReceiver(s: State, ev: Event, k: nat)
    requires Next(s, ev).Some? && !ev.Stream?
    ensures k in s.net.agents ==>
              k in Next(s, ev).value.net.agents && Next(s, ev).value.net.agents[k].recv == s.net.agents[k].recv
    ensures k !in s.net.agents && k in Next(s, ev).value.net.agents ==> Next(s, ev).value.net.agents[k].recv.Listening?
  {
  }

  lemma QueueChanges(s: State, ev: Event, r: Response)
    requires Next(s, ev).Some? && !ev.Stream?
    ensures Next(s, ev).value.net.queue[r] + One(Handles(ev, r)) == s.net.queue[r] + One(Brings(s, ev, r))
  {
    if ev.HandleResponse? {
      HandledLeaves(s, ev.c, ev.resp);
    } else if ev.StoreInflight? {
      StoredQueues(s, ev.c);
    } else if ev.Cleanup? {
      CleanupQueues(s, ev.k, ev.id);
    } else {
      QueueUntouched(s, ev);
    }
  }

  lemma HandledLeaves(s: State, c: nat, resp: Response)
    requires Next(s, HandleResponse(c, resp)).Some?
    ensures resp in s.net.queue && Next(s, HandleResponse(c, resp)).value.net.queue == s.net.queue - multiset{resp}
  {
  }

  lemma StoredQueues(s: State, c: nat)
    requires Next(s, StoreInflight(c)).Some?
    ensures c in s.core.carriers
    ensures var x, queue := s.core.carriers[c], Next(s, StoreInflight(c)).value.net.queue;
            queue == s.net.queue + if x.ToQueue? then multiset{x.reply} else multiset{}
  {
  }

  lemma CleanupQueues(s: State, k: nat, id: Uuid)
    requires Next(s, Cleanup(k, id)).Some?
    ensures Next(s, Cleanup(k, id)).value.net.queue == s.net.queue + multiset{Response(id, Defunct)}
  {
  }

  lemma QueueUntouched(s: State, ev: Event)
    requires Next(s, ev).Some? && !ev.Stream? && !ev.HandleResponse? && !ev.StoreInflight? && !ev.Cleanup?
    ensures Next(s, ev).value.net.queue == s.net.queue
  {
  }

  lemma ResponseStep(s: State, ev: Event, r: Response)
    requires Next(s, ev).Some?
    ensures Inside(Next(s, ev).value, r) + One(Handles(ev, r)) == Inside(s, r) + One(Brings(s, ev, r))
  {
    if ev.Stream? {
      StreamBrings(s, ev, r);
    } else {
      SameReceivers(s, ev, r);
      QueueChanges(s, ev, r);
    }
  }

  /** How often the response was brought into the broker. */
  function Brought(events: seq<Event>, r: Response): nat {
    if events == [] then 0 else
    var front := events[..|events| - 1];
    Brought(front, r) + One(Run(front).Some? && Brings(Run(front).value, events[|events| - 1], r))
  }

  function Handled(events: seq<Event>, r: Response): nat {
    if events == [] then 0 else Handled(events[..|events| - 1], r) + One(Handles(events[|events| - 1], r))
  }

  /** In every run each response brought into the broker was handled once, is in the queue, or is in a
      receive loop's hands: none is lost, none is handled twice. */
  lemma {:induction false} ResponsesConserved(events: seq<Event>, r: Response)
    requires Run(events).Some?
    ensures Brought(events, r) == Handled(events, r) + Inside(Run(events).value, r)
  {
    if events == [] {
      assert Holders(INIT.net.agents, r) == {};
    } else {
      ResponsesConserved(events[..|events| - 1], r);
      ResponseStep(Run(events[..|events| - 1]).value, events[|events| - 1], r);
    }
  }

  // ------------------------------------------------------------- missing entries

  /** The alarm at each of the three places where a request is taken from the pending table. */
  function AlarmAt(r: Carrier): Alarm {
    if r.AtSender? then RunNonexistent else if r.Failed? then LoadNonexistent else InvalidInHook
  }

  /** In any state at all, taking a request from the pending table raises its place's alarm exactly
      when the request is not there; it is dropped then, or offered on its route if it was in the cache,
      and a send loop looks for the next one. */
  lemma MissingIsAlarmed(s: State, c: nat)
    requires Next(s, TakePending(c)).Some?
    ensures c in s.core.carriers
    ensures var r, t := s.core.carriers[c], Next(s, TakePending(c)).value;
            && t.core.alarms == (if r.Id() in s.core.pending then s.core.alarms else s.core.alarms + {AlarmAt(r)})
            && (r.AtSender? && r.Id() !in s.core.pending ==>
                  r.stream in t.net.agents && t.net.agents[r.stream].send == Idle && c !in t.core.carriers)
            && (r.Failed? && r.Id() !in s.core.pending ==> c !in t.core.carriers)
            && (r.CacheHit? && r.Id() !in s.core.pending ==>
                  c in t.core.carriers && t.core.carriers[c] == Sending(r.e, r.onFail))
  {
  }
}
