/** A request's way through agents: from any state the broker can reach, an agent that is ready takes
    it, what it answers reaches the consumerd, and an agent that is lost does not take it along. */
module BrokerRun {
  import opened Common
  import opened Toolchains
  import opened Broker
  import opened BrokerSafety
  import opened BrokerProgress
  import opened BrokerRouting
  import BrokerTokens

  /** Only stream k changes, and it becomes a. */
  ghost predicate OnlyStream(s: State, s': State, k: nat, a: Agent) {
    s'.core == s.core && s'.cache == s.cache && s'.net == s.net.(agents := s.net.agents[k := a])
  }

  lemma Connects(events: seq<Event>, s: State, k: nat, uuid: Uuid, tcs: seq<Toolchain>, limit: nat)
    returns (longer: seq<Event>, s': State)
    requires Run(events) == Some(s) && k !in s.net.agents && limit <= MAX_TOKENS
    ensures LeadsTo(events, longer, s')
    ensures OnlyStream(s, s', k, Agent(uuid, tcs, limit, limit, 0, Idle, Listening, true, multiset{}, multiset{}))
  {
    longer, s' := Go(events, s, Connect(k, uuid, tcs, limit));
  }

  predicate Quiet(m: StreamStep) { m.TakeToken? || m.LockToken? || m.Close? || m.Receive? }

  /** A stream step without an effect outside the stream. */
  lemma Steps(events: seq<Event>, s: State, k: nat, m: StreamStep) returns (longer: seq<Event>, s': State)
    requires Run(events) == Some(s) && k in s.net.agents && Quiet(m) && StepAgent(s.net.agents[k], m).Some?
    ensures LeadsTo(events, longer, s') && OnlyStream(s, s', k, StepAgent(s.net.agents[k], m).value)
  {
    longer, s' := Go(events, s, Stream(k, m));
  }

  /** The send loop is idle and has a token, or is waiting for a request already. */
  predicate Ready(a: Agent) { a.send.Waiting? || (a.send.Idle? && a.available > 0) }

  lemma TokenFits(events: seq<Event>, s: State, k: nat)
    requires Run(events) == Some(s) && k in s.net.agents
    ensures s.net.agents[k].available > 0 || s.net.agents[k].send.TokenTaken? ==> s.net.agents[k].locked < MAX_TOKENS
    ensures s.net.agents[k].recv.Unlocked? ==> s.net.agents[k].available < MAX_TOKENS
  {
    BrokerTokens.TokensConserved(events, k);
  }

  /** A ready send loop waits for a request, and nothing else has changed about its stream that a
      request would notice. */
  lemma GetsReady(events: seq<Event>, s: State, k: nat) returns (longer: seq<Event>, s': State, a: Agent)
    requires Run(events) == Some(s) && k in s.net.agents && Ready(s.net.agents[k])
    ensures LeadsTo(events, longer, s') && OnlyStream(s, s', k, a)
    ensures a.send.Waiting? && a.toolchains == s.net.agents[k].toolchains && a.uuid == s.net.agents[k].uuid
    ensures a.recv == s.net.agents[k].recv && a.open == s.net.agents[k].open
  {
    longer, s', a := events, s, s.net.agents[k];
    if !a.send.Waiting? {
      var mid, t := Steps(events, s, k, TakeToken);
      TokenFits(mid, t, k);
      longer, s' := Steps(mid, t, k, LockToken);
      Chained(events, mid, longer, t, s');
      a := s'.net.agents[k];
    }
  }

  // ------------------------------------------------------ from the route to the agent

  lemma TakenOff(events: seq<Event>, s: State, c: nat, e: Entry, f: RetryAction, k: nat)
    returns (longer: seq<Event>, s': State)
    requires Run(events) == Some(s) && At(s, c, Sending(e, f)) && k in s.net.agents
    requires e.request.toolchain.Some? && Offers(s.net.agents[k].toolchains, e.request.toolchain.value)
    ensures LeadsTo(events, longer, s') && MovesOn(s, s', c, Held(e, k)) && s'.cache == s.cache
  {
    longer, s' := Go(events, s, Handoff(c, k));
  }

  lemma TakenOver(events: seq<Event>, s: State, c: nat, e: Entry, k: nat)
    returns (longer: seq<Event>, s': State)
    requires Run(events) == Some(s) && At(s, c, Held(e, k)) && k in s.net.agents && s.net.agents[k].send.Waiting?
    ensures LeadsTo(events, longer, s') && At(s', c, AtSender(e, k)) && SameRecords(s, s') && s'.cache == s.cache
    ensures s'.net == s.net.(agents := s.net.agents[k := s.net.agents[k].(send := Busy(c))])
  {
    longer, s' := Go(events, s, ToSendLoop(c));
  }

  lemma Unlisted(events: seq<Event>, s: State, c: nat, e: Entry, k: nat)
    returns (longer: seq<Event>, s': State)
    requires Run(events) == Some(s) && At(s, c, AtSender(e, k))
    ensures LeadsTo(events, longer, s') && MovesOn(s, s', c, ToAgent(e, e, k)) && s'.cache == s.cache
  {
    PendingIsOwn(events, s, c);
    longer, s' := Go(events, s, TakePending(c));
  }

  /** The request has been put in flight with stream k. */
  ghost predicate PutInFlight(s: State, s': State, e: Entry, k: nat) {
    && s'.core.inflight == s.core.inflight[e.Id() := Inflight(e, Some(k))] && s'.core.sent == s.core.sent
    && s'.core.accepted == s.core.accepted && s'.cache == s.cache
  }

  /** The request with this ID is in flight with stream k. */
  predicate InFlight(s: State, e: Entry, k: nat) {
    e.Id() in s.core.inflight && s.core.inflight[e.Id()] == Inflight(e, Some(k))
  }

  lemma Launched(events: seq<Event>, s: State, c: nat, e: Entry, k: nat)
    returns (longer: seq<Event>, s': State)
    requires Run(events) == Some(s) && At(s, c, ToAgent(e, e, k))
    requires k in s.net.agents && s.net.agents[k].send == Busy(c)
    ensures LeadsTo(events, longer, s') && PutInFlight(s, s', e, k)
    ensures s'.net == s.net.(agents := s.net.agents[k := s.net.agents[k].(send := Delivering(e.request))])
  {
    longer, s' := Go(events, s, StoreInflight(c));
  }

  lemma Delivered(events: seq<Event>, s: State, k: nat, e: Entry) returns (longer: seq<Event>, s': State)
    requires Run(events) == Some(s) && k in s.net.agents && s.net.agents[k].send == Delivering(e.request)
    ensures LeadsTo(events, longer, s') && s'.core == s.core && s'.cache == s.cache
    ensures s'.net.delivered == s.net.delivered + [(k, e.request)]
    ensures k in s'.net.agents && s'.net.agents[k].recv == s.net.agents[k].recv
    ensures s'.net.agents[k].uuid == s.net.agents[k].uuid && s'.net.agents.Keys == s.net.agents.Keys
  {
    longer, s' := Go(events, s, Stream(k, Deliver(true)));
  }

  /** From the send loop's hands into flight. */
  lemma SentOff(events: seq<Event>, s: State, c: nat, e: Entry, k: nat) returns (longer: seq<Event>, s': State)
    requires Run(events) == Some(s) && At(s, c, Held(e, k)) && k in s.net.agents && s.net.agents[k].send.Waiting?
    ensures LeadsTo(events, longer, s') && PutInFlight(s, s', e, k)
    ensures s'.net == s.net.(agents := s.net.agents[k := s.net.agents[k].(send := Delivering(e.request))])
  {
    var first, t := TakenOver(events, s, c, e, k);
    var second, u := Unlisted(first, t, c, e, k);
    longer, s' := Launched(second, u, c, e, k);
    Chained(events, first, second, t, u);
    Chained(events, second, longer, u, s');
  }

  /** In every run, a request on a route and a ready agent of that route: the request can be in
      flight with the agent, and delivered to it. */
  lemma ReadyAgentGets(events: seq<Event>, s: State, c: nat, e: Entry, f: RetryAction, k: nat)
    returns (longer: seq<Event>, s': State)
    requires Run(events) == Some(s) && At(s, c, Sending(e, f)) && k in s.net.agents && Ready(s.net.agents[k])
    requires e.request.toolchain.Some? && Offers(s.net.agents[k].toolchains, e.request.toolchain.value)
    ensures LeadsTo(events, longer, s') && PutInFlight(s, s', e, k)
    ensures s'.net.delivered == s.net.delivered + [(k, e.request)] && s'.net.agents.Keys == s.net.agents.Keys
    ensures s'.net.agents[k].recv == s.net.agents[k].recv && s'.net.agents[k].uuid == s.net.agents[k].uuid
  {
    var first, t, a := GetsReady(events, s, k);
    var second, u := TakenOff(first, t, c, e, f, k);
    var third, v := SentOff(second, u, c, e, k);
    longer, s' := Delivered(third, v, k, e);
    Chained(events, first, second, t, u);
    Chained(events, second, third, u, v);
    Chained(events, third, longer, v, s');
  }

  // ------------------------------------------------------- from the agent to the consumerd

  lemma AnswerArrives(events: seq<Event>, s: State, k: nat, resp: Response) returns (longer: seq<Event>, s': State)
    requires Run(events) == Some(s) && k in s.net.agents
    ensures LeadsTo(events, longer, s') && s'.core == s.core && s'.cache == s.cache
    ensures k in s'.net.agents && resp in s'.net.agents[k].wire && s'.net.agents[k].recv == s.net.agents[k].recv
    ensures s'.net.delivered == s.net.delivered
  {
    longer, s' := Go(events, s, Stream(k, AgentAnswers(resp)));
  }

  /** Whether or not a locked token is there, an answer that was read reaches the queue. */
  lemma AnswerQueued(events: seq<Event>, s: State, k: nat, resp: Response) returns (longer: seq<Event>, s': State)
    requires Run(events) == Some(s) && k in s.net.agents && s.net.agents[k].recv == Received(resp)
    ensures LeadsTo(events, longer, s') && resp in s'.net.queue && s'.cache == s.cache
    ensures SameRecords(s, s') && s'.net.delivered == s.net.delivered
  {
    longer, s' := Go(events, s, Stream(k, UnlockToken));
    if s.net.agents[k].locked > 0 {
      var mid, t := longer, s';
      TokenFits(mid, t, k);
      longer, s' := Go(mid, t, Stream(k, ReturnToken));
      Chained(events, mid, longer, t, s');
    }
  }

  lemma AnswerRead(events: seq<Event>, s: State, k: nat, resp: Response) returns (longer: seq<Event>, s': State)
    requires Run(events) == Some(s) && k in s.net.agents && s.net.agents[k].recv.Listening?
    ensures LeadsTo(events, longer, s') && resp in s'.net.queue && s'.cache == s.cache
    ensures SameRecords(s, s') && s'.net.delivered == s.net.delivered
  {
    var first, t := AnswerArrives(events, s, k, resp);
    var second, u := Steps(first, t, k, Receive(resp));
    longer, s' := AnswerQueued(second, u, k, resp);
    Chained(events, first, second, t, u);
    Chained(events, second, longer, u, s');
  }

  /** In every run, what an agent answers for a request in flight can reach the consumerd that
      submitted the request. */
  lemma AgentCanAnswer(events: seq<Event>, s: State, k: nat, e: Entry, result: Result)
    returns (longer: seq<Event>, s': State)
    requires Run(events) == Some(s) && InFlight(s, e, k) && !result.Defunct?
    requires k in s.net.agents && s.net.agents[k].recv.Listening?
    ensures LeadsTo(events, longer, s') && s'.core.inflight == s.core.inflight - {e.Id()}
    ensures s'.core.sent == s.core.sent + [Sent(e.requester, Response(e.Id(), result))]
  {
    var mid, t := AnswerRead(events, s, k, Response(e.Id(), result));
    longer, s' := Answered(mid, t, Response(e.Id(), result));
    Chained(events, mid, longer, t, s');
  }

  // ------------------------------------------------------------------ lost agents

  /** The agent the ID is in flight with has the UUID of stream k. */
  predicate FliesWith(s: State, id: Uuid, uuid: Uuid)
    requires id in s.core.inflight
  {
    match s.core.inflight[id].agent
    case None => false
    case Some(j) => j in s.net.agents && s.net.agents[j].uuid == uuid
  }

  /** Of a closed stream, exactly the IDs in flight with its UUID are declared defunct, each by one
      notice and nothing else; of an open one, none. */
  lemma CleanupExactly(s: State, k: nat, id: Uuid)
    requires k in s.net.agents && id in s.core.inflight
    ensures Next(s, Cleanup(k, id)).Some? <==> !s.net.agents[k].open && FliesWith(s, id, s.net.agents[k].uuid)
    ensures Next(s, Cleanup(k, id)).Some? ==>
              var t := Next(s, Cleanup(k, id)).value;
              && t.core == s.core && t.cache == s.cache && t.net.agents == s.net.agents
              && t.net.queue == s.net.queue + multiset{Response(id, Defunct)}
  {
  }

  /** A defunct notice takes the request out of flight and enters it anew. */
  lemma Requeued(events: seq<Event>, s: State, id: Uuid) returns (longer: seq<Event>, s': State, c: nat)
    requires Run(events) == Some(s) && Response(id, Defunct) in s.net.queue && id in s.core.inflight
    ensures LeadsTo(events, longer, s') && s'.core.inflight == s.core.inflight - {id}
    ensures At(s', c, Entering(s.core.inflight[id].entry, RetryLater))
    ensures s'.core.sent == s.core.sent && s'.net.agents == s.net.agents && s'.cache == s.cache
  {
    c := AboveAll(s.core.carriers.Keys);
    longer, s' := Go(events, s, HandleResponse(c, Response(id, Defunct)));
  }

  /** In every run, a request in flight with an agent whose stream is closed can be entered anew. */
  lemma LostIsRequeued(events: seq<Event>, s: State, k: nat, id: Uuid)
    returns (longer: seq<Event>, s': State, c: nat)
    requires Run(events) == Some(s) && k in s.net.agents && !s.net.agents[k].open
    requires id in s.core.inflight && FliesWith(s, id, s.net.agents[k].uuid)
    ensures LeadsTo(events, longer, s') && s'.core.inflight == s.core.inflight - {id}
    ensures At(s', c, Entering(s.core.inflight[id].entry, RetryLater))
    ensures s'.core.sent == s.core.sent && s'.net.agents == s.net.agents && s'.cache == s.cache
  {
    CleanupExactly(s, k, id);
    var mid, t := Go(events, s, Cleanup(k, id));
    longer, s', c := Requeued(mid, t, id);
    Chained(events, mid, longer, t, s');
  }

  /** And if no agent takes it then, its consumerd is told to retry. */
  lemma LostCanBeAnswered(events: seq<Event>, k: nat, id: Uuid) returns (longer: seq<Event>)
    requires Run(events).Some? && k in Run(events).value.net.agents && !Run(events).value.net.agents[k].open
    requires id in Run(events).value.core.inflight
    requires FliesWith(Run(events).value, id, Run(events).value.net.agents[k].uuid)
    ensures var s := Run(events).value;
            && events <= longer && Run(longer).Some? && id in s.core.accepted
            && Run(longer).value.core.sent
            == s.core.sent + [Sent(s.core.accepted[id].requester, Response(id, Retry(RetryLater)))]
  {
    var s := Run(events).value;
    var w := RunIsGood(events);
    var mid, t, c := LostIsRequeued(events, s, k, id);
    longer := WaitingCanBeAnswered(mid, c);
    Chained(events, mid, longer, t, Run(longer).value);
  }

  // ------------------------------------------------------ what is never taken back

  lemma StepStaysClosed(a: Agent, m: StreamStep)
    requires StepAgent(a, m).Some? && !a.open
    ensures !StepAgent(a, m).value.open
  {
  }

  lemma StaysClosed(s: State, ev: Event, k: nat)
    requires Next(s, ev).Some? && k in s.net.agents && !s.net.agents[k].open
    ensures k in Next(s, ev).value.net.agents && !Next(s, ev).value.net.agents[k].open
  {
    StreamsStay(s, ev);
    var m := BrokerTokens.EventSteps(s, ev, k);
    if m.Some? { StepStaysClosed(s.net.agents[k], m.value); }
  }

  /** A closed stream stays closed, and what was delivered stays delivered. */
  lemma {:induction false} LostForGood(events: seq<Event>, longer: seq<Event>, k: nat, d: (nat, CompileRequest))
    requires events <= longer && Run(longer).Some? && Run(events).Some?
    requires var net := Run(events).value.net; k in net.agents && !net.agents[k].open && d in net.delivered
    ensures var net := Run(longer).value.net; k in net.agents && !net.agents[k].open && d in net.delivered
    decreases |longer|
  {
    if longer == events {
    } else {
      var front, ev := longer[..|longer| - 1], longer[|longer| - 1];
      LostForGood(events, front, k, d);
      StaysClosed(Run(front).value, ev, k);
      DeliveredRouted(Run(front).value, ev);
    }
  }

  // -------------------------------------------------------------- whole runs

  lemma OffersOwn(tc: Toolchain)
    ensures Offers([tc], tc)
  {
    assert HashBytes([tc][0]) == HashBytes(tc);
  }

  /** A submitted request, on its route. */
  lemma Submitted(events: seq<Event>, s: State, e: Entry) returns (longer: seq<Event>, s': State, c: nat)
    requires Run(events) == Some(s) && e.Id() !in s.core.accepted && e.request.toolchain.Some?
    ensures LeadsTo(events, longer, s') && At(s', c, Sending(e, DoNotRetry))
    ensures s'.core.sent == s.core.sent && s'.core.inflight == s.core.inflight && s'.net == s.net && s'.cache == s.cache
    ensures s'.core.accepted == s.core.accepted[e.Id() := e]
  {
    c := AboveAll(s.core.carriers.Keys);
    var first, t := Go(events, s, Accept(c, e));
    longer, s' := ToRoute(first, t, c, e, DoNotRetry);
    Chained(events, first, longer, t, s');
  }

  lemma ToRoute(events: seq<Event>, s: State, c: nat, e: Entry, f: RetryAction)
    returns (longer: seq<Event>, s': State)
    requires Run(events) == Some(s) && At(s, c, Entering(e, f)) && e.request.toolchain.Some?
    ensures LeadsTo(events, longer, s') && At(s', c, Sending(e, f)) && SameRecords(s, s')
    ensures s'.net == s.net && s'.cache == s.cache
  {
    var mid, t := Stored(events, s, c, e, f);
    longer, s' := Offered(mid, t, c, e, f);
    Chained(events, mid, longer, t, s');
  }

  /** In every run, a new agent with a token can take a request that is on its route, and answer it. */
  lemma NewAgentAnswers(events: seq<Event>, s: State, c: nat, e: Entry, f: RetryAction, uuid: Uuid, result: Result)
    returns (longer: seq<Event>, s': State)
    requires Run(events) == Some(s) && At(s, c, Sending(e, f)) && e.request.toolchain.Some? && !result.Defunct?
    ensures LeadsTo(events, longer, s') && s'.core.inflight == s.core.inflight - {e.Id()}
    ensures s'.core.sent == s.core.sent + [Sent(e.requester, Response(e.Id(), result))]
  {
    var k := AboveAll(s.net.agents.Keys);
    OffersOwn(e.request.toolchain.value);
    var first, t := Connects(events, s, k, uuid, [e.request.toolchain.value], 1);
    var second, u := ReadyAgentGets(first, t, c, e, f, k);
    longer, s' := AgentCanAnswer(second, u, k, e, result);
    Chained(events, first, second, t, u);
    Chained(events, second, longer, u, s');
  }

  /** For every request that names a toolchain there is a run in which an agent compiles it and its
      consumerd is sent what the agent returned. */
  lemma RequestCanBeAnswered(e: Entry, uuid: Uuid, result: Result) returns (events: seq<Event>)
    requires e.request.toolchain.Some? && !result.Defunct?
    ensures Run(events).Some? && Run(events).value.core.sent == [Sent(e.requester, Response(e.Id(), result))]
    ensures Run(events).value.core.inflight == map[]
  {
    var first, s, c := Submitted([], INIT, e);
    var t;
    events, t := NewAgentAnswers(first, s, c, e, DoNotRetry, uuid, result);
  }

  /** The first agent takes the request and is lost with it. */
  lemma LostWithAgent(e: Entry, uuid: Uuid) returns (events: seq<Event>, s: State)
    requires e.request.toolchain.Some?
    ensures Run(events) == Some(s) && InFlight(s, e, 0) && s.core.sent == []
    ensures 0 in s.net.agents && !s.net.agents[0].open && (0, e.request) in s.net.delivered
  {
    OffersOwn(e.request.toolchain.value);
    var first, t := Connects([], INIT, 0, uuid, [e.request.toolchain.value], 1);
    var second, u, c := Submitted(first, t, e);
    var third, v := ReadyAgentGets(second, u, c, e, DoNotRetry, 0);
    events, s := Steps(third, v, 0, Close);
  }

  /** For every such request there is a run in which the agent it was delivered to is lost, it is
      entered anew, and another agent's answer reaches its consumerd, as the only one. */
  lemma LostRequestCanBeAnswered(e: Entry, uuid: Uuid, other: Uuid, result: Result) returns (events: seq<Event>)
    requires e.request.toolchain.Some? && !result.Defunct?
    ensures Run(events).Some? && Run(events).value.core.sent == [Sent(e.requester, Response(e.Id(), result))]
    ensures 0 in Run(events).value.net.agents && !Run(events).value.net.agents[0].open
    ensures (0, e.request) in Run(events).value.net.delivered
  {
    var first, s := LostWithAgent(e, uuid);
    var second, t, c := LostIsRequeued(first, s, 0, e.Id());
    var third, u := ToRoute(second, t, c, e, RetryLater);
    var v;
    events, v := NewAgentAnswers(third, u, c, e, RetryLater, other, result);
    Chained(first, second, third, t, u);
    Chained(first, third, events, u, v);
    LostForGood(first, events, 0, (0, e.request));
  }
}
