/** Which accepted requests can still be answered, after any run of the broker. */
module BrokerStranded {
  import opened Common
  import opened Broker
  import opened BrokerSafety
  import opened BrokerProgress
  import opened BrokerRouting
  import opened BrokerRun
  import BrokerTokens

  // ------------------------------------------------------- what every run keeps

  ghost predicate HasReply(queue: multiset<Response>, id: Uuid) {
    exists r :: r in queue && r.id == id && !r.result.Defunct?
  }

  /** Requests in flight are with a stream there is, or have their answer in the queue. */
  ghost predicate FlightOk(s: State, id: Uuid)
    requires id in s.core.inflight
  {
    match s.core.inflight[id].agent
    case Some(k) => k in s.net.agents
    case None => HasReply(s.net.queue, id)
  }

  ghost predicate FlightsOk(s: State) { forall id | id in s.core.inflight :: FlightOk(s, id) }

  predicate ReplyOk(r: Carrier) { r.ToQueue? ==> r.reply.id == r.Id() && !r.reply.result.Defunct? }

  ghost predicate RepliesOk(s: State) { forall c | c in s.core.carriers :: ReplyOk(s.core.carriers[c]) }

  /** A send loop that is busy is so with a request in its hands. */
  predicate BusyOk(s: State, k: nat)
    requires k in s.net.agents
  {
    s.net.agents[k].send.Busy? ==>
      var c := s.net.agents[k].send.c;
      c in s.core.carriers && BrokerTokens.InLoop(s.core.carriers[c]) && s.core.carriers[c].stream == k
  }

  ghost predicate LoopsOk(s: State) { forall k | k in s.net.agents :: BusyOk(s, k) }

  lemma Untouched(s: State, ev: Event, c: nat)
    requires Next(s, ev).Some? && c in s.core.carriers && (!Aside(ev) ==> c != ev.c)
    ensures c in Next(s, ev).value.core.carriers && Next(s, ev).value.core.carriers[c] == s.core.carriers[c]
  {
    if Aside(ev) { CarriersStay(s, ev); }
  }

  lemma CarrierReplyKept(s: State, ev: Event, c: nat)
    requires Next(s, ev).Some? && RepliesOk(s) && c in Next(s, ev).value.core.carriers
    ensures ReplyOk(Next(s, ev).value.core.carriers[c])
  {
    if Aside(ev) {
      CarriersStay(s, ev);
    } else if c != ev.c {
      OtherCarriersStay(s, ev, c);
    } else {
      OwnReply(s, ev);
    }
  }

  lemma OwnReply(s: State, ev: Event)
    requires Next(s, ev).Some? && !Aside(ev) && ev.c in Next(s, ev).value.core.carriers
    ensures ReplyOk(Next(s, ev).value.core.carriers[ev.c])
  {
  }

  lemma FlightKept(s: State, ev: Event, id: Uuid)
    requires Next(s, ev).Some? && FlightsOk(s) && RepliesOk(s) && id in Next(s, ev).value.core.inflight
    ensures FlightOk(Next(s, ev).value, id)
  {
    StreamsStay(s, ev);
    var t := Next(s, ev).value;
    if id in s.core.inflight && t.core.inflight[id] == s.core.inflight[id] {
      assert FlightOk(s, id);
      if s.core.inflight[id].agent.None? { ReplyStays(s, ev, id); }
    } else {
      NewFlight(s, ev, id);
    }
  }

  lemma ReplyStays(s: State, ev: Event, id: Uuid)
    requires Next(s, ev).Some? && HasReply(s.net.queue, id) && id in Next(s, ev).value.core.inflight
    requires id in s.core.inflight
    ensures HasReply(Next(s, ev).value.net.queue, id)
  {
    var r :| r in s.net.queue && r.id == id && !r.result.Defunct?;
    if ev.HandleResponse? { HandledIsDown(s, ev.c, ev.resp); }
    QueueKeeps(s, ev, r);
  }

  /** What was handled is not in flight afterwards. */
  lemma HandledIsDown(s: State, c: nat, resp: Response)
    requires Next(s, HandleResponse(c, resp)).Some?
    ensures resp.id !in Next(s, HandleResponse(c, resp)).value.core.inflight
    ensures Next(s, HandleResponse(c, resp)).value.net.queue == s.net.queue - multiset{resp}
  {
  }

  lemma QueueKeeps(s: State, ev: Event, r: Response)
    requires Next(s, ev).Some? && r in s.net.queue && (ev.HandleResponse? ==> ev.resp != r)
    ensures r in Next(s, ev).value.net.queue
  {
    if ev.HandleResponse? { HandledIsDown(s, ev.c, ev.resp); }
  }

  lemma OnlyStoredFly(s: State, ev: Event, id: Uuid)
    requires Next(s, ev).Some? && id in Next(s, ev).value.core.inflight
    requires id !in s.core.inflight || Next(s, ev).value.core.inflight[id] != s.core.inflight[id]
    ensures ev.StoreInflight? && ev.c in s.core.carriers && id == s.core.carriers[ev.c].Id()
  {
  }

  lemma NewFlight(s: State, ev: Event, id: Uuid)
    requires Next(s, ev).Some? && RepliesOk(s) && id in Next(s, ev).value.core.inflight
    requires id !in s.core.inflight || Next(s, ev).value.core.inflight[id] != s.core.inflight[id]
    ensures FlightOk(Next(s, ev).value, id)
  {
    OnlyStoredFly(s, ev, id);
    var r, t := s.core.carriers[ev.c], Next(s, ev).value;
    if r.ToQueue? { assert ReplyOk(r) && r.reply in t.net.queue; }
  }

  /** A send loop becomes busy when it takes a request over. */
  lemma BecomesBusy(s: State, ev: Event, k: nat)
    requires Next(s, ev).Some? && k in Next(s, ev).value.net.agents && Next(s, ev).value.net.agents[k].send.Busy?
    requires k !in s.net.agents || s.net.agents[k].send != Next(s, ev).value.net.agents[k].send
    ensures BusyOk(Next(s, ev).value, k)
  {
    if ev.Stream? { StreamIsNotBusy(s, ev, k); }
  }

  lemma StreamIsNotBusy(s: State, ev: Event, k: nat)
    requires ev.Stream? && Next(s, ev).Some? && k in Next(s, ev).value.net.agents
    ensures k in s.net.agents
    ensures Next(s, ev).value.net.agents[k].send.Busy? ==> s.net.agents[k].send == Next(s, ev).value.net.agents[k].send
  {
    if k == ev.k && Next(s, ev).value.net.agents[k].send.Busy? { StepIsNotBusy(s.net.agents[k], ev.m); }
  }

  lemma StepIsNotBusy(a: Agent, m: StreamStep)
    requires StepAgent(a, m).Some? && !m.Engage? && StepAgent(a, m).value.send.Busy?
    ensures a.send == StepAgent(a, m).value.send
  {
  }

  predicate LeavesLoop(s: State, ev: Event, c: nat)
    requires c in s.core.carriers
  {
    ev == StoreInflight(c) || (ev == TakePending(c) && s.core.carriers[c].Id() !in s.core.pending)
  }

  lemma LoopCarrierStays(s: State, ev: Event, c: nat)
    requires Next(s, ev).Some? && c in s.core.carriers && BrokerTokens.InLoop(s.core.carriers[c])
    requires !LeavesLoop(s, ev, c)
    ensures var k := Next(s, ev).value.core;
            c in k.carriers && BrokerTokens.InLoop(k.carriers[c]) && k.carriers[c].stream == s.core.carriers[c].stream
  {
    if Aside(ev) || c != ev.c { Untouched(s, ev, c); } else { LoopCarrierMoves(s, ev); }
  }

  lemma LoopCarrierMoves(s: State, ev: Event)
    requires !Aside(ev) && Next(s, ev).Some? && ev.c in s.core.carriers
    requires BrokerTokens.InLoop(s.core.carriers[ev.c]) && !LeavesLoop(s, ev, ev.c)
    ensures ev == TakePending(ev.c) && s.core.carriers[ev.c].Id() in s.core.pending
    ensures var r := s.core.carriers[ev.c];
            Next(s, ev).value.core.carriers[ev.c] == ToAgent(r.e, s.core.pending[r.Id()], r.stream)
  {
  }

  lemma LoopIsLeft(s: State, ev: Event, c: nat)
    requires Next(s, ev).Some? && c in s.core.carriers && BrokerTokens.InLoop(s.core.carriers[c])
    requires LeavesLoop(s, ev, c)
    ensures var k := s.core.carriers[c].stream; k in s.net.agents && !Next(s, ev).value.net.agents[k].send.Busy?
  {
  }

  lemma BusyKept(s: State, ev: Event, k: nat)
    requires Next(s, ev).Some? && LoopsOk(s) && k in Next(s, ev).value.net.agents
    ensures BusyOk(Next(s, ev).value, k)
  {
    var b := Next(s, ev).value.net.agents[k];
    if b.send.Busy? {
      if k in s.net.agents && s.net.agents[k].send == b.send {
        assert BusyOk(s, k);
        if LeavesLoop(s, ev, b.send.c) { LoopIsLeft(s, ev, b.send.c); }
        LoopCarrierStays(s, ev, b.send.c);
      } else {
        BecomesBusy(s, ev, k);
      }
    }
  }

  lemma {:induction false} RunIsOk(events: seq<Event>)
    requires Run(events).Some?
    ensures var s := Run(events).value; FlightsOk(s) && RepliesOk(s) && LoopsOk(s)
  {
    if events != [] {
      var front, ev := events[..|events| - 1], events[|events| - 1];
      RunIsOk(front);
      var s, t := Run(front).value, Run(events).value;
      forall c | c in t.core.carriers ensures ReplyOk(t.core.carriers[c]) { CarrierReplyKept(s, ev, c); }
      forall id | id in t.core.inflight ensures FlightOk(t, id) { FlightKept(s, ev, id); }
      forall k | k in t.net.agents ensures BusyOk(t, k) { BusyKept(s, ev, k); }
    }
  }

  // ------------------------------------------------------------- stranded for good

  /** No token will ever come to the send loop again: none is available or on its way to be locked, and
      the receive loop has stopped or has none to give back. */
  predicate Starved(a: Agent) {
    && a.available == 0 && !a.send.TokenTaken? && !a.send.Waiting?
    && (a.recv.RecvStopped? || (a.locked == 0 && !a.recv.Unlocked?))
  }

  /** The send loop takes no more requests. */
  predicate Barred(a: Agent) { a.send.SendStopped? || Starved(a) }

  /** The request was taken off its route for a stream whose send loop takes no more requests. */
  predicate StrandedAt(s: State, c: nat, id: Uuid) {
    && c in s.core.carriers && s.core.carriers[c].Held? && s.core.carriers[c].Id() == id
    && s.core.carriers[c].stream in s.net.agents && Barred(s.net.agents[s.core.carriers[c].stream])
  }

  ghost predicate Stranded(s: State, id: Uuid) { exists c :: StrandedAt(s, c, id) }

  lemma StepStaysBarred(a: Agent, m: StreamStep)
    requires StepAgent(a, m).Some? && Barred(a)
    ensures Barred(StepAgent(a, m).value) && !m.Engage?
  {
  }

  lemma StaysBarred(s: State, ev: Event, k: nat)
    requires Next(s, ev).Some? && k in s.net.agents && Barred(s.net.agents[k])
    ensures k in Next(s, ev).value.net.agents && Barred(Next(s, ev).value.net.agents[k])
  {
    StreamsStay(s, ev);
    var m := BrokerTokens.EventSteps(s, ev, k);
    if m.Some? { StepStaysBarred(s.net.agents[k], m.value); }
  }

  lemma HeldStays(s: State, ev: Event, c: nat)
    requires Next(s, ev).Some? && c in s.core.carriers && s.core.carriers[c].Held?
    requires s.core.carriers[c].stream in s.net.agents && Barred(s.net.agents[s.core.carriers[c].stream])
    ensures c in Next(s, ev).value.core.carriers && Next(s, ev).value.core.carriers[c] == s.core.carriers[c]
  {
    if !Aside(ev) && c == ev.c { HeldIsTaken(s, ev); }
    Untouched(s, ev, c);
  }

  /** A request taken off its route leaves the receiver only for a send loop that waits for one. */
  lemma HeldIsTaken(s: State, ev: Event)
    requires !Aside(ev) && Next(s, ev).Some? && ev.c in s.core.carriers && s.core.carriers[ev.c].Held?
    ensures s.core.carriers[ev.c].stream in s.net.agents && s.net.agents[s.core.carriers[ev.c].stream].send.Waiting?
  {
  }

  lemma StrandedStays(s: State, ev: Event, c: nat, id: Uuid)
    requires Next(s, ev).Some? && StrandedAt(s, c, id)
    ensures StrandedAt(Next(s, ev).value, c, id)
  {
    HeldStays(s, ev, c);
    StaysBarred(s, ev, s.core.carriers[c].stream);
  }

  lemma {:induction false} StrandedForGood(events: seq<Event>, longer: seq<Event>, c: nat, id: Uuid)
    requires events <= longer && Run(longer).Some? && Run(events).Some? && StrandedAt(Run(events).value, c, id)
    ensures StrandedAt(Run(longer).value, c, id)
    decreases |longer|
  {
    if longer != events {
      var front := longer[..|longer| - 1];
      StrandedForGood(events, front, c, id);
      StrandedStays(Run(front).value, longer[|longer| - 1], c, id);
    }
  }

  lemma StrandedIsNotAnswered(events: seq<Event>, c: nat, id: Uuid)
    requires Run(events).Some? && StrandedAt(Run(events).value, c, id)
    ensures !AnsweredIn(Run(events).value.core, id)
  {
    var w := RunIsGood(events);
    assert w[id] == Carried(c);
  }

  // ------------------------------------------------- how the others are answered

  /** The request is with the receiver of stream k. */
  predicate WithReceiver(s: State, c: nat, e: Entry, k: nat) { At(s, c, Held(e, k)) && k in s.net.agents }

  /** Stream k takes a step by itself; the request stays where it is. */
  lemma StreamSteps(events: seq<Event>, s: State, c: nat, e: Entry, k: nat, m: StreamStep)
    returns (longer: seq<Event>, s': State)
    requires Run(events) == Some(s) && WithReceiver(s, c, e, k) && !m.Engage? && !m.Release? && !m.Dispatch?
    requires StepAgent(s.net.agents[k], m).Some?
    ensures LeadsTo(events, longer, s') && WithReceiver(s', c, e, k)
    ensures s'.net.agents[k] == StepAgent(s.net.agents[k], m).value
  {
    longer, s' := Go(events, s, Stream(k, m));
  }

  /** The tokens and the receive loop are the same. */
  predicate SameTokens(a: Agent, b: Agent) { b.available == a.available && b.locked == a.locked && b.recv == a.recv }

  /** A request in the send loop's hands is put in flight. */
  lemma LoopLaunches(events: seq<Event>, s: State, k: nat, d: nat, c: nat, e: Entry)
    returns (longer: seq<Event>, s': State)
    requires Run(events) == Some(s) && WithReceiver(s, c, e, k) && d in s.core.carriers && s.core.carriers[d].ToAgent?
    requires s.net.agents[k].send == Busy(d) && s.core.carriers[d].stream == k
    ensures LeadsTo(events, longer, s') && WithReceiver(s', c, e, k)
    ensures s'.net.agents[k].send.Delivering? && SameTokens(s.net.agents[k], s'.net.agents[k])
  {
    longer, s' := Go(events, s, StoreInflight(d));
  }

  lemma LoopTakes(events: seq<Event>, s: State, k: nat, d: nat, c: nat, e: Entry)
    returns (longer: seq<Event>, s': State)
    requires Run(events) == Some(s) && WithReceiver(s, c, e, k) && d in s.core.carriers && s.core.carriers[d].AtSender?
    requires s.net.agents[k].send == Busy(d) && s.core.carriers[d].stream == k
    ensures LeadsTo(events, longer, s') && WithReceiver(s', c, e, k) && s'.net == s.net
    ensures d in s'.core.carriers && s'.core.carriers[d].ToAgent? && s'.core.carriers[d].stream == k
  {
    PendingIsOwn(events, s, d);
    longer, s' := Go(events, s, TakePending(d));
  }

  /** A busy send loop delivers what it has. */
  lemma LoopFinishes(events: seq<Event>, s: State, k: nat, c: nat, e: Entry) returns (longer: seq<Event>, s': State)
    requires Run(events) == Some(s) && WithReceiver(s, c, e, k) && s.net.agents[k].send.Busy?
    ensures LeadsTo(events, longer, s') && WithReceiver(s', c, e, k)
    ensures s'.net.agents[k].send.Delivering? && SameTokens(s.net.agents[k], s'.net.agents[k])
  {
    RunIsOk(events);
    assert BusyOk(s, k);
    var d := s.net.agents[k].send.c;
    var first, t := events, s;
    if s.core.carriers[d].AtSender? { first, t := LoopTakes(events, s, k, d, c, e); }
    longer, s' := LoopLaunches(first, t, k, d, c, e);
    Chained(events, first, longer, t, s');
  }

  /** Where a send loop is when it has delivered what it has. */
  function Returned(l: SendLoop): SendLoop { if l.Busy? || l.Delivering? then Idle else l }

  /** A send loop that has not stopped comes back to look for a token, or has one. */
  lemma LoopReturns(events: seq<Event>, s: State, k: nat, c: nat, e: Entry) returns (longer: seq<Event>, s': State)
    requires Run(events) == Some(s) && WithReceiver(s, c, e, k) && !s.net.agents[k].send.SendStopped?
    ensures LeadsTo(events, longer, s') && WithReceiver(s', c, e, k) && SameTokens(s.net.agents[k], s'.net.agents[k])
    ensures s'.net.agents[k].send == Returned(s.net.agents[k].send)
  {
    longer, s' := events, s;
    if s.net.agents[k].send.Busy? { longer, s' := LoopFinishes(events, s, k, c, e); }
    if s'.net.agents[k].send.Delivering? {
      var mid, t := longer, s';
      longer, s' := StreamSteps(mid, t, c, e, k, Deliver(true));
      Chained(events, mid, longer, t, s');
    }
  }

  lemma TokenReturns(events: seq<Event>, s: State, k: nat, c: nat, e: Entry) returns (longer: seq<Event>, s': State)
    requires Run(events) == Some(s) && WithReceiver(s, c, e, k) && s.net.agents[k].recv.Unlocked?
    ensures LeadsTo(events, longer, s') && WithReceiver(s', c, e, k)
    ensures s'.net.agents[k].send == s.net.agents[k].send && s'.net.agents[k].available > 0
  {
    TokenFits(events, s, k);
    longer, s' := StreamSteps(events, s, c, e, k, ReturnToken);
  }

  lemma TokenUnlocks(events: seq<Event>, s: State, k: nat, c: nat, e: Entry) returns (longer: seq<Event>, s': State)
    requires Run(events) == Some(s) && WithReceiver(s, c, e, k)
    requires s.net.agents[k].recv.Received? && s.net.agents[k].locked > 0
    ensures LeadsTo(events, longer, s') && WithReceiver(s', c, e, k)
    ensures s'.net.agents[k].send == s.net.agents[k].send && s'.net.agents[k].available > 0
  {
    var mid, t := StreamSteps(events, s, c, e, k, UnlockToken);
    longer, s' := TokenReturns(mid, t, k, c, e);
    Chained(events, mid, longer, t, s');
  }

  lemma TokenComes(events: seq<Event>, s: State, k: nat, c: nat, e: Entry) returns (longer: seq<Event>, s': State)
    requires Run(events) == Some(s) && WithReceiver(s, c, e, k)
    requires var a := s.net.agents[k]; !a.recv.RecvStopped? && (a.locked > 0 || a.recv.Unlocked?)
    ensures LeadsTo(events, longer, s') && WithReceiver(s', c, e, k)
    ensures s'.net.agents[k].send == s.net.agents[k].send && s'.net.agents[k].available > 0
  {
    match s.net.agents[k].recv {
      case Unlocked(_) => longer, s' := TokenReturns(events, s, k, c, e);
      case Received(_) => longer, s' := TokenUnlocks(events, s, k, c, e);
      case Listening =>
        var resp := Response(0, Fail);
        var first, t := StreamSteps(events, s, c, e, k, AgentAnswers(resp));
        var second, u := StreamSteps(first, t, c, e, k, Receive(resp));
        longer, s' := TokenUnlocks(second, u, k, c, e);
        Chained(events, first, second, t, u);
        Chained(events, second, longer, u, s');
    }
  }

  lemma TokenIsLocked(events: seq<Event>, s: State, k: nat, c: nat, e: Entry) returns (longer: seq<Event>, s': State)
    requires Run(events) == Some(s) && WithReceiver(s, c, e, k)
    requires var a := s.net.agents[k]; a.send.TokenTaken? || (a.send.Idle? && a.available > 0)
    ensures LeadsTo(events, longer, s') && WithReceiver(s', c, e, k) && s'.net.agents[k].send.Waiting?
  {
    var first, t := events, s;
    if s.net.agents[k].send.Idle? { first, t := StreamSteps(events, s, c, e, k, TakeToken); }
    TokenFits(first, t, k);
    longer, s' := StreamSteps(first, t, c, e, k, LockToken);
    Chained(events, first, longer, t, s');
  }

  lemma TokenIsDue(a: Agent, b: Agent)
    requires !Barred(a) && SameTokens(a, b) && b.send == Returned(a.send) && b.send.Idle? && b.available == 0
    ensures !b.recv.RecvStopped? && (b.locked > 0 || b.recv.Unlocked?)
  {
  }

  /** The send loop takes a token, once there is one. */
  lemma TokenIsTaken(events: seq<Event>, s: State, k: nat, c: nat, e: Entry) returns (longer: seq<Event>, s': State)
    requires Run(events) == Some(s) && WithReceiver(s, c, e, k) && s.net.agents[k].send.Idle?
    requires var a := s.net.agents[k]; a.available == 0 ==> !a.recv.RecvStopped? && (a.locked > 0 || a.recv.Unlocked?)
    ensures LeadsTo(events, longer, s') && WithReceiver(s', c, e, k) && s'.net.agents[k].send.Waiting?
  {
    var first, t := events, s;
    if s.net.agents[k].available == 0 { first, t := TokenComes(events, s, k, c, e); }
    longer, s' := TokenIsLocked(first, t, k, c, e);
    Chained(events, first, longer, t, s');
  }

  /** A send loop that is not barred can wait for a request again. */
  lemma LoopWaits(events: seq<Event>, s: State, k: nat, c: nat, e: Entry) returns (longer: seq<Event>, s': State)
    requires Run(events) == Some(s) && WithReceiver(s, c, e, k) && !Barred(s.net.agents[k])
    ensures LeadsTo(events, longer, s') && WithReceiver(s', c, e, k) && s'.net.agents[k].send.Waiting?
  {
    var first, t := LoopReturns(events, s, k, c, e);
    longer, s' := first, t;
    match t.net.agents[k].send {
      case Idle =>
        if t.net.agents[k].available == 0 { TokenIsDue(s.net.agents[k], t.net.agents[k]); }
        longer, s' := TokenIsTaken(first, t, k, c, e);
      case TokenTaken => longer, s' := TokenIsLocked(first, t, k, c, e);
      case Waiting =>
    }
    Chained(events, first, longer, t, s');
  }

  // ----------------------------------------------------------------- main result

  /** Some continuation of the run answers the request. */
  ghost predicate CanBeAnswered(events: seq<Event>, id: Uuid) {
    exists longer :: events <= longer && Run(longer).Some? && AnsweredIn(Run(longer).value.core, id)
  }

  lemma NowAnswered(events: seq<Event>, longer: seq<Event>, s: State, s': State, x: Sent)
    requires LeadsTo(events, longer, s') && s'.core.sent == s.core.sent + [x]
    ensures CanBeAnswered(events, x.response.id)
  {
    assert s'.core.sent[|s.core.sent|] == x;
  }

  lemma AnsweredLater(events: seq<Event>, mid: seq<Event>, s: State, id: Uuid)
    requires LeadsTo(events, mid, s) && CanBeAnswered(mid, id)
    ensures CanBeAnswered(events, id)
  {
    var longer :| mid <= longer && Run(longer).Some? && AnsweredIn(Run(longer).value.core, id);
    assert events <= longer;
  }

  /** In flight: the answer is in the queue, or the stream can be lost and the request entered anew. */
  lemma FlyingCanBeAnswered(events: seq<Event>, s: State, id: Uuid)
    requires Run(events) == Some(s) && id in s.core.inflight
    ensures CanBeAnswered(events, id)
  {
    RunIsOk(events);
    assert FlightOk(s, id);
    match s.core.inflight[id].agent {
      case None =>
        var r :| r in s.net.queue && r.id == id && !r.result.Defunct?;
        var longer, t := Answered(events, s, r);
        NowAnswered(events, longer, s, t, Sent(s.core.inflight[id].entry.requester, r));
      case Some(k) =>
        var mid, t := Steps(events, s, k, Close);
        var longer := LostCanBeAnswered(mid, k, id);
        var x := Sent(t.core.accepted[id].requester, Response(id, Retry(RetryLater)));
        NowAnswered(mid, longer, t, Run(longer).value, x);
        AnsweredLater(events, mid, t, id);
    }
  }

  lemma QueuedCanBeAnswered(events: seq<Event>, s: State, c: nat)
    requires Run(events) == Some(s) && c in s.core.carriers && s.core.carriers[c].ToQueue?
    ensures CanBeAnswered(events, s.core.carriers[c].Id())
  {
    var r := s.core.carriers[c];
    var w := RunIsGood(events);
    assert FaithfulCarrier(s.core, r);
    var mid, t := Flies(events, s, c, r.e, r.reply);
    FlyingCanBeAnswered(mid, t, r.Id());
    AnsweredLater(events, mid, t, r.Id());
  }

  lemma LaunchedCanBeAnswered(events: seq<Event>, s: State, c: nat)
    requires Run(events) == Some(s) && c in s.core.carriers && s.core.carriers[c].ToAgent?
    ensures CanBeAnswered(events, s.core.carriers[c].Id())
  {
    var r := s.core.carriers[c];
    var w := RunIsGood(events);
    assert FaithfulCarrier(s.core, r);
    BrokerTokens.SendLoopsAgree(events);
    assert BrokerTokens.LoopBusy(s, c);
    var mid, t := Launched(events, s, c, r.e, r.stream);
    FlyingCanBeAnswered(mid, t, r.Id());
    AnsweredLater(events, mid, t, r.Id());
  }

  lemma TakenCanBeAnswered(events: seq<Event>, s: State, c: nat)
    requires Run(events) == Some(s) && c in s.core.carriers && s.core.carriers[c].AtSender?
    ensures CanBeAnswered(events, s.core.carriers[c].Id())
  {
    var r := s.core.carriers[c];
    var mid, t := Unlisted(events, s, c, r.e, r.stream);
    LaunchedCanBeAnswered(mid, t, c);
    AnsweredLater(events, mid, t, r.Id());
  }

  lemma HeldCanBeAnswered(events: seq<Event>, s: State, c: nat)
    requires Run(events) == Some(s) && c in s.core.carriers && s.core.carriers[c].Held?
    requires !StrandedAt(s, c, s.core.carriers[c].Id())
    ensures CanBeAnswered(events, s.core.carriers[c].Id())
  {
    var r := s.core.carriers[c];
    RunIsRouted(events);
    assert Onward(r) && Served(s, r.stream, r.e.request);
    var first, t := LoopWaits(events, s, r.stream, c, r.e);
    var second, u := SentOff(first, t, c, r.e, r.stream);
    FlyingCanBeAnswered(second, u, r.Id());
    Chained(events, first, second, t, u);
    AnsweredLater(events, second, u, r.Id());
  }

  lemma CarriedCanBeAnswered(events: seq<Event>, s: State, c: nat)
    requires Run(events) == Some(s) && c in s.core.carriers && !StrandedAt(s, c, s.core.carriers[c].Id())
    ensures CanBeAnswered(events, s.core.carriers[c].Id())
  {
    var r := s.core.carriers[c];
    match r {
      case Held(_, _) => HeldCanBeAnswered(events, s, c);
      case AtSender(_, _) => TakenCanBeAnswered(events, s, c);
      case ToAgent(_, _, _) => LaunchedCanBeAnswered(events, s, c);
      case ToQueue(_, _, _) => QueuedCanBeAnswered(events, s, c);
      case CacheHit(e, _, hit) =>
        var longer := HitCanBeAnswered(events, c);
        NowAnswered(events, longer, s, Run(longer).value, Sent(e.requester, Response(r.Id(), Success(hit))));
      case _ =>
        var longer := WaitingCanBeAnswered(events, c);
        NowAnswered(events, longer, s, Run(longer).value, Sent(r.e.requester, Response(r.Id(), Retry(r.onFail))));
    }
  }

  /** After any run an accepted request is answered or can still be, exactly unless it was taken off its
      route for an agent whose send loop takes no more requests. */
  lemma AnswerableExactly(events: seq<Event>, id: Uuid)
    requires Run(events).Some? && id in Run(events).value.core.accepted
    ensures CanBeAnswered(events, id) <==> !Stranded(Run(events).value, id)
  {
    var s := Run(events).value;
    if c :| StrandedAt(s, c, id) {
      forall longer | events <= longer && Run(longer).Some? ensures !AnsweredIn(Run(longer).value.core, id) {
        StrandedForGood(events, longer, c, id);
        StrandedIsNotAnswered(longer, c, id);
      }
    } else {
      var w := RunIsGood(events);
      match w[id] {
        case Carried(c) => CarriedCanBeAnswered(events, s, c);
        case Flying => FlyingCanBeAnswered(events, s, id);
        case Done(i) => assert s.core.sent[i].response.id == id;
      }
    }
  }

  /** It happens: an agent with all its tokens given out, here one with a limit of zero, takes a request
      off its route, where others could have taken it; the request is never answered. */
  lemma RequestCanBeStranded(e: Entry, uuid: Uuid) returns (events: seq<Event>)
    requires e.request.toolchain.Some?
    ensures Run(events).Some? && e.Id() in Run(events).value.core.accepted && !CanBeAnswered(events, e.Id())
  {
    OffersOwn(e.request.toolchain.value);
    var first, s := Connects([], INIT, 0, uuid, [e.request.toolchain.value], 0);
    var second, t, c := Submitted(first, s, e);
    var u;
    events, u := TakenOff(second, t, c, e, DoNotRetry, 0);
    assert StrandedAt(u, c, e.Id());
    AnswerableExactly(events, e.Id());
  }
}
