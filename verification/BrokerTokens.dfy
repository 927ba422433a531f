/** Per-agent concurrency tokens, in every run of the broker. */
module BrokerTokens {
  import opened Common
  import opened Broker
  import BrokerSafety

  /** Tokens are in the available channel, in the locked channel, or in the hand of one loop. */
  predicate Conserved(a: Agent) {
    a.available + a.locked + One(a.send.TokenTaken?) + One(a.recv.Unlocked?) == a.limit <= MAX_TOKENS
  }

  /** Every request the agent has, or is about to get, and every answer under way has its own
      locked token. */
  predicate Covered(a: Agent) {
    a.locked >= One(a.send.Waiting? || a.send.Busy? || a.send.Delivering?)
                + |a.unanswered| + |a.wire| + One(a.recv.Received?)
  }

  /** A request in a send loop's hands is the one the loop is busy with. */
  predicate LoopBusy(s: State, c: nat)
    requires c in s.core.carriers
  {
    var r := s.core.carriers[c];
    InLoop(r) ==> r.stream in s.net.agents && s.net.agents[r.stream].send == Busy(c)
  }

  ghost predicate LoopsBusy(s: State) {
    forall c | c in s.core.carriers :: LoopBusy(s, c)
  }

  /** The agent answers only requests it has and has not answered. */
  predicate Honest(a: Agent, m: StreamStep) {
    m.AgentAnswers? ==> m.answer.id in a.unanswered
  }

  lemma StreamConserves(a: Agent, m: StreamStep)
    requires Conserved(a) && StepAgent(a, m).Some?
    ensures Conserved(StepAgent(a, m).value)
  {
  }

  lemma StreamCovers(a: Agent, m: StreamStep)
    requires Covered(a) && Honest(a, m) && StepAgent(a, m).Some?
    ensures Covered(StepAgent(a, m).value)
    ensures m.UnlockToken? ==> a.locked > 0
  {
    match m
    case AgentAnswers(resp) => AnswerCovers(a, resp);
    case Receive(resp) => ReceiveCovers(a, resp);
    case _ =>
  }

  lemma AnswerCovers(a: Agent, resp: Response)
    requires Covered(a) && resp.id in a.unanswered
    ensures Covered(StepAgent(a, AgentAnswers(resp)).value)
  {
    assert |a.unanswered - multiset{resp.id}| == |a.unanswered| - 1;
    assert |a.wire + multiset{resp}| == |a.wire| + 1;
  }

  lemma ReceiveCovers(a: Agent, resp: Response)
    requires Covered(a) && StepAgent(a, Receive(resp)).Some?
    ensures Covered(StepAgent(a, Receive(resp)).value)
  {
    assert |a.wire - multiset{resp}| == |a.wire| - 1;
  }

  /** Every event is, for each agent stream, at most one step of it. */
  lemma EventSteps(s: State, ev: Event, k: nat) returns (m: Option<StreamStep>)
    requires Next(s, ev).Some? && k in Next(s, ev).value.net.agents
    ensures k !in s.net.agents ==>
              Conserved(Next(s, ev).value.net.agents[k]) && Covered(Next(s, ev).value.net.agents[k])
    ensures k in s.net.agents && m.None? ==> Next(s, ev).value.net.agents[k] == s.net.agents[k]
    ensures m.Some? ==>
              k in s.net.agents && StepAgent(s.net.agents[k], m.value) == Some(Next(s, ev).value.net.agents[k])
    ensures m.Some? && !m.value.Engage? && !m.value.Dispatch? && !m.value.Release? ==> ev == Stream(k, m.value)
    ensures ev.Stream? && ev.k == k ==> k in s.net.agents && m == Some(ev.m)
    ensures m.Some? && m.value.Dispatch? ==> ev == StoreInflight(m.value.c)
    ensures m.Some? && m.value.Release? ==>
              && ev.TakePending? && s.core.carriers[ev.c].AtSender?
              && s.core.carriers[ev.c].stream == k && s.core.carriers[ev.c].Id() !in s.core.pending
  {
    m := None;
    match ev
    case Stream(j, step) => if j == k { m := Some(step); }
    case ToSendLoop(c) => if s.core.carriers[c].stream == k { m := Some(Engage(c)); }
    case StoreInflight(c) =>
      if s.core.carriers[c].ToAgent? && s.core.carriers[c].stream == k {
        m := Some(Dispatch(c, s.core.carriers[c].e.request));
      }
    case TakePending(c) =>
      if s.core.carriers[c].AtSender? && s.core.carriers[c].stream == k && s.core.carriers[c].Id() !in s.core.pending {
        m := Some(Release);
      }
    case _ =>
  }

  predicate InLoop(r: Carrier) { r.AtSender? || r.ToAgent? }

  /** Who can be in a send loop's hands after an event. */
  lemma CarrierAtLoop(s: State, ev: Event, c: nat)
    requires Next(s, ev).Some? && c in Next(s, ev).value.core.carriers
    requires InLoop(Next(s, ev).value.core.carriers[c]) && ev != ToSendLoop(c)
    ensures && c in s.core.carriers && InLoop(s.core.carriers[c])
            && s.core.carriers[c].stream == Next(s, ev).value.core.carriers[c].stream
  {
    if Aside(ev) {
      CarriersStay(s, ev);
    } else if c != ev.c {
      OtherCarriersStay(s, ev, c);
    } else {
      CarrierEntersLoop(s, ev, c);
    }
  }

  lemma CarrierEntersLoop(s: State, ev: Event, c: nat)
    requires Next(s, ev).Some? && c in Next(s, ev).value.core.carriers && !Aside(ev) && c == ev.c
    requires InLoop(Next(s, ev).value.core.carriers[c]) && ev != ToSendLoop(c)
    ensures && c in s.core.carriers && InLoop(s.core.carriers[c])
            && s.core.carriers[c].stream == Next(s, ev).value.core.carriers[c].stream
  {
  }

  lemma LoopNotLeft(s: State, ev: Event, c: nat)
    requires Next(s, ev).Some? && c in Next(s, ev).value.core.carriers
    requires InLoop(Next(s, ev).value.core.carriers[c])
    ensures ev != StoreInflight(c)
    ensures ev == TakePending(c) ==> c in s.core.carriers && s.core.carriers[c].Id() in s.core.pending
  {
  }

  lemma StreamStaysBusy(a: Agent, m: StreamStep, c: nat)
    requires a.send == Busy(c) && StepAgent(a, m).Some? && !m.Release? && (m.Dispatch? ==> m.c != c)
    ensures StepAgent(a, m).value.send == Busy(c)
  {
  }

  lemma LoopBusyKept(s: State, ev: Event, c: nat)
    requires Next(s, ev).Some? && LoopsBusy(s) && c in Next(s, ev).value.core.carriers
    ensures LoopBusy(Next(s, ev).value, c)
  {
    var r := Next(s, ev).value.core.carriers[c];
    if InLoop(r) && ev != ToSendLoop(c) {
      CarrierAtLoop(s, ev, c);
      LoopNotLeft(s, ev, c);
      assert LoopBusy(s, c);
      var m := EventSteps(s, ev, r.stream);
      if m.Some? { StreamStaysBusy(s.net.agents[r.stream], m.value, c); }
    }
  }

  /** The two views of a send loop agree, so the hand-offs guarded by its state always go through. */
  lemma {:induction false} SendLoopsAgree(events: seq<Event>)
    requires Run(events).Some?
    ensures LoopsBusy(Run(events).value)
  {
    if events != [] {
      var front, ev := events[..|events| - 1], events[|events| - 1];
      SendLoopsAgree(front);
      forall c | c in Run(events).value.core.carriers ensures LoopBusy(Run(events).value, c) {
        LoopBusyKept(Run(front).value, ev, c);
      }
    }
  }

  lemma {:induction false} TokensConserved(events: seq<Event>, k: nat)
    requires Run(events).Some? && k in Run(events).value.net.agents
    ensures Conserved(Run(events).value.net.agents[k])
  {
    if events != [] {
      var front, ev := events[..|events| - 1], events[|events| - 1];
      var m := EventSteps(Run(front).value, ev, k);
      if k in Run(front).value.net.agents {
        TokensConserved(front, k);
        if m.Some? { StreamConserves(Run(front).value.net.agents[k], m.value); }
      }
    }
  }

  /** Since a token in hand is missing from both channels, neither token channel is ever full when
      a loop is about to send on it: the sends at broker.go:188 and broker.go:238 never block. */
  lemma TokenChannelsNeverFull(events: seq<Event>, k: nat)
    requires Run(events).Some? && k in Run(events).value.net.agents
    ensures var a := Run(events).value.net.agents[k];
            && (a.send.TokenTaken? ==> StepAgent(a, LockToken).Some?)
            && (a.recv.Unlocked? ==> StepAgent(a, ReturnToken).Some?)
  {
    TokensConserved(events, k);
  }

  /** If one were full, its send would block. */
  lemma FullChannelBlocks(a: Agent)
    ensures a.locked >= MAX_TOKENS ==> StepAgent(a, LockToken).None?
    ensures a.available >= MAX_TOKENS ==> StepAgent(a, ReturnToken).None?
  {
  }

  /** In the run, agents answer each request they were sent at most once and nothing else. */
  ghost predicate HonestRun(events: seq<Event>) {
    forall i | 0 <= i < |events| && Run(events[..i]).Some? ::
      events[i].Stream? && events[i].k in Run(events[..i]).value.net.agents
      ==> Honest(Run(events[..i]).value.net.agents[events[i].k], events[i].m)
  }

  lemma HonestFront(events: seq<Event>)
    requires HonestRun(events) && events != []
    ensures HonestRun(events[..|events| - 1])
  {
    var front := events[..|events| - 1];
    assert forall i | 0 <= i < |front| :: front[..i] == events[..i];
  }

  lemma {:induction false} HonestRunCovers(events: seq<Event>, k: nat)
    requires Run(events).Some? && HonestRun(events) && k in Run(events).value.net.agents
    ensures Covered(Run(events).value.net.agents[k])
  {
    if events != [] {
      var n := |events| - 1;
      var front, ev := events[..n], events[n];
      var m := EventSteps(Run(front).value, ev, k);
      if k in Run(front).value.net.agents {
        HonestFront(events);
        HonestRunCovers(front, k);
        if m.Some? { StreamCovers(Run(front).value.net.agents[k], m.value); }
      }
    }
  }

  /** Requests an honest agent has not answered never exceed its locked tokens, and so its limit. */
  lemma ConcurrencyBounded(events: seq<Event>, k: nat)
    requires Run(events).Some? && HonestRun(events) && k in Run(events).value.net.agents
    ensures var a := Run(events).value.net.agents[k]; |a.unanswered| <= a.locked <= a.limit <= MAX_TOKENS
  {
    TokensConserved(events, k);
    HonestRunCovers(events, k);
  }

  // ------------------------------------------------- the token imbalance alarm

  /** Tokens locked for stream k, and answers read from it, over a sequence of events. */
  function Locks(events: seq<Event>, k: nat): nat {
    if events == [] then 0 else
    Locks(events[..|events| - 1], k) + One(events[|events| - 1] == Stream(k, LockToken))
  }

  function Reads(events: seq<Event>, k: nat): nat {
    if events == [] then 0 else
    Reads(events[..|events| - 1], k) + One(events[|events| - 1] == Stream(k, UnlockToken))
  }

  function LockedAt(s: State, k: nat): nat {
    if k in s.net.agents then s.net.agents[k].locked else 0
  }

  lemma AlarmStep(s: State, ev: Event)
    requires Next(s, ev).Some? && TokenImbalance !in s.core.alarms
    ensures TokenImbalance in Next(s, ev).value.core.alarms
       <==> ev.Stream? && ev.m.UnlockToken? && LockedAt(s, ev.k) == 0
  {
  }

  lemma StreamLocks(a: Agent, m: StreamStep)
    requires StepAgent(a, m).Some?
    ensures StepAgent(a, m).value.locked == a.locked + One(m.LockToken?) - One(m.UnlockToken? && a.locked > 0)
  {
  }

  lemma LockedStep(s: State, ev: Event, k: nat)
    requires Next(s, ev).Some? && TokenImbalance !in s.core.alarms
    requires ev == Stream(k, UnlockToken) ==> LockedAt(s, k) > 0
    ensures LockedAt(Next(s, ev).value, k)
         == LockedAt(s, k) + One(ev == Stream(k, LockToken)) - One(ev == Stream(k, UnlockToken))
  {
    if k in Next(s, ev).value.net.agents {
      var m := EventSteps(s, ev, k);
      if m.Some? { StreamLocks(s.net.agents[k], m.value); }
    }
  }

  /** While no imbalance has been seen, the locked channel holds one token per lock not yet
      matched by an answer read. */
  lemma {:induction false} LockedIsDifference(events: seq<Event>, k: nat)
    requires Run(events).Some? && TokenImbalance !in Run(events).value.core.alarms
    ensures LockedAt(Run(events).value, k) == Locks(events, k) - Reads(events, k)
  {
    if events != [] {
      var front, ev := events[..|events| - 1], events[|events| - 1];
      AlarmsGrow(events, |events| - 1);
      AlarmStep(Run(front).value, ev);
      LockedStep(Run(front).value, ev, k);
      LockedIsDifference(front, k);
    }
  }

  lemma {:induction false} AlarmsGrow(events: seq<Event>, n: nat)
    requires Run(events).Some? && n <= |events|
    ensures Run(events[..n]).Some? && Run(events[..n]).value.core.alarms <= Run(events).value.core.alarms
  {
    if n == |events| {
      assert events[..n] == events;
    } else {
      var front := events[..|events| - 1];
      assert front[..n] == events[..n];
      AlarmsGrow(front, n);
      AlarmsStay(Run(front).value, events[|events| - 1]);
    }
  }

  lemma AlarmsStay(s: State, ev: Event)
    requires Next(s, ev).Some?
    ensures s.core.alarms <= Next(s, ev).value.core.alarms
  {
  }

  /** The alarm is raised exactly in the runs where some agent has, at some point, had more
      answers read from it than tokens were locked for it. */
  lemma ImbalanceExactly(events: seq<Event>)
    requires Run(events).Some?
    ensures TokenImbalance in Run(events).value.core.alarms
       <==> exists n, k :: 0 <= n <= |events| && Reads(events[..n], k) > Locks(events[..n], k)
  {
    if TokenImbalance in Run(events).value.core.alarms {
      var n, k := ImbalanceHasCause(events);
    } else {
      forall n, k: nat | 0 <= n <= |events| ensures Reads(events[..n], k) <= Locks(events[..n], k) {
        AlarmsGrow(events, n);
        LockedIsDifference(events[..n], k);
      }
    }
  }

  lemma {:induction false} ImbalanceHasCause(events: seq<Event>) returns (n: nat, k: nat)
    requires Run(events).Some? && TokenImbalance in Run(events).value.core.alarms
    ensures n <= |events| && Reads(events[..n], k) > Locks(events[..n], k)
  {
    var front, ev := events[..|events| - 1], events[|events| - 1];
    if TokenImbalance in Run(front).value.core.alarms {
      n, k := ImbalanceHasCause(front);
      assert front[..n] == events[..n];
    } else {
      AlarmStep(Run(front).value, ev);
      n, k := |events|, ev.k;
      assert events[..n] == events;
      LockedIsDifference(front, k);
    }
  }

  /** With honest agents none of the broker's four panics can happen. */
  lemma {:induction false} HonestRunsRaiseNoAlarm(events: seq<Event>)
    requires Run(events).Some? && HonestRun(events)
    ensures Run(events).value.core.alarms == {}
  {
    BrokerSafety.LookupsSucceed(events);
    if events != [] {
      var front, ev := events[..|events| - 1], events[|events| - 1];
      HonestFront(events);
      HonestRunsRaiseNoAlarm(front);
      AlarmStep(Run(front).value, ev);
      if ev.Stream? && ev.k in Run(front).value.net.agents {
        HonestRunCovers(front, ev.k);
        if ev.m.UnlockToken? { StreamCovers(Run(front).value.net.agents[ev.k], ev.m); }
      }
    }
  }

  lemma RunNext(events: seq<Event>, ev: Event)
    requires Run(events).Some?
    ensures Run(events + [ev]) == Next(Run(events).value, ev)
  {
    assert (events + [ev])[..|events|] == events;
  }

  /** Stream k is ready to read answers and has no token locked. */
  predicate Unguarded(s: State, k: nat) {
    k in s.net.agents && s.net.agents[k].locked == 0 && s.net.agents[k].recv.Listening?
  }

  /** Stream k has read an answer and has no token locked. */
  predicate Exposed(s: State, k: nat) {
    k in s.net.agents && s.net.agents[k].locked == 0 && s.net.agents[k].recv.Received?
  }

  lemma AnswerArrives(s: State, k: nat, resp: Response)
    requires Unguarded(s, k)
    ensures var t := Next(s, Stream(k, AgentAnswers(resp)));
            t.Some? && Unguarded(t.value, k) && resp in t.value.net.agents[k].wire
  {
  }

  lemma AnswerRead(s: State, k: nat, resp: Response)
    requires Unguarded(s, k) && resp in s.net.agents[k].wire
    ensures var t := Next(s, Stream(k, Receive(resp)));
            t.Some? && Exposed(t.value, k)
  {
  }

  lemma ImbalanceSeen(s: State, k: nat)
    requires Exposed(s, k)
    ensures var t := Next(s, Stream(k, UnlockToken)); t.Some? && TokenImbalance in t.value.core.alarms
  {
  }

  /** In any run, an agent that answers while no token is locked for it does raise the alarm. */
  lemma UnaskedAnswerRaisesAlarm(events: seq<Event>, k: nat, resp: Response)
    requires Run(events).Some? && Unguarded(Run(events).value, k)
    ensures var read := events + [Stream(k, AgentAnswers(resp))] + [Stream(k, Receive(resp))];
            var t := Run(read + [Stream(k, UnlockToken)]);
            t.Some? && TokenImbalance in t.value.core.alarms
  {
    var answered := events + [Stream(k, AgentAnswers(resp))];
    RunNext(events, Stream(k, AgentAnswers(resp)));
    AnswerArrives(Run(events).value, k, resp);
    var read := answered + [Stream(k, Receive(resp))];
    RunNext(answered, Stream(k, Receive(resp)));
    AnswerRead(Run(answered).value, k, resp);
    RunNext(read, Stream(k, UnlockToken));
    ImbalanceSeen(Run(read).value, k);
  }
}
