/** Where requests are sent, in every run of the broker. */
module BrokerRouting {
  import opened Toolchains
  import opened Broker
  import BrokerTokens

  ghost predicate Served(s: State, k: nat, req: CompileRequest) {
    k in s.net.agents && req.toolchain.Some? && Offers(s.net.agents[k].toolchains, req.toolchain.value)
  }

  /** Stages past the route's channel. */
  predicate Onward(r: Carrier) { r.Held? || r.AtSender? || r.ToAgent? }

  ghost predicate CarriersRouted(s: State) {
    forall c | c in s.core.carriers && Onward(s.core.carriers[c]) ::
      Served(s, s.core.carriers[c].stream, s.core.carriers[c].e.request)
  }

  ghost predicate LoopsRouted(s: State) {
    forall k | k in s.net.agents && s.net.agents[k].send.Delivering? :: Served(s, k, s.net.agents[k].send.request)
  }

  ghost predicate DeliveriesRouted(s: State) {
    forall i | 0 <= i < |s.net.delivered| :: Served(s, s.net.delivered[i].0, s.net.delivered[i].1)
  }

  /** Requests past the route's channel are with an agent attached to their route. */
  ghost predicate Routed(s: State) { CarriersRouted(s) && LoopsRouted(s) && DeliveriesRouted(s) }

  lemma StepKeepsToolchains(a: Agent, m: StreamStep)
    requires StepAgent(a, m).Some?
    ensures StepAgent(a, m).value.toolchains == a.toolchains
  {
  }

  lemma StreamsStay(s: State, ev: Event)
    requires Next(s, ev).Some?
    ensures s.net.agents.Keys <= Next(s, ev).value.net.agents.Keys
  {
  }

  lemma StreamKeepsToolchains(s: State, ev: Event, k: nat)
    requires Next(s, ev).Some? && k in s.net.agents
    ensures k in Next(s, ev).value.net.agents
    ensures Next(s, ev).value.net.agents[k].toolchains == s.net.agents[k].toolchains
  {
    StreamsStay(s, ev);
    var m := BrokerTokens.EventSteps(s, ev, k);
    if m.Some? { StepKeepsToolchains(s.net.agents[k], m.value); }
  }

  lemma ServedKept(s: State, ev: Event, k: nat, req: CompileRequest)
    requires Next(s, ev).Some? && Served(s, k, req)
    ensures Served(Next(s, ev).value, k, req)
  {
    StreamKeepsToolchains(s, ev, k);
  }

  ghost predicate SameOrder(s: State, c: nat, r: Carrier)
    requires Onward(r)
  {
    c in s.core.carriers && Onward(s.core.carriers[c])
    && s.core.carriers[c].stream == r.stream && s.core.carriers[c].e == r.e
  }

  /** The carrier an event is about, if it is past the route's channel then. */
  lemma OwnCarrierRouted(s: State, ev: Event)
    requires !Aside(ev) && Next(s, ev).Some?
    requires ev.c in Next(s, ev).value.core.carriers && Onward(Next(s, ev).value.core.carriers[ev.c])
    ensures var r := Next(s, ev).value.core.carriers[ev.c];
            SameOrder(s, ev.c, r) || Served(s, r.stream, r.e.request)
  {
  }

  lemma CarriersRoutedKept(s: State, ev: Event)
    requires Next(s, ev).Some? && CarriersRouted(s)
    ensures CarriersRouted(Next(s, ev).value)
  {
    var t := Next(s, ev).value;
    forall c | c in t.core.carriers && Onward(t.core.carriers[c])
      ensures Served(t, t.core.carriers[c].stream, t.core.carriers[c].e.request)
    {
      if Aside(ev) {
        CarriersStay(s, ev);
      } else if c == ev.c {
        OwnCarrierRouted(s, ev);
      } else {
        OtherCarriersStay(s, ev, c);
      }
      ServedKept(s, ev, t.core.carriers[c].stream, t.core.carriers[c].e.request);
    }
  }

  ghost predicate OnItsWay(s: State, c: nat, k: nat, req: CompileRequest) {
    && c in s.core.carriers && s.core.carriers[c].ToAgent?
    && s.core.carriers[c].stream == k && s.core.carriers[c].e.request == req
  }

  lemma StepDelivers(a: Agent, m: StreamStep)
    requires StepAgent(a, m).Some? && StepAgent(a, m).value.send.Delivering? && !m.Dispatch?
    ensures a.send == StepAgent(a, m).value.send
  {
  }

  lemma StreamDelivers(s: State, ev: Event, k: nat)
    requires ev.Stream? && Next(s, ev).Some? && k in Next(s, ev).value.net.agents
    requires Next(s, ev).value.net.agents[k].send.Delivering?
    ensures k in s.net.agents && s.net.agents[k].send == Next(s, ev).value.net.agents[k].send
  {
    if k == ev.k { StepDelivers(s.net.agents[k], ev.m); }
  }

  /** A send loop delivers what it did before, or what it was about to put in flight. */
  lemma DeliveringRouted(s: State, ev: Event, k: nat)
    requires Next(s, ev).Some? && k in Next(s, ev).value.net.agents && Next(s, ev).value.net.agents[k].send.Delivering?
    ensures var req := Next(s, ev).value.net.agents[k].send.request;
            || (k in s.net.agents && s.net.agents[k].send == Delivering(req))
            || (ev.StoreInflight? && OnItsWay(s, ev.c, k, req))
  {
    if ev.Stream? { StreamDelivers(s, ev, k); }
  }

  lemma LoopsRoutedKept(s: State, ev: Event)
    requires Next(s, ev).Some? && CarriersRouted(s) && LoopsRouted(s)
    ensures LoopsRouted(Next(s, ev).value)
  {
    var t := Next(s, ev).value;
    forall k | k in t.net.agents && t.net.agents[k].send.Delivering?
      ensures Served(t, k, t.net.agents[k].send.request)
    {
      DeliveringRouted(s, ev, k);
      ServedKept(s, ev, k, t.net.agents[k].send.request);
    }
  }

  /** A request that was sent down a stream, and the send loop that had it. */
  lemma DeliveredRouted(s: State, ev: Event)
    requires Next(s, ev).Some?
    ensures var d, d' := s.net.delivered, Next(s, ev).value.net.delivered;
            || d' == d
            || (exists k, req :: d' == d + [(k, req)] && k in s.net.agents && s.net.agents[k].send == Delivering(req))
  {
  }

  lemma DeliveriesRoutedKept(s: State, ev: Event)
    requires Next(s, ev).Some? && LoopsRouted(s) && DeliveriesRouted(s)
    ensures DeliveriesRouted(Next(s, ev).value)
  {
    var d, d' := s.net.delivered, Next(s, ev).value.net.delivered;
    DeliveredRouted(s, ev);
    forall i | 0 <= i < |d'| ensures Served(Next(s, ev).value, d'[i].0, d'[i].1) {
      assert i < |d| ==> d'[i] == d[i];
      assert Served(s, d'[i].0, d'[i].1);
      ServedKept(s, ev, d'[i].0, d'[i].1);
    }
  }

  lemma RoutedKept(s: State, ev: Event)
    requires Next(s, ev).Some? && Routed(s)
    ensures Routed(Next(s, ev).value)
  {
    CarriersRoutedKept(s, ev);
    LoopsRoutedKept(s, ev);
    DeliveriesRoutedKept(s, ev);
  }

  lemma {:induction false} RunIsRouted(events: seq<Event>)
    requires Run(events).Some?
    ensures Routed(Run(events).value)
  {
    if events != [] {
      RunIsRouted(events[..|events| - 1]);
      RoutedKept(Run(events[..|events| - 1]).value, events[|events| - 1]);
    }
  }

  /** Every request sent down an agent's stream names a toolchain that TryMatch finds among the
      toolchains the agent announced. */
  lemma DeliveredIsMatched(events: seq<Event>, i: nat)
    requires Run(events).Some? && i < |Run(events).value.net.delivered|
    requires var s := Run(events).value; var (k, req) := s.net.delivered[i];
             && (req.toolchain.Some? ==> Unambiguous(req.toolchain.value))
             && (k in s.net.agents ==> forall tc | tc in s.net.agents[k].toolchains :: Unambiguous(tc))
    ensures var s := Run(events).value; var (k, req) := s.net.delivered[i];
            && k in s.net.agents && req.toolchain.Some?
            && exists tc :: tc in s.net.agents[k].toolchains && EquivalentTo(tc, req.toolchain.value)
  {
    RunIsRouted(events);
    var s := Run(events).value;
    var (k, req) := s.net.delivered[i];
    assert Served(s, k, req);
    OfferedIsMatched(s.net.agents[k].toolchains, req.toolchain.value);
  }
}
