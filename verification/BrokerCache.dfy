/** What consumerds are answered with, in every run of the broker. */
module BrokerCache {
  import opened Common
  import opened Broker
  import opened BrokerKeys
  import opened BrokerSafety
  import BrokerTokens

  /** Some agent returned these bytes as the Success of a request with this hash. */
  ghost predicate Sourced(s: State, hash: string, data: string) {
    exists id ::
      (id, data) in s.net.returned && id in s.core.accepted && RequestHash(s.core.accepted[id].request) == hash
  }

  /** A Success carries bytes an agent returned for that ID or for a request with the same hash. */
  ghost predicate Backed(s: State, resp: Response) {
    resp.result.Success? ==>
      || (resp.id, resp.result.compiled) in s.net.returned
      || (resp.id in s.core.accepted && Sourced(s, RequestHash(s.core.accepted[resp.id].request), resp.result.compiled))
  }

  ghost predicate CacheBacked(s: State) {
    && (forall h | h in s.cache.objects :: Sourced(s, h, s.cache.objects[h]))
    && (forall p | p in s.cache.pushes :: Sourced(s, p.0, p.1))
    && (forall id | id in s.cache.managed ::
          id in s.core.accepted && s.cache.managed[id] == RequestHash(s.core.accepted[id].request))
  }

  ghost predicate QueueBacked(s: State) {
    forall resp | resp in s.net.queue :: Backed(s, resp)
  }

  ghost predicate StreamBacked(s: State, a: Agent) {
    && (forall resp | resp in a.wire :: Backed(s, resp))
    && (a.recv.Received? || a.recv.Unlocked? ==> Backed(s, a.recv.resp))
  }

  ghost predicate StreamsBacked(s: State) {
    forall k | k in s.net.agents :: StreamBacked(s, s.net.agents[k])
  }

  ghost predicate CarrierBacked(s: State, r: Carrier) {
    && (r.CacheHit? ==> Sourced(s, RequestHash(r.e.request), r.hit))
    && (r.ToQueue? ==> Backed(s, r.reply))
  }

  ghost predicate CarriersBacked(s: State) {
    forall c | c in s.core.carriers :: CarrierBacked(s, s.core.carriers[c])
  }

  ghost predicate SentBacked(s: State) {
    forall i | 0 <= i < |s.core.sent| :: Backed(s, s.core.sent[i].response)
  }

  ghost predicate Sound(s: State) {
    CacheBacked(s) && QueueBacked(s) && StreamsBacked(s) && CarriersBacked(s) && SentBacked(s)
  }

  /** Accepted requests and returned results are never forgotten. */
  ghost predicate Grown(s: State, t: State) {
    && (forall id | id in s.core.accepted :: id in t.core.accepted && t.core.accepted[id] == s.core.accepted[id])
    && s.net.returned <= t.net.returned
  }

  lemma EventGrows(s: State, ev: Event)
    requires Next(s, ev).Some?
    ensures Grown(s, Next(s, ev).value)
  {
  }

  lemma SourcedGrows(s: State, t: State, hash: string, data: string)
    requires Grown(s, t) && Sourced(s, hash, data)
    ensures Sourced(t, hash, data)
  {
  }

  lemma BackedGrows(s: State, t: State, resp: Response)
    requires Grown(s, t) && Backed(s, resp)
    ensures Backed(t, resp)
  {
  }

  // One event's additions to each place a result can be, and where each addition comes from.

  ghost predicate CarrierFrom(s: State, c: nat, r: Carrier) {
    || (c in s.core.carriers && s.core.carriers[c] == r)
    || !(r.CacheHit? || r.ToQueue?)
    || (r.ToQueue? && r.reply.result.Retry?)
    || (r.CacheHit? && RequestHash(r.e.request) in s.cache.objects
        && r.hit == s.cache.objects[RequestHash(r.e.request)])
    || (r.ToQueue? && c in s.core.carriers && s.core.carriers[c].CacheHit?
        && r.reply == Response(s.core.carriers[c].Id(), Success(s.core.carriers[c].hit)))
  }

  lemma CarrierDelta(s: State, ev: Event, c: nat)
    requires Next(s, ev).Some? && c in Next(s, ev).value.core.carriers
    ensures CarrierFrom(s, c, Next(s, ev).value.core.carriers[c])
  {
    if Aside(ev) {
      CarriersStay(s, ev);
    } else if c != ev.c {
      OtherCarriersStay(s, ev, c);
    } else {
      OwnCarrierDelta(s, ev, c);
    }
  }

  lemma OwnCarrierDelta(s: State, ev: Event, c: nat)
    requires !Aside(ev) && c == ev.c && Next(s, ev).Some? && c in Next(s, ev).value.core.carriers
    ensures CarrierFrom(s, c, Next(s, ev).value.core.carriers[c])
  {
  }

  lemma CarrierKept(s: State, t: State, c: nat, r: Carrier)
    requires CarriersBacked(s) && CacheBacked(s) && Faithful(s.core) && Grown(s, t) && CarrierFrom(s, c, r)
    ensures CarrierBacked(t, r)
  {
  }

  /** The stream's receive loop is handling this answer. */
  ghost predicate Reading(a: Agent, resp: Response) {
    (a.recv.Received? || a.recv.Unlocked?) && a.recv.resp == resp
  }

  ghost predicate QueuedFrom(s: State, resp: Response) {
    || resp in s.net.queue
    || !resp.result.Success?
    || (exists c :: c in s.core.carriers && s.core.carriers[c].ToQueue? && s.core.carriers[c].reply == resp)
    || (exists k :: k in s.net.agents && Reading(s.net.agents[k], resp))
  }

  lemma QueueDelta(s: State, ev: Event, resp: Response)
    requires Next(s, ev).Some? && resp in Next(s, ev).value.net.queue
    ensures QueuedFrom(s, resp)
  {
  }

  lemma QueuedKept(s: State, t: State, resp: Response)
    requires QueueBacked(s) && StreamsBacked(s) && CarriersBacked(s) && Grown(s, t) && QueuedFrom(s, resp)
    ensures Backed(t, resp)
  {
    if !resp.result.Success? {
    } else if resp in s.net.queue {
      BackedGrows(s, t, resp);
    } else if c :| c in s.core.carriers && s.core.carriers[c].ToQueue? && s.core.carriers[c].reply == resp {
      assert CarrierBacked(s, s.core.carriers[c]);
      BackedGrows(s, t, resp);
    } else {
      var k :| k in s.net.agents && Reading(s.net.agents[k], resp);
      assert StreamBacked(s, s.net.agents[k]);
      BackedGrows(s, t, resp);
    }
  }

  lemma SentDelta(s: State, ev: Event)
    requires Next(s, ev).Some?
    ensures var sent := Next(s, ev).value.core.sent;
            || sent == s.core.sent
            || (exists x: Sent :: sent == s.core.sent + [x] && x.response in s.net.queue)
  {
  }

  lemma SentKept(s: State, ev: Event)
    requires Next(s, ev).Some? && QueueBacked(s) && SentBacked(s)
    ensures SentBacked(Next(s, ev).value)
  {
    var t, sent := Next(s, ev).value, Next(s, ev).value.core.sent;
    EventGrows(s, ev);
    SentDelta(s, ev);
    forall i | 0 <= i < |sent| ensures Backed(t, sent[i].response) {
      assert i < |s.core.sent| ==> sent[i] == s.core.sent[i];
      assert Backed(s, sent[i].response);
      BackedGrows(s, t, sent[i].response);
    }
  }

  lemma StepDelta(a: Agent, m: StreamStep, resp: Response)
    requires StepAgent(a, m).Some?
    ensures resp in StepAgent(a, m).value.wire ==> resp in a.wire || m == AgentAnswers(resp)
    ensures Reading(StepAgent(a, m).value, resp) ==> resp in a.wire || Reading(a, resp)
  {
  }

  lemma NewStream(s: State, ev: Event, k: nat)
    requires Next(s, ev).Some? && k in Next(s, ev).value.net.agents && k !in s.net.agents
    ensures Next(s, ev).value.net.agents[k].wire == multiset{} && Next(s, ev).value.net.agents[k].recv == Listening
  {
  }

  lemma AnswerReturned(s: State, k: nat, resp: Response)
    requires Next(s, Stream(k, AgentAnswers(resp))).Some?
    ensures Backed(Next(s, Stream(k, AgentAnswers(resp))).value, resp)
  {
  }

  lemma StreamResponse(s: State, ev: Event, k: nat, resp: Response)
    requires Next(s, ev).Some? && StreamsBacked(s) && k in Next(s, ev).value.net.agents
    requires var a := Next(s, ev).value.net.agents[k]; resp in a.wire || Reading(a, resp)
    ensures Backed(Next(s, ev).value, resp)
  {
    var m := BrokerTokens.EventSteps(s, ev, k);
    EventGrows(s, ev);
    if k !in s.net.agents {
      NewStream(s, ev, k);
    } else {
      assert StreamBacked(s, s.net.agents[k]);
      if m.Some? { StepDelta(s.net.agents[k], m.value, resp); }
      if m == Some(AgentAnswers(resp)) { AnswerReturned(s, k, resp); } else { BackedGrows(s, Next(s, ev).value, resp); }
    }
  }

  lemma StreamKept(s: State, ev: Event, k: nat)
    requires Next(s, ev).Some? && StreamsBacked(s) && k in Next(s, ev).value.net.agents
    ensures StreamBacked(Next(s, ev).value, Next(s, ev).value.net.agents[k])
  {
    var t := Next(s, ev).value;
    forall resp | resp in t.net.agents[k].wire || Reading(t.net.agents[k], resp) ensures Backed(t, resp) {
      StreamResponse(s, ev, k, resp);
    }
  }

  lemma ObjectDelta(s: State, ev: Event, h: string)
    requires Next(s, ev).Some? && h in Next(s, ev).value.cache.objects
    ensures var data := Next(s, ev).value.cache.objects[h];
            (h in s.cache.objects && data == s.cache.objects[h]) || (h, data) in s.cache.pushes
  {
  }

  lemma PushDelta(s: State, ev: Event, p: (string, string))
    requires Next(s, ev).Some? && Faithful(s.core) && p in Next(s, ev).value.cache.pushes
    ensures || p in s.cache.pushes
            || (ev.HandleResponse? && ev.resp in s.net.queue && ev.resp.result.Success? && ev.resp.id in s.cache.managed
                && p == (s.cache.managed[ev.resp.id], ev.resp.result.compiled))
  {
  }

  lemma ManagedDelta(s: State, ev: Event, id: Uuid)
    requires Next(s, ev).Some? && Faithful(s.core) && id in Next(s, ev).value.cache.managed
    ensures var hash := Next(s, ev).value.cache.managed[id];
            || (id in s.cache.managed && hash == s.cache.managed[id])
            || (id in s.core.accepted && hash == RequestHash(s.core.accepted[id].request))
  {
  }

  lemma CacheKept(s: State, ev: Event)
    requires Next(s, ev).Some? && Faithful(s.core) && CacheBacked(s) && QueueBacked(s)
    ensures CacheBacked(Next(s, ev).value)
  {
    var t := Next(s, ev).value;
    EventGrows(s, ev);
    forall h | h in t.cache.objects ensures Sourced(t, h, t.cache.objects[h]) {
      ObjectDelta(s, ev, h);
      SourcedGrows(s, t, h, t.cache.objects[h]);
    }
    forall p | p in t.cache.pushes ensures Sourced(t, p.0, p.1) {
      PushDelta(s, ev, p);
      if p !in s.cache.pushes { assert Backed(s, ev.resp); }
      SourcedGrows(s, t, p.0, p.1);
    }
    forall id | id in t.cache.managed
      ensures id in t.core.accepted && t.cache.managed[id] == RequestHash(t.core.accepted[id].request)
    {
      ManagedDelta(s, ev, id);
    }
  }

  lemma {:induction false} RunIsSound(events: seq<Event>)
    requires Run(events).Some?
    ensures Sound(Run(events).value)
  {
    if events != [] {
      var front, ev := events[..|events| - 1], events[|events| - 1];
      RunIsSound(front);
      var w := RunIsGood(front);
      SoundKept(Run(front).value, ev);
    }
  }

  lemma SoundKept(s: State, ev: Event)
    requires Next(s, ev).Some? && Sound(s) && Faithful(s.core)
    ensures Sound(Next(s, ev).value)
  {
    var t := Next(s, ev).value;
    EventGrows(s, ev);
    forall c | c in t.core.carriers ensures CarrierBacked(t, t.core.carriers[c]) {
      CarrierDelta(s, ev, c);
      CarrierKept(s, t, c, t.core.carriers[c]);
    }
    forall resp | resp in t.net.queue ensures Backed(t, resp) {
      QueueDelta(s, ev, resp);
      QueuedKept(s, t, resp);
    }
    forall k | k in t.net.agents ensures StreamBacked(t, t.net.agents[k]) {
      StreamKept(s, ev, k);
    }
    SentKept(s, ev);
    CacheKept(s, ev);
  }

  /** Cache soundness over every run, with requeues, stale answers, evictions and dishonest
      agents: each Success a consumerd receives, intercepted or not, carries bytes that some agent
      returned as Success for an accepted request with the same computed hash. */
  lemma AnswersAreSourced(events: seq<Event>, i: nat)
    requires Run(events).Some? && i < |Run(events).value.core.sent|
    requires Run(events).value.core.sent[i].response.result.Success?
    ensures var s := Run(events).value; var resp := s.core.sent[i].response;
            && resp.id in s.core.accepted
            && Sourced(s, RequestHash(s.core.accepted[resp.id].request), resp.result.compiled)
  {
    var w := RunIsGood(events);
    RunIsSound(events);
    assert Backed(Run(events).value, Run(events).value.core.sent[i].response);
  }

  /** The request the bytes were returned for was written to the hash as the same text: toolchain,
      source, arguments. Where toolchain and source are equally long, they and the arguments run
      together are the same. */
  lemma AnswersAreForTheSame(events: seq<Event>, i: nat)
    requires Run(events).Some? && i < |Run(events).value.core.sent|
    requires Run(events).value.core.sent[i].response.result.Success?
    ensures var s := Run(events).value; var resp := s.core.sent[i].response;
            && resp.id in s.core.accepted
            && exists id :: (id, resp.result.compiled) in s.net.returned && id in s.core.accepted
                 && SameText(s.core.accepted[id].request, s.core.accepted[resp.id].request)
  {
    var s := Run(events).value;
    var resp := s.core.sent[i].response;
    AnswersAreSourced(events, i);
    var id :| (id, resp.result.compiled) in s.net.returned && id in s.core.accepted
              && RequestHash(s.core.accepted[id].request) == RequestHash(s.core.accepted[resp.id].request);
    SameKeySameText(s.core.accepted[id].request, s.core.accepted[resp.id].request);
  }
}
