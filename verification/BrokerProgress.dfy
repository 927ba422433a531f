/** What can still happen to a request, from any state the broker can reach: every stage leads on to
    the next, and to an answer. */
module BrokerProgress {
  import opened Common
  import opened Broker
  import opened BrokerSafety

  /** The second run goes on from the first, and leads to state s. */
  ghost predicate LeadsTo(events: seq<Event>, longer: seq<Event>, s: State) {
    events <= longer && Run(longer) == Some(s)
  }

  lemma RunGoesOn(events: seq<Event>, ev: Event)
    requires Run(events).Some?
    ensures Run(events + [ev]) == Next(Run(events).value, ev)
  {
    var longer := events + [ev];
    assert longer[..|longer| - 1] == events && longer[|longer| - 1] == ev;
  }

  lemma Go(events: seq<Event>, s: State, ev: Event) returns (longer: seq<Event>, s': State)
    requires Run(events) == Some(s) && Next(s, ev).Some?
    ensures s' == Next(s, ev).value && LeadsTo(events, longer, s')
  {
    longer, s' := events + [ev], Next(s, ev).value;
    RunGoesOn(events, ev);
  }

  lemma Chained(a: seq<Event>, b: seq<Event>, c: seq<Event>, s: State, t: State)
    requires LeadsTo(a, b, s) && LeadsTo(b, c, t)
    ensures LeadsTo(a, c, t)
  {
  }

  predicate At(s: State, c: nat, r: Carrier) { c in s.core.carriers && s.core.carriers[c] == r }

  /** Accepted requests, requests in flight and the log are the same. */
  ghost predicate SameRecords(s: State, s': State) {
    s'.core.accepted == s.core.accepted && s'.core.inflight == s.core.inflight && s'.core.sent == s.core.sent
  }

  /** Carrier c moves on to r, and neither log, requests in flight nor streams change. */
  ghost predicate MovesOn(s: State, s': State, c: nat, r: Carrier) {
    && s'.core.carriers == s.core.carriers[c := r] && SameRecords(s, s') && s'.net == s.net
  }

  // ----------------------------------------------------- the way to the route

  lemma Stored(events: seq<Event>, s: State, c: nat, e: Entry, f: RetryAction)
    returns (longer: seq<Event>, s': State)
    requires Run(events) == Some(s) && At(s, c, Entering(e, f))
    ensures LeadsTo(events, longer, s') && MovesOn(s, s', c, Routing(e, f)) && s'.cache == s.cache
  {
    longer, s' := Go(events, s, StorePending(c));
  }

  /** Without a cache a request that names a toolchain is offered on its route. */
  lemma Offered(events: seq<Event>, s: State, c: nat, e: Entry, f: RetryAction)
    returns (longer: seq<Event>, s': State)
    requires Run(events) == Some(s) && At(s, c, Routing(e, f)) && e.request.toolchain.Some?
    ensures LeadsTo(events, longer, s') && MovesOn(s, s', c, Sending(e, f)) && s'.cache == s.cache
  {
    longer, s' := Go(events, s, Hook(c, CacheOff));
  }

  /** A request without a toolchain fails, whatever the cache says. */
  lemma Rejected(events: seq<Event>, s: State, c: nat, e: Entry, f: RetryAction, pull: Pull)
    returns (longer: seq<Event>, s': State)
    requires Run(events) == Some(s) && At(s, c, Routing(e, f)) && e.request.toolchain.None?
    ensures LeadsTo(events, longer, s') && MovesOn(s, s', c, Failed(e, f)) && s'.cache == s.cache
  {
    longer, s' := Go(events, s, Hook(c, pull));
  }

  lemma SendFails(events: seq<Event>, s: State, c: nat, e: Entry, f: RetryAction)
    returns (longer: seq<Event>, s': State)
    requires Run(events) == Some(s) && At(s, c, Sending(e, f))
    ensures LeadsTo(events, longer, s') && MovesOn(s, s', c, Failed(e, f))
  {
    longer, s' := Go(events, s, RouteFails(c));
  }

  /** From entering the broker to failing to be routed, at whatever stage before. */
  lemma Fails(events: seq<Event>, s: State, c: nat, e: Entry, f: RetryAction)
    returns (longer: seq<Event>, s': State)
    requires Run(events) == Some(s) && (At(s, c, Routing(e, f)) || At(s, c, Sending(e, f)) || At(s, c, Failed(e, f)))
    ensures LeadsTo(events, longer, s') && At(s', c, Failed(e, f)) && s'.core.sent == s.core.sent
  {
    longer, s' := events, s;
    if At(s, c, Routing(e, f)) {
      if e.request.toolchain.None? {
        longer, s' := Rejected(events, s, c, e, f, CacheOff);
      } else {
        var mid, t := Offered(events, s, c, e, f);
        longer, s' := SendFails(mid, t, c, e, f);
        Chained(events, mid, longer, t, s');
      }
    } else if At(s, c, Sending(e, f)) {
      longer, s' := SendFails(events, s, c, e, f);
    }
  }

  // ---------------------------------------------------------------- answers

  /** What the broker replies by itself: a cached object, or that the request could not be routed. */
  function Reply(r: Carrier): Result
    requires r.CacheHit? || r.Failed?
  {
    if r.CacheHit? then Success(r.hit) else Retry(r.onFail)
  }

  /** A carrier at a listed stage finds its own entry in the pending table. */
  lemma PendingIsOwn(events: seq<Event>, s: State, c: nat)
    requires Run(events) == Some(s) && c in s.core.carriers && s.core.carriers[c].Listed()
    ensures var r := s.core.carriers[c]; r.Id() in s.core.pending && s.core.pending[r.Id()] == r.e
  {
    var w := RunIsGood(events);
    assert FaithfulCarrier(s.core, s.core.carriers[c]);
  }

  lemma Replied(events: seq<Event>, s: State, c: nat) returns (longer: seq<Event>, s': State)
    requires Run(events) == Some(s) && c in s.core.carriers
    requires s.core.carriers[c].CacheHit? || s.core.carriers[c].Failed?
    ensures var r := s.core.carriers[c];
            && LeadsTo(events, longer, s') && s'.core.sent == s.core.sent && s'.net == s.net
            && At(s', c, ToQueue(r.e, r.e, Response(r.Id(), Reply(r))))
  {
    PendingIsOwn(events, s, c);
    longer, s' := Go(events, s, TakePending(c));
  }

  lemma Flies(events: seq<Event>, s: State, c: nat, e: Entry, reply: Response)
    returns (longer: seq<Event>, s': State)
    requires Run(events) == Some(s) && At(s, c, ToQueue(e, e, reply))
    ensures LeadsTo(events, longer, s') && s'.core.sent == s.core.sent
    ensures s'.net == s.net.(queue := s.net.queue + multiset{reply})
    ensures e.Id() in s'.core.inflight && s'.core.inflight[e.Id()] == Inflight(e, None)
  {
    longer, s' := Go(events, s, StoreInflight(c));
  }

  /** A response in the queue for a request in flight reaches the consumerd that submitted it. */
  lemma Answered(events: seq<Event>, s: State, resp: Response) returns (longer: seq<Event>, s': State)
    requires Run(events) == Some(s) && resp in s.net.queue && resp.id in s.core.inflight && !resp.result.Defunct?
    ensures LeadsTo(events, longer, s')
    ensures s'.core.sent == s.core.sent + [Sent(s.core.inflight[resp.id].entry.requester, resp)]
    ensures s'.core.inflight == s.core.inflight - {resp.id} && s'.net == s.net.(queue := s.net.queue - multiset{resp})
  {
    var c := AboveAll(s.core.carriers.Keys);
    longer, s' := Go(events, s, HandleResponse(c, resp));
  }

  /** The broker's own reply is sent. */
  lemma ReplyIsSent(events: seq<Event>, s: State, c: nat) returns (longer: seq<Event>, s': State)
    requires Run(events) == Some(s) && c in s.core.carriers
    requires s.core.carriers[c].CacheHit? || s.core.carriers[c].Failed?
    ensures var r := s.core.carriers[c];
            && LeadsTo(events, longer, s') && s'.net == s.net
            && s'.core.sent == s.core.sent + [Sent(r.e.requester, Response(r.Id(), Reply(r)))]
  {
    var r := s.core.carriers[c];
    var first, t := Replied(events, s, c);
    var second, u := Flies(first, t, c, r.e, Response(r.Id(), Reply(r)));
    longer, s' := Answered(second, u, Response(r.Id(), Reply(r)));
    Chained(events, first, second, t, u);
    Chained(events, second, longer, u, s');
  }

  /** In every run, a request that is not past the route's channel can still be answered: its
      consumerd is told to retry, or not to, as the request was entered. */
  lemma WaitingCanBeAnswered(events: seq<Event>, c: nat) returns (longer: seq<Event>)
    requires Run(events).Some? && c in Run(events).value.core.carriers
    requires var r := Run(events).value.core.carriers[c]; r.Entering? || r.Routing? || r.Sending? || r.Failed?
    ensures var s := Run(events).value; var r := s.core.carriers[c];
            && events <= longer && Run(longer).Some?
            && Run(longer).value.core.sent == s.core.sent + [Sent(r.e.requester, Response(r.Id(), Retry(r.onFail)))]
  {
    var s := Run(events).value;
    var r := s.core.carriers[c];
    var first, t := events, s;
    if r.Entering? { first, t := Stored(events, s, c, r.e, r.onFail); }
    var second, u := Fails(first, t, c, r.e, r.onFail);
    var v;
    longer, v := ReplyIsSent(second, u, c);
    Chained(events, first, second, t, u);
    Chained(events, second, longer, u, v);
  }

  /** In every run, a request found in the cache can be answered with what was found. */
  lemma HitCanBeAnswered(events: seq<Event>, c: nat) returns (longer: seq<Event>)
    requires Run(events).Some? && c in Run(events).value.core.carriers && Run(events).value.core.carriers[c].CacheHit?
    ensures var s := Run(events).value; var r := s.core.carriers[c];
            && events <= longer && Run(longer).Some?
            && Run(longer).value.core.sent == s.core.sent + [Sent(r.e.requester, Response(r.Id(), Success(r.hit)))]
  {
    var v;
    longer, v := ReplyIsSent(events, Run(events).value, c);
  }
}
