/** What the compile cache is for: a result is pushed, and answers the next request with its key. */
module BrokerCaching {
  import opened Common
  import opened Broker
  import opened BrokerProgress
  import opened BrokerRun

  /** A miss, and only a miss, makes the broker remember the key of a request. */
  lemma ManagedExactly(s: State, c: nat, pull: Pull, e: Entry, f: RetryAction)
    requires At(s, c, Routing(e, f)) && e.request.toolchain.Some? && Next(s, Hook(c, pull)).Some?
    ensures Next(s, Hook(c, pull)).value.cache.managed
         == if pull.PullMiss? then s.cache.managed[e.Id() := RequestHash(e.request)] else s.cache.managed
  {
  }

  /** What a response for a request in flight does to the pushes: a Success of a request whose key is
      remembered adds exactly one, under that key; nothing else does. */
  lemma PushedExactly(s: State, c: nat, resp: Response)
    requires Next(s, HandleResponse(c, resp)).Some? && resp.id in s.core.inflight
    ensures var id, pushes := s.core.inflight[resp.id].entry.Id(), Next(s, HandleResponse(c, resp)).value.cache.pushes;
            pushes == s.cache.pushes +
              if resp.result.Success? && id in s.cache.managed && s.cache.managed[id] != ""
              then multiset{(s.cache.managed[id], resp.result.compiled)} else multiset{}
  {
  }

  lemma Stores(events: seq<Event>, s: State, hash: string, data: string) returns (longer: seq<Event>, s': State)
    requires Run(events) == Some(s) && (hash, data) in s.cache.pushes
    ensures LeadsTo(events, longer, s') && s'.core == s.core && s'.net == s.net
    ensures s'.cache.objects == s.cache.objects[hash := data]
  {
    longer, s' := Go(events, s, Push(hash, data, true));
  }

  /** In every run, a Success for a request in flight whose key is remembered can be in the cache
      under that key, once its consumerd has been sent it. */
  lemma SuccessIsCached(events: seq<Event>, s: State, e: Entry, data: string)
    returns (longer: seq<Event>, s': State)
    requires Run(events) == Some(s) && Response(e.Id(), Success(data)) in s.net.queue
    requires e.Id() in s.core.inflight && s.core.inflight[e.Id()].entry == e
    requires e.Id() in s.cache.managed && s.cache.managed[e.Id()] != ""
    ensures LeadsTo(events, longer, s') && s'.cache.objects == s.cache.objects[s.cache.managed[e.Id()] := data]
    ensures s'.core.sent == s.core.sent + [Sent(e.requester, Response(e.Id(), Success(data)))]
    ensures s'.core.accepted == s.core.accepted && s'.net.delivered == s.net.delivered
  {
    var c := AboveAll(s.core.carriers.Keys);
    var mid, t := Go(events, s, HandleResponse(c, Response(e.Id(), Success(data))));
    PushedExactly(s, c, Response(e.Id(), Success(data)));
    longer, s' := Stores(mid, t, s.cache.managed[e.Id()], data);
    Chained(events, mid, longer, t, s');
  }

  /** In every run, a request being routed whose key is in the cache can be answered with what is
      stored there, without an agent. */
  lemma StoredIsServed(events: seq<Event>, s: State, c: nat, e: Entry, f: RetryAction)
    returns (longer: seq<Event>, s': State)
    requires Run(events) == Some(s) && At(s, c, Routing(e, f)) && e.request.toolchain.Some?
    requires RequestHash(e.request) in s.cache.objects
    ensures LeadsTo(events, longer, s')
    ensures s'.net.delivered == s.net.delivered
    ensures s'.core.sent
         == s.core.sent + [Sent(e.requester, Response(e.Id(), Success(s.cache.objects[RequestHash(e.request)])))]
  {
    var mid, t := Go(events, s, Hook(c, PullHit));
    longer, s' := ReplyIsSent(mid, t, c);
    Chained(events, mid, longer, t, s');
  }

  /** A submitted request, looked up in the cache next. */
  lemma Entered(events: seq<Event>, s: State, e: Entry) returns (longer: seq<Event>, s': State, c: nat)
    requires Run(events) == Some(s) && e.Id() !in s.core.accepted
    ensures LeadsTo(events, longer, s') && At(s', c, Routing(e, DoNotRetry)) && s'.net == s.net && s'.cache == s.cache
    ensures s'.core.accepted == s.core.accepted[e.Id() := e] && s'.core.sent == s.core.sent
  {
    c := AboveAll(s.core.carriers.Keys);
    var mid, t := Go(events, s, Accept(c, e));
    longer, s' := Stored(mid, t, c, e, DoNotRetry);
    Chained(events, mid, longer, t, s');
  }

  lemma Missed(events: seq<Event>, s: State, c: nat, e: Entry, f: RetryAction)
    returns (longer: seq<Event>, s': State)
    requires Run(events) == Some(s) && At(s, c, Routing(e, f)) && e.request.toolchain.Some?
    requires RequestHash(e.request) !in s.cache.objects
    ensures LeadsTo(events, longer, s') && MovesOn(s, s', c, Sending(e, f)) && s'.cache.objects == s.cache.objects
    ensures e.Id() in s'.cache.managed && s'.cache.managed[e.Id()] == RequestHash(e.request)
  {
    longer, s' := Go(events, s, Hook(c, PullMiss));
  }

  /** The first request misses, and is in flight with an agent. */
  lemma FirstMisses(e: Entry, uuid: Uuid) returns (events: seq<Event>, s: State)
    requires e.request.toolchain.Some?
    ensures Run(events) == Some(s) && InFlight(s, e, 0) && s.core.sent == [] && s.core.accepted == map[e.Id() := e]
    ensures e.Id() in s.cache.managed && s.cache.managed[e.Id()] == RequestHash(e.request)
    ensures 0 in s.net.agents && s.net.agents[0].recv.Listening? && s.net.delivered == [(0, e.request)]
  {
    OffersOwn(e.request.toolchain.value);
    var first, t := Connects([], INIT, 0, uuid, [e.request.toolchain.value], 1);
    var second, u, c := Entered(first, t, e);
    var third, v := Missed(second, u, c, e, DoNotRetry);
    events, s := ReadyAgentGets(third, v, c, e, DoNotRetry, 0);
  }

  /** For any two requests with one key there is a run in which the first is compiled by an agent,
      and the second is answered with the same bytes and delivered to none. */
  lemma CacheServes(a: Entry, b: Entry, uuid: Uuid, data: string) returns (events: seq<Event>)
    requires a.request.toolchain.Some? && b.request.toolchain.Some? && a.Id() != b.Id()
    requires RequestHash(a.request) == RequestHash(b.request) != ""
    ensures Run(events).Some? && Run(events).value.net.delivered == [(0, a.request)]
    ensures Run(events).value.core.sent
         == [Sent(a.requester, Response(a.Id(), Success(data))), Sent(b.requester, Response(b.Id(), Success(data)))]
  {
    var first, s := FirstMisses(a, uuid);
    var second, t := AnswerRead(first, s, 0, Response(a.Id(), Success(data)));
    var third, u := SuccessIsCached(second, t, a, data);
    var fourth, v, c := Entered(third, u, b);
    var x;
    events, x := StoredIsServed(fourth, v, c, b, DoNotRetry);
  }

  // --------------------------------------------------------- what the cache holds

  /** The object under a key: what was stored last, unless it was evicted since. */
  function ObjectAfter(events: seq<Event>, hash: string): Option<string> {
    if events == [] then None else
    var before := ObjectAfter(events[..|events| - 1], hash);
    match events[|events| - 1]
    case Push(h, data, stored) => if h == hash && stored then Some(data) else before
    case Evict(h) => if h == hash then None else before
    case _ => before
  }

  function ObjectIn(s: State, hash: string): Option<string> {
    if hash in s.cache.objects then Some(s.cache.objects[hash]) else None
  }

  lemma ObjectsStep(s: State, ev: Event, hash: string)
    requires Next(s, ev).Some?
    ensures ObjectIn(Next(s, ev).value, hash)
         == if ev.Push? && ev.hash == hash && ev.stored then Some(ev.data)
            else if ev == Evict(hash) then None
            else ObjectIn(s, hash)
  {
  }

  lemma {:induction false} CacheExactly(events: seq<Event>, hash: string)
    requires Run(events).Some?
    ensures ObjectIn(Run(events).value, hash) == ObjectAfter(events, hash)
  {
    if events != [] {
      var front := events[..|events| - 1];
      CacheExactly(front, hash);
      ObjectsStep(Run(front).value, events[|events| - 1], hash);
    }
  }

  /** The event answers, with these bytes, a request whose remembered key this is. */
  predicate StartsPush(s: State, ev: Event, hash: string, data: string) {
    && ev.HandleResponse? && ev.resp.id in s.core.inflight && ev.resp.result == Success(data) && hash != ""
    && var id := s.core.inflight[ev.resp.id].entry.Id(); id in s.cache.managed && s.cache.managed[id] == hash
  }

  predicate EndsPush(ev: Event, hash: string, data: string) { ev.Push? && ev.hash == hash && ev.data == data }

  function Started(events: seq<Event>, hash: string, data: string): nat {
    if events == [] then 0 else
    var front := events[..|events| - 1];
    Started(front, hash, data) + One(Run(front).Some? && StartsPush(Run(front).value, events[|events| - 1], hash, data))
  }

  function Ended(events: seq<Event>, hash: string, data: string): nat {
    if events == [] then 0
    else Ended(events[..|events| - 1], hash, data) + One(EndsPush(events[|events| - 1], hash, data))
  }

  lemma PushesStep(s: State, ev: Event, hash: string, data: string)
    requires Next(s, ev).Some?
    ensures Next(s, ev).value.cache.pushes[(hash, data)] + One(EndsPush(ev, hash, data))
         == s.cache.pushes[(hash, data)] + One(StartsPush(s, ev, hash, data))
  {
    if ev.HandleResponse? && ev.resp.id in s.core.inflight { PushedExactly(s, ev.c, ev.resp); }
  }

  /** In every run each push started, one for every such answer, has ended or is under way. */
  lemma {:induction false} PushesConserved(events: seq<Event>, hash: string, data: string)
    requires Run(events).Some?
    ensures Started(events, hash, data) == Ended(events, hash, data) + Run(events).value.cache.pushes[(hash, data)]
  {
    if events != [] {
      var front := events[..|events| - 1];
      PushesConserved(front, hash, data);
      PushesStep(Run(front).value, events[|events| - 1], hash, data);
    }
  }
}
