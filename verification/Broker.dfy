/** The scheduler's broker (pkg/scheduler/broker.go, router.go, types.go) as a transition system.
    One event is one atomic action of one goroutine: a table operation, a channel hand-off, a
    stream message. Whatever holds a request between two such actions (a routing goroutine, a
    route's receiver, an agent's send loop) is a carrier; nothing in the state says that an ID
    has only one. */
module Broker {
  import opened Common
  import opened Toolchains

  /** Request IDs and component identities: random UUIDs, only ever compared. */
  type Uuid = nat

  const MAX_TOKENS: nat := 1000

  datatype RetryAction = DoNotRetry | RetryLater

  datatype Result = Success(compiled: string) | Fail | InternalError | Defunct | Retry(action: RetryAction)

  datatype Response = Response(id: Uuid, result: Result)

  datatype CompileRequest = CompileRequest(
    id: Uuid, toolchain: Option<Toolchain>, args: seq<string>, source: string)

  function Concat(parts: seq<string>): string {
    if parts == [] then "" else parts[0] + Concat(parts[1..])
  }

  /** CompileRequest.Hash; the digest is taken as injective, so the bytes stand for it. */
  function RequestHash(req: CompileRequest): string {
    (if req.toolchain.Some? then HashBytes(req.toolchain.value) else "") + req.source + Concat(req.args)
  }

  /** pendingRequest: the request and the consumerd that submitted it. */
  datatype Entry = Entry(requester: Uuid, request: CompileRequest) {
    function Id(): Uuid { request.id }
  }

  /** inflightRequest; the agent is None for requests answered without one. */
  datatype Inflight = Inflight(entry: Entry, agent: Option<nat>)

  /** A response handed to a consumerd's stream. */
  datatype Sent = Sent(consumerd: Uuid, response: Response)

  datatype Alarm = RunNonexistent | LoadNonexistent | InvalidInHook | TokenImbalance

  datatype Carrier =
    | Entering(e: Entry, onFail: RetryAction)              // routeNewRequest, pending not stored yet
    | Routing(e: Entry, onFail: RetryAction)               // in Router.Route, before the hooks
    | CacheHit(e: Entry, onFail: RetryAction, hit: string) // Pull succeeded, in PreReceive
    | Sending(e: Entry, onFail: RetryAction)               // offering the request on the route's channel
    | Failed(e: Entry, onFail: RetryAction)                // Route returned an error
    | Held(e: Entry, stream: nat)                          // an agent's receiver took it off the route
    | AtSender(e: Entry, stream: nat)                      // the agent's send loop took it
    | ToAgent(e: Entry, value: Entry, stream: nat)         // out of pending, about to be in flight
    | ToQueue(e: Entry, value: Entry, reply: Response)     // the same, with a reply ready
  {
    function Id(): Uuid { e.Id() }
    /** Stages at which the ID is in the pending table. */
    predicate Listed() { Routing? || CacheHit? || Sending? || Failed? || Held? || AtSender? }
  }

  /** The request tables, the carriers and the log of responses sent. */
  datatype Core = Core(
    accepted: map<Uuid, Entry>,
    pending: map<Uuid, Entry>,
    inflight: map<Uuid, Inflight>,
    carriers: map<nat, Carrier>,
    sent: seq<Sent>,
    alarms: set<Alarm>)
  {
    function Admit(c: nat, e: Entry): Core {
      this.(accepted := accepted[e.Id() := e], carriers := carriers[c := Entering(e, DoNotRetry)])
    }
    function Advance(c: nat, to: Carrier): Core {
      this.(carriers := carriers[c := to])
    }
    function List(c: nat, to: Carrier): Core {
      this.(carriers := carriers[c := to], pending := pending[to.Id() := to.e])
    }
    function Unlist(c: nat, to: Carrier): Core {
      this.(carriers := carriers[c := to], pending := pending - {to.Id()})
    }
    function Launch(c: nat, id: Uuid, f: Inflight): Core {
      this.(carriers := carriers - {c}, inflight := inflight[id := f])
    }
    function Requeue(c: nat, id: Uuid, to: Carrier): Core {
      this.(carriers := carriers[c := to], inflight := inflight - {id})
    }
    function Answer(id: Uuid, out: Sent): Core {
      this.(inflight := inflight - {id}, sent := sent + [out])
    }
    function Drop(c: nat, a: Alarm): Core {
      this.(carriers := carriers - {c}, alarms := alarms + {a})
    }
  }

  /** The send loop of handleAgentStream; Busy(c) is the loop acting as carrier c. */
  datatype SendLoop = Idle | TokenTaken | Waiting | Busy(c: nat) | Delivering(request: CompileRequest) | SendStopped

  /** The receive loop of handleAgentStream. */
  datatype RecvLoop = Listening | Received(resp: Response) | Unlocked(resp: Response) | RecvStopped

  datatype Agent = Agent(
    uuid: Uuid, toolchains: seq<Toolchain>, limit: nat,
    available: nat, locked: nat,
    send: SendLoop, recv: RecvLoop,
    open: bool,
    unanswered: multiset<Uuid>,       // IDs delivered to the agent and not answered by it
    wire: multiset<Response>)         // answers the agent has sent and the broker has not read

  datatype StreamStep =
    | TakeToken | LockToken
    | Engage(c: nat) | Release | Dispatch(c: nat, req: CompileRequest)
    | Deliver(ok: bool) | StopSend
    | AgentAnswers(answer: Response)
    | Receive(answer: Response) | UnlockToken | ReturnToken | StopRecv
    | Close

  /** One step of an agent's stream: its two loops, its token channels, and the agent itself,
      which may answer anything at any time. */
  function StepAgent(a: Agent, m: StreamStep): Option<Agent> {
    match m
    case TakeToken =>
      if a.send.Idle? && a.available > 0 then Some(a.(available := a.available - 1, send := TokenTaken)) else None
    case LockToken =>
      if a.send.TokenTaken? && a.locked < MAX_TOKENS then Some(a.(locked := a.locked + 1, send := Waiting)) else None
    case Engage(c) => if a.send.Waiting? then Some(a.(send := Busy(c))) else None
    case Release => if a.send.Busy? then Some(a.(send := Idle)) else None
    case Dispatch(c, req) => if a.send == Busy(c) then Some(a.(send := Delivering(req))) else None
    case Deliver(ok) =>
      if !a.send.Delivering? then None
      else if ok then Some(a.(send := Idle, unanswered := a.unanswered + multiset{a.send.request.id}))
      else Some(a.(send := SendStopped))
    case StopSend => if a.send.Idle? && !a.open then Some(a.(send := SendStopped)) else None
    case AgentAnswers(resp) =>
      Some(a.(unanswered := a.unanswered - multiset{resp.id}, wire := a.wire + multiset{resp}))
    case Receive(resp) =>
      if a.recv.Listening? && resp in a.wire then Some(a.(wire := a.wire - multiset{resp}, recv := Received(resp)))
      else None
    case UnlockToken =>
      if !a.recv.Received? then None
      else if a.locked > 0 then Some(a.(locked := a.locked - 1, recv := Unlocked(a.recv.resp)))
      else Some(a.(recv := Listening))
    case ReturnToken =>
      if a.recv.Unlocked? && a.available < MAX_TOKENS then Some(a.(available := a.available + 1, recv := Listening))
      else None
    case StopRecv => if a.recv.Listening? && !a.open then Some(a.(recv := RecvStopped)) else None
    case Close => Some(a.(open := false))
  }

  datatype Net = Net(
    agents: map<nat, Agent>,
    queue: multiset<Response>,               // goroutines blocked sending on responseQueue
    returned: set<(Uuid, string)>,           // (ID, bytes) of every Success an agent sent
    delivered: seq<(nat, CompileRequest)>)   // requests sent down agent streams

  datatype Cache = Cache(
    objects: map<string, string>,
    pushes: multiset<(string, string)>,      // cacheTransaction goroutines
    managed: map<Uuid, string>)              // ManagedFields.ComputedHash, by request ID

  datatype State = State(core: Core, net: Net, cache: Cache)

  datatype Pull = CacheOff | PullHit | PullMiss | PullError

  datatype Event =
    | Accept(c: nat, e: Entry)
    | StorePending(c: nat)
    | Hook(c: nat, pull: Pull)
    | RouteFails(c: nat)
    | Handoff(c: nat, k: nat)
    | ToSendLoop(c: nat)
    | TakePending(c: nat)
    | StoreInflight(c: nat)
    | HandleResponse(c: nat, resp: Response)
    | Connect(k: nat, uuid: Uuid, toolchains: seq<Toolchain>, limit: int)
    | Stream(k: nat, m: StreamStep)
    | Cleanup(k: nat, id: Uuid)
    | Evict(hash: string)
    | Push(hash: string, data: string, stored: bool)

  // ---------------------------------------------------------------- requests

  /** A consumerd submits a request whose ID is new (it is a fresh UUID). */
  function NextAccept(s: State, c: nat, e: Entry): Option<State> {
    if c in s.core.carriers || e.Id() in s.core.accepted then None
    else Some(s.(core := s.core.Admit(c, e)))
  }

  function NextStorePending(s: State, c: nat): Option<State> {
    if c !in s.core.carriers then None else
    match s.core.carriers[c]
    case Entering(e, f) => Some(s.(core := s.core.List(c, Routing(e, f))))
    case _ => None
  }

  /** Router.Route up to the end of the PreReceive hook. A nil toolchain never gets there. */
  function NextHook(s: State, c: nat, pull: Pull): Option<State> {
    if c !in s.core.carriers then None else
    match s.core.carriers[c]
    case Routing(e, f) =>
      var hash := RequestHash(e.request);
      if e.request.toolchain.None? then Some(s.(core := s.core.Advance(c, Failed(e, f))))
      else if pull.PullHit? then
        if hash !in s.cache.objects then None
        else Some(s.(core := s.core.Advance(c, CacheHit(e, f, s.cache.objects[hash]))))
      else if pull.PullMiss? then
        if hash in s.cache.objects then None
        else Some(s.(core := s.core.Advance(c, Sending(e, f)),
                     cache := s.cache.(managed := s.cache.managed[e.Id() := hash])))
      else Some(s.(core := s.core.Advance(c, Sending(e, f))))
    case _ => None
  }

  /** No agent attached to the route, or the consumerd's stream is done. */
  function NextRouteFails(s: State, c: nat): Option<State> {
    if c !in s.core.carriers then None else
    match s.core.carriers[c]
    case Sending(e, f) => Some(s.(core := s.core.Advance(c, Failed(e, f))))
    case _ => None
  }

  /** An agent attached to the request's route receives from the route's channel. */
  function NextHandoff(s: State, c: nat, k: nat): Option<State> {
    if c !in s.core.carriers || k !in s.net.agents then None else
    match s.core.carriers[c]
    case Sending(e, _) =>
      if e.request.toolchain.Some? && Offers(s.net.agents[k].toolchains, e.request.toolchain.value)
      then Some(s.(core := s.core.Advance(c, Held(e, k))))
      else None
    case _ => None
  }

  function SetAgent(s: State, k: nat, a: Agent): State {
    s.(net := s.net.(agents := s.net.agents[k := a]))
  }

  function NextToSendLoop(s: State, c: nat): Option<State> {
    if c !in s.core.carriers then None else
    match s.core.carriers[c]
    case Held(e, k) =>
      if k !in s.net.agents then None else
      var a := StepAgent(s.net.agents[k], Engage(c));
      if a.None? then None
      else Some(SetAgent(s, k, a.value).(core := s.core.Advance(c, AtSender(e, k))))
    case _ => None
  }

  /** pendingRequests.LoadAndDelete at its three call sites; each alarms if the ID is missing. */
  function NextTakePending(s: State, c: nat): Option<State> {
    if c !in s.core.carriers then None else
    var id, k := s.core.carriers[c].Id(), s.core;
    match s.core.carriers[c]
    case AtSender(e, a) =>
      if id in k.pending then Some(s.(core := k.Unlist(c, ToAgent(e, k.pending[id], a))))
      else if a !in s.net.agents || StepAgent(s.net.agents[a], Release).None? then None
      else Some(SetAgent(s, a, StepAgent(s.net.agents[a], Release).value).(core := k.Drop(c, RunNonexistent)))
    case Failed(e, f) =>
      if id in k.pending then Some(s.(core := k.Unlist(c, ToQueue(e, k.pending[id], Response(id, Retry(f))))))
      else Some(s.(core := k.Drop(c, LoadNonexistent)))
    case CacheHit(e, f, hit) =>
      if id in k.pending then Some(s.(core := k.Unlist(c, ToQueue(e, k.pending[id], Response(id, Success(hit))))))
      else Some(s.(core := k.Advance(c, Sending(e, f)).(alarms := k.alarms + {InvalidInHook})))
    case _ => None
  }

  function NextStoreInflight(s: State, c: nat): Option<State> {
    if c !in s.core.carriers then None else
    match s.core.carriers[c]
    case ToAgent(e, value, k) =>
      if k !in s.net.agents then None else
      var a := StepAgent(s.net.agents[k], Dispatch(c, e.request));
      if a.None? then None
      else Some(SetAgent(s, k, a.value).(core := s.core.Launch(c, e.Id(), Inflight(value, Some(k)))))
    case ToQueue(e, value, reply) =>
      Some(s.(core := s.core.Launch(c, e.Id(), Inflight(value, None)),
              net := s.net.(queue := s.net.queue + multiset{reply})))
    case _ => None
  }

  /** handleResponseQueue: one response. c names the goroutine that requeues a defunct request. */
  function NextHandleResponse(s: State, c: nat, resp: Response): Option<State> {
    if resp !in s.net.queue || c in s.core.carriers then None else
    var net := s.net.(queue := s.net.queue - multiset{resp});
    if resp.id !in s.core.inflight then Some(s.(net := net)) else
    var entry := s.core.inflight[resp.id].entry;
    if resp.result.Defunct? then
      Some(s.(net := net, core := s.core.Requeue(c, resp.id, Entering(entry, RetryLater))))
    else
      var hash := if entry.Id() in s.cache.managed then s.cache.managed[entry.Id()] else "";
      var cache := if resp.result.Success? && hash != ""
                   then s.cache.(pushes := s.cache.pushes + multiset{(hash, resp.result.compiled)})
                   else s.cache;
      Some(State(s.core.Answer(resp.id, Sent(entry.requester, resp)), net, cache))
  }

  // ------------------------------------------------------------ agent streams

  /** An agent stream starts with as many tokens as its limit. With more than MAX_TOKENS the
      fill loop would block on the full channel, so no stream with such a limit is ever served. */
  function NextConnect(s: State, k: nat, uuid: Uuid, tcs: seq<Toolchain>, limit: int): Option<State> {
    if k in s.net.agents || limit > MAX_TOKENS then None else
    var n := if limit < 0 then 0 else limit;
    Some(SetAgent(s, k, Agent(uuid, tcs, n, n, 0, Idle, Listening, true, multiset{}, multiset{})))
  }

  function Enqueue(s: State, resp: Response): State {
    s.(net := s.net.(queue := s.net.queue + multiset{resp}))
  }

  /** A stream step and what it does outside the stream. A response is forwarded whether or not
      a locked token was there to take. */
  function NextStream(s: State, k: nat, m: StreamStep): Option<State> {
    if k !in s.net.agents || m.Engage? || m.Release? || m.Dispatch? then None else
    var a := s.net.agents[k];
    var a' := StepAgent(a, m);
    if a'.None? then None else
    var t := SetAgent(s, k, a'.value);
    match m
    case Deliver(true) => Some(t.(net := t.net.(delivered := t.net.delivered + [(k, a.send.request)])))
    case AgentAnswers(resp) =>
      Some(if resp.result.Success?
           then t.(net := t.net.(returned := t.net.returned + {(resp.id, resp.result.compiled)}))
           else t)
    case UnlockToken =>
      Some(if a.locked > 0 then t
           else Enqueue(t, a.recv.resp).(core := s.core.(alarms := s.core.alarms + {TokenImbalance})))
    case ReturnToken => Some(Enqueue(t, a.recv.resp))
    case _ => Some(t)
  }

  /** cleanupAgent at one in-flight entry: the match is on UUIDs, so a reconnected agent's
      entries are declared defunct too. */
  function NextCleanup(s: State, k: nat, id: Uuid): Option<State> {
    if k !in s.net.agents || s.net.agents[k].open || id !in s.core.inflight then None else
    match s.core.inflight[id].agent
    case Some(j) =>
      if j in s.net.agents && s.net.agents[j].uuid == s.net.agents[k].uuid
      then Some(Enqueue(s, Response(id, Defunct)))
      else None
    case None => None
  }

  // -------------------------------------------------------------------- cache

  function NextEvict(s: State, hash: string): Option<State> {
    Some(s.(cache := s.cache.(objects := s.cache.objects - {hash})))
  }

  /** A cacheTransaction ends: the object was stored, or it existed already or the call failed. */
  function NextPush(s: State, hash: string, data: string, stored: bool): Option<State> {
    if (hash, data) !in s.cache.pushes then None else
    Some(s.(cache := s.cache.(
              pushes := s.cache.pushes - multiset{(hash, data)},
              objects := if stored then s.cache.objects[hash := data] else s.cache.objects)))
  }

  /** The state after an event, or None where the event cannot happen. */
  function Next(s: State, ev: Event): Option<State> {
    match ev
    case Accept(c, e) => NextAccept(s, c, e)
    case StorePending(c) => NextStorePending(s, c)
    case Hook(c, pull) => NextHook(s, c, pull)
    case RouteFails(c) => NextRouteFails(s, c)
    case Handoff(c, k) => NextHandoff(s, c, k)
    case ToSendLoop(c) => NextToSendLoop(s, c)
    case TakePending(c) => NextTakePending(s, c)
    case StoreInflight(c) => NextStoreInflight(s, c)
    case HandleResponse(c, resp) => NextHandleResponse(s, c, resp)
    case Connect(k, uuid, tcs, limit) => NextConnect(s, k, uuid, tcs, limit)
    case Stream(k, m) => NextStream(s, k, m)
    case Cleanup(k, id) => NextCleanup(s, k, id)
    case Evict(hash) => NextEvict(s, hash)
    case Push(hash, data, stored) => NextPush(s, hash, data, stored)
  }

  const INIT: State := State(
    Core(map[], map[], map[], map[], [], {}),
    Net(map[], multiset{}, {}, []),
    Cache(map[], multiset{}, map[]))

  /** The state a sequence of events leads to from the empty broker, if all of them can happen. */
  function Run(events: seq<Event>): Option<State> {
    if events == [] then Some(INIT) else
    var before := Run(events[..|events| - 1]);
    if before.None? then None else Next(before.value, events[|events| - 1])
  }

  /** The events that leave the request tables alone, except for their alarms. */
  predicate Aside(ev: Event) { ev.Connect? || ev.Stream? || ev.Cleanup? || ev.Evict? || ev.Push? }

  lemma CarriersStay(s: State, ev: Event)
    requires Aside(ev) && Next(s, ev).Some?
    ensures Next(s, ev).value.core.carriers == s.core.carriers
  {
  }

  lemma OtherCarriersStay(s: State, ev: Event, c: nat)
    requires !Aside(ev) && Next(s, ev).Some? && c != ev.c && c in Next(s, ev).value.core.carriers
    ensures c in s.core.carriers && Next(s, ev).value.core.carriers[c] == s.core.carriers[c]
  {
  }
}
