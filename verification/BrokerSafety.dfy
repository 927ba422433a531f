/** Where requests are, in every run of the broker: each accepted ID has exactly one place, the
    lookups that would panic always succeed, and no ID is answered twice. */
module BrokerSafety {
  import opened Common
  import opened Broker

  datatype Place = Carried(c: nat) | Flying | Done(i: nat)

  type Places = map<Uuid, Place>

  /** Carriers and the places of carried IDs are in one-to-one correspondence. */
  ghost predicate Paired(k: Core, w: Places) {
    && w.Keys == k.accepted.Keys
    && (forall c | c in k.carriers :: k.carriers[c].Id() in w && w[k.carriers[c].Id()] == Carried(c))
    && (forall id | id in w && w[id].Carried? :: w[id].c in k.carriers && k.carriers[w[id].c].Id() == id)
  }

  ghost predicate PendingCarried(k: Core, w: Places) {
    forall id | id in k.pending :: id in w && w[id].Carried?
  }

  ghost predicate PendingListed(k: Core) {
    forall c | c in k.carriers :: k.carriers[c].Id() in k.pending <==> k.carriers[c].Listed()
  }

  /** The pending table lists exactly the IDs carried at a listed stage. */
  ghost predicate Pending(k: Core, w: Places) {
    PendingCarried(k, w) && PendingListed(k) && k.alarms <= {TokenImbalance}
  }

  /** The in-flight table lists exactly the flying IDs. */
  ghost predicate Flown(k: Core, w: Places) {
    forall id :: id in k.inflight <==> id in w && w[id].Flying?
  }

  /** The log holds exactly the IDs that are done, each once, and no defunct notice. */
  ghost predicate Logged(k: Core, w: Places) {
    && (forall i | 0 <= i < |k.sent| ::
          && k.sent[i].response.id in w && w[k.sent[i].response.id] == Done(i)
          && !k.sent[i].response.result.Defunct?)
    && (forall id | id in w && w[id].Done? :: w[id].i < |k.sent| && k.sent[w[id].i].response.id == id)
  }

  ghost predicate FaithfulCarrier(k: Core, r: Carrier) {
    && r.Id() in k.accepted && r.e == k.accepted[r.Id()]
    && (r.ToAgent? || r.ToQueue? ==> r.value == r.e)
    && (r.ToQueue? ==> r.reply.id == r.Id())
  }

  ghost predicate FaithfulCarriers(k: Core) {
    forall c | c in k.carriers :: FaithfulCarrier(k, k.carriers[c])
  }

  ghost predicate FaithfulTables(k: Core) {
    && (forall id | id in k.accepted :: k.accepted[id].Id() == id)
    && (forall id | id in k.pending :: id in k.accepted && k.pending[id] == k.accepted[id])
    && (forall id | id in k.inflight :: id in k.accepted && k.inflight[id].entry == k.accepted[id])
  }

  ghost predicate FaithfulLog(k: Core) {
    forall i | 0 <= i < |k.sent| ::
      && k.sent[i].response.id in k.accepted
      && k.sent[i].consumerd == k.accepted[k.sent[i].response.id].requester
  }

  /** Wherever an entry is, it is the one that was accepted under its ID. */
  ghost predicate Faithful(k: Core) {
    FaithfulCarriers(k) && FaithfulTables(k) && FaithfulLog(k)
  }

  ghost predicate Good(k: Core, w: Places) {
    Paired(k, w) && Pending(k, w) && Flown(k, w) && Logged(k, w) && Faithful(k)
  }

  /** What an event does to the tables, carriers and log. */
  datatype Move =
    | Admit(c: nat, e: Entry)
    | Advance(c: nat, to: Carrier)
    | List(c: nat, to: Carrier)
    | Unlist(c: nat, to: Carrier)
    | Launch(c: nat, agent: Option<nat>)
    | Requeue(c: nat, id: Uuid)
    | Answer(resp: Response)
    | Imbalance
    | Stay

  ghost predicate Legal(k: Core, m: Move) {
    match m
    case Admit(c, e) => c !in k.carriers && e.Id() !in k.accepted
    case Advance(c, to) => c in k.carriers && to.e == k.carriers[c].e && k.carriers[c].Listed() && to.Listed()
    case List(c, to) => c in k.carriers && to.e == k.carriers[c].e && k.carriers[c].Entering? && to.Listed()
    case Unlist(c, to) =>
      && c in k.carriers && to.e == k.carriers[c].e && k.carriers[c].Listed() && to.Id() in k.pending
      && (to.ToAgent? || (to.ToQueue? && to.reply.id == to.Id())) && to.value == k.pending[to.Id()]
    case Launch(c, _) => c in k.carriers && (k.carriers[c].ToAgent? || k.carriers[c].ToQueue?)
    case Requeue(c, id) => c !in k.carriers && id in k.inflight && k.inflight[id].entry.Id() == id
    case Answer(resp) => resp.id in k.inflight && !resp.result.Defunct?
    case Imbalance => true
    case Stay => true
  }

  function Moved(k: Core, m: Move): Core
    requires Legal(k, m)
  {
    match m
    case Admit(c, e) => k.Admit(c, e)
    case Advance(c, to) => k.Advance(c, to)
    case List(c, to) => k.List(c, to)
    case Unlist(c, to) => k.Unlist(c, to)
    case Launch(c, agent) => k.Launch(c, k.carriers[c].Id(), Inflight(k.carriers[c].value, agent))
    case Requeue(c, id) => k.Requeue(c, id, Entering(k.inflight[id].entry, RetryLater))
    case Answer(resp) => k.Answer(resp.id, Sent(k.inflight[resp.id].entry.requester, resp))
    case Imbalance => k.(alarms := k.alarms + {TokenImbalance})
    case Stay => k
  }

  function Follow(k: Core, w: Places, m: Move): Places
    requires Legal(k, m)
  {
    match m
    case Admit(c, e) => w[e.Id() := Carried(c)]
    case Launch(c, _) => w[k.carriers[c].Id() := Flying]
    case Requeue(c, id) => w[id := Carried(c)]
    case Answer(resp) => w[resp.id := Done(|k.sent|)]
    case _ => w
  }

  lemma CarrierPaired(k: Core, w: Places, m: Move, c: nat)
    requires Paired(k, w) && Flown(k, w) && Legal(k, m) && c in Moved(k, m).carriers
    ensures var id := Moved(k, m).carriers[c].Id(); id in Follow(k, w, m) && Follow(k, w, m)[id] == Carried(c)
  {
    match m
    case Admit(_, _) =>
    case Advance(_, _) =>
    case List(_, _) =>
    case Unlist(_, _) =>
    case Launch(_, _) =>
    case Requeue(_, _) =>
    case Answer(_) =>
    case Imbalance =>
    case Stay =>
  }

  lemma PlacePaired(k: Core, w: Places, m: Move, id: Uuid)
    requires Paired(k, w) && Flown(k, w) && Legal(k, m) && id in Follow(k, w, m) && Follow(k, w, m)[id].Carried?
    ensures var c := Follow(k, w, m)[id].c; c in Moved(k, m).carriers && Moved(k, m).carriers[c].Id() == id
  {
    match m
    case Admit(_, _) =>
    case Advance(_, _) =>
    case List(_, _) =>
    case Unlist(_, _) =>
    case Launch(_, _) =>
    case Requeue(_, _) =>
    case Answer(_) =>
    case Imbalance =>
    case Stay =>
  }

  lemma KeysKept(k: Core, w: Places, m: Move)
    requires Paired(k, w) && Flown(k, w) && Legal(k, m)
    ensures Follow(k, w, m).Keys == Moved(k, m).accepted.Keys
  {
  }

  lemma PairedKept(k: Core, w: Places, m: Move)
    requires Paired(k, w) && Flown(k, w) && Legal(k, m)
    ensures Paired(Moved(k, m), Follow(k, w, m))
  {
    KeysKept(k, w, m);
    var k', w' := Moved(k, m), Follow(k, w, m);
    forall c | c in k'.carriers ensures k'.carriers[c].Id() in w' && w'[k'.carriers[c].Id()] == Carried(c) {
      CarrierPaired(k, w, m, c);
    }
    forall id | id in w' && w'[id].Carried? ensures w'[id].c in k'.carriers && k'.carriers[w'[id].c].Id() == id {
      PlacePaired(k, w, m, id);
    }
  }

  lemma PendingCarriedKept(k: Core, w: Places, m: Move)
    requires Paired(k, w) && Pending(k, w) && Flown(k, w) && Legal(k, m)
    ensures PendingCarried(Moved(k, m), Follow(k, w, m))
  {
    match m
    case Admit(_, _) =>
    case Advance(_, _) =>
    case List(_, _) =>
    case Unlist(_, _) =>
    case Launch(_, _) =>
    case Requeue(_, _) =>
    case Answer(_) =>
    case Imbalance =>
    case Stay =>
  }

  lemma CarrierListed(k: Core, w: Places, m: Move, c: nat)
    requires Paired(k, w) && Pending(k, w) && Flown(k, w) && Legal(k, m) && c in Moved(k, m).carriers
    ensures Moved(k, m).carriers[c].Id() in Moved(k, m).pending <==> Moved(k, m).carriers[c].Listed()
  {
    match m
    case Admit(_, _) =>
    case Advance(_, _) =>
    case List(_, _) => PendingChanges(k, w, m, c);
    case Unlist(_, _) => PendingChanges(k, w, m, c);
    case Launch(_, _) =>
    case Requeue(_, _) =>
    case Answer(_) =>
    case Imbalance =>
    case Stay =>
  }

  /** The two moves that change the pending table. */
  lemma PendingChanges(k: Core, w: Places, m: Move, c: nat)
    requires m.List? || m.Unlist?
    requires Paired(k, w) && Pending(k, w) && Flown(k, w) && Legal(k, m) && c in Moved(k, m).carriers
    ensures Moved(k, m).carriers[c].Id() in Moved(k, m).pending <==> Moved(k, m).carriers[c].Listed()
  {
  }

  lemma FlownKept(k: Core, w: Places, m: Move)
    requires Paired(k, w) && Flown(k, w) && Legal(k, m)
    ensures Flown(Moved(k, m), Follow(k, w, m))
  {
    match m
    case Admit(_, _) =>
    case Advance(_, _) =>
    case List(_, _) =>
    case Unlist(_, _) =>
    case Launch(_, _) =>
    case Requeue(_, _) =>
    case Answer(_) =>
    case Imbalance =>
    case Stay =>
  }

  lemma LoggedKept(k: Core, w: Places, m: Move)
    requires Paired(k, w) && Flown(k, w) && Logged(k, w) && Legal(k, m)
    ensures Logged(Moved(k, m), Follow(k, w, m))
  {
    match m
    case Admit(_, _) =>
    case Advance(_, _) =>
    case List(_, _) =>
    case Unlist(_, _) =>
    case Launch(_, _) =>
    case Requeue(_, _) =>
    case Answer(_) =>
    case Imbalance =>
    case Stay =>
  }

  lemma FaithfulCarriersKept(k: Core, m: Move)
    requires FaithfulCarriers(k) && FaithfulTables(k) && Legal(k, m)
    ensures FaithfulCarriers(Moved(k, m))
  {
    match m
    case Admit(_, _) =>
    case Advance(_, _) =>
    case List(_, _) =>
    case Unlist(_, _) =>
    case Launch(_, _) =>
    case Requeue(_, _) =>
    case Answer(_) =>
    case Imbalance =>
    case Stay =>
  }

  lemma FaithfulTablesKept(k: Core, m: Move)
    requires FaithfulCarriers(k) && FaithfulTables(k) && Legal(k, m)
    ensures FaithfulTables(Moved(k, m))
  {
    match m
    case Admit(_, _) =>
    case Advance(_, _) =>
    case List(_, _) =>
    case Unlist(_, _) =>
    case Launch(_, _) =>
    case Requeue(_, _) =>
    case Answer(_) =>
    case Imbalance =>
    case Stay =>
  }

  lemma FaithfulLogKept(k: Core, m: Move)
    requires FaithfulTables(k) && FaithfulLog(k) && Legal(k, m)
    ensures FaithfulLog(Moved(k, m))
  {
    match m
    case Admit(_, _) =>
    case Advance(_, _) =>
    case List(_, _) =>
    case Unlist(_, _) =>
    case Launch(_, _) =>
    case Requeue(_, _) =>
    case Answer(_) =>
    case Imbalance =>
    case Stay =>
  }

  lemma GoodKept(k: Core, w: Places, m: Move)
    requires Good(k, w) && Legal(k, m)
    ensures Good(Moved(k, m), Follow(k, w, m))
  {
    PairedKept(k, w, m);
    PendingCarriedKept(k, w, m);
    forall c | c in Moved(k, m).carriers
      ensures Moved(k, m).carriers[c].Id() in Moved(k, m).pending <==> Moved(k, m).carriers[c].Listed()
    {
      CarrierListed(k, w, m, c);
    }
    FlownKept(k, w, m);
    LoggedKept(k, w, m);
    FaithfulCarriersKept(k, m);
    FaithfulTablesKept(k, m);
    FaithfulLogKept(k, m);
  }

  /** Every event makes a legal move; in particular no lookup in the pending table misses. */
  lemma EventMoves(s: State, ev: Event, w: Places) returns (m: Move)
    requires Next(s, ev).Some? && Pending(s.core, w) && Faithful(s.core)
    ensures Legal(s.core, m) && Next(s, ev).value.core == Moved(s.core, m)
  {
    var k, k' := s.core, Next(s, ev).value.core;
    m := Stay;
    match ev
    case Accept(c, e) => m := Admit(c, e);
    case StorePending(c) => m := List(c, k'.carriers[c]);
    case Hook(c, _) => m := Advance(c, k'.carriers[c]);
    case RouteFails(c) => m := Advance(c, k'.carriers[c]);
    case Handoff(c, _) => m := Advance(c, k'.carriers[c]);
    case ToSendLoop(c) => m := Advance(c, k'.carriers[c]);
    case TakePending(c) => m := Unlist(c, k'.carriers[c]);
    case StoreInflight(c) => m := Launch(c, k'.inflight[k.carriers[c].Id()].agent);
    case HandleResponse(c, resp) =>
      if resp.id in k.inflight {
        m := if resp.result.Defunct? then Requeue(c, resp.id) else Answer(resp);
      }
    case _ => m := AsideMoves(s, ev);
  }

  lemma AsideMoves(s: State, ev: Event) returns (m: Move)
    requires Aside(ev) && Next(s, ev).Some?
    ensures Legal(s.core, m) && Next(s, ev).value.core == Moved(s.core, m)
  {
    m := if ev.Stream? && ev.m.UnlockToken? && s.net.agents[ev.k].locked == 0 then Imbalance else Stay;
  }

  lemma {:induction false} RunIsGood(events: seq<Event>) returns (w: Places)
    requires Run(events).Some?
    ensures Good(Run(events).value.core, w)
  {
    if events == [] {
      w := map[];
    } else {
      var front, ev := events[..|events| - 1], events[|events| - 1];
      w := RunIsGood(front);
      var s := Run(front).value;
      var m := EventMoves(s, ev, w);
      GoodKept(s.core, w, m);
      w := Follow(s.core, w, m);
    }
  }

  // ------------------------------------------------------------ main results

  ghost predicate AnsweredIn(k: Core, id: Uuid) {
    exists i :: 0 <= i < |k.sent| && k.sent[i].response.id == id
  }

  /** A goroutine or channel outside the pending table holds the request. */
  ghost predicate InTransition(k: Core, id: Uuid) {
    exists c :: c in k.carriers && k.carriers[c].Id() == id && !k.carriers[c].Listed()
  }

  /** In every run each accepted ID is in exactly one of: the pending table, the hands of a
      goroutine between two tables, the in-flight table, the answered log. */
  lemma ExactlyOnePlace(events: seq<Event>, id: Uuid)
    requires Run(events).Some? && id in Run(events).value.core.accepted
    ensures var k := Run(events).value.core;
            One(id in k.pending) + One(InTransition(k, id)) + One(id in k.inflight) + One(AnsweredIn(k, id)) == 1
  {
    var k := Run(events).value.core;
    var w := RunIsGood(events);
    match w[id]
    case Carried(c) => assert k.carriers[c].Id() == id;
    case Flying =>
    case Done(i) => assert k.sent[i].response.id == id;
  }

  /** No two carriers hold the same ID, and the pending IDs are exactly those with a carrier at
      a listed stage. */
  lemma OneCarrier(events: seq<Event>)
    requires Run(events).Some?
    ensures var k := Run(events).value.core;
            && (forall c, d | c in k.carriers && d in k.carriers && k.carriers[c].Id() == k.carriers[d].Id() :: c == d)
            && (forall id :: id in k.pending <==>
                  exists c :: c in k.carriers && k.carriers[c].Id() == id && k.carriers[c].Listed())
  {
    var k := Run(events).value.core;
    var w := RunIsGood(events);
    forall id | id in k.pending
      ensures exists c :: c in k.carriers && k.carriers[c].Id() == id && k.carriers[c].Listed()
    {
      assert k.carriers[w[id].c].Id() == id;
    }
  }

  /** The panics on a missing pending entry are unreachable at all three call sites. */
  lemma LookupsSucceed(events: seq<Event>)
    requires Run(events).Some?
    ensures Run(events).value.core.alarms <= {TokenImbalance}
  {
    var w := RunIsGood(events);
  }

  /** At most one response is ever sent for an ID, it goes to the consumerd that submitted the ID,
      and it is never a defunct notice, whatever agents answer and however requeues and stale
      answers interleave. */
  lemma OneResponsePerRequest(events: seq<Event>)
    requires Run(events).Some?
    ensures var k := Run(events).value.core;
            && (forall i, j | 0 <= i < |k.sent| && 0 <= j < |k.sent| ::
                  k.sent[i].response.id == k.sent[j].response.id ==> i == j)
            && (forall i | 0 <= i < |k.sent| ::
                  && k.sent[i].response.id in k.accepted
                  && k.sent[i].consumerd == k.accepted[k.sent[i].response.id].requester
                  && !k.sent[i].response.result.Defunct?)
  {
    var w := RunIsGood(events);
  }
}
