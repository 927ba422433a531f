/** The router's table of routes (pkg/scheduler/router.go): which receivers get which requests. */
module Router {
  import opened Common
  import opened Toolchains

  /** rx counts attachments: an agent is attached once for each of its toolchains with the hash.
      Receivers are a set of agents, however often each is attached. */
  datatype Route = Route(tc: Toolchain, rx: nat, receivers: set<nat>)

  /** An attachment is listed among the receivers and then counted, and its goroutine starts; when
      that ends, it is no longer counted, and is then removed from the receivers. */
  datatype Stage = Listed | Counted | Uncounted

  datatype Attachment = Attachment(agent: nat, hash: string, stage: Stage)

  datatype State = State(routes: map<string, Route>, attachments: seq<Attachment>) {
    function Rx(h: string): nat { if h in routes then routes[h].rx else 0 }

    function Receivers(h: string): set<nat> { if h in routes then routes[h].receivers else {} }

    /** The agents with an attachment to the route, at whatever stage. */
    function Agents(h: string): set<nat> { set a | a in attachments && a.hash == h :: a.agent }

    /** An attachment to the route has its goroutine running. */
    predicate Attached(h: string) { exists a :: a in attachments && a.hash == h && a.stage.Counted? }
  }

  predicate CountedAt(a: Attachment, h: string) { a.hash == h && a.stage.Counted? }

  function CountOf(attachments: seq<Attachment>, h: string): nat {
    if attachments == [] then 0
    else CountOf(attachments[..|attachments| - 1], h) + One(CountedAt(attachments[|attachments| - 1], h))
  }

  /** routeForToolchain. */
  function Looked(s: State, tc: Toolchain): State {
    var h := HashBytes(tc);
    if h in s.routes then s else s.(routes := s.routes[h := Route(tc, 0, {})])
  }

  /** attachReceiver on route h, up to the set of receivers. */
  function ListedAt(s: State, agent: nat, h: string): State
    requires h in s.routes
  {
    var rt := s.routes[h];
    State(s.routes[h := rt.(receivers := rt.receivers + {agent})], s.attachments + [Attachment(agent, h, Listed)])
  }

  function Staged(attachments: seq<Attachment>, i: nat, stage: Stage): seq<Attachment>
    requires i < |attachments|
  {
    attachments[i := attachments[i].(stage := stage)]
  }

  function Without(attachments: seq<Attachment>, i: nat): seq<Attachment>
    requires i < |attachments|
  {
    attachments[..i] + attachments[i + 1..]
  }

  predicate At(s: State, i: nat, stage: Stage) {
    i < |s.attachments| && s.attachments[i].stage == stage && s.attachments[i].hash in s.routes
  }

  /** Its end: the count, and the start of the goroutine. */
  function CountedIn(s: State, i: nat): State
    requires At(s, i, Listed)
  {
    var h := s.attachments[i].hash;
    State(s.routes[h := s.routes[h].(rx := s.routes[h].rx + 1)], Staged(s.attachments, i, Counted))
  }

  /** The first deferred call of the goroutine. */
  function CountedOut(s: State, i: nat): State
    requires At(s, i, Counted) && s.routes[s.attachments[i].hash].rx > 0
  {
    var h := s.attachments[i].hash;
    State(s.routes[h := s.routes[h].(rx := s.routes[h].rx - 1)], Staged(s.attachments, i, Uncounted))
  }

  /** The second one. */
  function Unlisted(s: State, i: nat): State
    requires At(s, i, Uncounted)
  {
    var a := s.attachments[i];
    var rt := s.routes[a.hash];
    State(s.routes[a.hash := rt.(receivers := rt.receivers - {a.agent})], Without(s.attachments, i))
  }

  datatype Event =
    | Look(tc: Toolchain)
    | List(agent: nat, tc: Toolchain) | Count(i: nat)
    | Uncount(i: nat) | Unlist(i: nat)

  /** The count is that of the attachments counted, attachments are to routes there are, and every
      receiver has one. */
  ghost predicate Valid(s: State) {
    && (forall h | h in s.routes :: HashBytes(s.routes[h].tc) == h)
    && (forall a | a in s.attachments :: a.hash in s.routes)
    && (forall h :: s.Rx(h) == CountOf(s.attachments, h))
    && (forall h :: s.Receivers(h) <= s.Agents(h))
  }

  lemma {:induction false} CountIsMembership(attachments: seq<Attachment>, h: string)
    ensures CountOf(attachments, h) > 0 <==> exists a :: a in attachments && a.hash == h && a.stage.Counted?
  {
    if attachments != [] {
      var front, last := attachments[..|attachments| - 1], attachments[|attachments| - 1];
      CountIsMembership(front, h);
      assert attachments == front + [last];
    }
  }

  lemma {:induction false} CountStaged(attachments: seq<Attachment>, i: nat, stage: Stage, h: string)
    requires i < |attachments|
    ensures var a, staged := attachments[i], Staged(attachments, i, stage);
            CountOf(staged, h) + One(CountedAt(a, h)) == CountOf(attachments, h) + One(CountedAt(a.(stage := stage), h))
  {
    var front, n := attachments[..|attachments| - 1], |attachments| - 1;
    if i == n {
      assert Staged(attachments, i, stage)[..n] == front;
    } else {
      CountStaged(front, i, stage, h);
      assert Staged(attachments, i, stage)[..n] == Staged(front, i, stage);
    }
  }

  lemma {:induction false} CountWithout(attachments: seq<Attachment>, i: nat, h: string)
    requires i < |attachments|
    ensures CountOf(attachments, h) == CountOf(Without(attachments, i), h) + One(CountedAt(attachments[i], h))
  {
    var front, n := attachments[..|attachments| - 1], |attachments| - 1;
    if i == n {
      assert Without(attachments, i) == front;
    } else {
      CountWithout(front, i, h);
      assert Without(attachments, i) == Without(front, i) + [attachments[n]];
    }
  }

  lemma CountNext(attachments: seq<Attachment>, a: Attachment, h: string)
    ensures CountOf(attachments + [a], h) == CountOf(attachments, h) + One(CountedAt(a, h))
  {
    assert (attachments + [a])[..|attachments|] == attachments;
  }

  lemma LookKeeps(s: State, tc: Toolchain)
    requires Valid(s)
    ensures Valid(Looked(s, tc))
  {
    var t := Looked(s, tc);
    assert forall h :: t.Rx(h) == s.Rx(h) && t.Receivers(h) == s.Receivers(h) && t.Agents(h) == s.Agents(h);
  }

  lemma AgentsNext(s: State, a: Attachment, h: string)
    ensures s.(attachments := s.attachments + [a]).Agents(h) == s.Agents(h) + (if h == a.hash then {a.agent} else {})
  {
  }

  lemma ListKeeps(s: State, agent: nat, to: string)
    requires Valid(s) && to in s.routes
    ensures Valid(ListedAt(s, agent, to))
  {
    var t, a := ListedAt(s, agent, to), Attachment(agent, to, Listed);
    forall h ensures t.Rx(h) == CountOf(t.attachments, h) && t.Receivers(h) <= t.Agents(h) {
      assert s.Rx(h) == CountOf(s.attachments, h) && s.Receivers(h) <= s.Agents(h);
      CountNext(s.attachments, a, h);
      AgentsNext(s, a, h);
      assert t.Agents(h) == s.(attachments := s.attachments + [a]).Agents(h);
    }
  }

  lemma AgentsStaged(s: State, i: nat, stage: Stage, h: string)
    requires i < |s.attachments|
    ensures s.(attachments := Staged(s.attachments, i, stage)).Agents(h) == s.Agents(h)
  {
    var t := s.(attachments := Staged(s.attachments, i, stage));
    forall x | x in s.Agents(h) ensures x in t.Agents(h) {
      var k :| 0 <= k < |s.attachments| && s.attachments[k].hash == h && s.attachments[k].agent == x;
      assert t.attachments[k] in t.attachments;
    }
    forall x | x in t.Agents(h) ensures x in s.Agents(h) {
      var k :| 0 <= k < |t.attachments| && t.attachments[k].hash == h && t.attachments[k].agent == x;
      assert s.attachments[k] in s.attachments;
    }
  }

  lemma CountKeeps(s: State, i: nat)
    requires Valid(s) && At(s, i, Listed)
    ensures Valid(CountedIn(s, i))
  {
    var t := CountedIn(s, i);
    forall h ensures t.Rx(h) == CountOf(t.attachments, h) && t.Receivers(h) <= t.Agents(h) {
      assert s.Rx(h) == CountOf(s.attachments, h) && s.Receivers(h) <= s.Agents(h);
      CountStaged(s.attachments, i, Counted, h);
      AgentsStaged(s, i, Counted, h);
    }
  }

  lemma UncountPossible(s: State, i: nat)
    requires Valid(s) && At(s, i, Counted)
    ensures s.routes[s.attachments[i].hash].rx > 0
  {
    var h := s.attachments[i].hash;
    CountIsMembership(s.attachments, h);
    assert s.attachments[i] in s.attachments && s.Rx(h) == CountOf(s.attachments, h);
  }

  lemma UncountKeeps(s: State, i: nat)
    requires Valid(s) && At(s, i, Counted) && s.routes[s.attachments[i].hash].rx > 0
    ensures Valid(CountedOut(s, i))
  {
    var t := CountedOut(s, i);
    forall h ensures t.Rx(h) == CountOf(t.attachments, h) && t.Receivers(h) <= t.Agents(h) {
      assert s.Rx(h) == CountOf(s.attachments, h) && s.Receivers(h) <= s.Agents(h);
      CountStaged(s.attachments, i, Uncounted, h);
      AgentsStaged(s, i, Uncounted, h);
    }
  }

  /** Only the agent of the attachment that ends can go. */
  lemma AgentsWithout(s: State, i: nat, h: string)
    requires i < |s.attachments|
    ensures var t := s.(attachments := Without(s.attachments, i));
            && s.Agents(h) - {s.attachments[i].agent} <= t.Agents(h) <= s.Agents(h)
            && (h != s.attachments[i].hash ==> t.Agents(h) == s.Agents(h))
  {
    var less := Without(s.attachments, i);
    forall a | a in s.attachments && a != s.attachments[i] ensures a in less {
      var j :| 0 <= j < |s.attachments| && s.attachments[j] == a;
      assert less[if j < i then j else j - 1] == a;
    }
  }

  lemma UnlistKeeps(s: State, i: nat)
    requires Valid(s) && At(s, i, Uncounted)
    ensures Valid(Unlisted(s, i))
  {
    var t := Unlisted(s, i);
    forall h ensures t.Rx(h) == CountOf(t.attachments, h) && t.Receivers(h) <= t.Agents(h) {
      assert s.Rx(h) == CountOf(s.attachments, h) && s.Receivers(h) <= s.Agents(h);
      CountWithout(s.attachments, i, h);
      AgentsWithout(s, i, h);
    }
  }

  /** The state after an event; events that cannot happen change nothing. */
  function Next(s: State, ev: Event): State {
    match ev
    case Look(tc) => Looked(s, tc)
    case List(agent, tc) => ListedAt(Looked(s, tc), agent, HashBytes(tc))
    case Count(i) => if At(s, i, Listed) then CountedIn(s, i) else s
    case Uncount(i) => if At(s, i, Counted) && s.routes[s.attachments[i].hash].rx > 0 then CountedOut(s, i) else s
    case Unlist(i) => if At(s, i, Uncounted) then Unlisted(s, i) else s
  }

  function Run(events: seq<Event>): State {
    if events == [] then State(map[], []) else Next(Run(events[..|events| - 1]), events[|events| - 1])
  }

  lemma NextKeeps(s: State, ev: Event)
    requires Valid(s)
    ensures Valid(Next(s, ev))
  {
    match ev
    case Look(tc) => LookKeeps(s, tc);
    case List(agent, tc) => LookKeeps(s, tc); ListKeeps(Looked(s, tc), agent, HashBytes(tc));
    case Count(i) => if At(s, i, Listed) { CountKeeps(s, i); }
    case Uncount(i) => if At(s, i, Counted) { UncountPossible(s, i); UncountKeeps(s, i); }
    case Unlist(i) => if At(s, i, Uncounted) { UnlistKeeps(s, i); }
  }

  /** After any run the counts are right, and receivers are agents with an attachment. */
  lemma {:induction false} RunIsValid(events: seq<Event>)
    ensures Valid(Run(events))
  {
    if events != [] {
      RunIsValid(events[..|events| - 1]);
      NextKeeps(Run(events[..|events| - 1]), events[|events| - 1]);
    }
  }

  /** In every run a request is refused for want of agents exactly when no attachment to its route
      has its goroutine running; receivers listed then are just being attached or detached. */
  lemma NoAgentsExactly(events: seq<Event>, h: string)
    ensures Run(events).Rx(h) == 0 <==> !Run(events).Attached(h)
    ensures Run(events).Rx(h) == 0 ==>
              forall x | x in Run(events).Receivers(h) ::
                exists a :: a in Run(events).attachments && a.hash == h && a.agent == x && !a.stage.Counted?
  {
    var s := Run(events);
    RunIsValid(events);
    CountIsMembership(s.attachments, h);
    assert s.Rx(h) == CountOf(s.attachments, h) && s.Receivers(h) <= s.Agents(h);
    if s.Rx(h) == 0 {
      forall x | x in s.Receivers(h)
        ensures exists a :: a in s.attachments && a.hash == h && a.agent == x && !a.stage.Counted?
      {
        var a :| a in s.attachments && a.hash == h && a.agent == x;
        assert !a.stage.Counted?;
      }
    }
  }

  /** Where receivers are exactly the agents with an attachment, the removal of one keeps it so
      exactly when its agent has no other to the same route. */
  lemma DetachAgreesExactly(s: State, i: nat)
    requires Valid(s) && At(s, i, Uncounted) && forall h :: s.Receivers(h) == s.Agents(h)
    ensures var t, a := Unlisted(s, i), s.attachments[i];
            (forall h :: t.Receivers(h) == t.Agents(h)) <==> a.agent !in t.Agents(a.hash)
  {
    var t, a := Unlisted(s, i), s.attachments[i];
    forall h ensures h != a.hash ==> t.Receivers(h) == t.Agents(h) {
      assert s.Receivers(h) == s.Agents(h);
      AgentsWithout(s, i, h);
    }
    assert s.Receivers(a.hash) == s.Agents(a.hash);
    AgentsWithout(s, i, a.hash);
    assert t.Agents(a.hash) == s.(attachments := Without(s.attachments, i)).Agents(a.hash);
    assert t.Receivers(a.hash) == s.Agents(a.hash) - {a.agent};
  }

  /** A receiver is listed before it is counted: no request is taken yet. */
  lemma ListedIsNotAttached(agent: nat, tc: Toolchain)
    ensures var s := Run([List(agent, tc)]); s.Rx(HashBytes(tc)) == 0 && s.Receivers(HashBytes(tc)) == {agent}
  {
    assert [List(agent, tc)][..0] == [];
  }

  /** What a request and a listing see of a route, and the attachments. */
  ghost predicate Shows(s: State, h: string, rx: nat, receivers: set<nat>, attachments: seq<Attachment>) {
    h in s.routes && s.Rx(h) == rx && s.Receivers(h) == receivers && s.attachments == attachments
  }

  lemma ListShows(s: State, agent: nat, h: string)
    requires h in s.routes
    ensures Shows(ListedAt(s, agent, h), h, s.Rx(h), s.Receivers(h) + {agent},
                  s.attachments + [Attachment(agent, h, Listed)])
  {
  }

  lemma CountShows(s: State, h: string, rx: nat, receivers: set<nat>, front: seq<Attachment>, a: Attachment)
    requires Shows(s, h, rx, receivers, front + [a]) && a.hash == h && a.stage.Listed?
    ensures Shows(CountedIn(s, |front|), h, rx + 1, receivers, front + [a.(stage := Counted)])
  {
    assert Staged(front + [a], |front|, Counted) == front + [a.(stage := Counted)];
  }

  lemma UncountShows(s: State, h: string, rx: nat, receivers: set<nat>, a: Attachment, rest: seq<Attachment>)
    requires Shows(s, h, rx, receivers, [a] + rest) && CountedAt(a, h) && rx > 0
    ensures Shows(CountedOut(s, 0), h, rx - 1, receivers, [a.(stage := Uncounted)] + rest)
  {
    assert Staged([a] + rest, 0, Uncounted) == [a.(stage := Uncounted)] + rest;
  }

  lemma UnlistShows(s: State, h: string, rx: nat, receivers: set<nat>, a: Attachment, rest: seq<Attachment>)
    requires Shows(s, h, rx, receivers, [a] + rest) && a.hash == h && a.stage.Uncounted?
    ensures Shows(Unlisted(s, 0), h, rx, receivers - {a.agent}, rest)
  {
    assert Without([a] + rest, 0) == rest;
  }

  lemma RunNext(events: seq<Event>, ev: Event)
    ensures Run(events + [ev]) == Next(Run(events), ev)
  {
    assert (events + [ev])[..|events|] == events;
  }

  lemma LookShows(s: State, tc: Toolchain, h: string)
    requires h == HashBytes(tc)
    ensures Shows(Looked(s, tc), h, s.Rx(h), s.Receivers(h), s.attachments)
  {
  }

  lemma ListedRun(events: seq<Event>, agent: nat, tc: Toolchain, h: string)
    requires h == HashBytes(tc)
    ensures var s := Run(events);
            Shows(Run(events + [List(agent, tc)]), h, s.Rx(h), s.Receivers(h) + {agent},
                  s.attachments + [Attachment(agent, h, Listed)])
  {
    RunNext(events, List(agent, tc));
    LookShows(Run(events), tc, h);
    ListShows(Looked(Run(events), tc), agent, h);
  }

  /** attachReceiver, where its two steps follow each other. */
  lemma AttachShows(events: seq<Event>, agent: nat, tc: Toolchain, h: string) returns (longer: seq<Event>)
    requires h == HashBytes(tc)
    ensures var s := Run(events);
            Shows(Run(longer), h, s.Rx(h) + 1, s.Receivers(h) + {agent},
                  s.attachments + [Attachment(agent, h, Counted)])
  {
    var s, a, listed := Run(events), Attachment(agent, h, Listed), events + [List(agent, tc)];
    ListedRun(events, agent, tc, h);
    longer := listed + [Count(|s.attachments|)];
    RunNext(listed, Count(|s.attachments|));
    CountShows(Run(listed), h, s.Rx(h), s.Receivers(h) + {agent}, s.attachments, a);
  }

  lemma UncountedRun(
    events: seq<Event>, h: string, rx: nat, receivers: set<nat>, a: Attachment, rest: seq<Attachment>)
    requires Shows(Run(events), h, rx, receivers, [a] + rest) && CountedAt(a, h) && rx > 0
    ensures Shows(Run(events + [Uncount(0)]), h, rx - 1, receivers, [a.(stage := Uncounted)] + rest)
  {
    var s := Run(events);
    assert s.attachments[0] == a;
    UncountShows(s, h, rx, receivers, a, rest);
    assert Next(s, Uncount(0)) == CountedOut(s, 0);
    RunNext(events, Uncount(0));
  }

  lemma UnlistedRun(
    events: seq<Event>, h: string, rx: nat, receivers: set<nat>, a: Attachment, rest: seq<Attachment>)
    requires Shows(Run(events), h, rx, receivers, [a] + rest) && a.hash == h && a.stage.Uncounted?
    ensures Shows(Run(events + [Unlist(0)]), h, rx, receivers - {a.agent}, rest)
  {
    var s := Run(events);
    assert s.attachments[0] == a;
    UnlistShows(s, h, rx, receivers, a, rest);
    assert Next(s, Unlist(0)) == Unlisted(s, 0);
    RunNext(events, Unlist(0));
  }

  /** An agent attached twice to one route, by two toolchains or by a reconnect: after the first
      attachment has ended the route still takes requests, but has no receivers. */
  lemma AgentIsHidden(agent: nat, tc: Toolchain) returns (events: seq<Event>)
    ensures var s := Run(events); s.Rx(HashBytes(tc)) == 1 && s.Receivers(HashBytes(tc)) == {}
  {
    var a := Attachment(agent, HashBytes(tc), Counted);
    events := AttachShows([], agent, tc, a.hash);
    assert [] + [a] == [a] && {} + {agent} == {agent};
    events := AttachShows(events, agent, tc, a.hash);
    assert {agent} + {agent} == {agent} && {agent} - {agent} == {};
    assert [a, a] == [a] + [a];
    UncountedRun(events, a.hash, 2, {agent}, a, [a]);
    events := events + [Uncount(0)];
    UnlistedRun(events, a.hash, 1, {agent}, a.(stage := Uncounted), [a]);
    events := events + [Unlist(0)];
  }

  // --------------------------------------------------- what agents are attached to

  /** How many of the toolchains lead to the route with this hash. */
  function Attachments(toolchains: seq<Toolchain>, h: string): nat {
    if toolchains == [] then 0
    else Attachments(toolchains[..|toolchains| - 1], h) + One(h == HashBytes(toolchains[|toolchains| - 1]))
  }

  predicate LeadsTo(toolchains: seq<Toolchain>, i: int, h: string) {
    0 <= i < |toolchains| && HashBytes(toolchains[i]) == h
  }

  lemma {:induction false} LeadingIsAttached(toolchains: seq<Toolchain>, i: int, h: string)
    requires LeadsTo(toolchains, i, h)
    ensures Attachments(toolchains, h) > 0
  {
    if i < |toolchains| - 1 { LeadingIsAttached(toolchains[..|toolchains| - 1], i, h); }
  }

  lemma {:induction false} AttachedIsLeading(toolchains: seq<Toolchain>, h: string) returns (i: int)
    requires Attachments(toolchains, h) > 0
    ensures LeadsTo(toolchains, i, h)
  {
    i := |toolchains| - 1;
    if h != HashBytes(toolchains[i]) { i := AttachedIsLeading(toolchains[..i], h); }
  }

  /** An agent is attached to the route of a toolchain exactly when it offers the toolchain. */
  lemma AttachedIsOffered(toolchains: seq<Toolchain>, tc: Toolchain)
    ensures Attachments(toolchains, HashBytes(tc)) > 0 <==> Offers(toolchains, tc)
  {
    if Attachments(toolchains, HashBytes(tc)) > 0 {
      var i := AttachedIsLeading(toolchains, HashBytes(tc));
      assert HashBytes(toolchains[i]) == HashBytes(tc);
    }
    if i :| 0 <= i < |toolchains| && HashBytes(toolchains[i]) == HashBytes(tc) {
      LeadingIsAttached(toolchains, i, HashBytes(tc));
    }
  }

  /** attachReceiver as a whole, on the route of tc. */
  function AttachedTo(s: State, agent: nat, h: string): State
    requires h in s.routes
  {
    CountedIn(ListedAt(s, agent, h), |s.attachments|)
  }

  function Attached(s: State, agent: nat, tc: Toolchain): State {
    AttachedTo(Looked(s, tc), agent, HashBytes(tc))
  }

  /** All attachments of one AddReceiver. */
  function AttachedAll(s: State, agent: nat, toolchains: seq<Toolchain>): State {
    if toolchains == [] then s
    else Attached(AttachedAll(s, agent, toolchains[..|toolchains| - 1]), agent, toolchains[|toolchains| - 1])
  }

  lemma AttachedAllNext(s: State, agent: nat, toolchains: seq<Toolchain>, i: nat)
    requires i < |toolchains|
    ensures AttachedAll(s, agent, toolchains[..i + 1])
         == Attached(AttachedAll(s, agent, toolchains[..i]), agent, toolchains[i])
  {
    assert toolchains[..i + 1][..i] == toolchains[..i];
  }

  /** What an agent adds to the receivers of a route it is attached to n times. */
  function Added(agent: nat, n: nat): set<nat> { if n > 0 then {agent} else {} }

  /** One attachment more, on one route. */
  lemma AttachedDelta(s: State, agent: nat, to: string, h: string)
    requires to in s.routes
    ensures var t, n := AttachedTo(s, agent, to), One(h == to);
            t.Rx(h) == s.Rx(h) + n && t.Receivers(h) == s.Receivers(h) + Added(agent, n)
  {
  }

  lemma AttachedOnce(s: State, agent: nat, tc: Toolchain, h: string)
    ensures var t, n := Attached(s, agent, tc), One(h == HashBytes(tc));
            t.Rx(h) == s.Rx(h) + n && t.Receivers(h) == s.Receivers(h) + Added(agent, n)
  {
    AttachedDelta(Looked(s, tc), agent, HashBytes(tc), h);
  }

  /** The agent ends up attached to exactly the routes of the toolchains it offers, once for each
      toolchain, and no other attachment changes. */
  lemma {:induction false} AttachedAllExactly(s: State, agent: nat, toolchains: seq<Toolchain>, h: string)
    ensures var t, n := AttachedAll(s, agent, toolchains), Attachments(toolchains, h);
            t.Rx(h) == s.Rx(h) + n && t.Receivers(h) == s.Receivers(h) + Added(agent, n)
  {
    if toolchains != [] {
      var front, tc := toolchains[..|toolchains| - 1], toolchains[|toolchains| - 1];
      AttachedAllExactly(s, agent, front, h);
      AttachedOnce(AttachedAll(s, agent, front), agent, tc, h);
    }
  }

  lemma AttachKeeps(s: State, agent: nat, tc: Toolchain)
    requires Valid(s)
    ensures Valid(Attached(s, agent, tc))
  {
    LookKeeps(s, tc);
    ListKeeps(Looked(s, tc), agent, HashBytes(tc));
    CountKeeps(ListedAt(Looked(s, tc), agent, HashBytes(tc)), |s.attachments|);
  }

  lemma {:induction false} AttachedAllKeeps(s: State, agent: nat, toolchains: seq<Toolchain>)
    requires Valid(s)
    ensures Valid(AttachedAll(s, agent, toolchains))
  {
    if toolchains != [] {
      var front := toolchains[..|toolchains| - 1];
      AttachedAllKeeps(s, agent, front);
      AttachKeeps(AttachedAll(s, agent, front), agent, toolchains[|toolchains| - 1]);
    }
  }

  datatype Outcome = InvalidToolchain | NoAgents | Sent(hash: string)

  class Router {
    var routes: map<string, Route>
    var attachments: seq<Attachment>

    function View(): State
      reads this
    {
      State(routes, attachments)
    }

    constructor ()
      ensures View() == Run([])
    {
      routes, attachments := map[], [];
    }

    method RouteForToolchain(tc: Toolchain) returns (hash: string)
      modifies this`routes
      ensures View() == Looked(old(View()), tc) && hash == HashBytes(tc) && hash in routes
    {
      hash := HashBytes(tc);
      if hash !in routes { routes := routes[hash := Route(tc, 0, {})]; }
    }

    method AttachReceiver(agent: nat, tc: Toolchain)
      modifies this
      ensures View() == Attached(old(View()), agent, tc)
    {
      var hash := RouteForToolchain(tc);
      ListReceiver(agent, hash);
      CountReceiver(|attachments| - 1);
    }

    method ListReceiver(agent: nat, hash: string)
      requires hash in routes
      modifies this
      ensures View() == ListedAt(old(View()), agent, hash)
    {
      routes := routes[hash := routes[hash].(receivers := routes[hash].receivers + {agent})];
      attachments := attachments + [Attachment(agent, hash, Listed)];
    }

    /** incRxRefCount and the start of the goroutine. */
    method CountReceiver(i: nat)
      requires At(View(), i, Listed)
      modifies this
      ensures View() == CountedIn(old(View()), i)
    {
      var h := attachments[i].hash;
      routes := routes[h := routes[h].(rx := routes[h].rx + 1)];
      attachments := attachments[i := attachments[i].(stage := Counted)];
    }

    method AddReceiver(agent: nat, toolchains: seq<Toolchain>)
      requires Valid(View())
      modifies this
      ensures View() == AttachedAll(old(View()), agent, toolchains) && Valid(View())
    {
      ghost var before := View();
      var i := 0;
      while i < |toolchains|
        invariant i <= |toolchains|
        invariant View() == AttachedAll(before, agent, toolchains[..i])
      {
        AttachedAllNext(before, agent, toolchains, i);
        AttachReceiver(agent, toolchains[i]);
        i := i + 1;
      }
      assert toolchains[..i] == toolchains;
      AttachedAllKeeps(before, agent, toolchains);
    }

    /** decRxRefCount, the first deferred call of the goroutine of attachment i. */
    method UncountReceiver(i: nat)
      requires Valid(View()) && At(View(), i, Counted)
      modifies this
      ensures View() == Next(old(View()), Uncount(i)) && Valid(View())
    {
      UncountPossible(View(), i);
      UncountKeeps(View(), i);
      var h := attachments[i].hash;
      routes := routes[h := routes[h].(rx := routes[h].rx - 1)];
      attachments := attachments[i := attachments[i].(stage := Uncounted)];
    }

    /** The second deferred call. */
    method UnlistReceiver(i: nat)
      requires Valid(View()) && At(View(), i, Uncounted)
      modifies this
      ensures View() == Next(old(View()), Unlist(i)) && Valid(View())
    {
      UnlistKeeps(View(), i);
      var a := attachments[i];
      routes := routes[a.hash := routes[a.hash].(receivers := routes[a.hash].receivers - {a.agent})];
      attachments := attachments[..i] + attachments[i + 1..];
    }

    /** Route, when no hook intervenes: the request is offered on the route of its toolchain, if an
        attachment to it is running. */
    method RouteRequest(tc: Option<Toolchain>) returns (r: Outcome)
      requires Valid(View())
      modifies this`routes
      ensures View() == (if tc.None? then old(View()) else Looked(old(View()), tc.value)) && Valid(View())
      ensures r.InvalidToolchain? <==> tc.None?
      ensures r.NoAgents? <==> tc.Some? && !View().Attached(HashBytes(tc.value))
      ensures r.Sent? ==> r.hash == HashBytes(tc.value)
    {
      if tc.None? { return InvalidToolchain; }
      LookKeeps(View(), tc.value);
      CountIsMembership(attachments, HashBytes(tc.value));
      var hash := RouteForToolchain(tc.value);
      assert View().Rx(hash) == CountOf(attachments, hash);
      if routes[hash].rx == 0 { return NoAgents; }
      return Sent(hash);
    }
  }
}
