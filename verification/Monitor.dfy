/** The monitor's provider table (pkg/monitor/server.go, store.go) and a client that follows it
    (pkg/clients/monitor.go). Each write-locked section of the server is one step. */
module Monitor {
  import opened Common

  datatype Info = Info(component: string, address: string)

  type Table = map<string, Info>

  datatype Value = Providers(items: Table) | Other(data: string)

  type Store = map<string, Value>

  const META: string := "meta"
  const PROVIDERS: string := "type.googleapis.com/Providers"

  /** A value sent to the listeners of a key. */
  datatype Notice = Notice(bucket: string, name: string, value: Value)

  datatype Server = Server(buckets: map<string, Store>, providers: Table, notices: seq<Notice>)

  /** CAS: the value is stored, and reported as a change, only if it differs. */
  predicate Changes(store: Store, name: string, v: Value) { name !in store || store[name] != v }

  /** post: None where it returns an error. A missing value deletes the key. */
  function Posted(m: Server, bucket: string, name: string, v: Option<Value>): Option<Server> {
    if bucket !in m.buckets then None else
    var store := m.buckets[bucket];
    if v.None? then Some(m.(buckets := m.buckets[bucket := store - {name}]))
    else if Changes(store, name, v.value) then
      Some(m.(buckets := m.buckets[bucket := store[name := v.value]],
              notices := m.notices + [Notice(bucket, name, v.value)]))
    else Some(m)
  }

  /** providersUpdated. */
  function Announced(m: Server): Server
    requires META in m.buckets
  {
    Posted(m, META, PROVIDERS, Some(Providers(m.providers))).value
  }

  function Started(uuid: string, info: Info): Server {
    Announced(Server(map[uuid := map[]][META := map[]], map[uuid := info], []))
  }

  /** Stream, up to the first message: None where the identity is in use. */
  function Connected(m: Server, id: string, info: Info): Option<Server>
    requires META in m.buckets
  {
    if id in m.buckets then None
    else Some(Announced(m.(buckets := m.buckets[id := map[]], providers := m.providers[id := info])))
  }

  /** Stream, after the last message. */
  function Disconnected(m: Server, id: string): Server
    requires META in m.buckets && id != META
  {
    Announced(m.(buckets := m.buckets - {id}, providers := m.providers - {id}))
  }

  // ------------------------------------------------------------- agreement

  ghost predicate TableStored(m: Server) {
    META in m.buckets && PROVIDERS in m.buckets[META] && m.buckets[META][PROVIDERS] == Providers(m.providers)
  }

  /** Bucket names, provider table and stored Providers value agree. */
  ghost predicate Agrees(m: Server) {
    m.buckets.Keys == m.providers.Keys + {META} && TableStored(m)
  }

  lemma AnnounceStores(m: Server)
    requires META in m.buckets && m.buckets.Keys == m.providers.Keys + {META}
    ensures Agrees(Announced(m)) && Announced(m).providers == m.providers
  {
  }

  lemma StartAgrees(uuid: string, info: Info)
    ensures Agrees(Started(uuid, info))
  {
    var m := Server(map[uuid := map[]][META := map[]], map[uuid := info], []);
    assert m.buckets.Keys == m.providers.Keys + {META};
    AnnounceStores(m);
  }

  lemma ConnectAgrees(m: Server, id: string, info: Info)
    requires Agrees(m)
    ensures Connected(m, id, info).None? <==> id in m.providers || id == META
    ensures Connected(m, id, info).Some? ==> Agrees(Connected(m, id, info).value)
    ensures Connected(m, id, info).Some? ==> Connected(m, id, info).value.providers == m.providers[id := info]
  {
    if id !in m.buckets {
      var added := m.(buckets := m.buckets[id := map[]], providers := m.providers[id := info]);
      assert added.buckets.Keys == added.providers.Keys + {META};
      AnnounceStores(added);
    }
  }

  lemma DisconnectAgrees(m: Server, id: string)
    requires Agrees(m) && id != META
    ensures Agrees(Disconnected(m, id)) && Disconnected(m, id).providers == m.providers - {id}
  {
    var removed := m.(buckets := m.buckets - {id}, providers := m.providers - {id});
    assert removed.buckets.Keys == removed.providers.Keys + {META};
    AnnounceStores(removed);
  }

  /** The post would replace or delete the stored provider table. */
  predicate Overwrites(m: Server, bucket: string, name: string, v: Option<Value>) {
    bucket == META && name == PROVIDERS && v != Some(Providers(m.providers))
  }

  /** A post keeps the agreement exactly when it does not overwrite the stored table. */
  lemma PostAgreesExactly(m: Server, bucket: string, name: string, v: Option<Value>)
    requires Agrees(m) && Posted(m, bucket, name, v).Some?
    ensures Agrees(Posted(m, bucket, name, v).value) <==> !Overwrites(m, bucket, name, v)
    ensures Posted(m, bucket, name, v).value.providers == m.providers
  {
    var m' := Posted(m, bucket, name, v).value;
    assert m'.buckets.Keys == m.buckets.Keys;
  }

  /** Deleting the stored table does break it. */
  lemma DeletedTableDisagrees(m: Server)
    requires Agrees(m)
    ensures Posted(m, META, PROVIDERS, None).Some? && !Agrees(Posted(m, META, PROVIDERS, None).value)
  {
    PostAgreesExactly(m, META, PROVIDERS, None);
  }

  // ------------------------------------------------------------------ runs

  /** Providers post under their own UUID. */
  datatype Op =
    | Connect(id: string, info: Info)
    | Disconnect(id: string)
    | Post(id: string, name: string, v: Option<Value>)

  /** The server after an operation; refused operations change nothing. */
  function Next(uuid: string, m: Server, op: Op): Server
    requires META in m.buckets && uuid != META
  {
    match op
    case Connect(id, info) => var n := Connected(m, id, info); if n.Some? then n.value else m
    case Disconnect(id) => if id in m.providers && id != uuid && id != META then Disconnected(m, id) else m
    case Post(id, name, v) =>
      if id !in m.providers then m
      else var n := Posted(m, id, name, v); if n.Some? then n.value else m
  }

  ghost predicate RunOk(m: Server) {
    && Agrees(m) && META !in m.providers
    && LastIs(TablesSeen(m.notices), m.providers) && NoRepeats(TablesSeen(m.notices))
  }

  function Run(uuid: string, info: Info, ops: seq<Op>): (m: Server)
    requires uuid != META
    ensures RunOk(m)
  {
    if ops == [] then StartAgrees(uuid, info); StartSeen(uuid, info); Started(uuid, info) else
    var m := Run(uuid, info, ops[..|ops| - 1]);
    NextOk(uuid, m, ops[|ops| - 1]);
    Next(uuid, m, ops[|ops| - 1])
  }

  predicate IsTable(n: Notice) { n.bucket == META && n.name == PROVIDERS && n.value.Providers? }

  /** The provider tables that listeners of the Providers key are sent. */
  function TablesSeen(notices: seq<Notice>): seq<Table> {
    if notices == [] then []
    else
      var n := notices[|notices| - 1];
      TablesSeen(notices[..|notices| - 1]) + if IsTable(n) then [n.value.items] else []
  }

  ghost predicate LastIs(tables: seq<Table>, table: Table) { tables != [] && tables[|tables| - 1] == table }

  ghost predicate NoRepeats(tables: seq<Table>) {
    forall i | 0 <= i < |tables| - 1 :: tables[i] != tables[i + 1]
  }

  lemma SeenNext(notices: seq<Notice>, n: Notice)
    ensures TablesSeen(notices + [n]) == TablesSeen(notices) + if IsTable(n) then [n.value.items] else []
  {
    assert (notices + [n])[..|notices|] == notices;
  }

  lemma FirstSeen(n: Notice)
    requires IsTable(n)
    ensures TablesSeen([n]) == [n.value.items]
  {
    SeenNext([], n);
    assert [] + [n] == [n];
  }

  lemma StartSeen(uuid: string, info: Info)
    ensures LastIs(TablesSeen(Started(uuid, info).notices), Started(uuid, info).providers)
    ensures NoRepeats(TablesSeen(Started(uuid, info).notices))
  {
    FirstSeen(Notice(META, PROVIDERS, Providers(map[uuid := info])));
  }

  /** Listeners are sent the table when it differs from the stored one, and end up with it. */
  lemma AnnounceSeen(m: Server, before: Table)
    requires META in m.buckets && PROVIDERS in m.buckets[META] && m.buckets[META][PROVIDERS] == Providers(before)
    requires LastIs(TablesSeen(m.notices), before) && NoRepeats(TablesSeen(m.notices))
    ensures LastIs(TablesSeen(Announced(m).notices), m.providers) && NoRepeats(TablesSeen(Announced(m).notices))
  {
    SeenNext(m.notices, Notice(META, PROVIDERS, Providers(m.providers)));
  }

  lemma NextOk(uuid: string, m: Server, op: Op)
    requires uuid != META && RunOk(m)
    ensures RunOk(Next(uuid, m, op))
  {
    match op
    case Connect(id, info) =>
      ConnectAgrees(m, id, info);
      if id !in m.buckets {
        AnnounceSeen(m.(buckets := m.buckets[id := map[]], providers := m.providers[id := info]), m.providers);
      }
    case Disconnect(id) =>
      if id in m.providers && id != uuid {
        DisconnectAgrees(m, id);
        AnnounceSeen(m.(buckets := m.buckets - {id}, providers := m.providers - {id}), m.providers);
      }
    case Post(id, name, v) =>
      if id in m.providers && Posted(m, id, name, v).Some? {
        PostAgreesExactly(m, id, name, v);
        if v.Some? { SeenNext(m.notices, Notice(id, name, v.value)); }
      }
  }

  // -------------------------------------------------------------- the client

  /** OnProviderAdded: the providers with a live handler, and all starts and cancels so far. */
  datatype Watch = Watch(live: set<string>, starts: multiset<string>, cancels: multiset<string>)

  function Updated(w: Watch, ids: set<string>): Watch {
    var removed, added := w.live - ids, ids - w.live;
    Watch(w.live - removed + added, w.starts + multiset(added), w.cancels + multiset(removed))
  }

  /** The client after a sequence of updates; an expired stream counts as an empty one. */
  function Followed(updates: seq<set<string>>): Watch {
    if updates == [] then Watch({}, multiset{}, multiset{})
    else Updated(Followed(updates[..|updates| - 1]), updates[|updates| - 1])
  }

  predicate InLast(updates: seq<set<string>>, id: string) { updates != [] && id in updates[|updates| - 1] }

  /** How often id turns up in an update after not being in the one before. */
  function Appearances(updates: seq<set<string>>, id: string): nat {
    if updates == [] then 0 else
    var front := updates[..|updates| - 1];
    Appearances(front, id) + One(id in updates[|updates| - 1] && !InLast(front, id))
  }

  /** How often id is missing from an update after being in the one before. */
  function Removals(updates: seq<set<string>>, id: string): nat {
    if updates == [] then 0 else
    var front := updates[..|updates| - 1];
    Removals(front, id) + One(id !in updates[|updates| - 1] && InLast(front, id))
  }

  lemma {:induction false} LiveIsLast(updates: seq<set<string>>)
    ensures Followed(updates).live == if updates == [] then {} else updates[|updates| - 1]
  {
    if updates != [] { LiveIsLast(updates[..|updates| - 1]); }
  }

  /** One start per appearance, one cancel per removal, and exactly the providers of the last
      update are live: each has been started once more than cancelled. */
  lemma {:induction false} StartsAndCancels(updates: seq<set<string>>, id: string)
    ensures var w := Followed(updates);
            && w.starts[id] == Appearances(updates, id) && w.cancels[id] == Removals(updates, id)
            && (id in w.live <==> InLast(updates, id)) && w.starts[id] == w.cancels[id] + One(id in w.live)
  {
    if updates != [] {
      StartsAndCancels(updates[..|updates| - 1], id);
    }
  }

  function Ids(tables: seq<Table>): seq<set<string>> {
    seq(|tables|, i requires 0 <= i < |tables| => tables[i].Keys)
  }

  lemma FollowsTables(tables: seq<Table>, table: Table)
    requires LastIs(tables, table)
    ensures Followed(Ids(tables)).live == table.Keys
  {
    LiveIsLast(Ids(tables));
  }

  lemma BucketNames(m: Server)
    requires Agrees(m) && META !in m.providers
    ensures m.providers.Keys == m.buckets.Keys - {META}
  {
  }

  /** A client that has followed all tables sent has live handlers for exactly the providers that
      are connected, the monitor itself among them. */
  lemma ClientFollowsServer(uuid: string, info: Info, ops: seq<Op>)
    requires uuid != META
    ensures var m := Run(uuid, info, ops);
            && m.providers.Keys == m.buckets.Keys - {META} && m.buckets[META][PROVIDERS] == Providers(m.providers)
            && NoRepeats(TablesSeen(m.notices)) && Followed(Ids(TablesSeen(m.notices))).live == m.providers.Keys
  {
    var m := Run(uuid, info, ops);
    FollowsTables(TablesSeen(m.notices), m.providers);
    BucketNames(m);
  }

  // ------------------------------------------------------------- the classes

  class MonitorServer {
    const uuid: string
    var buckets: map<string, Store>
    var providers: Table
    var notices: seq<Notice>

    function View(): Server
      reads this
    {
      Server(buckets, providers, notices)
    }

    constructor (uuid: string, info: Info)
      ensures this.uuid == uuid && View() == Started(uuid, info) && Agrees(View())
    {
      this.uuid := uuid;
      buckets := map[uuid := map[]];
      providers := map[uuid := info];
      notices := [];
      new;
      buckets := buckets[META := map[]];
      StartAgrees(uuid, info);
      ProvidersUpdated();
    }

    method ProvidersUpdated()
      requires META in buckets
      modifies this
      ensures View() == Announced(old(View()))
    {
      var ok := PostMetric(META, PROVIDERS, Some(Providers(providers)));
    }

    method PostMetric(bucket: string, name: string, v: Option<Value>) returns (ok: bool)
      modifies this
      ensures ok == Posted(old(View()), bucket, name, v).Some?
      ensures View() == if ok then Posted(old(View()), bucket, name, v).value else old(View())
    {
      if bucket !in buckets { return false; }
      var store := buckets[bucket];
      if v.None? {
        buckets := buckets[bucket := store - {name}];
        return true;
      }
      if name !in store || store[name] != v.value {
        buckets := buckets[bucket := store[name := v.value]];
        notices := notices + [Notice(bucket, name, v.value)];
      }
      return true;
    }

    method Attach(id: string, info: Info) returns (ok: bool)
      requires Agrees(View())
      modifies this
      ensures Agrees(View()) && ok == (id !in old(providers) && id != META)
      ensures ok ==> Connected(old(View()), id, info) == Some(View()) && providers == old(providers)[id := info]
      ensures !ok ==> View() == old(View())
    {
      ConnectAgrees(View(), id, info);
      if id in buckets { return false; }
      buckets := buckets[id := map[]];
      providers := providers[id := info];
      ProvidersUpdated();
      return true;
    }

    method Detach(id: string)
      requires Agrees(View()) && id in providers && id != META
      modifies this
      ensures Agrees(View()) && View() == Disconnected(old(View()), id) && providers == old(providers) - {id}
    {
      DisconnectAgrees(View(), id);
      buckets := buckets - {id};
      providers := providers - {id};
      ProvidersUpdated();
    }
  }

  class ProviderWatch {
    var live: set<string>
    var starts: multiset<string>
    var cancels: multiset<string>

    function View(): Watch
      reads this
    {
      Watch(live, starts, cancels)
    }

    constructor ()
      ensures View() == Followed([])
    {
      live, starts, cancels := {}, multiset{}, multiset{};
    }

    method CancelAll(removed: set<string>)
      modifies this
      ensures View() == old(View()).(live := old(live) - removed, cancels := old(cancels) + multiset(removed))
    {
      var done: set<string> := {};
      while removed - done != {}
        invariant done <= removed && starts == old(starts)
        invariant live == old(live) - done && cancels == old(cancels) + multiset(done)
        decreases removed - done
      {
        var id :| id in removed - done;
        live := live - {id};
        cancels := cancels + multiset{id};
        OneMore(done, id);
        done := done + {id};
      }
      assert done == removed;
    }

    method StartAll(added: set<string>)
      modifies this
      ensures View() == old(View()).(live := old(live) + added, starts := old(starts) + multiset(added))
    {
      var done: set<string> := {};
      while added - done != {}
        invariant done <= added && cancels == old(cancels)
        invariant live == old(live) + done && starts == old(starts) + multiset(done)
        decreases added - done
      {
        var id :| id in added - done;
        live := live + {id};
        starts := starts + multiset{id};
        OneMore(done, id);
        done := done + {id};
      }
      assert done == added;
    }

    /** doUpdate: cancels each provider that is gone, starts a handler for each new one. */
    method DoUpdate(ids: set<string>)
      modifies this
      ensures View() == Updated(old(View()), ids)
    {
      var removed, added := live - ids, ids - live;
      CancelAll(removed);
      StartAll(added);
    }
  }

  lemma OneMore(s: set<string>, id: string)
    requires id !in s
    ensures multiset(s + {id}) == multiset(s) + multiset{id}
  {
  }
}
