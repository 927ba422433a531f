/** What the monitor stores and announces, read off the operations alone: who is connected, the value
    of every metric, and the values its listeners are sent. */
module MonitorMetrics {
  import opened Common
  import opened Monitor

  function Lookup<K, V>(m: map<K, V>, k: K): Option<V> { if k in m then Some(m[k]) else None }

  /** The stored value of a metric. */
  function Metric(m: Server, id: string, name: string): Option<Value> {
    if id in m.buckets then Lookup(m.buckets[id], name) else None
  }

  // -------------------------------------------------------------- one operation

  /** post, by what can be looked up afterwards: the one metric has its new value, or none; all others
      and the table keep theirs; and listeners are sent the value exactly when it was another before. */
  lemma PostedExactly(m: Server, bucket: string, name: string, v: Option<Value>, b: string, n: string)
    ensures Posted(m, bucket, name, v).Some? <==> bucket in m.buckets
    ensures bucket in m.buckets ==>
              var m' := Posted(m, bucket, name, v).value;
              && m'.buckets.Keys == m.buckets.Keys && m'.providers == m.providers
              && Metric(m', b, n) == (if (b, n) == (bucket, name) then v else Metric(m, b, n))
              && m'.notices == m.notices + (if v.Some? && Metric(m, bucket, name) != v
                                            then [Notice(bucket, name, v.value)] else [])
  {
  }

  lemma AnnouncedElsewhere(m: Server, b: string, n: string)
    requires META in m.buckets && b != META
    ensures Announced(m).buckets.Keys == m.buckets.Keys && Announced(m).providers == m.providers
    ensures Metric(Announced(m), b, n) == Metric(m, b, n)
    ensures SentOf(Announced(m).notices, b, n) == SentOf(m.notices, b, n)
  {
    PostedExactly(m, META, PROVIDERS, Some(Providers(m.providers)), b, n);
    SentNext(m.notices, Notice(META, PROVIDERS, Providers(m.providers)), b, n);
  }

  /** The values that the listeners of a metric are sent. */
  function SentOf(notices: seq<Notice>, b: string, n: string): seq<Value> {
    if notices == [] then [] else
    var last := notices[|notices| - 1];
    SentOf(notices[..|notices| - 1], b, n) + if last.bucket == b && last.name == n then [last.value] else []
  }

  lemma SentNext(notices: seq<Notice>, last: Notice, b: string, n: string)
    ensures SentOf(notices + [last], b, n)
         == SentOf(notices, b, n) + if last.bucket == b && last.name == n then [last.value] else []
  {
    assert (notices + [last])[..|notices|] == notices;
  }

  // ------------------------------------------------------- read off the operations

  /** The provider is connected: who it said it was when it last got in. */
  function InfoAfter(uuid: string, info: Info, ops: seq<Op>, id: string): Option<Info> {
    if ops == [] then (if id == uuid then Some(info) else None) else
    var before := InfoAfter(uuid, info, ops[..|ops| - 1], id);
    match ops[|ops| - 1]
    case Connect(c, i) => if c == id && id != META && before.None? then Some(i) else before
    case Disconnect(d) => if d == id && id != uuid then None else before
    case Post(_, _, _) => before
  }

  /** The metric's value: the last one posted since its provider connected, unless it was deleted. */
  function ValueAfter(uuid: string, info: Info, ops: seq<Op>, id: string, name: string): Option<Value> {
    if ops == [] then None else
    var front := ops[..|ops| - 1];
    var before, up := ValueAfter(uuid, info, front, id, name), InfoAfter(uuid, info, front, id).Some?;
    match ops[|ops| - 1]
    case Connect(_, _) => before
    case Disconnect(d) => if d == id && id != uuid then None else before
    case Post(p, n, v) => if p == id && n == name && up then v else before
  }

  /** The values posted that were not the metric's value already. */
  function ChangesAfter(uuid: string, info: Info, ops: seq<Op>, id: string, name: string): seq<Value> {
    if ops == [] then [] else
    var front, op := ops[..|ops| - 1], ops[|ops| - 1];
    ChangesAfter(uuid, info, front, id, name)
    + if && op.Post? && op.id == id && op.name == name && op.v.Some? && InfoAfter(uuid, info, front, id).Some?
         && ValueAfter(uuid, info, front, id, name) != op.v
      then [op.v.value] else []
  }

  // ------------------------------------------------------------------ main results

  lemma StartedMetrics(uuid: string, info: Info, b: string, n: string)
    requires uuid != META && b != META
    ensures var m := Started(uuid, info);
            && m.providers == map[uuid := info] && Metric(m, b, n) == None && SentOf(m.notices, b, n) == []
  {
    AnnouncedElsewhere(Server(map[uuid := map[]][META := map[]], map[uuid := info], []), b, n);
  }

  ghost predicate Reflects(uuid: string, info: Info, ops: seq<Op>, m: Server, id: string, name: string) {
    && Lookup(m.providers, id) == InfoAfter(uuid, info, ops, id)
    && Metric(m, id, name) == ValueAfter(uuid, info, ops, id, name)
    && SentOf(m.notices, id, name) == ChangesAfter(uuid, info, ops, id, name)
  }

  lemma ConnectedMetrics(m: Server, c: string, i: Info, b: string, n: string)
    requires RunOk(m) && b != META && c !in m.buckets
    ensures var m' := Connected(m, c, i).value;
            && m'.providers == m.providers[c := i] && Metric(m', b, n) == (if b == c then None else Metric(m, b, n))
            && SentOf(m'.notices, b, n) == SentOf(m.notices, b, n)
  {
    AnnouncedElsewhere(m.(buckets := m.buckets[c := map[]], providers := m.providers[c := i]), b, n);
  }

  lemma DisconnectedMetrics(m: Server, d: string, b: string, n: string)
    requires RunOk(m) && b != META && d != META
    ensures var m' := Disconnected(m, d);
            && m'.providers == m.providers - {d} && Metric(m', b, n) == (if b == d then None else Metric(m, b, n))
            && SentOf(m'.notices, b, n) == SentOf(m.notices, b, n)
  {
    AnnouncedElsewhere(m.(buckets := m.buckets - {d}, providers := m.providers - {d}), b, n);
  }

  lemma PostedMetrics(m: Server, p: string, name: string, v: Option<Value>, b: string, n: string)
    requires RunOk(m) && p in m.providers
    ensures var m' := Posted(m, p, name, v).value;
            && Posted(m, p, name, v).Some? && m'.providers == m.providers
            && Metric(m', b, n) == (if (b, n) == (p, name) then v else Metric(m, b, n))
            && SentOf(m'.notices, b, n) == SentOf(m.notices, b, n)
                 + if (b, n) == (p, name) && v.Some? && Metric(m, b, n) != v then [v.value] else []
  {
    assert p in m.buckets.Keys;
    PostedExactly(m, p, name, v, b, n);
    if v.Some? { SentNext(m.notices, Notice(p, name, v.value), b, n); }
  }

  lemma NextReflects(uuid: string, info: Info, ops: seq<Op>, m: Server, id: string, name: string)
    requires uuid != META && id != META && ops != [] && RunOk(m)
    requires Reflects(uuid, info, ops[..|ops| - 1], m, id, name)
    ensures Reflects(uuid, info, ops, Next(uuid, m, ops[|ops| - 1]), id, name)
  {
    assert m.buckets.Keys == m.providers.Keys + {META};
    match ops[|ops| - 1]
    case Connect(c, i) => if c !in m.buckets { ConnectedMetrics(m, c, i, id, name); }
    case Disconnect(d) => if d in m.providers && d != uuid { DisconnectedMetrics(m, d, id, name); }
    case Post(p, n, v) => if p in m.providers { PostedMetrics(m, p, n, v, id, name); }
  }

  /** After any run the providers listed, the value of every metric outside the monitor's own bucket,
      and the values its listeners were sent are those the operations ask for. */
  lemma {:induction false} RunReflects(uuid: string, info: Info, ops: seq<Op>, id: string, name: string)
    requires uuid != META && id != META
    ensures Reflects(uuid, info, ops, Run(uuid, info, ops), id, name)
  {
    if ops == [] {
      StartedMetrics(uuid, info, id, name);
    } else {
      var front := ops[..|ops| - 1];
      RunReflects(uuid, info, front, id, name);
      NextReflects(uuid, info, ops, Run(uuid, info, front), id, name);
    }
  }
}
