/** Gateway handles over every run of the message loop: at most one per announced
    URL, none for our own, and an exact account of the URLs that stay blocked for ever. */
module Gateways {
  import opened Common
  import opened Registry
  import opened MessageLoop

  function HeldUrls(m: map<string, Record>): set<string> {
    set id | id in m && m[id].gatewayUrl.Some? :: m[id].gatewayUrl.value
  }

  function HeldHandles(m: map<string, Record>): set<Handle> {
    set id | id in m && m[id].shutdownTx.Some? :: m[id].shutdownTx.value
  }

  /** The record's URL and shutdown handle agree, and the URL is known and foreign. */
  predicate Consistent(r: Record, known: set<string>, own: Option<string>, spawned: nat) {
    match r.gatewayUrl
    case None => r.shutdownTx.None?
    case Some(u) =>
      u in known && Some(u) != own && r.shutdownTx.Some? && r.shutdownTx.value.url == u
      && r.shutdownTx.value.id < spawned
  }

  /** Every record is consistent and no two hold the same gateway. */
  ghost predicate Sound(m: map<string, Record>, known: set<string>, own: Option<string>, spawned: nat) {
    && (forall id :: id in m ==> Consistent(m[id], known, own, spawned))
    && (forall a, b :: a in m && b in m && a != b && m[a].gatewayUrl.Some? ==> m[a].gatewayUrl != m[b].gatewayUrl)
  }

  ghost predicate Inv(s: Loop) {
    && PendingApart(s)
    && Sound(Holders(s), s.reg.known, s.own, s.spawned)
    && s.open == HeldHandles(Holders(s))
    && OwnUrls(s.own) <= s.reg.known
  }

  /** Known URLs, other than our own, that no live record holds. */
  function Orphans(s: Loop): set<string> {
    s.reg.known - OwnUrls(s.own) - HeldUrls(Holders(s))
  }

  /** The URL that loses its last holder in this step, if any: that of a message
      whose new gateway cannot be tied to a registered beacon, the one a message
      displaces from its beacon, or that of a beacon whose sweep is cut short. */
  ghost function Orphaned(s: Loop, e: Event): set<string> {
    if !Enabled(s, e) then {} else
    match e
    case Message(topic, Some(url), _) =>
      if url in s.reg.known then {}
      else
        (match Sender(s, topic)
         case None => {url}
         case Some(id) => GatewayOf(s.reg.records[id]))
    case SweepCancel => GatewayOf(s.phase.current.value.record)
    case _ => {}
  }

  // ── One step ──────────────────────────────────────────────────────────────

  /** Putting back a record with the same gateway fields (or a fresh one) changes no holding. */
  lemma PutSameGateway(m: map<string, Record>, id: string, r: Record, known: set<string>, own: Option<string>, spawned: nat)
    requires Sound(m, known, own, spawned)
    requires if id in m then r.gatewayUrl == m[id].gatewayUrl && r.shutdownTx == m[id].shutdownTx
             else r.gatewayUrl.None? && r.shutdownTx.None?
    ensures HeldUrls(m[id := r]) == HeldUrls(m)
    ensures HeldHandles(m[id := r]) == HeldHandles(m)
    ensures Sound(m[id := r], known, own, spawned)
  {
    var n := m[id := r];
    forall u | u in HeldUrls(m) ensures u in HeldUrls(n) {
      var k :| k in m && m[k].gatewayUrl == Some(u);
      assert k in n && n[k].gatewayUrl == Some(u);
    }
    forall h | h in HeldHandles(m) ensures h in HeldHandles(n) {
      var k :| k in m && m[k].shutdownTx == Some(h);
      assert k in n && n[k].shutdownTx == Some(h);
    }
  }

  /** Taking a record away releases exactly its own URL and handle, so its URL
      may leave the known set too. */
  lemma DropHolder(m: map<string, Record>, id: string, known: set<string>, own: Option<string>, spawned: nat)
    requires id in m && Sound(m, known, own, spawned)
    ensures HeldUrls(m - {id}) == HeldUrls(m) - GatewayOf(m[id])
    ensures HeldHandles(m - {id}) == HeldHandles(m) - HandleOf(m[id])
    ensures GatewayOf(m[id]) <= HeldUrls(m) <= known - OwnUrls(own)
    ensures Sound(m - {id}, known, own, spawned)
    ensures Sound(m - {id}, known - GatewayOf(m[id]), own, spawned)
  {
    var n := m - {id};
    forall u | u in HeldUrls(m) && u !in GatewayOf(m[id]) ensures u in HeldUrls(n) {
      var k :| k in m && m[k].gatewayUrl == Some(u);
      assert k in n;
    }
    forall h | h in HeldHandles(m) && h !in HandleOf(m[id]) ensures h in HeldHandles(n) {
      var k :| k in m && m[k].shutdownTx == Some(h);
      assert k in n;
    }
  }

  lemma PutHolder(m: map<string, Record>, id: string, r: Record)
    requires id !in m
    ensures HeldUrls(m[id := r]) == HeldUrls(m) + GatewayOf(r)
    ensures HeldHandles(m[id := r]) == HeldHandles(m) + HandleOf(r)
  {
    var n := m[id := r];
    forall u | u in HeldUrls(m) ensures u in HeldUrls(n) {
      var k :| k in m && m[k].gatewayUrl == Some(u);
      assert k in n && n[k].gatewayUrl == Some(u);
    }
    forall h | h in HeldHandles(m) ensures h in HeldHandles(n) {
      var k :| k in m && m[k].shutdownTx == Some(h);
      assert k in n && n[k].shutdownTx == Some(h);
    }
    assert n[id] == r;
  }

  /** Replacing the gateway of one record by a URL nobody knew before. */
  lemma ReplaceGateway(m: map<string, Record>, id: string, url: string, tx: Handle,
                       known: set<string>, own: Option<string>, spawned: nat)
    requires id in m && Sound(m, known, own, spawned)
    requires url !in known && OwnUrls(own) <= known && tx == Handle(spawned, url)
    ensures
      var r := m[id].(gatewayUrl := Some(url), shutdownTx := Some(tx));
      && HeldUrls(m[id := r]) == HeldUrls(m) - GatewayOf(m[id]) + {url}
      && HeldHandles(m[id := r]) == HeldHandles(m) + {tx} - HandleOf(m[id])
      && Sound(m[id := r], known + {url}, own, spawned + 1)
  {
    var r := m[id].(gatewayUrl := Some(url), shutdownTx := Some(tx));
    DropHolder(m, id, known, own, spawned);
    PutHolder(m - {id}, id, r);
    assert (m - {id})[id := r] == m[id := r];
    assert tx !in HandleOf(m[id]);
  }

  lemma HeldAreKnown(m: map<string, Record>, known: set<string>, own: Option<string>, spawned: nat)
    requires Sound(m, known, own, spawned)
    ensures HeldUrls(m) <= known
  {
  }

  lemma KnowMore(m: map<string, Record>, url: string, known: set<string>, own: Option<string>, spawned: nat)
    requires Sound(m, known, own, spawned) && url !in known
    ensures Sound(m, known + {url}, own, spawned + 1)
    ensures HeldUrls(m) <= known
  {
  }

  /** The invariant still holds and the orphans are the old ones and `added`. */
  ghost predicate Kept(s: Loop, s': Loop, added: set<string>) {
    && Inv(s')
    && s'.own == s.own
    && Orphans(s') == Orphans(s) + added
    && added !! Orphans(s)
  }

  /** Nothing about gateways changes when holders and known URLs do not. */
  lemma SameGateways(s: Loop, s': Loop)
    requires Inv(s) && Inv(s') && s'.own == s.own && s'.reg.known == s.reg.known
    requires HeldUrls(Holders(s')) == HeldUrls(Holders(s))
    ensures Orphans(s') == Orphans(s) && Kept(s, s', {})
  {
  }

  /** One record is added or changed, but not in its gateway fields. */
  lemma RecordStep(s: Loop, s': Loop, id: string, r: Record)
    requires Inv(s) && s.phase.Idle?
    requires s'.reg.records == s.reg.records[id := r] && s'.reg.known == s.reg.known
    requires s'.own == s.own && s'.phase == s.phase && s'.open == s.open && s'.spawned == s.spawned
    requires if id in s.reg.records then
               r.gatewayUrl == s.reg.records[id].gatewayUrl && r.shutdownTx == s.reg.records[id].shutdownTx
             else r.gatewayUrl.None? && r.shutdownTx.None?
    ensures Orphans(s') == Orphans(s) && Kept(s, s', {})
  {
    PutSameGateway(s.reg.records, id, r, s.reg.known, s.own, s.spawned);
    assert Holders(s') == s'.reg.records && Holders(s) == s.reg.records;
    SameGateways(s, s');
  }

  lemma ChannelStep(s: Loop, ch: TopicChannel, now: nat, subscribed: bool)
    requires Inv(s) && s.phase.Idle?
    ensures Kept(s, s.(reg := Register(s.reg, ch, now, subscribed), clock := now), {})
  {
    var s' := s.(reg := Register(s.reg, ch, now, subscribed), clock := now);
    RegisterShape(s.reg, ch, now, subscribed);
    RecordStep(s, s', ch.beaconId, s'.reg.records[ch.beaconId]);
  }

  lemma TouchStep(s: Loop, topic: string, now: nat)
    requires Inv(s) && s.phase.Idle?
    ensures var s' := OnMessage(s, topic, None, now); Orphans(s') == Orphans(s) && Kept(s, s', {})
  {
    var s' := OnMessage(s, topic, None, now);
    var from := Sender(s, topic);
    if from.Some? {
      RecordStep(s, s', from.value, s.reg.records[from.value].(lastSeen := now));
    } else {
      SameGateways(s, s');
    }
  }

  /** The set arithmetic of a new URL that takes the place of `displaced`. */
  lemma DisplacedUrls(known: set<string>, own: set<string>, held: set<string>, displaced: set<string>, url: string)
    requires displaced <= held <= known - own && own <= known && url !in known
    ensures known + {url} - own - (held - displaced + {url}) == (known - own - held) + displaced
    ensures displaced !! known - own - held
  {
  }

  lemma NewUrl(known: set<string>, own: set<string>, held: set<string>, url: string)
    requires held <= known && own <= known && url !in known
    ensures known + {url} - own - held == (known - own - held) + {url}
    ensures {url} !! known - own - held
  {
  }

  lemma ReleasedUrls(known: set<string>, own: set<string>, held: set<string>, released: set<string>, gone: set<string>)
    requires released <= held <= known - own && (gone == {} || gone == released)
    ensures known - gone - own - (held - released) == (known - own - held) + (released - gone)
    ensures released - gone !! known - own - held
  {
  }

  lemma NoOrphans(known: set<string>, own: set<string>, held: set<string>)
    requires held <= known && own <= known
    ensures known == own + held <==> |known - own - held| == 0
  {
    assert known == own + held <==> known - own - held == {};
  }

  /** The state after a new gateway was associated with a registered beacon. */
  function Tied(s: Loop, id: string, url: string): Loop
    requires id in s.reg.records
  {
    var tx := Handle(s.spawned, url);
    s.(reg := Associate(s.reg.(known := s.reg.known + {url}), id, url, tx), spawned := s.spawned + 1,
       open := s.open + {tx} - HandleOf(s.reg.records[id]))
  }

  lemma TiedStep(s: Loop, id: string, url: string)
    requires Inv(s) && s.phase.Idle? && id in s.reg.records && url !in s.reg.known
    ensures Kept(s, Tied(s, id, url), GatewayOf(s.reg.records[id]))
  {
    var m, s' := s.reg.records, Tied(s, id, url);
    ReplaceGateway(m, id, url, Handle(s.spawned, url), s.reg.known, s.own, s.spawned);
    DropHolder(m, id, s.reg.known, s.own, s.spawned);
    assert Holders(s) == m && Holders(s') == s'.reg.records;
    DisplacedUrls(s.reg.known, OwnUrls(s.own), HeldUrls(m), GatewayOf(m[id]), url);
  }

  /** The state after a new gateway nobody keeps the handle of. */
  function Untied(s: Loop, url: string): Loop {
    s.(reg := s.reg.(known := s.reg.known + {url}), spawned := s.spawned + 1)
  }

  lemma UntiedStep(s: Loop, url: string)
    requires Inv(s) && s.phase.Idle? && url !in s.reg.known
    ensures Kept(s, Untied(s, url), {url})
  {
    var m, s' := s.reg.records, Untied(s, url);
    KnowMore(m, url, s.reg.known, s.own, s.spawned);
    assert Holders(s) == m && Holders(s') == m;
    NewUrl(s.reg.known, OwnUrls(s.own), HeldUrls(m), url);
  }

  /** A message with an unknown URL: first the touch, then the new gateway. */
  lemma NewGatewayShape(s: Loop, topic: string, url: string, now: nat)
    requires s.phase.Idle? && url !in s.reg.known
    ensures
      var s1, s' := OnMessage(s, topic, None, now), OnMessage(s, topic, Some(url), now);
      && s1.phase.Idle? && s1.reg.known == s.reg.known && s1.own == s.own
      && match Sender(s, topic)
         case None => s' == Untied(s1, url)
         case Some(id) =>
           && id in s1.reg.records
           && s1.reg.records[id].gatewayUrl == s.reg.records[id].gatewayUrl
           && s' == Tied(s1, id, url)
  {
  }

  lemma MessageStep(s: Loop, e: Event)
    requires Inv(s) && e.Message? && Enabled(s, e)
    ensures Kept(s, OnMessage(s, e.topic, e.gatewayUrl, e.now), Orphaned(s, e))
  {
    var s1 := OnMessage(s, e.topic, None, e.now);
    TouchStep(s, e.topic, e.now);
    if e.gatewayUrl.Some? && e.gatewayUrl.value !in s.reg.known {
      NewGatewayShape(s, e.topic, e.gatewayUrl.value, e.now);
      match Sender(s, e.topic)
      case None => UntiedStep(s1, e.gatewayUrl.value);
      case Some(id) => TiedStep(s1, id, e.gatewayUrl.value);
    } else {
      assert OnMessage(s, e.topic, e.gatewayUrl, e.now) == s1;
    }
  }

  /** A holder goes, with `gone` leaving the known URLs along with it. */
  lemma ReleaseStep(s: Loop, s': Loop, id: string, gone: set<string>)
    requires Inv(s) && id in Holders(s) && Holders(s') == Holders(s) - {id} && PendingApart(s')
    requires s'.reg.known == s.reg.known - gone && s'.open == s.open - HandleOf(Holders(s)[id])
    requires s'.own == s.own && s'.spawned == s.spawned
    requires gone == {} || gone == GatewayOf(Holders(s)[id])
    ensures Kept(s, s', GatewayOf(Holders(s)[id]) - gone)
  {
    var m := Holders(s);
    DropHolder(m, id, s.reg.known, s.own, s.spawned);
    assert gone == {} ==> s'.reg.known == s.reg.known;
    ReleasedUrls(s.reg.known, OwnUrls(s.own), HeldUrls(m), GatewayOf(m[id]), gone);
  }

  lemma Step(s: Loop, e: Event)
    requires Inv(s)
    ensures Kept(s, Next(s, e), Orphaned(s, e))
  {
    var s' := Next(s, e);
    if !Enabled(s, e) {
      SameGateways(s, s');
    } else {
      match e
      case Channel(ch, now, subscribed) => ChannelStep(s, ch, now, subscribed);
      case Message(_, _, _) => MessageStep(s, e);
      case SweepFinish =>
        var p := s.phase.current.value;
        ReleaseHolders(s, e);
        ReleaseStep(s, s', p.id, GatewayOf(p.record));
        assert GatewayOf(p.record) - GatewayOf(p.record) == {};
      case SweepCancel =>
        var p := s.phase.current.value;
        ReleaseHolders(s, e);
        assert s.reg.known - {} == s.reg.known;
        ReleaseStep(s, s', p.id, {});
        assert GatewayOf(p.record) - {} == GatewayOf(p.record);
      case _ =>
        assert Holders(s') == Holders(s);
        SameGateways(s, s');
    }
  }

  // ── Every run ─────────────────────────────────────────────────────────────

  /** How many steps of the run orphan a URL. */
  ghost function Orphanings(s: Loop, es: seq<Event>): nat
    decreases |es|
  {
    if es == [] then 0
    else (if Orphaned(s, es[0]) != {} then 1 else 0) + Orphanings(Next(s, es[0]), es[1..])
  }

  lemma OrphansGrow(s: Loop, e: Event)
    requires Inv(s)
    ensures Inv(Next(s, e)) && Next(s, e).own == s.own
    ensures Orphans(s) <= Orphans(Next(s, e))
    ensures |Orphans(Next(s, e))| == |Orphans(s)| + (if Orphaned(s, e) != {} then 1 else 0)
  {
    Step(s, e);
    AtMostOne(s, e);
    JoinSizes(Orphans(s), Orphaned(s, e));
  }

  lemma AtMostOne(s: Loop, e: Event)
    ensures |Orphaned(s, e)| == if Orphaned(s, e) != {} then 1 else 0
  {
    assert forall r: Record :: |GatewayOf(r)| == if r.gatewayUrl.Some? then 1 else 0;
  }

  lemma InitInv(own: Option<string>, start: nat)
    ensures Inv(Init(own, start))
    ensures Orphans(Init(own, start)) == {}
  {
  }

  /** Orphans are never resolved, and their number grows by exactly one per orphaning step. */
  lemma {:induction false} RunInv(s: Loop, es: seq<Event>)
    requires Inv(s)
    ensures Inv(Run(s, es)) && Run(s, es).own == s.own
    ensures Orphans(s) <= Orphans(Run(s, es))
    ensures |Orphans(Run(s, es))| == |Orphans(s)| + Orphanings(s, es)
    decreases |es|
  {
    if es == [] {
    } else {
      OrphansGrow(s, es[0]);
      RunInv(Next(s, es[0]), es[1..]);
    }
  }

  /** In every reachable state, also in the middle of a sweep and after any
      number of cancelled ones: every shutdown handle not yet dropped belongs to a
      known URL other than our own, no two to the same URL, no two records hold the
      same URL, and those handles are exactly the ones live records hold. */
  lemma OneHandlePerUrl(own: Option<string>, start: nat, es: seq<Event>)
    ensures
      var s := Run(Init(own, start), es);
      var m := Holders(s);
      && (forall h :: h in s.open ==> h.url in s.reg.known && own != Some(h.url))
      && (forall h, k :: h in s.open && k in s.open && h.url == k.url ==> h == k)
      && (forall h :: h in s.open <==> exists id :: id in m && m[id].shutdownTx == Some(h))
      && (forall id :: id in m && m[id].gatewayUrl.Some? ==> m[id].gatewayUrl.value in s.reg.known && m[id].gatewayUrl != own)
      && (forall a, b :: a in m && b in m && a != b && m[a].gatewayUrl.Some? ==> m[a].gatewayUrl != m[b].gatewayUrl)
      && (own.Some? ==> own.value in s.reg.known)
  {
    InitInv(own, start);
    RunInv(Init(own, start), es);
    var s := Run(Init(own, start), es);
    HandlesApart(Holders(s), s.reg.known, s.own, s.spawned);
  }

  lemma HandlesApart(m: map<string, Record>, known: set<string>, own: Option<string>, spawned: nat)
    requires Sound(m, known, own, spawned)
    ensures forall h :: h in HeldHandles(m) ==> h.url in known && own != Some(h.url)
    ensures forall h, k :: h in HeldHandles(m) && k in HeldHandles(m) && h.url == k.url ==> h == k
    ensures forall h :: h in HeldHandles(m) <==> exists id :: id in m && m[id].shutdownTx == Some(h)
  {
    forall h ensures h in HeldHandles(m) <==> exists id :: id in m && m[id].shutdownTx == Some(h) {
      HandleHolder(m, h);
    }
    forall h, k | h in HeldHandles(m) && k in HeldHandles(m) ensures h.url == k.url ==> h == k {
      var a :| a in m && m[a].shutdownTx == Some(h);
      var b :| b in m && m[b].shutdownTx == Some(k);
      assert m[a].gatewayUrl == Some(h.url) && m[b].gatewayUrl == Some(k.url);
    }
  }

  lemma HandleHolder(m: map<string, Record>, h: Handle)
    ensures h in HeldHandles(m) <==> exists id :: id in m && m[id].shutdownTx == Some(h)
  {
    if h in HeldHandles(m) {
      var id :| id in m && m[id].shutdownTx.Some? && m[id].shutdownTx.value == h;
      assert m[id].shutdownTx == Some(h);
    }
  }

  /** The number of gateways that no live beacon holds but that are refused as
      "already connected" is the number of orphaning steps taken; so every known
      gateway is our own or held, and will be evicted, iff there were none. */
  lemma OrphanCount(own: Option<string>, start: nat, es: seq<Event>)
    ensures
      var s := Run(Init(own, start), es);
      && |Orphans(s)| == Orphanings(Init(own, start), es)
      && (s.reg.known == OwnUrls(own) + HeldUrls(Holders(s)) <==> Orphanings(Init(own, start), es) == 0)
  {
    InitInv(own, start);
    RunInv(Init(own, start), es);
    var s := Run(Init(own, start), es);
    HeldAreKnown(Holders(s), s.reg.known, s.own, s.spawned);
    NoOrphans(s.reg.known, OwnUrls(own), HeldUrls(Holders(s)));
  }

  /** Once orphaned, a gateway is never connected to again: no later event spawns
      a task to it, and no handle of one is held. */
  lemma OrphanBlockedForEver(own: Option<string>, start: nat, before: seq<Event>, after: seq<Event>, url: string)
    requires url in Orphans(Run(Init(own, start), before))
    ensures
      var mid := Run(Init(own, start), before);
      var s := Run(mid, after);
      && NeverSpawns(mid, after, url)
      && url in Orphans(s)
      && forall h :: h in s.open ==> h.url != url
  {
    InitInv(own, start);
    RunInv(Init(own, start), before);
    var mid := Run(Init(own, start), before);
    RunInv(mid, after);
    OrphanNeverSpawned(mid, after, url);
    var s := Run(mid, after);
    forall h | h in s.open ensures h.url in HeldUrls(Holders(s)) {
      var id :| id in Holders(s) && Holders(s)[id].shutdownTx == Some(h);
    }
  }

  lemma {:induction false} OrphanNeverSpawned(s: Loop, es: seq<Event>, url: string)
    requires Inv(s) && url in Orphans(s)
    ensures NeverSpawns(s, es, url)
    decreases |es|
  {
    if es == [] {
    } else {
      OrphansGrow(s, es[0]);
      OrphanNeverSpawned(Next(s, es[0]), es[1..], url);
    }
  }

  /** The comment at registry.rs:159 promises that a timed-out beacon's gateway
      can be connected to again. It fails for every beacon and gateway whose sweep
      is cut short. */
  lemma SweptGatewayCanStayBlocked(id: string, url: string)
    ensures
      var s := Run(Init(None, 0), InterruptedRun(id, url));
      && Legal(Init(None, 0), InterruptedRun(id, url))
      && s.phase.Idle? && s.reg.records == map[] && s.open == {} && Orphans(s) == {url}
  {
    InterruptedEnd(id, url);
  }
}
