/** The registry and the message loop in the imperative form of the source,
    proved to do exactly what the state machine of `MessageLoop` does. */
module BeaconRegistry {
  import opened Common
  import opened Registry
  import opened MessageLoop
  import Gateways
  import History
  import Topics

  /** The `Arc<RwLock<Vec<String>>>` shared with the broadcast loop. */
  class TopicList {
    var items: seq<string>

    constructor ()
      ensures items == []
    {
      items := [];
    }
  }

  function UrlsOf(records: map<string, Record>, ids: set<string>): set<string> {
    set id | id in ids && id in records && records[id].gatewayUrl.Some? :: records[id].gatewayUrl.value
  }

  function TopicsOf(records: map<string, Record>, ids: set<string>): set<string> {
    set id | id in ids && id in records && records[id].broadcastTopic != "" :: records[id].broadcastTopic
  }

  /** `after` is `before` with exactly the beacons `ids`, their gateways and their topics gone. */
  ghost predicate Swept(before: Registry, ids: set<string>, after: Registry) {
    && after.records == before.records - ids
    && after.known == before.known - UrlsOf(before.records, ids)
    && Elements(after.topics) == Elements(before.topics) - TopicsOf(before.records, ids)
  }

  lemma SweptNone(before: Registry)
    ensures Swept(before, {}, before)
    ensures Swept(before, Elements([]), before)
  {
    assert Elements<string>([]) == {};
  }

  lemma OneMore(records: map<string, Record>, ids: set<string>, id: string)
    requires id in records
    ensures UrlsOf(records, ids + {id}) == UrlsOf(records, ids) + GatewayOf(records[id])
    ensures TopicsOf(records, ids + {id})
         == TopicsOf(records, ids) + (if records[id].broadcastTopic != "" then {records[id].broadcastTopic} else {})
  {
    assert id in ids + {id};
    forall u | u in UrlsOf(records, ids) ensures u in UrlsOf(records, ids + {id}) {
      var k :| k in ids && k in records && records[k].gatewayUrl == Some(u);
      assert k in ids + {id};
    }
    forall t | t in TopicsOf(records, ids) ensures t in TopicsOf(records, ids + {id}) {
      var k :| k in ids && k in records && records[k].broadcastTopic == t && t != "";
      assert k in ids + {id};
    }
  }

  lemma SweptOneMore(before: Registry, ids: set<string>, mid: Registry, id: string)
    requires Swept(before, ids, mid) && id in before.records && id !in ids
    ensures Swept(before, ids + {id}, Evict(mid, before.records[id]).(records := mid.records - {id}))
  {
    OneMore(before.records, ids, id);
    WithoutElements(mid.topics, before.records[id].broadcastTopic);
    assert before.records - ids - {id} == before.records - (ids + {id});
  }

  lemma NextOf(ids: seq<string>, i: nat)
    requires Distinct(ids) && i < |ids|
    ensures ids[i] in Elements(ids) && ids[i] !in Elements(ids[..i])
    ensures ids[i..][0] == ids[i] && ids[i..][1..] == ids[i + 1..]
    ensures Elements(ids[..i + 1]) == Elements(ids[..i]) + {ids[i]}
  {
    assert ids[..i + 1] == ids[..i] + [ids[i]];
  }

  lemma OneMoreEvent(s: Loop, es: seq<Event>, e: Event)
    requires Legal(s, es) && Enabled(Run(s, es), e)
    ensures Legal(s, es + [e]) && Run(s, es + [e]) == Next(Run(s, es), e)
  {
    RunAppend(s, es, e);
    LegalAppend(s, es, e);
  }

  lemma TwoMoreEvents(s: Loop, es: seq<Event>, e1: Event, e2: Event)
    requires Legal(s, es) && Enabled(Run(s, es), e1) && Enabled(Next(Run(s, es), e1), e2)
    ensures Legal(s, es + [e1] + [e2]) && Run(s, es + [e1] + [e2]) == Next(Next(Run(s, es), e1), e2)
  {
    OneMoreEvent(s, es, e1);
    OneMoreEvent(s, es + [e1], e2);
  }

  /** The events of a sweep under way. */
  ghost predicate SweepSoFar(es: seq<Event>, now: nat) {
    && es != [] && es[0].SweepStart? && es[0].now == now
    && forall i :: 0 < i < |es| ==> es[i].SweepRemove? || es[i].SweepFinish?
  }

  lemma SweepGoesOn(es: seq<Event>, now: nat)
    requires SweepSoFar(es, now)
    ensures SweepSoFar(es + [SweepRemove] + [SweepFinish], now)
    ensures IsSweep(es + [SweepRemove] + [SweepCancel], now, false)
    ensures IsSweep(es + [SweepEnd], now, true)
  {
  }

  /** A sweep's own events, from its start to its end or to the await it is dropped at. */
  ghost predicate IsSweep(es: seq<Event>, now: nat, completed: bool) {
    && |es| >= 2
    && es[0].SweepStart? && es[0].now == now
    && es[|es| - 1] == (if completed then SweepEnd else SweepCancel)
    && forall i :: 0 < i < |es| - 1 ==> es[i].SweepRemove? || es[i].SweepFinish?
  }

  class BeaconRegistry {
    var records: map<string, Record>
    var knownGateways: set<string>
    const broadcastTopics: TopicList

    ghost function Value(): Registry
      reads this, broadcastTopics
    {
      Registry(records, knownGateways, broadcastTopics.items)
    }

    constructor (ownGatewayUrl: Option<string>, broadcastTopics: TopicList)
      ensures this.broadcastTopics == broadcastTopics
      ensures Value() == New(ownGatewayUrl, broadcastTopics.items)
    {
      this.broadcastTopics := broadcastTopics;
      records := map[];
      knownGateways := {};
      new;
      if ownGatewayUrl.Some? {
        knownGateways := knownGateways + {ownGatewayUrl.value};
      }
    }

    method RegisterChannel(channel: TopicChannel, now: nat, subscribed: bool)
      modifies this, broadcastTopics
      ensures Value() == Register(old(Value()), channel, now, subscribed)
    {
      var topic, id := channel.topic, channel.beaconId;
      if id !in records {
        records := records[id := Record("", "", now, None, None)];
      }
      match channel.topicType {
        case Listen =>
          if subscribed {
            records := records[id := records[id].(listenTopic := topic)];
          }
        case Broadcast =>
          broadcastTopics.items := broadcastTopics.items + [topic];
          records := records[id := records[id].(broadcastTopic := topic)];
        case Hybrid =>
          if subscribed {
            broadcastTopics.items := broadcastTopics.items + [topic];
            records := records[id := records[id].(listenTopic := topic, broadcastTopic := topic)];
          }
      }
    }

    /** The ids of the stale records, in the map's arbitrary iteration order. */
    method StaleIds(now: nat) returns (stale: seq<string>)
      ensures Distinct(stale) && Elements(stale) == Stale(records, now)
    {
      stale := [];
      var rest := Stale(records, now);
      while rest != {}
        invariant Distinct(stale) && Elements(stale) !! rest
        invariant Elements(stale) + rest == Stale(records, now)
      {
        var id :| id in rest;
        assert Elements(stale + [id]) == Elements(stale) + {id};
        assert id !in stale by { assert id !in Elements(stale); }
        stale := stale + [id];
        rest := rest - {id};
      }
    }

    /** One iteration of the sweep: take the record out, then clean up after it
        unless the future is dropped at one of the awaits on the way. Wherever
        that happens, the same state is left behind. */
    method Deregister(id: string, budget: nat, ghost s: Loop) returns (finished: bool, left: nat)
      requires s.reg == Value() && s.phase.Sweeping? && s.phase.current.None?
      requires s.phase.todo != [] && s.phase.todo[0] == id && id in records
      modifies this, broadcastTopics
      ensures
        var s1 := Next(s, SweepRemove);
        var e := if finished then SweepFinish else SweepCancel;
        Enabled(s1, e) && Value() == Next(s1, e).reg
      ensures records == old(records) - {id}
      ensures finished ==> Value() == Evict(old(Value()), old(records)[id]).(records := records)
      ensures
        var r := old(records)[id];
        var awaits := (if r.listenTopic != "" then 1 else 0) + (if r.broadcastTopic != "" then 1 else 0);
        (finished <==> awaits <= budget) && (finished ==> left == budget - awaits)
    {
      var record := records[id];
      records := records - {id};
      left := budget;
      if record.listenTopic != "" {
        if left == 0 {
          return false, left;
        }
        left := left - 1;
      }
      if record.broadcastTopic != "" {
        if left == 0 {
          return false, left;
        }
        left := left - 1;
        broadcastTopics.items := Without(broadcastTopics.items, record.broadcastTopic);
      }
      if record.gatewayUrl.Some? {
        knownGateways := knownGateways - {record.gatewayUrl.value};
      }
      finished := true;
    }

    /** `check_timeouts` after its tick. The future is dropped when it reaches an
        await with none of its `awaits` left. `s` is the loop's state before. */
    method CheckTimeouts(now: nat, awaits: nat, ghost s: Loop) returns (completed: bool, ghost trace: seq<Event>)
      requires s.reg == Value() && s.phase.Idle? && s.clock <= now
      modifies this, broadcastTopics
      ensures Legal(s, trace) && IsSweep(trace, now, completed)
      ensures
        var s' := Run(s, trace);
        s'.reg == Value() && s'.phase.Idle? && s'.clock == now && s'.spawned == s.spawned
      ensures completed ==> Swept(old(Value()), Stale(old(records), now), Value())
      ensures 2 * |Stale(old(records), now)| <= awaits ==> completed
    {
      var budget: nat, finished := awaits, true;
      var stale := StaleIds(now);
      DistinctCount(stale);
      ghost var before := Value();
      ghost var cur := Next(s, SweepStart(now, stale));
      trace := [SweepStart(now, stale)];
      OneMoreEvent(s, [], SweepStart(now, stale));
      assert [] + trace == trace;
      SweptNone(before);
      var i := 0;
      while i < |stale|
        invariant 0 <= i <= |stale| && awaits <= budget + 2 * i
        invariant Legal(s, trace) && Run(s, trace) == cur
        invariant SweepSoFar(trace, now)
        invariant cur.reg == Value() && cur.phase == Sweeping(now, stale[i..], None)
        invariant cur.clock == now && cur.spawned == s.spawned
        invariant Swept(before, Elements(stale[..i]), Value())
      {
        var id := stale[i];
        NextOf(stale, i);
        ghost var mid := Value();
        finished, budget := Deregister(id, budget, cur);
        ghost var e := if finished then SweepFinish else SweepCancel;
        TwoMoreEvents(s, trace, SweepRemove, e);
        SweepGoesOn(trace, now);
        trace := trace + [SweepRemove] + [e];
        cur := Next(Next(cur, SweepRemove), e);
        if !finished {
          return false, trace;
        }
        SweptOneMore(before, Elements(stale[..i]), mid, id);
        i := i + 1;
      }
      assert stale[..i] == stale && stale[i..] == [];
      OneMoreEvent(s, trace, SweepEnd);
      SweepGoesOn(trace, now);
      return true, trace + [SweepEnd];
    }

    method UpdateLastSeen(id: string, now: nat)
      modifies this
      ensures Value() == Touch(old(Value()), id, now)
    {
      if id in records {
        records := records[id := records[id].(lastSeen := now)];
      }
    }

    method IsGatewayKnown(url: string) returns (known: bool)
      ensures known <==> url in Value().known
    {
      known := url in knownGateways;
    }

    method InsertGateway(url: string)
      modifies this
      ensures Value() == old(Value()).(known := old(Value()).known + {url})
    {
      knownGateways := knownGateways + {url};
    }

    method AssociateGateway(id: string, url: string, tx: Handle)
      modifies this
      ensures Value() == Associate(old(Value()), id, url, tx)
    {
      if id in records {
        records := records[id := records[id].(gatewayUrl := Some(url), shutdownTx := Some(tx))];
      }
    }
  }

  /** The `select!` branch that wins, with what it delivers. */
  datatype Input =
    | ChannelReady(ch: TopicChannel, now: nat, subscribed: bool)
    | TimerReady(now: nat, awaits: nat)
    | MessageReady(topic: string, gatewayUrl: Option<string>, now: nat)

  /** The monotonic clock never runs backwards. */
  ghost predicate Ordered(inputs: seq<Input>, from: nat) {
    inputs == [] || (from <= inputs[0].now && Ordered(inputs[1..], inputs[0].now))
  }

  /** One message handled as in the body of the loop. */
  method HandleMessage(registry: BeaconRegistry, topic: string, gatewayUrl: Option<string>, now: nat,
                       spawned: nat, ghost s: Loop) returns (spawned': nat)
    requires s.reg == registry.Value() && s.spawned == spawned
    modifies registry
    ensures
      var s' := OnMessage(s, topic, gatewayUrl, now);
      s'.reg == registry.Value() && s'.spawned == spawned'
    ensures History.MessageEffect(old(registry.Value()), registry.Value(), topic, gatewayUrl, now, spawned)
    ensures spawned' == spawned + (if gatewayUrl.Some? && gatewayUrl.value !in old(registry.Value()).known then 1 else 0)
  {
    History.MessageHasEffect(s, topic, gatewayUrl, now);
    spawned' := spawned;
    var sender := StripSuffix(topic, REC);
    if sender.Some? {
      registry.UpdateLastSeen(sender.value, now);
    }
    if gatewayUrl.Some? {
      var known := registry.IsGatewayKnown(gatewayUrl.value);
      if !known {
        registry.InsertGateway(gatewayUrl.value);
        var tx := Handle(spawned, gatewayUrl.value);
        spawned' := spawned + 1;
        if sender.Some? {
          registry.AssociateGateway(sender.value, gatewayUrl.value, tx);
        }
      }
    }
  }

  /** The machine's events for one input of the loop. */
  ghost predicate Segment(input: Input, es: seq<Event>) {
    match input
    case ChannelReady(ch, now, subscribed) => es == [Channel(ch, now, subscribed)]
    case MessageReady(topic, gatewayUrl, now) => es == [Message(topic, gatewayUrl, now)]
    case TimerReady(now, _) => IsSweep(es, now, true) || IsSweep(es, now, false)
  }

  /** `es` is what the inputs amount to, one segment each. */
  ghost predicate Realises(inputs: seq<Input>, segments: seq<seq<Event>>, es: seq<Event>) {
    && |segments| == |inputs| && es == Flatten(segments)
    && forall i :: 0 <= i < |inputs| ==> Segment(inputs[i], segments[i])
  }

  function Flatten(segments: seq<seq<Event>>): seq<Event> {
    if segments == [] then [] else Flatten(segments[..|segments| - 1]) + segments[|segments| - 1]
  }

  /** The handshake channels among the inputs, in order. */
  function ChannelsIn(inputs: seq<Input>): seq<TopicChannel> {
    if inputs == [] then []
    else
      var k := |inputs| - 1;
      ChannelsIn(inputs[..k]) + (if inputs[k].ChannelReady? then [inputs[k].ch] else [])
  }

  lemma {:induction false} ChannelsAppend(a: seq<Event>, b: seq<Event>)
    ensures Topics.Channels(a + b) == Topics.Channels(a) + Topics.Channels(b)
  {
    if a == [] {
      assert a + b == b;
    } else {
      var head := if a[0].Channel? then [a[0].ch] else [];
      var rest, later := Topics.Channels(a[1..]), Topics.Channels(b);
      assert (a + b)[0] == a[0] && (a + b)[1..] == a[1..] + b;
      ChannelsAppend(a[1..], b);
      assert head + (rest + later) == head + rest + later;
    }
  }

  /** The machine is delivered the channels the loop is. */
  lemma {:induction false} SameChannels(inputs: seq<Input>, segments: seq<seq<Event>>, es: seq<Event>)
    requires Realises(inputs, segments, es)
    ensures Topics.Channels(es) == ChannelsIn(inputs)
  {
    if inputs == [] {
    } else {
      var k := |inputs| - 1;
      var init := Flatten(segments[..k]);
      SameChannels(inputs[..k], segments[..k], init);
      ChannelsAppend(init, segments[k]);
      if inputs[k].ChannelReady? {
        assert segments[k][1..] == [];
      } else {
        Topics.NoChannels(segments[k]);
      }
    }
  }

  /** Adds one input and its segment to a run. */
  lemma Extend(s: Loop, inputs: seq<Input>, segments: seq<seq<Event>>, es: seq<Event>, input: Input, seg: seq<Event>)
    requires Realises(inputs, segments, es) && Segment(input, seg)
    requires Legal(s, es) && Legal(Run(s, es), seg)
    ensures Realises(inputs + [input], segments + [seg], es + seg)
    ensures Legal(s, es + seg) && Run(s, es + seg) == Run(Run(s, es), seg)
  {
    assert (segments + [seg])[..|segments|] == segments;
    RunConcat(s, es, seg);
  }

  /** `run_beacon_message_loop` over any finite stretch of inputs is a legal run of
      the machine that takes exactly those inputs in order. So whenever it waits
      again, wherever its sweeps were cut short, no two beacons hold the same gateway,
      none holds our own, every held one is known; and for channels of handshakes the
      list has no duplicates and every live beacon's topic, with at most one other
      topic per interrupted sweep. */
  method RunBeaconMessageLoop(own: Option<string>, topics: TopicList, start: nat, inputs: seq<Input>)
    returns (registry: BeaconRegistry, ghost segments: seq<seq<Event>>, ghost trace: seq<Event>)
    requires topics.items == [] && Ordered(inputs, start)
    modifies topics
    ensures Realises(inputs, segments, trace) && Legal(Init(own, start), trace)
    ensures Run(Init(own, start), trace).reg == registry.Value()
    ensures Run(Init(own, start), trace).phase.Idle?
    ensures
      var m, known := registry.records, registry.knownGateways;
      && OwnUrls(own) <= known
      && (forall id :: id in m && m[id].gatewayUrl.Some? ==> m[id].gatewayUrl.value in known && m[id].gatewayUrl != own)
      && (forall a, b :: a in m && b in m && a != b && m[a].gatewayUrl.Some? ==> m[a].gatewayUrl != m[b].gatewayUrl)
    ensures FromHandshakes(ChannelsIn(inputs)) ==>
      && Distinct(topics.items)
      && Topics.HeldTopics(registry.records) <= Elements(topics.items)
      && |Elements(topics.items) - Topics.HeldTopics(registry.records)| <= Topics.Interruptions(Init(own, start), trace)
  {
    registry := new BeaconRegistry(own, topics);
    var spawned := 0;
    segments, trace := [], [];
    ghost var s0 := Init(own, start);
    ghost var s := s0;
    var i := 0;
    while i < |inputs|
      invariant 0 <= i <= |inputs|
      invariant fresh(registry) && registry.broadcastTopics == topics
      invariant Realises(inputs[..i], segments, trace) && Legal(s0, trace)
      invariant s == Run(s0, trace)
      invariant s.reg == registry.Value() && s.phase.Idle? && s.spawned == spawned
      invariant Ordered(inputs[i..], s.clock)
    {
      var input := inputs[i];
      assert inputs[i..][0] == input && inputs[i..][1..] == inputs[i + 1..];
      ghost var seg;
      spawned, seg := HandleInput(registry, input, spawned, s);
      Extend(s0, inputs[..i], segments, trace, input, seg);
      assert inputs[..i] + [input] == inputs[..i + 1];
      s, segments, trace := Run(s, seg), segments + [seg], trace + seg;
      i := i + 1;
    }
    assert inputs[..i] == inputs;
    Gateways.OneHandlePerUrl(own, start, trace);
    SameChannels(inputs, segments, trace);
    if FromHandshakes(ChannelsIn(inputs)) {
      Topics.ListMatchesLiveBeacons(own, start, trace);
    }
  }

  /** One turn of the loop. */
  method HandleInput(registry: BeaconRegistry, input: Input, spawned: nat, ghost s: Loop)
    returns (spawned': nat, ghost seg: seq<Event>)
    requires s.reg == registry.Value() && s.phase.Idle? && s.spawned == spawned && s.clock <= input.now
    modifies registry, registry.broadcastTopics
    ensures Segment(input, seg) && Legal(s, seg)
    ensures
      var s' := Run(s, seg);
      s'.reg == registry.Value() && s'.phase.Idle? && s'.spawned == spawned' && s'.clock == input.now
  {
    spawned' := spawned;
    match input {
      case ChannelReady(ch, now, subscribed) =>
        registry.RegisterChannel(ch, now, subscribed);
        seg := [Channel(ch, now, subscribed)];
        OneMoreEvent(s, [], seg[0]);
        assert [] + seg == seg;
      case TimerReady(now, awaits) =>
        var _, sweep := registry.CheckTimeouts(now, awaits, s);
        seg := sweep;
      case MessageReady(topic, gatewayUrl, now) =>
        spawned' := HandleMessage(registry, topic, gatewayUrl, now, spawned, s);
        seg := [Message(topic, gatewayUrl, now)];
        OneMoreEvent(s, [], seg[0]);
        assert [] + seg == seg;
    }
  }
}
