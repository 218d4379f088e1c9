/** The beacon registry as a value: what each operation of
    `src/services/beacon_management/registry.rs` does to the records, the
    known-gateway set and the shared broadcast-topic list. */
module Registry {
  import opened Common

  /** Seconds of silence after which a beacon is stale. */
  const BEACON_TIMEOUT: nat := 120

  datatype TopicType = Listen | Broadcast | Hybrid

  datatype TopicChannel = TopicChannel(beaconId: string, topic: string, topicType: TopicType)

  /** The sender half of one WebSocket task's shutdown channel. Dropping it asks
      the task to stop; the task may go on for a while before it notices. */
  datatype Handle = Handle(id: nat, url: string)

  datatype Record = Record(
    listenTopic: string,
    broadcastTopic: string,
    lastSeen: nat,
    gatewayUrl: Option<string>,
    shutdownTx: Option<Handle>)

  datatype Registry = Registry(
    records: map<string, Record>,
    known: set<string>,
    topics: seq<string>)

  function OwnUrls(own: Option<string>): set<string> {
    if own.Some? then {own.value} else {}
  }

  function New(own: Option<string>, topics: seq<string>): Registry {
    Registry(map[], OwnUrls(own), topics)
  }

  /** `entry(id).or_insert_with(..)`. */
  function EnsureRecord(records: map<string, Record>, id: string, now: nat): map<string, Record> {
    if id in records then records else records[id := Record("", "", now, None, None)]
  }

  /** `register_channel`; `subscribed` is the outcome of the MQTT subscribe. */
  function Register(reg: Registry, ch: TopicChannel, now: nat, subscribed: bool): Registry {
    var id := ch.beaconId;
    var records := EnsureRecord(reg.records, id, now);
    var listening := records[id].(listenTopic := ch.topic);
    match ch.topicType
    case Listen =>
      reg.(records := if subscribed then records[id := listening] else records)
    case Broadcast =>
      reg.(records := records[id := records[id].(broadcastTopic := ch.topic)], topics := reg.topics + [ch.topic])
    case Hybrid =>
      if subscribed then
        reg.(records := records[id := listening.(broadcastTopic := ch.topic)], topics := reg.topics + [ch.topic])
      else
        reg.(records := records)
  }

  /** Registering a channel touches one record, and none of its gateway fields. Its
      topic is broadcast to from then on for a broadcast channel, and for a hybrid one
      if the subscribe succeeded. */
  lemma RegisterShape(reg: Registry, ch: TopicChannel, now: nat, subscribed: bool)
    ensures
      var reg' := Register(reg, ch, now, subscribed);
      var id := ch.beaconId;
      && id in reg'.records
      && reg'.records == reg.records[id := reg'.records[id]]
      && reg'.known == reg.known
      && reg'.topics == reg.topics + (if ch.topicType.Broadcast? || (ch.topicType.Hybrid? && subscribed) then [ch.topic] else [])
      && (if id in reg.records then
            && reg'.records[id].gatewayUrl == reg.records[id].gatewayUrl
            && reg'.records[id].shutdownTx == reg.records[id].shutdownTx
            && reg'.records[id].lastSeen == reg.records[id].lastSeen
          else
            && reg'.records[id].gatewayUrl.None?
            && reg'.records[id].shutdownTx.None?
            && reg'.records[id].lastSeen == now)
  {
  }

  predicate IsStale(r: Record, now: nat) {
    now > r.lastSeen + BEACON_TIMEOUT
  }

  function Stale(records: map<string, Record>, now: nat): set<string> {
    set id | id in records && IsStale(records[id], now)
  }

  /** `Vec::retain(|t| t != topic)`. */
  function Without(topics: seq<string>, topic: string): seq<string> {
    if topics == [] then []
    else if topics[0] == topic then Without(topics[1..], topic)
    else [topics[0]] + Without(topics[1..], topic)
  }

  function GatewayOf(r: Record): set<string> {
    if r.gatewayUrl.Some? then {r.gatewayUrl.value} else {}
  }

  /** What a sweep does for an already removed record once it holds the write
      lock: drop its broadcast topic and evict its gateway, with no await between. */
  function Evict(reg: Registry, r: Record): Registry {
    reg.(topics := if r.broadcastTopic != "" then Without(reg.topics, r.broadcastTopic) else reg.topics,
         known := reg.known - GatewayOf(r))
  }

  /** `update_last_seen`. */
  function Touch(reg: Registry, id: string, now: nat): Registry {
    if id in reg.records then
      reg.(records := reg.records[id := reg.records[id].(lastSeen := now)])
    else reg
  }

  /** `associate_gateway`. */
  function Associate(reg: Registry, id: string, url: string, tx: Handle): Registry {
    if id in reg.records then
      reg.(records := reg.records[id := reg.records[id].(gatewayUrl := Some(url), shutdownTx := Some(tx))])
    else reg
  }

  // ── Device handshakes (internals/handlers.rs) ─────────────────────────────

  const CAST := "/cast"
  const REC := "/rec"

  function ListenChannel(id: string): TopicChannel {
    TopicChannel(id, id + REC, Listen)
  }

  function BroadcastChannel(id: string): TopicChannel {
    TopicChannel(id, id + CAST, Broadcast)
  }

  /** The channels that handshakes for `ids` offer to the message loop. */
  function Produced(ids: seq<string>): seq<TopicChannel> {
    if ids == [] then [] else [ListenChannel(ids[0]), BroadcastChannel(ids[0])] + Produced(ids[1..])
  }

  ghost predicate IsHandshakeChannel(ch: TopicChannel) {
    ch == ListenChannel(ch.beaconId) || ch == BroadcastChannel(ch.beaconId)
  }

  /** Every channel has the handshake's form and no beacon id is broadcast twice. */
  ghost predicate FromHandshakes(chs: seq<TopicChannel>) {
    && (forall i :: 0 <= i < |chs| ==> IsHandshakeChannel(chs[i]))
    && (forall i, j :: 0 <= i < j < |chs| && chs[i].topicType.Broadcast? && chs[j].topicType.Broadcast?
          ==> chs[i].beaconId != chs[j].beaconId)
  }

  // ── Facts about the list operations ───────────────────────────────────────

  lemma {:induction false} WithoutElements(topics: seq<string>, topic: string)
    ensures Elements(Without(topics, topic)) == Elements(topics) - {topic}
  {
    if topics == [] {
    } else {
      WithoutElements(topics[1..], topic);
      assert topics == [topics[0]] + topics[1..];
      assert Elements(topics) == {topics[0]} + Elements(topics[1..]);
      if topics[0] != topic {
        var rest := Without(topics[1..], topic);
        assert Elements([topics[0]] + rest) == {topics[0]} + Elements(rest);
      }
    }
  }

  /** `retain` works element by element and keeps the order. */
  lemma {:induction false} WithoutAppend(a: seq<string>, b: seq<string>, topic: string)
    ensures Without(a + b, topic) == Without(a, topic) + Without(b, topic)
    ensures forall t :: Without([t], topic) == if t == topic then [] else [t]
  {
    forall t ensures Without([t], topic) == if t == topic then [] else [t] {
      assert [t][1..] == [];
    }
    if a == [] {
      assert a + b == b;
    } else {
      assert (a + b)[1..] == a[1..] + b;
      WithoutAppend(a[1..], b, topic);
    }
  }

  lemma {:induction false} WithoutDistinct(topics: seq<string>, topic: string)
    requires Distinct(topics)
    ensures Distinct(Without(topics, topic))
  {
    if topics == [] {
    } else {
      WithoutDistinct(topics[1..], topic);
      WithoutElements(topics[1..], topic);
      if topics[0] != topic {
        var rest := Without(topics[1..], topic);
        assert forall i :: 0 <= i < |rest| ==> rest[i] in Elements(rest);
        forall i | 0 <= i < |rest| ensures rest[i] != topics[0] {
          assert rest[i] in topics[1..];
        }
      }
    }
  }

  /** Each handshake offers "{id}/rec" to listen on and then "{id}/cast" to broadcast on. */
  lemma {:induction false} ProducedInOrder(ids: seq<string>, i: nat)
    requires i < |ids|
    ensures |Produced(ids)| == 2 * |ids|
    ensures Produced(ids)[2 * i] == TopicChannel(ids[i], ids[i] + "/rec", Listen)
    ensures Produced(ids)[2 * i + 1] == TopicChannel(ids[i], ids[i] + "/cast", Broadcast)
  {
    if |ids| == 1 {
    } else {
      ProducedInOrder(ids[1..], if i == 0 then 0 else i - 1);
    }
  }

  lemma {:induction false} ProducedAtMostOnce(ids: seq<string>, ch: TopicChannel)
    requires Distinct(ids)
    ensures multiset(Produced(ids))[ch] <= 1
    ensures ch in Produced(ids) ==> ch.beaconId in ids && IsHandshakeChannel(ch)
  {
    if ids == [] {
    } else {
      ProducedAtMostOnce(ids[1..], ch);
      var head := [ListenChannel(ids[0]), BroadcastChannel(ids[0])];
      assert multiset(head + Produced(ids[1..])) == multiset(head) + multiset(Produced(ids[1..]));
      assert multiset(head)[ch] <= 1;
      assert forall k :: 0 <= k < |ids| - 1 ==> ids[1..][k] == ids[k + 1];
      assert ids[0] !in ids[1..];
      assert ch in head ==> ch !in multiset(Produced(ids[1..]));
    }
  }

  lemma CountsTwice<T>(s: seq<T>, i: int, j: int)
    requires 0 <= i < j < |s|
    ensures s[i] == s[j] ==> multiset(s)[s[i]] >= 2
  {
    assert s == s[..j] + s[j..];
    assert s[..j][i] in multiset(s[..j]) && s[j..][0] in multiset(s[j..]);
  }

  /** Handshakes with distinct beacon ids, delivered in any interleaving and with
      any of them lost to a full channel, satisfy `FromHandshakes`. */
  lemma DeliveredFromHandshakes(ids: seq<string>, delivered: seq<TopicChannel>)
    requires Distinct(ids)
    requires multiset(delivered) <= multiset(Produced(ids))
    ensures FromHandshakes(delivered)
  {
    forall i | 0 <= i < |delivered| ensures IsHandshakeChannel(delivered[i]) {
      assert delivered[i] in multiset(delivered);
      ProducedAtMostOnce(ids, delivered[i]);
    }
    forall i, j | 0 <= i < j < |delivered| && delivered[i].topicType.Broadcast? && delivered[j].topicType.Broadcast?
      ensures delivered[i].beaconId != delivered[j].beaconId
    {
      CountsTwice(delivered, i, j);
      ProducedAtMostOnce(ids, delivered[i]);
    }
  }
}
