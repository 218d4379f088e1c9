/** The shared broadcast-topic list against the live beacons, over every run fed
    by device handshakes. */
module Topics {
  import opened Common
  import opened Registry
  import opened MessageLoop

  function HeldTopics(m: map<string, Record>): set<string> {
    set id | id in m && m[id].broadcastTopic != "" :: m[id].broadcastTopic
  }

  /** Topics broadcast to although no live record holds them. */
  function Stranded(s: Loop): set<string> {
    Elements(s.reg.topics) - HeldTopics(Holders(s))
  }

  /** `topic` is the broadcast topic of a beacon in `done`. */
  predicate IsCastOf(topic: string, done: set<string>) {
    StripSuffix(topic, CAST).Some? && StripSuffix(topic, CAST).value in done
  }

  /** A record's broadcast topic is missing, or its own and listed. */
  predicate Listed(id: string, r: Record, topics: seq<string>) {
    r.broadcastTopic == "" || (r.broadcastTopic == id + CAST && r.broadcastTopic in topics)
  }

  ghost predicate AllListed(m: map<string, Record>, topics: seq<string>) {
    forall id :: id in m ==> Listed(id, m[id], topics)
  }

  /** `done` are the beacons whose broadcast channel has been processed. */
  ghost predicate ListOk(topics: seq<string>, done: set<string>) {
    Distinct(topics) && (forall t :: t in topics ==> IsCastOf(t, done))
  }

  ghost predicate Inv(s: Loop, done: set<string>) {
    PendingApart(s) && ListOk(s.reg.topics, done) && AllListed(Holders(s), s.reg.topics)
  }

  /** The beacon whose broadcast channel this event delivers. */
  function Announced(e: Event): set<string> {
    if e.Channel? && e.ch.topicType.Broadcast? then {e.ch.beaconId} else {}
  }

  ghost predicate Acceptable(e: Event, done: set<string>) {
    e.Channel? ==> IsHandshakeChannel(e.ch) && Announced(e) !! done
  }

  ghost predicate Interrupting(s: Loop, e: Event) {
    Enabled(s, e) && e.SweepCancel?
  }

  function TopicOf(r: Record): set<string> {
    if r.broadcastTopic != "" then {r.broadcastTopic} else {}
  }

  /** The topic this step strands: that of a beacon whose sweep is cut short. */
  ghost function StrandedBy(s: Loop, e: Event): set<string> {
    if Interrupting(s, e) then TopicOf(s.phase.current.value.record) else {}
  }

  // ── One step ──────────────────────────────────────────────────────────────

  lemma HeldIsListed(m: map<string, Record>, topics: seq<string>)
    requires AllListed(m, topics)
    ensures HeldTopics(m) <= Elements(topics)
  {
  }

  lemma PutSameTopic(m: map<string, Record>, id: string, r: Record, topics: seq<string>)
    requires AllListed(m, topics)
    requires r.broadcastTopic == if id in m then m[id].broadcastTopic else ""
    ensures AllListed(m[id := r], topics)
    ensures HeldTopics(m[id := r]) == HeldTopics(m)
  {
    var n := m[id := r];
    forall t | t in HeldTopics(m) ensures t in HeldTopics(n) {
      var k :| k in m && m[k].broadcastTopic == t && t != "";
      assert k in n && n[k].broadcastTopic == t;
    }
  }

  /** A first broadcast channel adds a topic that is on nobody's record and not in the list. */
  lemma PutNewTopic(m: map<string, Record>, id: string, r: Record, topics: seq<string>, done: set<string>)
    requires AllListed(m, topics) && ListOk(topics, done)
    requires id !in done && r.broadcastTopic == id + CAST
    ensures AllListed(m[id := r], topics + [id + CAST])
    ensures ListOk(topics + [id + CAST], done + {id})
    ensures HeldTopics(m[id := r]) == HeldTopics(m) + {id + CAST}
    ensures id + CAST !in topics
  {
    var n, t0 := m[id := r], id + CAST;
    StripSuffixOfAppend(id, CAST);
    assert t0 !in topics;
    assert id in m ==> Listed(id, m[id], topics);
    forall t | t in HeldTopics(m) ensures t in HeldTopics(n) {
      var k :| k in m && m[k].broadcastTopic == t && t != "";
      assert Listed(k, m[k], topics);
      assert k in n && n[k].broadcastTopic == t;
    }
    assert n[id].broadcastTopic == t0;
    forall k | k in n ensures Listed(k, n[k], topics + [t0]) {
      assert k != id ==> Listed(k, m[k], topics);
    }
  }

  /** Distinct beacons have distinct topics, so a record takes only its own with it. */
  lemma DropRecord(m: map<string, Record>, id: string, topics: seq<string>)
    requires id in m && AllListed(m, topics)
    ensures AllListed(m - {id}, topics)
    ensures AllListed(m - {id}, Without(topics, m[id].broadcastTopic))
    ensures HeldTopics(m - {id}) == HeldTopics(m) - {m[id].broadcastTopic}
    ensures m[id].broadcastTopic != "" ==> m[id].broadcastTopic in HeldTopics(m)
  {
    var n, topic := m - {id}, m[id].broadcastTopic;
    WithoutElements(topics, topic);
    forall k | k in n ensures Listed(k, n[k], topics) && (n[k].broadcastTopic != "" ==> n[k].broadcastTopic != topic)
                              && Listed(k, n[k], Without(topics, topic)) {
      assert Listed(k, m[k], topics) && Listed(id, m[id], topics);
      if n[k].broadcastTopic != "" {
        StripSuffixOfAppend(k, CAST);
        StripSuffixOfAppend(id, CAST);
        assert n[k].broadcastTopic in Elements(topics) - {topic};
        assert n[k].broadcastTopic in Elements(Without(topics, topic));
      }
    }
    forall t | t in HeldTopics(m) && t != topic ensures t in HeldTopics(n) {
      var k :| k in m && m[k].broadcastTopic == t && t != "";
      assert k in n;
    }
  }

  lemma WithoutListOk(topics: seq<string>, topic: string, done: set<string>)
    requires ListOk(topics, done)
    ensures ListOk(Without(topics, topic), done)
  {
    WithoutElements(topics, topic);
    WithoutDistinct(topics, topic);
    assert forall t :: t in Without(topics, topic) ==> t in Elements(Without(topics, topic));
  }

  /** The invariant holds for `done` and the stranded topics are the old ones and `added`. */
  ghost predicate Kept(s: Loop, s': Loop, done: set<string>, added: set<string>) {
    && Inv(s', done)
    && Stranded(s') == Stranded(s) + added
    && added !! Stranded(s)
  }

  lemma SameTopics(s: Loop, s': Loop, done: set<string>)
    requires Inv(s', done) && s'.reg.topics == s.reg.topics
    requires HeldTopics(Holders(s')) == HeldTopics(Holders(s))
    ensures Kept(s, s', done, {})
  {
  }

  /** One record is added or changed, but not in its broadcast topic. */
  lemma RecordStep(s: Loop, s': Loop, id: string, r: Record, done: set<string>)
    requires Inv(s, done) && s.phase.Idle? && s'.phase == s.phase
    requires s'.reg.records == s.reg.records[id := r] && s'.reg.topics == s.reg.topics
    requires r.broadcastTopic == if id in s.reg.records then s.reg.records[id].broadcastTopic else ""
    ensures Kept(s, s', done, {})
  {
    PutSameTopic(s.reg.records, id, r, s.reg.topics);
    assert Holders(s') == s'.reg.records && Holders(s) == s.reg.records;
    SameTopics(s, s', done);
  }

  lemma ListenStep(s: Loop, ch: TopicChannel, now: nat, subscribed: bool, done: set<string>)
    requires Inv(s, done) && s.phase.Idle? && ch.topicType.Listen?
    ensures Kept(s, s.(reg := Register(s.reg, ch, now, subscribed), clock := now), done, {})
  {
    var s' := s.(reg := Register(s.reg, ch, now, subscribed), clock := now);
    RegisterShape(s.reg, ch, now, subscribed);
    RecordStep(s, s', ch.beaconId, s'.reg.records[ch.beaconId], done);
  }

  lemma BothGrow(a: set<string>, b: set<string>, t: string)
    requires t !in a && b <= a
    ensures (a + {t}) - (b + {t}) == a - b
  {
  }

  lemma BroadcastStep(s: Loop, id: string, now: nat, subscribed: bool, done: set<string>)
    requires Inv(s, done) && s.phase.Idle? && id !in done
    ensures Kept(s, s.(reg := Register(s.reg, BroadcastChannel(id), now, subscribed), clock := now), done + {id}, {})
  {
    var s' := s.(reg := Register(s.reg, BroadcastChannel(id), now, subscribed), clock := now);
    var m, topics, topic := s.reg.records, s.reg.topics, id + CAST;
    RegisterShape(s.reg, BroadcastChannel(id), now, subscribed);
    PutNewTopic(m, id, s'.reg.records[id], topics, done);
    HeldIsListed(m, topics);
    assert s'.reg.topics == topics + [topic];
    assert Elements(topics + [topic]) == Elements(topics) + {topic};
    assert Holders(s') == s'.reg.records && Holders(s) == m;
    BothGrow(Elements(topics), HeldTopics(m), topic);
  }

  lemma FinishStep(s: Loop, s': Loop, id: string, done: set<string>)
    requires Inv(s, done) && id in Holders(s) && Holders(s') == Holders(s) - {id} && PendingApart(s')
    requires var t := Holders(s)[id].broadcastTopic; s'.reg.topics == if t != "" then Without(s.reg.topics, t) else s.reg.topics
    ensures Kept(s, s', done, {})
  {
    var m, topics := Holders(s), s.reg.topics;
    var topic := m[id].broadcastTopic;
    DropRecord(m, id, topics);
    HeldIsListed(m, topics);
    if topic != "" {
      WithoutListOk(topics, topic, done);
      WithoutElements(topics, topic);
      BothShrink(Elements(topics), HeldTopics(m), topic);
    } else {
      assert HeldTopics(m - {id}) == HeldTopics(m);
    }
  }

  lemma BothShrink(a: set<string>, b: set<string>, t: string)
    requires t in b && b <= a
    ensures (a - {t}) - (b - {t}) == a - b
    ensures a - (b - {t}) == (a - b) + {t} && {t} !! a - b
  {
  }

  lemma CancelStep(s: Loop, s': Loop, id: string, done: set<string>)
    requires Inv(s, done) && id in Holders(s) && Holders(s') == Holders(s) - {id} && PendingApart(s')
    requires s'.reg.topics == s.reg.topics
    ensures Kept(s, s', done, TopicOf(Holders(s)[id]))
  {
    var m, topics := Holders(s), s.reg.topics;
    var topic := m[id].broadcastTopic;
    DropRecord(m, id, topics);
    HeldIsListed(m, topics);
    if topic != "" {
      BothShrink(Elements(topics), HeldTopics(m), topic);
    } else {
      assert HeldTopics(m - {id}) == HeldTopics(m);
    }
  }

  lemma MessageStep(s: Loop, e: Event, done: set<string>)
    requires Inv(s, done) && s.phase.Idle? && e.Message?
    ensures Kept(s, OnMessage(s, e.topic, e.gatewayUrl, e.now), done, {})
  {
    var s' := OnMessage(s, e.topic, e.gatewayUrl, e.now);
    MessageShape(s, e);
    if Sender(s, e.topic).Some? {
      var id := Sender(s, e.topic).value;
      RecordStep(s, s', id, s'.reg.records[id], done);
    } else {
      SameTopics(s, s', done);
    }
  }

  lemma Step(s: Loop, e: Event, done: set<string>)
    requires Inv(s, done) && Acceptable(e, done) && Enabled(s, e)
    ensures Kept(s, Next(s, e), done + Announced(e), StrandedBy(s, e))
  {
    var s' := Next(s, e);
    assert Announced(e) == {} ==> done + Announced(e) == done;
    match e
    case Channel(ch, now, subscribed) =>
      if ch.topicType.Listen? {
        ListenStep(s, ch, now, subscribed, done);
      } else {
        BroadcastStep(s, ch.beaconId, now, subscribed, done);
      }
    case Message(_, _, _) => MessageStep(s, e, done);
    case SweepFinish =>
      ReleaseHolders(s, e);
      FinishStep(s, s', s.phase.current.value.id, done);
    case SweepCancel =>
      ReleaseHolders(s, e);
      CancelStep(s, s', s.phase.current.value.id, done);
    case _ =>
      assert Holders(s') == Holders(s);
      SameTopics(s, s', done);
  }

  /** Having processed more channels than needed does no harm. */
  lemma MoreDone(s: Loop, done: set<string>, more: set<string>)
    requires Inv(s, done) && done <= more
    ensures Inv(s, more)
  {
  }

  // ── Every run ─────────────────────────────────────────────────────────────

  /** The channels delivered to the loop, in order. */
  function Channels(es: seq<Event>): seq<TopicChannel> {
    if es == [] then []
    else (if es[0].Channel? then [es[0].ch] else []) + Channels(es[1..])
  }

  /** Every channel is a handshake's, and no beacon outside `done` is announced twice. */
  ghost predicate Fresh(es: seq<Event>, done: set<string>)
    decreases |es|
  {
    es == [] || (Acceptable(es[0], done) && Fresh(es[1..], done + Announced(es[0])))
  }

  lemma {:induction false} FreshFromHandshakes(es: seq<Event>, done: set<string>)
    requires FromHandshakes(Channels(es))
    requires forall ch :: ch in Channels(es) && ch.topicType.Broadcast? ==> ch.beaconId !in done
    ensures Fresh(es, done)
    decreases |es|
  {
    if es == [] {
    } else {
      var chs, rest := Channels(es), Channels(es[1..]);
      if es[0].Channel? {
        HandshakesTail(es[0].ch, rest);
        assert es[0].ch in chs && forall ch :: ch in rest ==> ch in chs;
      } else {
        assert chs == rest;
      }
      FreshFromHandshakes(es[1..], done + Announced(es[0]));
    }
  }

  lemma HandshakesTail(ch: TopicChannel, rest: seq<TopicChannel>)
    requires FromHandshakes([ch] + rest)
    ensures IsHandshakeChannel(ch) && FromHandshakes(rest)
    ensures ch.topicType.Broadcast? ==>
      forall c :: c in rest && c.topicType.Broadcast? ==> c.beaconId != ch.beaconId
  {
    var chs := [ch] + rest;
    assert chs[0] == ch && forall i :: 0 <= i < |rest| ==> rest[i] == chs[i + 1];
  }

  ghost function Interruptions(s: Loop, es: seq<Event>): nat
    decreases |es|
  {
    if es == [] then 0
    else (if Interrupting(s, es[0]) then 1 else 0) + Interruptions(Next(s, es[0]), es[1..])
  }

  /** The interruptions that catch a beacon which has a broadcast topic. */
  ghost function Strandings(s: Loop, es: seq<Event>): nat
    decreases |es|
  {
    if es == [] then 0
    else |StrandedBy(s, es[0])| + Strandings(Next(s, es[0]), es[1..])
  }

  lemma {:induction false} StrandingsInterrupt(s: Loop, es: seq<Event>)
    ensures Strandings(s, es) <= Interruptions(s, es)
    decreases |es|
  {
    if es == [] {
    } else {
      StrandingsInterrupt(Next(s, es[0]), es[1..]);
    }
  }

  /** `done` after the channels in `es`. */
  function After(es: seq<Event>, done: set<string>): set<string>
    decreases |es|
  {
    if es == [] then done else After(es[1..], done + Announced(es[0]))
  }

  lemma {:induction false} RunInv(s: Loop, es: seq<Event>, done: set<string>)
    requires Inv(s, done) && Fresh(es, done)
    ensures Inv(Run(s, es), After(es, done))
    decreases |es|
  {
    if es == [] {
    } else {
      FirstStep(s, es, done);
      RunInv(Next(s, es[0]), es[1..], done + Announced(es[0]));
    }
  }

  lemma {:induction false} RunStranded(s: Loop, es: seq<Event>, done: set<string>)
    requires Inv(s, done) && Fresh(es, done)
    ensures Stranded(s) <= Stranded(Run(s, es))
    ensures |Stranded(Run(s, es))| == |Stranded(s)| + Strandings(s, es)
    decreases |es|
  {
    if es == [] {
    } else {
      FirstStep(s, es, done);
      RunStranded(Next(s, es[0]), es[1..], done + Announced(es[0]));
    }
  }

  lemma FirstStep(s: Loop, es: seq<Event>, done: set<string>)
    requires es != [] && Inv(s, done) && Fresh(es, done)
    ensures
      var s1, done1 := Next(s, es[0]), done + Announced(es[0]);
      && Inv(s1, done1) && Fresh(es[1..], done1)
      && Stranded(s) <= Stranded(s1)
      && |Stranded(s1)| == |Stranded(s)| + |StrandedBy(s, es[0])|
  {
    if Enabled(s, es[0]) {
      Step(s, es[0], done);
      JoinSizes(Stranded(s), StrandedBy(s, es[0]));
    } else {
      MoreDone(s, done, done + Announced(es[0]));
    }
  }

  lemma {:induction false} FreshSplit(es: seq<Event>, later: seq<Event>, done: set<string>)
    requires Fresh(es + later, done)
    ensures Fresh(es, done) && Fresh(later, After(es, done))
    decreases |es|
  {
    if es == [] {
      assert es + later == later;
    } else {
      assert (es + later)[1..] == es[1..] + later;
      FreshSplit(es[1..], later, done + Announced(es[0]));
    }
  }

  /** Whatever is interrupted: the list has no duplicates and lists every live
      beacon's topic; the topics listed with no live beacon number exactly the
      interruptions that caught a beacon with a topic, so at most the interrupted
      sweeps; and the list is exactly the live beacons' topics iff there were none. */
  lemma ListMatchesLiveBeacons(own: Option<string>, start: nat, es: seq<Event>)
    requires FromHandshakes(Channels(es))
    ensures
      var s0 := Init(own, start);
      var s := Run(s0, es);
      && Distinct(s.reg.topics)
      && HeldTopics(Holders(s)) <= Elements(s.reg.topics)
      && |Elements(s.reg.topics) - HeldTopics(Holders(s))| == Strandings(s0, es) <= Interruptions(s0, es)
      && (Elements(s.reg.topics) == HeldTopics(Holders(s)) <==> Strandings(s0, es) == 0)
  {
    var s0 := Init(own, start);
    FreshFromHandshakes(es, {});
    RunInv(s0, es, {});
    RunStranded(s0, es, {});
    var s := Run(s0, es);
    StrandingsInterrupt(s0, es);
    assert Stranded(s0) == {};
    assert |Stranded(s)| == 0 <==> Stranded(s) == {};
    HeldIsListed(Holders(s), s.reg.topics);
  }

  /** A stranded topic keeps being broadcast to, whatever happens later. */
  lemma StrandedForEver(own: Option<string>, start: nat, before: seq<Event>, after: seq<Event>, topic: string)
    requires FromHandshakes(Channels(before + after))
    requires topic in Stranded(Run(Init(own, start), before))
    ensures topic in Stranded(Run(Run(Init(own, start), before), after))
  {
    FreshFromHandshakes(before + after, {});
    FreshSplit(before, after, {});
    RunInv(Init(own, start), before, {});
    RunStranded(Run(Init(own, start), before), after, After(before, {}));
  }

  /** A swept beacon's topic can stay listed: every handshake, announcement and
      timeout whose sweep is cut short ends with no beacon and one stranded topic. */
  lemma SweptTopicCanStayListed(id: string, url: string)
    ensures
      var s := Run(Init(None, 0), InterruptedRun(id, url));
      && Legal(Init(None, 0), InterruptedRun(id, url))
      && FromHandshakes(Channels(InterruptedRun(id, url)))
      && s.phase.Idle? && s.reg.records == map[] && Stranded(s) == {id + CAST}
  {
    InterruptedEnd(id, url);
    var es := InterruptedRun(id, url);
    ChannelsOf(es[0], es[1], es[2..]);
    NoChannels(es[2..]);
  }

  lemma ChannelsOf(a: Event, b: Event, rest: seq<Event>)
    requires a.Channel? && b.Channel?
    ensures Channels([a, b] + rest) == [a.ch, b.ch] + Channels(rest)
  {
    assert ([a, b] + rest)[1..] == [b] + rest && ([b] + rest)[1..] == rest;
  }

  lemma {:induction false} NoChannels(es: seq<Event>)
    requires forall e :: e in es ==> !e.Channel?
    ensures Channels(es) == []
  {
    if es == [] {
    } else {
      NoChannels(es[1..]);
    }
  }
}
