/** What the registry holds about a beacon, read off the events alone: every field
    of a record is what the messages and channels since it was created say. */
module History {
  import opened Common
  import opened Registry
  import opened MessageLoop

  /** The step is a message from beacon `id`. */
  ghost predicate Heard(s: Loop, e: Event, id: string) {
    Enabled(s, e) && e.Message? && e.topic == id + "/rec"
  }

  /** The step delivers a channel for beacon `id`. */
  ghost predicate Offered(s: Loop, e: Event, id: string) {
    Enabled(s, e) && e.Channel? && e.ch.beaconId == id
  }

  /** The step creates the record of beacon `id`. */
  ghost predicate Created(s: Loop, e: Event, id: string) {
    Offered(s, e, id) && id !in s.reg.records
  }

  /** When beacon `id` last sent anything, or else its record was created. */
  ghost function LastHeard(s0: Loop, es: seq<Event>, id: string): nat {
    if es == [] then 0
    else
      var k := |es| - 1;
      var s := Run(s0, es[..k]);
      if Heard(s, es[k], id) || Created(s, es[k], id) then es[k].now else LastHeard(s0, es[..k], id)
  }

  /** The topic of the last channel that we listen on for `id`; a failed subscribe does not count. */
  ghost function ListensOn(s0: Loop, es: seq<Event>, id: string): string {
    if es == [] then ""
    else
      var k := |es| - 1;
      var s := Run(s0, es[..k]);
      if Offered(s, es[k], id) && !es[k].ch.topicType.Broadcast? && es[k].subscribed then es[k].ch.topic
      else if Created(s, es[k], id) then ""
      else ListensOn(s0, es[..k], id)
  }

  /** The topic of the last channel that we broadcast on for `id`; a hybrid one must be subscribed. */
  ghost function CastsOn(s0: Loop, es: seq<Event>, id: string): string {
    if es == [] then ""
    else
      var k := |es| - 1;
      var s := Run(s0, es[..k]);
      if Offered(s, es[k], id) && (es[k].ch.topicType.Broadcast? || (es[k].ch.topicType.Hybrid? && es[k].subscribed))
      then es[k].ch.topic
      else if Created(s, es[k], id) then ""
      else CastsOn(s0, es[..k], id)
  }

  /** The last URL that `id` announced while it was not known. */
  ghost function Announces(s0: Loop, es: seq<Event>, id: string): Option<string> {
    if es == [] then None
    else
      var k := |es| - 1;
      var s := Run(s0, es[..k]);
      if Heard(s, es[k], id) && es[k].gatewayUrl.Some? && es[k].gatewayUrl.value !in s.reg.known then es[k].gatewayUrl
      else if Created(s, es[k], id) then None
      else Announces(s0, es[..k], id)
  }

  /** The time of the sweep that began last. */
  ghost function SweepBegan(s0: Loop, es: seq<Event>): nat {
    if es == [] then s0.clock
    else
      var k := |es| - 1;
      if Enabled(Run(s0, es[..k]), es[k]) && es[k].SweepStart? then es[k].now else SweepBegan(s0, es[..k])
  }

  /** The time of the sweep that was completed last. */
  ghost function SweepCompleted(s0: Loop, es: seq<Event>): nat {
    if es == [] then s0.clock
    else
      var k := |es| - 1;
      if Enabled(Run(s0, es[..k]), es[k]) && es[k].SweepEnd? then SweepBegan(s0, es[..k]) else SweepCompleted(s0, es[..k])
  }

  // ── One step ──────────────────────────────────────────────────────────────

  /** A topic belongs to the beacon that its suffix leaves. */
  lemma SenderOf(topic: string, id: string)
    ensures StripSuffix(topic, REC) == Some(id) <==> topic == id + "/rec"
  {
    StripSuffixOfAppend(id, "/rec");
    if EndsWith(topic, REC) {
      assert topic == topic[..|topic| - |REC|] + topic[|topic| - |REC|..];
    }
  }

  /** What a message does to each record, the list and the known URLs, by the topic
      it came on: `tx` is the handle of the task spawned for a URL not known yet. */
  ghost predicate MessageEffect(reg: Registry, reg': Registry, topic: string, gatewayUrl: Option<string>, now: nat, tx: nat) {
    var isNew := gatewayUrl.Some? && gatewayUrl.value !in reg.known;
    && reg'.topics == reg.topics
    && reg'.known == (if isNew then reg.known + {gatewayUrl.value} else reg.known)
    && reg'.records.Keys == reg.records.Keys
    && forall id :: id in reg.records ==>
         var r, r' := reg.records[id], reg'.records[id];
         if topic != id + "/rec" then r' == r
         else if isNew then
           r' == r.(lastSeen := now, gatewayUrl := gatewayUrl, shutdownTx := Some(Handle(tx, gatewayUrl.value)))
         else r' == r.(lastSeen := now)
  }

  lemma MessageHasEffect(s: Loop, topic: string, gatewayUrl: Option<string>, now: nat)
    ensures
      var s' := OnMessage(s, topic, gatewayUrl, now);
      && MessageEffect(s.reg, s'.reg, topic, gatewayUrl, now, s.spawned)
      && s'.spawned == s.spawned + (if gatewayUrl.Some? && gatewayUrl.value !in s.reg.known then 1 else 0)
  {
    forall id ensures StripSuffix(topic, REC) == Some(id) <==> topic == id + "/rec" {
      SenderOf(topic, id);
    }
  }

  /** What one step does to one record. */
  lemma RecordStep(s: Loop, e: Event, id: string)
    requires id in Next(s, e).reg.records
    ensures !Created(s, e, id) ==> id in s.reg.records
    ensures
      var r := Next(s, e).reg.records[id];
      var before := if id in s.reg.records then s.reg.records[id] else Record("", "", 0, None, None);
      && r.lastSeen == (if Heard(s, e, id) || Created(s, e, id) then e.now else before.lastSeen)
      && r.listenTopic == (if Offered(s, e, id) && !e.ch.topicType.Broadcast? && e.subscribed then e.ch.topic else before.listenTopic)
      && r.broadcastTopic
         == (if Offered(s, e, id) && (e.ch.topicType.Broadcast? || (e.ch.topicType.Hybrid? && e.subscribed)) then e.ch.topic
             else before.broadcastTopic)
      && r.gatewayUrl
         == (if Heard(s, e, id) && e.gatewayUrl.Some? && e.gatewayUrl.value !in s.reg.known then e.gatewayUrl
             else before.gatewayUrl)
  {
    if Enabled(s, e) && e.Message? {
      MessageHasEffect(s, e.topic, e.gatewayUrl, e.now);
    }
  }

  // ── Every run ─────────────────────────────────────────────────────────────

  /** In every reachable state each record says when its beacon was last heard,
      which topics are in use for it and which gateway it announced. */
  lemma {:induction false} RecordsTellHistory(own: Option<string>, start: nat, es: seq<Event>, id: string)
    requires id in Run(Init(own, start), es).reg.records
    ensures
      var s0 := Init(own, start);
      var r := Run(s0, es).reg.records[id];
      && r.lastSeen == LastHeard(s0, es, id)
      && r.listenTopic == ListensOn(s0, es, id)
      && r.broadcastTopic == CastsOn(s0, es, id)
      && r.gatewayUrl == Announces(s0, es, id)
  {
    var s0 := Init(own, start);
    if es == [] {
    } else {
      var k := |es| - 1;
      var s := Run(s0, es[..k]);
      assert es == es[..k] + [es[k]];
      RunAppend(s0, es[..k], es[k]);
      RecordStep(s, es[k], id);
      if id in s.reg.records {
        RecordsTellHistory(own, start, es[..k], id);
      }
    }
  }

  /** A sweep under way, and the last completed one, bear the time they began. */
  lemma {:induction false} SweepsTellHistory(own: Option<string>, start: nat, es: seq<Event>)
    ensures
      var s0 := Init(own, start);
      var s := Run(s0, es);
      && (s.phase.Sweeping? ==> s.phase.now == SweepBegan(s0, es))
      && s.lastSweep == SweepCompleted(s0, es)
  {
    var s0 := Init(own, start);
    if es == [] {
    } else {
      var k := |es| - 1;
      assert es == es[..k] + [es[k]];
      RunAppend(s0, es[..k], es[k]);
      SweepsTellHistory(own, start, es[..k]);
    }
  }
}
