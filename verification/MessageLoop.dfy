/** The `select!` loop of `App::run_beacon_message_loop` (src/app.rs) as a state
    machine. The stale-beacon sweep is a `select!` branch, so it appears as
    micro-steps that another branch may cut short at an await. */
module MessageLoop {
  import opened Common
  import opened Registry

  /** A record the sweep has taken out of the map but not yet cleaned up after. */
  datatype Removed = Removed(id: string, record: Record)

  datatype Phase =
    | Idle
    | Sweeping(now: nat, todo: seq<string>, current: Option<Removed>)

  /** `open` holds the shutdown handles not yet dropped; `spawned` counts the
      WebSocket tasks ever spawned. `clock` is the latest reading of the monotonic
      clock and `lastSweep` that of the last completed sweep. */
  datatype Loop = Loop(
    own: Option<string>,
    reg: Registry,
    phase: Phase,
    open: set<Handle>,
    spawned: nat,
    clock: nat,
    lastSweep: nat)

  datatype Event =
    | Channel(ch: TopicChannel, now: nat, subscribed: bool)
    | Message(topic: string, gatewayUrl: Option<string>, now: nat)
    | SweepStart(now: nat, order: seq<string>)
    | SweepRemove
    | SweepFinish
    | SweepEnd
    | SweepCancel

  function Init(own: Option<string>, start: nat): Loop {
    Loop(own, New(own, []), Idle, {}, 0, start, start)
  }

  /** Cleaning up after this record passes through at least one await. */
  predicate HasAwait(r: Record) {
    r.listenTopic != "" || r.broadcastTopic != ""
  }

  ghost predicate Enabled(s: Loop, e: Event) {
    match e
    case Channel(_, now, _) => s.phase.Idle? && s.clock <= now
    case Message(_, _, now) => s.phase.Idle? && s.clock <= now
    case SweepStart(now, order) =>
      s.phase.Idle? && s.clock <= now && Distinct(order) && Elements(order) == Stale(s.reg.records, now)
    case SweepRemove => s.phase.Sweeping? && s.phase.current.None? && s.phase.todo != []
    case SweepFinish => s.phase.Sweeping? && s.phase.current.Some?
    case SweepEnd => s.phase.Sweeping? && s.phase.current.None? && s.phase.todo == []
    case SweepCancel => s.phase.Sweeping? && s.phase.current.Some? && HasAwait(s.phase.current.value.record)
  }

  function HandleOf(r: Record): set<Handle> {
    if r.shutdownTx.Some? then {r.shutdownTx.value} else {}
  }

  /** The record that a message on `topic` connects a new gateway for, if any. */
  function Sender(s: Loop, topic: string): Option<string> {
    match StripSuffix(topic, REC)
    case Some(id) => if id in s.reg.records then Some(id) else None
    case None => None
  }

  function OnMessage(s: Loop, topic: string, gatewayUrl: Option<string>, now: nat): Loop {
    var from := Sender(s, topic);
    var reg := if from.Some? then Touch(s.reg, from.value, now) else s.reg;
    var s1 := s.(reg := reg, clock := now);
    if gatewayUrl.None? || gatewayUrl.value in reg.known then s1
    else
      var url := gatewayUrl.value;
      var tx := Handle(s.spawned, url);
      var reg1 := reg.(known := reg.known + {url});
      if from.Some? then
        s1.(reg := Associate(reg1, from.value, url, tx), spawned := s.spawned + 1,
            open := s.open + {tx} - HandleOf(s.reg.records[from.value]))
      else
        // Nobody keeps the handle, so it is dropped at once.
        s1.(reg := reg1, spawned := s.spawned + 1)
  }

  /** A message changes at most its sender's record, whose topics stay. */
  lemma MessageShape(s: Loop, e: Event)
    requires e.Message?
    ensures
      var s' := OnMessage(s, e.topic, e.gatewayUrl, e.now);
      && s'.reg.topics == s.reg.topics && s'.phase == s.phase
      && match Sender(s, e.topic)
         case None => s'.reg.records == s.reg.records
         case Some(id) =>
           && id in s'.reg.records
           && s'.reg.records == s.reg.records[id := s'.reg.records[id]]
           && s'.reg.records[id].broadcastTopic == s.reg.records[id].broadcastTopic
           && s'.reg.records[id].lastSeen == e.now
  {
  }

  ghost function Apply(s: Loop, e: Event): Loop
    requires Enabled(s, e)
  {
    match e
    case Channel(ch, now, subscribed) => s.(reg := Register(s.reg, ch, now, subscribed), clock := now)
    case Message(topic, gatewayUrl, now) => OnMessage(s, topic, gatewayUrl, now)
    case SweepStart(now, order) => s.(phase := Sweeping(now, order, None), clock := now)
    case SweepRemove =>
      var id := s.phase.todo[0];
      var rest := s.phase.todo[1..];
      if id in s.reg.records then
        s.(reg := s.reg.(records := s.reg.records - {id}),
           phase := s.phase.(todo := rest, current := Some(Removed(id, s.reg.records[id]))))
      else
        s.(phase := s.phase.(todo := rest))
    case SweepFinish =>
      var r := s.phase.current.value.record;
      s.(reg := Evict(s.reg, r), phase := s.phase.(current := None), open := s.open - HandleOf(r))
    case SweepEnd => s.(phase := Idle, lastSweep := s.phase.now)
    case SweepCancel =>
      s.(phase := Idle, open := s.open - HandleOf(s.phase.current.value.record))
  }

  /** An event the loop is not ready for changes nothing. */
  ghost function Next(s: Loop, e: Event): Loop {
    if Enabled(s, e) then Apply(s, e) else s
  }

  ghost function Run(s: Loop, es: seq<Event>): Loop
    decreases |es|
  {
    if es == [] then s else Run(Next(s, es[0]), es[1..])
  }

  lemma {:induction false} RunAppend(s: Loop, es: seq<Event>, e: Event)
    ensures Run(s, es + [e]) == Next(Run(s, es), e)
    decreases |es|
  {
    if es == [] {
      assert es + [e] == [e];
      assert Run(Next(s, e), []) == Next(s, e);
    } else {
      assert (es + [e])[1..] == es[1..] + [e];
      RunAppend(Next(s, es[0]), es[1..], e);
    }
  }

  /** Every event is one the loop is ready for. */
  ghost predicate Legal(s: Loop, es: seq<Event>)
    decreases |es|
  {
    es == [] || (Enabled(s, es[0]) && Legal(Next(s, es[0]), es[1..]))
  }

  lemma {:induction false} LegalAppend(s: Loop, es: seq<Event>, e: Event)
    requires Legal(s, es) && Enabled(Run(s, es), e)
    ensures Legal(s, es + [e])
    decreases |es|
  {
    if es == [] {
      assert es + [e] == [e] && [e][1..] == [];
    } else {
      assert (es + [e])[1..] == es[1..] + [e];
      LegalAppend(Next(s, es[0]), es[1..], e);
    }
  }

  // ── Spawned tasks ─────────────────────────────────────────────────────────

  /** The handle of the WebSocket task that this step spawns, if any. */
  ghost function SpawnedBy(s: Loop, e: Event): Option<Handle> {
    if Enabled(s, e) && e.Message? && e.gatewayUrl.Some? && e.gatewayUrl.value !in s.reg.known
    then Some(Handle(s.spawned, e.gatewayUrl.value))
    else None
  }

  /** Spawned handles are numbered consecutively, and only they are ever added to `open`. */
  lemma SpawnShape(s: Loop, e: Event)
    ensures
      var s' := Next(s, e);
      && s'.own == s.own
      && match SpawnedBy(s, e)
         case None => s'.spawned == s.spawned && s'.open <= s.open
         case Some(h) => h.id == s.spawned && s'.spawned == s.spawned + 1 && s'.open <= s.open + {h}
  {
  }

  /** No event of the run spawns a task to `url`. */
  ghost predicate NeverSpawns(s: Loop, es: seq<Event>, url: string)
    decreases |es|
  {
    es == []
    || ((SpawnedBy(s, es[0]).Some? ==> SpawnedBy(s, es[0]).value.url != url) && NeverSpawns(Next(s, es[0]), es[1..], url))
  }

  // ── Concrete runs ─────────────────────────────────────────────────────────

  lemma Prepend(s: Loop, e: Event, rest: seq<Event>)
    ensures Run(s, [e] + rest) == Run(Next(s, e), rest)
    ensures Enabled(s, e) && Legal(Next(s, e), rest) ==> Legal(s, [e] + rest)
  {
    assert ([e] + rest)[1..] == rest;
  }

  lemma {:induction false} RunConcat(s: Loop, a: seq<Event>, b: seq<Event>)
    ensures Run(s, a + b) == Run(Run(s, a), b)
    ensures Legal(s, a) && Legal(Run(s, a), b) ==> Legal(s, a + b)
    decreases |a|
  {
    if a == [] {
      assert a + b == b;
    } else {
      assert (a + b)[1..] == a[1..] + b;
      RunConcat(Next(s, a[0]), a[1..], b);
    }
  }

  /** The two channels of a device handshake arrive. */
  function Handshake(id: string, now: nat): seq<Event> {
    [Channel(ListenChannel(id), now, true), Channel(BroadcastChannel(id), now, true)]
  }

  function AfterHandshake(s: Loop, id: string, now: nat): Loop {
    s.(reg := s.reg.(records := s.reg.records[id := Record(id + REC, id + CAST, now, None, None)],
                     topics := s.reg.topics + [id + CAST]),
       clock := now)
  }

  lemma HandshakeDone(s: Loop, id: string, now: nat)
    requires s.phase.Idle? && s.clock <= now && id !in s.reg.records
    ensures Legal(s, Handshake(id, now)) && Run(s, Handshake(id, now)) == AfterHandshake(s, id, now)
  {
    var e1, e2 := Channel(ListenChannel(id), now, true), Channel(BroadcastChannel(id), now, true);
    var s1 := Next(s, e1);
    assert s1.reg.records == s.reg.records[id := Record(id + REC, "", now, None, None)];
    var s2 := Next(s1, e2);
    assert s2.reg.records == s.reg.records[id := Record(id + REC, id + CAST, now, None, None)];
    Prepend(s1, e2, []);
    Prepend(s, e1, [e2]);
  }

  /** A beacon without a gateway announces one that is not known yet. */
  function AfterAnnouncement(s: Loop, id: string, url: string, now: nat): Loop
    requires id in s.reg.records
  {
    var tx := Handle(s.spawned, url);
    var r := s.reg.records[id].(lastSeen := now, gatewayUrl := Some(url), shutdownTx := Some(tx));
    s.(reg := s.reg.(records := s.reg.records[id := r], known := s.reg.known + {url}),
       open := s.open + {tx}, spawned := s.spawned + 1, clock := now)
  }

  lemma AnnouncementDone(s: Loop, id: string, url: string, now: nat)
    requires s.phase.Idle? && s.clock <= now && id in s.reg.records && s.reg.records[id].shutdownTx.None?
    requires url !in s.reg.known
    ensures
      var e := Message(id + REC, Some(url), now);
      Enabled(s, e) && Next(s, e) == AfterAnnouncement(s, id, url, now) && SpawnedBy(s, e) == Some(Handle(s.spawned, url))
  {
    StripSuffixOfAppend(id, REC);
    assert Sender(s, id + REC) == Some(id);
    var r := s.reg.records[id].(lastSeen := now);
    assert Touch(s.reg, id, now).records == s.reg.records[id := r];
    var tx := Handle(s.spawned, url);
    var r' := r.(gatewayUrl := Some(url), shutdownTx := Some(tx));
    assert s.reg.records[id := r][id := r'] == s.reg.records[id := r'];
    assert s.open + {tx} - {} == s.open + {tx};
  }

  /** A sweep that finds one stale beacon and runs to its end. */
  function Sweep(id: string, now: nat): seq<Event> {
    [SweepStart(now, [id]), SweepRemove, SweepFinish, SweepEnd]
  }

  lemma SweepDone(s: Loop, id: string, now: nat)
    requires s.phase.Idle? && s.clock <= now && id in s.reg.records && Stale(s.reg.records, now) == {id}
    ensures
      var r := s.reg.records[id];
      && Legal(s, Sweep(id, now))
      && Run(s, Sweep(id, now))
         == s.(reg := Evict(s.reg.(records := s.reg.records - {id}), r),
               open := s.open - HandleOf(r), clock := now, lastSweep := now)
  {
    assert Elements([id]) == {id};
    var s1 := Next(s, SweepStart(now, [id]));
    var s2 := Next(s1, SweepRemove);
    var s3 := Next(s2, SweepFinish);
    Prepend(s3, SweepEnd, []);
    Prepend(s2, SweepFinish, [SweepEnd]);
    Prepend(s1, SweepRemove, [SweepFinish, SweepEnd]);
    Prepend(s, SweepStart(now, [id]), [SweepRemove, SweepFinish, SweepEnd]);
  }

  // ── A sweep cut short ─────────────────────────────────────────────────────

  /** A beacon completes its handshake, announces a gateway and falls silent; the
      sweep that removes it is cut short while it unsubscribes. */
  function InterruptedRun(id: string, url: string): seq<Event> {
    Handshake(id, 0) + ([Message(id + REC, Some(url), 0)] + [SweepStart(121, [id]), SweepRemove, SweepCancel])
  }

  /** The record is gone and so is its handle, but the URL stays known and the topic listed. */
  lemma InterruptedEnd(id: string, url: string)
    ensures Legal(Init(None, 0), InterruptedRun(id, url))
    ensures Run(Init(None, 0), InterruptedRun(id, url))
         == Loop(None, Registry(map[], {url}, [id + CAST]), Idle, {}, 1, 121, 0)
  {
    var s0 := Init(None, 0);
    var msg, cut := Message(id + REC, Some(url), 0), [SweepStart(121, [id]), SweepRemove, SweepCancel];
    HandshakeDone(s0, id, 0);
    var s1 := AfterHandshake(s0, id, 0);
    AnnouncementDone(s1, id, url, 0);
    var s2 := AfterAnnouncement(s1, id, url, 0);
    SweepCutShort(s2, id, s2.reg.records[id]);
    Prepend(s1, msg, cut);
    RunConcat(s0, Handshake(id, 0), [msg] + cut);
  }

  lemma SweepCutShort(s: Loop, id: string, r: Record)
    requires s.phase.Idle? && s.clock <= 121 && s.reg.records == map[id := r] && IsStale(r, 121) && HasAwait(r)
    ensures
      var es := [SweepStart(121, [id]), SweepRemove, SweepCancel];
      && Legal(s, es)
      && Run(s, es) == s.(reg := s.reg.(records := map[]), clock := 121, open := s.open - HandleOf(r))
  {
    assert Stale(s.reg.records, 121) == {id} == Elements([id]);
    var s1 := Next(s, SweepStart(121, [id]));
    var s2 := Next(s1, SweepRemove);
    assert s.reg.records - {id} == map[];
    Prepend(s2, SweepCancel, []);
    Prepend(s1, SweepRemove, [SweepCancel]);
    Prepend(s, SweepStart(121, [id]), [SweepRemove, SweepCancel]);
  }

  /** The records still alive: those in the map and the one being swept. */
  function Holders(s: Loop): map<string, Record> {
    if s.phase.Sweeping? && s.phase.current.Some?
    then s.reg.records[s.phase.current.value.id := s.phase.current.value.record]
    else s.reg.records
  }

  /** When the sweep is done with a record, or is cut short, that record stops being alive. */
  lemma ReleaseHolders(s: Loop, e: Event)
    requires PendingApart(s) && Enabled(s, e) && (e.SweepFinish? || e.SweepCancel?)
    ensures s.phase.current.value.id in Holders(s)
    ensures Holders(s)[s.phase.current.value.id] == s.phase.current.value.record
    ensures Holders(Next(s, e)) == Holders(s) - {s.phase.current.value.id}
  {
    assert Next(s, e).reg.records == s.reg.records;
  }

  predicate PendingApart(s: Loop) {
    s.phase.Sweeping? && s.phase.current.Some? ==> s.phase.current.value.id !in s.reg.records
  }
}
