/** The services the supervisor actually owns, and what the status map says about
    their private state over every command sequence. */
module Services {
  import opened Common
  import opened Supervisor

  /** The outcomes of the fallible parts of `start`. */
  datatype Outcome = Outcome(bindOk: bool, tlsOk: bool, optionsOk: bool)

  // In the states below a field is true while the corresponding `Option` is
  // `Some`; `spawned` counts the tasks that were handed the service's receivers.

  // ── GatewayService (beacon_management/gateway_service.rs) ─────────────────

  datatype HttpState = HttpState(tlsEnabled: bool, shutdownTx: bool)

  const BIND_FAILED := "Failed to bind listener"

  /** The handle is stored before the TLS step, which may still fail. */
  function StartHttp(s: HttpState, o: Outcome): (HttpState, Result<nat>) {
    if s.shutdownTx then (s, Err("already running"))
    else if !o.bindOk then (s, Err(BIND_FAILED))
    else if s.tlsEnabled && !o.tlsOk then (s.(shutdownTx := true), Err("Failed to build TLS config"))
    else (s.(shutdownTx := true), Ok(0))
  }

  function StopHttp(s: HttpState): (HttpState, Result<()>) {
    if s.shutdownTx then (s.(shutdownTx := false), Ok(())) else (s, Err("not running"))
  }

  // ── MqttClientService (mqtt_client/mqtt_client_service.rs) ────────────────

  datatype ClientState = ClientState(
    cmdRx: bool, outRx: bool, connectedTx: bool, shutdownTx: bool, cmdShutdownTx: bool, spawned: nat)

  /** `take_channels`: the three endpoints are taken one after the other. */
  function TakeChannels(s: ClientState): (ClientState, Result<()>) {
    if !s.cmdRx then (s, Err("command receiver already consumed"))
    else if !s.outRx then (s.(cmdRx := false), Err("outbound receiver already consumed"))
    else if !s.connectedTx then (s.(cmdRx := false, outRx := false), Err("connected sender already consumed"))
    else (s.(cmdRx := false, outRx := false, connectedTx := false), Ok(()))
  }

  function StartClient(s: ClientState, o: Outcome): (ClientState, Result<nat>) {
    if s.shutdownTx then (s, Err("already running"))
    else
      var (s1, r) := TakeChannels(s);
      if r.Err? then (s1, Err(r.error))
      else if !o.optionsOk then (s1, Err("Failed to build MQTT options"))
      else (s1.(shutdownTx := true, cmdShutdownTx := true, spawned := s.spawned + 1), Ok(0))
  }

  function StopClient(s: ClientState): (ClientState, Result<()>) {
    if s.shutdownTx then (s.(shutdownTx := false, cmdShutdownTx := false), Ok(())) else (s, Err("not running"))
  }

  // ── GatewayMqttService (gateway_mqtt/gateway_mqtt_service.rs) ─────────────

  datatype OneShotState = OneShotState(outboundRx: bool, shutdownTx: bool, spawned: nat)

  function StartOneShot(s: OneShotState, o: Outcome): (OneShotState, Result<nat>) {
    if !s.outboundRx then (s, Err("already started"))
    else (OneShotState(false, true, s.spawned + 1), Ok(0))
  }

  function StopOneShot(s: OneShotState): (OneShotState, Result<()>) {
    (s.(shutdownTx := false), Ok(()))
  }

  // ── Any of them ───────────────────────────────────────────────────────────

  datatype Service = Http(http: HttpState) | Client(client: ClientState) | OneShot(oneShot: OneShotState)

  function StartService(s: Service, o: Outcome): (Service, Result<nat>) {
    match s
    case Http(h) => var (h', r) := StartHttp(h, o); (Http(h'), r)
    case Client(c) => var (c', r) := StartClient(c, o); (Client(c'), r)
    case OneShot(g) => var (g', r) := StartOneShot(g, o); (OneShot(g'), r)
  }

  function StopService(s: Service): (Service, Result<()>) {
    match s
    case Http(h) => var (h', r) := StopHttp(h); (Http(h'), r)
    case Client(c) => var (c', r) := StopClient(c); (Client(c'), r)
    case OneShot(g) => var (g', r) := StopOneShot(g); (OneShot(g'), r)
  }

  const BEHAVIOUR: Behaviour<Service, Outcome> := Behaviour(StartService, StopService)

  /** The service holds the handle that stops its tasks. */
  predicate HoldsHandle(s: Service) {
    match s
    case Http(h) => h.shutdownTx
    case Client(c) => c.shutdownTx
    case OneShot(g) => g.shutdownTx
  }

  /** Still has the receivers that only one task can be given. */
  predicate HasReceiver(s: Service) {
    match s
    case Http(_) => true
    case Client(c) => c.cmdRx
    case OneShot(g) => g.outboundRx
  }

  /** How many tasks got the receivers. */
  function Spawned(s: Service): nat {
    match s
    case Http(_) => 0
    case Client(c) => c.spawned
    case OneShot(g) => g.spawned
  }

  /** A service as its constructor leaves it. */
  predicate IsNew(s: Service) {
    match s
    case Http(h) => !h.shutdownTx
    case Client(c) => c == ClientState(true, true, true, false, false, 0)
    case OneShot(g) => g == OneShotState(true, false, 0)
  }

  predicate AllNew(rs: seq<Registration<Service>>) {
    forall i :: 0 <= i < |rs| ==> IsNew(rs[i].service)
  }

  // ── Agreement of status and private state ─────────────────────────────────

  predicate Agrees(status: Status, svc: Service) {
    && (status.Running? ==> HoldsHandle(svc))
    && (status.Stopped? || status.Unavailable? ==> !HoldsHandle(svc))
    && (status.Failed? ==> (HoldsHandle(svc) <==> svc.Http? && status.reason != BIND_FAILED))
    && (status.Failed? || status.Running? ==> svc.Http? || !HasReceiver(svc))
    && (svc.Client? ==>
          && svc.client.cmdRx == svc.client.outRx == svc.client.connectedTx
          && svc.client.shutdownTx == svc.client.cmdShutdownTx)
  }

  function Starts(calls: seq<Call>, id: ServiceId): nat {
    if calls == [] then 0
    else
      var c := calls[|calls| - 1];
      Starts(calls[..|calls| - 1], id) + (if c == Call(id, StartCall, true) then 1 else 0)
  }

  /** A one-shot service is untouched until its receivers are gone; the tasks that
      got them number its successful starts, and that is never more than one. */
  ghost predicate OneShotInv(s: Supervised<Service>, id: ServiceId) {
    id in s.services && !s.services[id].Http? ==>
      && var svc := s.services[id];
      && Spawned(svc) == Starts(s.calls, id) <= (if HasReceiver(svc) then 0 else 1)
      && (HasReceiver(svc) <==> Uncalled(s.calls, id))
  }

  ghost predicate ServiceOk(s: Supervised<Service>, id: ServiceId) {
    && (id in s.services <==> id in s.statuses)
    && (id in s.services ==> Agrees(s.statuses[id], s.services[id]) && !s.statuses[id].Starting?)
    && (id !in s.services ==> Uncalled(s.calls, id) && Starts(s.calls, id) == 0)
    && OneShotInv(s, id)
  }

  ghost predicate Inv(s: Supervised<Service>) {
    forall id :: ServiceOk(s, id)
  }

  lemma OneMoreStart(calls: seq<Call>, c: Call, id: ServiceId)
    ensures Starts(calls + [c], id) == Starts(calls, id) + (if c == Call(id, StartCall, true) then 1 else 0)
  {
    assert (calls + [c])[..|calls|] == calls;
  }

  /** One start, seen from inside the service. */
  lemma StartInside(status: Status, svc: Service, o: Outcome)
    requires Agrees(status, svc) && (status.Stopped? || status.Failed?)
    ensures
      var (svc', r) := StartService(svc, o);
      && Agrees(if r.Ok? then Running(r.value) else Failed(r.error), svc')
      && (svc'.Http? <==> svc.Http?)
      && (!svc.Http? ==>
            && !HasReceiver(svc')
            && Spawned(svc') == Spawned(svc) + (if r.Ok? then 1 else 0)
            && (r.Ok? ==> HasReceiver(svc)))
  {
  }

  /** A call into one service leaves the others as they were. */
  lemma OthersKept(s: Supervised<Service>, s': Supervised<Service>, c: Call, k: ServiceId)
    requires ServiceOk(s, k) && k != c.id && s'.calls == s.calls + [c]
    requires k in s'.services <==> k in s.services
    requires k in s'.statuses <==> k in s.statuses
    requires k in s.services ==> s'.services[k] == s.services[k] && s'.statuses[k] == s.statuses[k]
    ensures ServiceOk(s', k)
  {
    OneMoreStart(s.calls, c, k);
  }

  /** The service that was called. */
  lemma CalledKept(s: Supervised<Service>, s': Supervised<Service>, c: Call)
    requires ServiceOk(s, c.id) && c.id in s.services && s'.calls == s.calls + [c]
    requires c.id in s'.services && c.id in s'.statuses && !s'.statuses[c.id].Starting?
    requires Agrees(s'.statuses[c.id], s'.services[c.id])
    requires
      var svc, svc' := s.services[c.id], s'.services[c.id];
      && (svc'.Http? <==> svc.Http?)
      && (!svc.Http? ==>
            && !HasReceiver(svc')
            && Spawned(svc') == Spawned(svc) + (if c.kind.StartCall? && c.ok then 1 else 0)
            && (c.kind.StartCall? && c.ok ==> HasReceiver(svc)))
    ensures ServiceOk(s', c.id)
  {
    OneMoreStart(s.calls, c, c.id);
    assert s'.calls[|s.calls|] == c;
  }

  lemma StartStep(s: Supervised<Service>, id: ServiceId, o: Outcome)
    requires Inv(s)
    ensures Inv(HandleStart(BEHAVIOUR, s, id, o).0)
  {
    var s' := HandleStart(BEHAVIOUR, s, id, o).0;
    assert ServiceOk(s, id);
    if s' != s {
      var c := Call(id, StartCall, StartService(s.services[id], o).1.Ok?);
      StartInside(s.statuses[id], s.services[id], o);
      CalledKept(s, s', c);
      forall k | k != id ensures ServiceOk(s', k) {
        assert ServiceOk(s, k);
        OthersKept(s, s', c, k);
      }
    }
  }

  /** One stop, seen from inside the service. */
  lemma StopInside(status: Status, svc: Service)
    requires Agrees(status, svc) && (status.Running? || status.Failed?)
    ensures
      var (svc', r) := StopService(svc);
      && Agrees(if r.Ok? then Stopped else status, svc')
      && (svc'.Http? <==> svc.Http?)
      && (!svc.Http? ==> !HasReceiver(svc') && Spawned(svc') == Spawned(svc))
      && (status.Running? ==> r.Ok?)
      && (svc.Http? ==> svc'.http.tlsEnabled == svc.http.tlsEnabled)
      && (r.Ok? ==> !HoldsHandle(svc'))
  {
  }

  lemma StopStep(s: Supervised<Service>, id: ServiceId)
    requires Inv(s)
    ensures Inv(HandleStop(BEHAVIOUR, s, id).0)
  {
    var s' := HandleStop(BEHAVIOUR, s, id).0;
    assert ServiceOk(s, id);
    if s' != s {
      var c := Call(id, StopCall, StopService(s.services[id]).1.Ok?);
      StopInside(s.statuses[id], s.services[id]);
      CalledKept(s, s', c);
      forall k | k != id ensures ServiceOk(s', k) {
        assert ServiceOk(s, k);
        OthersKept(s, s', c, k);
      }
    }
  }

  lemma Step(s: Supervised<Service>, c: Command<Outcome>)
    requires Inv(s)
    ensures Inv(Next(BEHAVIOUR, s, c))
  {
    match c
    case Start(id, o) => StartStep(s, id, o);
    case Stop(id) => StopStep(s, id);
    case Restart(id, o) =>
      StopStep(s, id);
      var s1 := if id in s.statuses && s.statuses[id].Running? then HandleStop(BEHAVIOUR, s, id).0 else s;
      StartStep(s1, id, o);
    case GetStatus =>
  }

  lemma RegisterKeeps(s: Supervised<Service>, r: Registration<Service>)
    requires Inv(s) && s.calls == [] && IsNew(r.service)
    ensures Inv(Register(s, r))
  {
    forall id ensures ServiceOk(Register(s, r), id) {
      assert ServiceOk(s, id);
    }
  }

  lemma {:induction false} RegisterAllOk(rs: seq<Registration<Service>>)
    requires AllNew(rs)
    ensures Inv(RegisterAll(rs)) && RegisterAll(rs).calls == []
  {
    if rs == [] {
    } else {
      RegisterAllOk(rs[..|rs| - 1]);
      RegisterKeeps(RegisterAll(rs[..|rs| - 1]), rs[|rs| - 1]);
    }
  }

  lemma {:induction false} RunKeeps(s: Supervised<Service>, cs: seq<Command<Outcome>>)
    requires Inv(s)
    ensures Inv(Run(BEHAVIOUR, s, cs))
  {
    if cs == [] {
    } else {
      RunKeeps(s, cs[..|cs| - 1]);
      Step(Run(BEHAVIOUR, s, cs[..|cs| - 1]), cs[|cs| - 1]);
    }
  }

  lemma RunOk(rs: seq<Registration<Service>>, cs: seq<Command<Outcome>>)
    requires AllNew(rs)
    ensures Inv(Run(BEHAVIOUR, RegisterAll(rs), cs))
  {
    RegisterAllOk(rs);
    RunKeeps(RegisterAll(rs), cs);
  }

  // ── One service at a time ─────────────────────────────────────────────────

  /** What the supervisor knows of one service, and the service itself. */
  datatype View = View(status: Status, service: Service)

  predicate Registered(s: Supervised<Service>, id: ServiceId) {
    id in s.statuses && id in s.services
  }

  function ViewOf(s: Supervised<Service>, id: ServiceId): View
    requires Registered(s, id)
  {
    View(s.statuses[id], s.services[id])
  }

  function StartView(v: View, o: Outcome): (View, bool) {
    if v.status.Stopped? || v.status.Failed? then
      var (svc, r) := StartService(v.service, o);
      (View(if r.Ok? then Running(r.value) else Failed(r.error), svc), r.Ok?)
    else (v, false)
  }

  function StopView(v: View): (View, bool) {
    if v.status.Stopped? || v.status.Unavailable? then (v, false)
    else
      var (svc, r) := StopService(v.service);
      (View(if r.Ok? then Stopped else v.status, svc), r.Ok?)
  }

  function RestartView(v: View, o: Outcome): (View, bool) {
    StartView(if v.status.Running? then StopView(v).0 else v, o)
  }

  lemma StartLocal(s: Supervised<Service>, k: ServiceId, o: Outcome, id: ServiceId)
    requires Registered(s, id)
    ensures
      var (s', r) := HandleStart(BEHAVIOUR, s, k, o);
      && Registered(s', id)
      && ViewOf(s', id) == (if k == id then StartView(ViewOf(s, id), o).0 else ViewOf(s, id))
      && (k == id ==> (r.Ok? <==> StartView(ViewOf(s, id), o).1))
  {
  }

  lemma StopLocal(s: Supervised<Service>, k: ServiceId, id: ServiceId)
    requires Registered(s, id)
    ensures
      var (s', r) := HandleStop(BEHAVIOUR, s, k);
      && Registered(s', id)
      && ViewOf(s', id) == (if k == id then StopView(ViewOf(s, id)).0 else ViewOf(s, id))
      && (k == id ==> (r.Ok? <==> StopView(ViewOf(s, id)).1))
  {
  }

  lemma RestartLocal(s: Supervised<Service>, k: ServiceId, o: Outcome, id: ServiceId)
    requires Registered(s, id)
    ensures
      var (s', r) := HandleRestart(BEHAVIOUR, s, k, o);
      && Registered(s', id)
      && ViewOf(s', id) == (if k == id then RestartView(ViewOf(s, id), o).0 else ViewOf(s, id))
      && (k == id ==> (r.Ok? <==> RestartView(ViewOf(s, id), o).1))
  {
    var s1 := if k in s.statuses && s.statuses[k].Running? then HandleStop(BEHAVIOUR, s, k).0 else s;
    StopLocal(s, k, id);
    StartLocal(s1, k, o, id);
  }

  /** A command acts on the service it names and on no other. */
  function CommandView(v: View, c: Command<Outcome>, id: ServiceId): View {
    match c
    case Start(k, o) => if k == id then StartView(v, o).0 else v
    case Stop(k) => if k == id then StopView(v).0 else v
    case Restart(k, o) => if k == id then RestartView(v, o).0 else v
    case GetStatus => v
  }

  lemma CommandLocal(s: Supervised<Service>, c: Command<Outcome>, id: ServiceId)
    requires Registered(s, id)
    ensures Registered(Next(BEHAVIOUR, s, c), id)
    ensures ViewOf(Next(BEHAVIOUR, s, c), id) == CommandView(ViewOf(s, id), c, id)
  {
    match c
    case Start(k, o) => StartLocal(s, k, o, id);
    case Stop(k) => StopLocal(s, k, id);
    case Restart(k, o) => RestartLocal(s, k, o, id);
    case GetStatus =>
  }

  /** The socket binds and TLS, if enabled, can be set up. */
  predicate SetsUp(h: HttpState, o: Outcome) {
    o.bindOk && (h.tlsEnabled ==> o.tlsOk)
  }

  predicate ViewOk(v: View) {
    Agrees(v.status, v.service) && !v.status.Starting?
  }

  /** What is left of a Running service once it was stopped. */
  lemma StopRunningView(v: View)
    requires ViewOk(v) && v.status.Running?
    ensures
      var v1 := StopView(v).0;
      && StopView(v).1 && v1.status.Stopped? && !HoldsHandle(v1.service) && ViewOk(v1)
      && (v1.service.Http? <==> v.service.Http?) && (v1.service.Client? <==> v.service.Client?)
      && (v.service.Http? ==> v1.service == Http(HttpState(v.service.http.tlsEnabled, false)))
      && (!v.service.Http? ==> !HasReceiver(v1.service))
  {
  }

  lemma StartHttpView(v: View, o: Outcome)
    requires ViewOk(v) && v.service.Http?
    ensures
      var (v', ok) := StartView(v, o);
      && (ok <==> (v.status.Stopped? || v.status == Failed(BIND_FAILED)) && SetsUp(v.service.http, o))
      && (ok ==> v'.status == Running(0) && HoldsHandle(v'.service))
      && (!ok && (v.status.Stopped? || v.status.Failed?) ==> v'.status.Failed?)
  {
  }

  lemma StartOneShotView(v: View, o: Outcome)
    requires ViewOk(v) && !v.service.Http?
    ensures
      var (v', ok) := StartView(v, o);
      && (ok <==> HasReceiver(v.service) && !v.status.Unavailable? && (v.service.Client? ==> o.optionsOk))
      && (ok ==> v'.status == Running(0))
      && (v.status.Stopped? && !HasReceiver(v.service) ==> v'.status.Failed? && !HoldsHandle(v'.service))
  {
  }

  lemma RestartAnyView(v: View, o: Outcome)
    requires ViewOk(v)
    ensures
      var (v', ok) := RestartView(v, o);
      if v.service.Http? then
        && (ok <==> (v.status.Running? || v.status.Stopped? || v.status == Failed(BIND_FAILED)) && SetsUp(v.service.http, o))
        && (ok ==> v'.status == Running(0) && HoldsHandle(v'.service))
        && (!ok && v.status.Running? ==> v'.status.Failed?)
      else
        && (ok <==> HasReceiver(v.service) && !v.status.Unavailable? && (v.service.Client? ==> o.optionsOk))
        && (v.status.Running? ==> !ok && v'.status.Failed? && !HoldsHandle(v'.service))
  {
    var v1 := if v.status.Running? then StopView(v).0 else v;
    if v.status.Running? {
      StopRunningView(v);
    }
    if v.service.Http? {
      StartHttpView(v1, o);
    } else {
      StartOneShotView(v1, o);
    }
  }

  lemma AllLocal(rs: seq<Registration<Service>>, cs: seq<Command<Outcome>>, id: ServiceId, o: Outcome)
    requires AllNew(rs) && id in Run(BEHAVIOUR, RegisterAll(rs), cs).services
    ensures
      var s := Run(BEHAVIOUR, RegisterAll(rs), cs);
      && Registered(s, id) && ServiceOk(s, id)
      && (var (s', r) := HandleStart(BEHAVIOUR, s, id, o);
          Registered(s', id) && (ViewOf(s', id), r.Ok?) == StartView(ViewOf(s, id), o))
      && (var (s', r) := HandleStop(BEHAVIOUR, s, id);
          Registered(s', id) && (ViewOf(s', id), r.Ok?) == StopView(ViewOf(s, id)))
      && (var (s', r) := HandleRestart(BEHAVIOUR, s, id, o);
          Registered(s', id) && (ViewOf(s', id), r.Ok?) == RestartView(ViewOf(s, id), o))
  {
    RunOk(rs, cs);
    var s := Run(BEHAVIOUR, RegisterAll(rs), cs);
    assert ServiceOk(s, id);
    StartLocal(s, id, o, id);
    StopLocal(s, id, id);
    RestartLocal(s, id, o, id);
  }

  // ── Every command sequence ────────────────────────────────────────────────

  /** Running means the shutdown handle is held and Stopped that it is not; only
      the HTTP gateway can be Failed and hold one. */
  lemma StatusMatchesService(rs: seq<Registration<Service>>, cs: seq<Command<Outcome>>, id: ServiceId)
    requires AllNew(rs) && id in Run(BEHAVIOUR, RegisterAll(rs), cs).statuses
    ensures
      var s := Run(BEHAVIOUR, RegisterAll(rs), cs);
      && id in s.services
      && (s.statuses[id].Running? ==> HoldsHandle(s.services[id]))
      && (s.statuses[id].Stopped? ==> !HoldsHandle(s.services[id]))
      && (s.statuses[id].Failed? && HoldsHandle(s.services[id]) ==> s.services[id].Http?)
  {
    RunOk(rs, cs);
    assert ServiceOk(Run(BEHAVIOUR, RegisterAll(rs), cs), id);
  }

  /** Stopping a Running service always succeeds. */
  lemma StopRunningSucceeds(rs: seq<Registration<Service>>, cs: seq<Command<Outcome>>, id: ServiceId)
    requires AllNew(rs)
    requires var s := Run(BEHAVIOUR, RegisterAll(rs), cs); id in s.statuses && s.statuses[id].Running?
    ensures
      var (s', r) := HandleStop(BEHAVIOUR, Run(BEHAVIOUR, RegisterAll(rs), cs), id);
      r.Ok? && s'.statuses[id].Stopped? && !HoldsHandle(s'.services[id])
  {
    RunOk(rs, cs);
    assert ServiceOk(Run(BEHAVIOUR, RegisterAll(rs), cs), id);
  }

  /** When a Stop succeeds: always on a Running service; on a Failed one, if the HTTP
      gateway still holds the handle of the failed start, and always on the gateway
      MQTT service. The service is Stopped then, and otherwise nothing changes. */
  lemma StopOutcome(rs: seq<Registration<Service>>, cs: seq<Command<Outcome>>, id: ServiceId, o: Outcome)
    requires AllNew(rs) && id in Run(BEHAVIOUR, RegisterAll(rs), cs).services
    ensures
      var s := Run(BEHAVIOUR, RegisterAll(rs), cs);
      var (s', r) := HandleStop(BEHAVIOUR, s, id);
      && Registered(s, id) && Registered(s', id)
      && var v := ViewOf(s, id);
      && (r.Ok? <==>
            || v.status.Running?
            || (v.status.Failed? && (v.service.OneShot? || (v.service.Http? && v.status.reason != BIND_FAILED))))
      && (r.Ok? ==> s'.statuses[id].Stopped? && !HoldsHandle(s'.services[id]))
      && (r.Err? ==> ViewOf(s', id) == v)
  {
    AllLocal(rs, cs, id, o);
    StopAnyView(ViewOf(Run(BEHAVIOUR, RegisterAll(rs), cs), id));
  }

  lemma StopAnyView(v: View)
    requires ViewOk(v)
    ensures
      var (v', ok) := StopView(v);
      && (ok <==>
            || v.status.Running?
            || (v.status.Failed? && (v.service.OneShot? || (v.service.Http? && v.status.reason != BIND_FAILED))))
      && (ok ==> v'.status.Stopped? && !HoldsHandle(v'.service))
      && (!ok ==> v' == v)
  {
  }

  // ── The HTTP gateway ──────────────────────────────────────────────────────

  /** The HTTP gateway comes up exactly when its status shows that nothing is left
      over from a start and it can be set up. A Failed gateway qualifies only if
      its socket did not bind, and Restart differs only for a Running one. */
  lemma GatewayComesUp(rs: seq<Registration<Service>>, cs: seq<Command<Outcome>>, id: ServiceId, o: Outcome)
    requires AllNew(rs)
    requires var s := Run(BEHAVIOUR, RegisterAll(rs), cs); id in s.services && s.services[id].Http?
    ensures
      var s := Run(BEHAVIOUR, RegisterAll(rs), cs);
      var (s1, started) := HandleStart(BEHAVIOUR, s, id, o);
      var (s2, restarted) := HandleRestart(BEHAVIOUR, s, id, o);
      && id in s.statuses
      && var status := s.statuses[id];
      && var clean := status.Stopped? || status == Failed(BIND_FAILED);
      && (started.Ok? <==> clean && SetsUp(s.services[id].http, o))
      && (restarted.Ok? <==> (clean || status.Running?) && SetsUp(s.services[id].http, o))
      && (started.Ok? ==> s1.statuses[id] == Running(0) && HoldsHandle(s1.services[id]))
      && (restarted.Ok? ==> s2.statuses[id] == Running(0) && HoldsHandle(s2.services[id]))
  {
    AllLocal(rs, cs, id, o);
    var v := ViewOf(Run(BEHAVIOUR, RegisterAll(rs), cs), id);
    StartHttpView(v, o);
    RestartAnyView(v, o);
  }

  /** Failed, yet still holding the handle of the attempt that failed. */
  predicate StuckView(v: View) {
    v.service.Http? && v.status.Failed? && HoldsHandle(v.service)
  }

  predicate Stuck(s: Supervised<Service>, id: ServiceId) {
    Registered(s, id) && StuckView(ViewOf(s, id))
  }

  /** The command makes the gateway bind its socket and then fail to set up TLS. */
  predicate TlsFails(v: View, c: Command<Outcome>, id: ServiceId)
    requires v.service.Http?
  {
    match c
    case Start(k, o) =>
      k == id && !v.status.Unavailable? && !v.status.Running? && o.bindOk && !SetsUp(v.service.http, o)
    case Restart(k, o) =>
      k == id && !v.status.Unavailable? && o.bindOk && !SetsUp(v.service.http, o)
    case _ => false
  }

  /** A stuck gateway stays stuck through every command but its own Stop. */
  lemma StaysStuck(s: Supervised<Service>, c: Command<Outcome>, id: ServiceId)
    requires Stuck(s, id)
    ensures Stuck(Next(BEHAVIOUR, s, c), id) <==> c != Stop(id)
  {
    CommandLocal(s, c, id);
  }

  lemma GetsStuckView(v: View, c: Command<Outcome>, id: ServiceId)
    requires ViewOk(v) && v.service.Http? && !StuckView(v)
    ensures StuckView(CommandView(v, c, id)) <==> TlsFails(v, c, id)
  {
    if v.status.Running? {
      StopRunningView(v);
    }
  }

  /** When the gateway gets stuck: exactly when TLS fails after the socket was bound. */
  lemma GetsStuck(rs: seq<Registration<Service>>, cs: seq<Command<Outcome>>, c: Command<Outcome>, id: ServiceId)
    requires AllNew(rs)
    requires var s := Run(BEHAVIOUR, RegisterAll(rs), cs); id in s.services && s.services[id].Http? && !Stuck(s, id)
    ensures
      var s := Run(BEHAVIOUR, RegisterAll(rs), cs);
      Registered(s, id) && (Stuck(Next(BEHAVIOUR, s, c), id) <==> TlsFails(ViewOf(s, id), c, id))
  {
    var s := Run(BEHAVIOUR, RegisterAll(rs), cs);
    RunOk(rs, cs);
    assert ServiceOk(s, id);
    CommandLocal(s, c, id);
    GetsStuckView(ViewOf(s, id), c, id);
  }

  /** It does happen: one start that binds the socket but finds no usable certificate. */
  lemma GatewayCanGetStuck(id: ServiceId)
    ensures
      var rs := [Registration(id, Http(HttpState(true, false)), true)];
      Stuck(Run(BEHAVIOUR, RegisterAll(rs), [Start(id, Outcome(true, false, true))]), id)
  {
    var rs, c := [Registration(id, Http(HttpState(true, false)), true)], Start(id, Outcome(true, false, true));
    var s := RegisterAll(rs);
    assert rs[..0] == [] && RegisterAll(rs[..0]) == Supervised(map[], map[], []);
    assert s == Register(RegisterAll(rs[..0]), rs[0]);
    assert Run(BEHAVIOUR, s, []) == s;
    GetsStuck(rs, [], c, id);
    assert [c][..0] == [];
  }

  /** From then on every Start and Restart fails, whatever else is commanded, until
      a Stop, which succeeds and releases the handle. */
  lemma {:induction false} OnlyStopRecovers(s: Supervised<Service>, more: seq<Command<Outcome>>, id: ServiceId, o: Outcome)
    requires Stuck(s, id) && Stop(id) !in more
    ensures
      var s1 := Run(BEHAVIOUR, s, more);
      var (s2, r) := HandleStop(BEHAVIOUR, s1, id);
      && Stuck(s1, id)
      && HandleStart(BEHAVIOUR, s1, id, o).1.Err? && HandleRestart(BEHAVIOUR, s1, id, o).1.Err?
      && r.Ok? && s2.statuses[id].Stopped? && !HoldsHandle(s2.services[id])
  {
    if more == [] {
    } else {
      var k := |more| - 1;
      assert more[k] in more && forall c :: c in more[..k] ==> c in more;
      OnlyStopRecovers(s, more[..k], id, o);
      StaysStuck(Run(BEHAVIOUR, s, more[..k]), more[k], id);
    }
  }

  // ── The one-shot services ─────────────────────────────────────────────────

  /** The MQTT client and the gateway MQTT service start at most once in any run:
      a Start or Restart succeeds exactly when nothing was ever called on them, they
      are available and, for the client, its options can be built. */
  lemma ReceiverHandedOutOnce(rs: seq<Registration<Service>>, cs: seq<Command<Outcome>>, id: ServiceId, o: Outcome)
    requires AllNew(rs)
    requires var s := Run(BEHAVIOUR, RegisterAll(rs), cs); id in s.services && !s.services[id].Http?
    ensures
      var s := Run(BEHAVIOUR, RegisterAll(rs), cs);
      var untouched := Uncalled(s.calls, id) && !IsUnavailable(s, id) && (s.services[id].Client? ==> o.optionsOk);
      && Spawned(s.services[id]) == Starts(s.calls, id) <= 1
      && (HandleStart(BEHAVIOUR, s, id, o).1.Ok? <==> untouched)
      && (HandleRestart(BEHAVIOUR, s, id, o).1.Ok? <==> untouched)
  {
    AllLocal(rs, cs, id, o);
    var v := ViewOf(Run(BEHAVIOUR, RegisterAll(rs), cs), id);
    StartOneShotView(v, o);
    RestartAnyView(v, o);
  }

  /** Restarting a Running service succeeds exactly for the HTTP gateway, when the
      socket binds and TLS, if enabled, can be set up. A Running one-shot service is
      stopped by its restart and left Failed. */
  lemma RestartRunning(rs: seq<Registration<Service>>, cs: seq<Command<Outcome>>, id: ServiceId, o: Outcome)
    requires AllNew(rs)
    requires var s := Run(BEHAVIOUR, RegisterAll(rs), cs); id in s.statuses && s.statuses[id].Running?
    ensures
      var s := Run(BEHAVIOUR, RegisterAll(rs), cs);
      var (s', r) := HandleRestart(BEHAVIOUR, s, id, o);
      && id in s.services
      && (r.Ok? <==> s.services[id].Http? && o.bindOk && (s.services[id].http.tlsEnabled ==> o.tlsOk))
      && (r.Ok? ==> s'.statuses[id] == Running(0))
      && (r.Err? ==> s'.statuses[id].Failed?)
      && (!s.services[id].Http? ==> !HoldsHandle(s'.services[id]))
  {
    RunOk(rs, cs);
    assert ServiceOk(Run(BEHAVIOUR, RegisterAll(rs), cs), id);
    AllLocal(rs, cs, id, o);
    RestartAnyView(ViewOf(Run(BEHAVIOUR, RegisterAll(rs), cs), id), o);
  }
}
