/** The supervisor task and the managed services in the imperative form of the
    source, proved against `Supervisor` and `Services`. */
module ManagedServices {
  import opened Common
  import Sup = Supervisor
  import Services
  import opened SupervisorReplies

  // ── The services ──────────────────────────────────────────────────────────

  class GatewayService {
    const tlsEnabled: bool
    var shutdownTx: bool

    ghost function Value(): Services.HttpState
      reads this
    {
      Services.HttpState(tlsEnabled, shutdownTx)
    }

    constructor (tlsEnabled: bool)
      ensures Value() == Services.HttpState(tlsEnabled, false)
    {
      this.tlsEnabled, shutdownTx := tlsEnabled, false;
    }

    method Start(o: Services.Outcome) returns (r: Result<nat>)
      modifies this
      ensures (Value(), r) == Services.StartHttp(old(Value()), o)
      ensures r.Ok? <==> !old(shutdownTx) && Services.SetsUp(old(Value()), o)
      ensures shutdownTx <==> old(shutdownTx) || o.bindOk
    {
      if shutdownTx {
        return Err("already running");
      }
      if !o.bindOk {
        return Err(Services.BIND_FAILED);
      }
      shutdownTx := true;
      if tlsEnabled {
        if !o.tlsOk {
          return Err("Failed to build TLS config");
        }
      }
      r := Ok(0);
    }

    method Stop() returns (r: Result<()>)
      modifies this
      ensures (Value(), r) == Services.StopHttp(old(Value()))
    {
      if shutdownTx {
        shutdownTx := false;
        r := Ok(());
      } else {
        r := Err("not running");
      }
    }
  }

  class MqttClientService {
    var cmdRx: bool
    var outRx: bool
    var connectedTx: bool
    var shutdownTx: bool
    var cmdShutdownTx: bool
    var spawned: nat

    ghost function Value(): Services.ClientState
      reads this
    {
      Services.ClientState(cmdRx, outRx, connectedTx, shutdownTx, cmdShutdownTx, spawned)
    }

    constructor ()
      ensures Services.IsNew(Services.Client(Value()))
    {
      cmdRx, outRx, connectedTx, shutdownTx, cmdShutdownTx, spawned := true, true, true, false, false, 0;
    }

    method TakeChannels() returns (r: Result<()>)
      modifies this
      ensures (Value(), r) == Services.TakeChannels(old(Value()))
    {
      if !cmdRx {
        return Err("command receiver already consumed");
      }
      cmdRx := false;
      if !outRx {
        return Err("outbound receiver already consumed");
      }
      outRx := false;
      if !connectedTx {
        return Err("connected sender already consumed");
      }
      connectedTx := false;
      r := Ok(());
    }

    method Start(o: Services.Outcome) returns (r: Result<nat>)
      modifies this
      ensures (Value(), r) == Services.StartClient(old(Value()), o)
    {
      if shutdownTx {
        return Err("already running");
      }
      var taken := TakeChannels();
      if taken.Err? {
        return Err(taken.error);
      }
      if !o.optionsOk {
        return Err("Failed to build MQTT options");
      }
      shutdownTx, cmdShutdownTx := true, true;
      spawned := spawned + 1;
      r := Ok(0);
    }

    method Stop() returns (r: Result<()>)
      modifies this
      ensures (Value(), r) == Services.StopClient(old(Value()))
    {
      if shutdownTx {
        shutdownTx, cmdShutdownTx := false, false;
        r := Ok(());
      } else {
        r := Err("not running");
      }
    }
  }

  class GatewayMqttService {
    var outboundRx: bool
    var shutdownTx: bool
    var spawned: nat

    ghost function Value(): Services.OneShotState
      reads this
    {
      Services.OneShotState(outboundRx, shutdownTx, spawned)
    }

    constructor ()
      ensures Services.IsNew(Services.OneShot(Value()))
    {
      outboundRx, shutdownTx, spawned := true, false, 0;
    }

    method Start(o: Services.Outcome) returns (r: Result<nat>)
      modifies this
      ensures (Value(), r) == Services.StartOneShot(old(Value()), o)
    {
      if !outboundRx {
        return Err("already started");
      }
      outboundRx := false;
      shutdownTx := true;
      spawned := spawned + 1;
      r := Ok(0);
    }

    method Stop() returns (r: Result<()>)
      modifies this
      ensures (Value(), r) == Services.StopOneShot(old(Value()))
    {
      shutdownTx := false;
      r := Ok(());
    }
  }

  // ── The supervisor ────────────────────────────────────────────────────────

  /** The supervisor's `Box<dyn ManagedService>`. */
  datatype ServiceBox =
    | HttpBox(http: GatewayService)
    | ClientBox(client: MqttClientService)
    | OneShotBox(oneShot: GatewayMqttService)

  ghost function Object(b: ServiceBox): object {
    match b
    case HttpBox(s) => s
    case ClientBox(s) => s
    case OneShotBox(s) => s
  }

  ghost function Content(b: ServiceBox): Services.Service
    reads Object(b)
  {
    match b
    case HttpBox(s) => Services.Http(s.Value())
    case ClientBox(s) => Services.Client(s.Value())
    case OneShotBox(s) => Services.OneShot(s.Value())
  }

  /** `svc.start()` through the box. */
  method StartBoxed(b: ServiceBox, o: Services.Outcome) returns (r: Result<nat>)
    modifies Object(b)
    ensures (Content(b), r) == Services.StartService(old(Content(b)), o)
  {
    match b {
      case HttpBox(s) => r := s.Start(o);
      case ClientBox(s) => r := s.Start(o);
      case OneShotBox(s) => r := s.Start(o);
    }
  }

  /** `svc.stop()` through the box. */
  method StopBoxed(b: ServiceBox) returns (r: Result<()>)
    modifies Object(b)
    ensures (Content(b), r) == Services.StopService(old(Content(b)))
  {
    match b {
      case HttpBox(s) => r := s.Stop();
      case ClientBox(s) => r := s.Stop();
      case OneShotBox(s) => r := s.Stop();
    }
  }

  /** The service has no handle any more, and handed out no receiver on the way. */
  predicate Released(before: Services.Service, after: Services.Service) {
    && !Services.HoldsHandle(after)
    && Services.Spawned(after) == Services.Spawned(before)
    && (after.Http? <==> before.Http?)
  }

  type States = map<Sup.ServiceId, Services.Service>

  /** The services in `done` are released, the others untouched. */
  ghost predicate StoppedSoFar(before: States, now: States, done: set<Sup.ServiceId>) {
    && now.Keys == before.Keys
    && forall id :: id in before ==> if id in done then Released(before[id], now[id]) else now[id] == before[id]
  }

  lemma StopOneMore(before: States, now: States, done: set<Sup.ServiceId>, id: Sup.ServiceId)
    requires StoppedSoFar(before, now, done) && id in before && id !in done
    ensures StoppedSoFar(before, now[id := Services.StopService(now[id]).0], done + {id})
  {
    assert Released(before[id], Services.StopService(now[id]).0);
  }

  /** The calls a shutdown makes: one stop for each service, in the given order. */
  function StopCalls(before: States, order: seq<Sup.ServiceId>): seq<Sup.Call>
    requires forall id :: id in order ==> id in before
  {
    if order == [] then []
    else
      var k := |order| - 1;
      StopCalls(before, order[..k]) + [Sup.Call(order[k], Sup.StopCall, Services.StopService(before[order[k]]).1.Ok?)]
  }

  /** A shutdown starts nothing. */
  lemma {:induction false} StopsStartNothing(calls: seq<Sup.Call>, before: States, order: seq<Sup.ServiceId>, id: Sup.ServiceId)
    requires forall k :: k in order ==> k in before
    ensures Services.Starts(calls + StopCalls(before, order), id) == Services.Starts(calls, id)
  {
    if order == [] {
      assert calls + [] == calls;
    } else {
      var k := |order| - 1;
      var sofar, all := StopCalls(before, order[..k]), StopCalls(before, order);
      assert calls + all == (calls + sofar) + [all[|sofar|]];
      Services.OneMoreStart(calls + sofar, all[|sofar|], id);
      StopsStartNothing(calls, before, order[..k], id);
    }
  }

  /** One more service is stopped. */
  lemma StopNext(before: States, now: States, calls0: seq<Sup.Call>, calls: seq<Sup.Call>, order: seq<Sup.ServiceId>, i: nat)
    requires i < |order| && Distinct(order) && forall id :: id in order ==> id in before
    requires StoppedSoFar(before, now, Elements(order[..i])) && calls == calls0 + StopCalls(before, order[..i])
    ensures
      var (svc, r) := Services.StopService(now[order[i]]);
      && StoppedSoFar(before, now[order[i] := svc], Elements(order[..i + 1]))
      && calls + [Sup.Call(order[i], Sup.StopCall, r.Ok?)] == calls0 + StopCalls(before, order[..i + 1])
  {
    assert order[..i + 1][..i] == order[..i] && order[..i + 1] == order[..i] + [order[i]];
    assert Elements(order[..i + 1]) == Elements(order[..i]) + {order[i]};
    StopOneMore(before, now, Elements(order[..i]), order[i]);
  }

  /** Shut down from the state `last` to `now`: every service got one stop, in
      `order`; none holds a handle; the statuses are as they were; and each one-shot
      service has handed out its receivers as often as it was started, at most once. */
  ghost predicate ShutDown(last: Sup.Supervised<Services.Service>, now: Sup.Supervised<Services.Service>, order: seq<Sup.ServiceId>) {
    && Distinct(order) && Elements(order) == now.services.Keys == last.services.Keys
    && (forall id :: id in order ==> id in last.services)
    && now.statuses == last.statuses && now.calls == last.calls + StopCalls(last.services, order)
    && forall id :: id in now.services ==>
         && !Services.HoldsHandle(now.services[id])
         && (!now.services[id].Http? ==> Services.Spawned(now.services[id]) == Services.Starts(now.calls, id) <= 1)
  }

  /** Shutting down hands out no receivers, so the law of the running supervisor carries over. */
  lemma AfterShutdown(last: Sup.Supervised<Services.Service>, now: Sup.Supervised<Services.Service>, order: seq<Sup.ServiceId>)
    requires Services.Inv(last) && Distinct(order) && Elements(order) == now.services.Keys == last.services.Keys
    requires forall id :: id in order ==> id in last.services
    requires now.statuses == last.statuses && now.calls == last.calls + StopCalls(last.services, order)
    requires forall id :: id in last.services ==> Released(last.services[id], now.services[id])
    ensures ShutDown(last, now, order)
  {
    forall id | id in now.services
      ensures !now.services[id].Http? ==> Services.Spawned(now.services[id]) == Services.Starts(now.calls, id) <= 1
    {
      assert Services.ServiceOk(last, id);
      StopsStartNothing(last.calls, last.services, order, id);
    }
  }

  /** The order in which a map is iterated, which is arbitrary. */
  method IterationOrder(keys: set<Sup.ServiceId>) returns (order: seq<Sup.ServiceId>)
    ensures Distinct(order) && Elements(order) == keys
  {
    order := [];
    var rest := keys;
    while rest != {}
      invariant rest <= keys && Distinct(order) && Elements(order) == keys - rest
    {
      var id :| id in rest;
      assert forall i :: 0 <= i < |order| ==> order[i] in Elements(order);
      assert Elements(order + [id]) == Elements(order) + {id};
      order, rest := order + [id], rest - {id};
    }
  }

  lemma Overwrite<K, V>(m: map<K, V>, k: K, first: V, second: V)
    ensures m[k := first][k := second] == m[k := second]
  {
  }

  class Supervisor {
    var services: map<Sup.ServiceId, ServiceBox>
    var statuses: map<Sup.ServiceId, Sup.Status>
    ghost var contents: States
    ghost var calls: seq<Sup.Call>
    ghost var repr: set<object>

    /** The boxes own their services, which are in `repr`: no object is in two of
        them. `contents` are the services' private states. */
    ghost predicate Owned()
      reads this`services, this`repr, this`contents, repr
    {
      && this !in repr
      && contents.Keys == services.Keys
      && (forall id :: id in services ==> Object(services[id]) in repr)
      && (forall id :: id in services ==> Content(services[id]) == contents[id])
      && (forall a, b :: a in services && b in services && a != b ==> Object(services[a]) != Object(services[b]))
    }

    ghost function Value(): Sup.Supervised<Services.Service>
      reads this
    {
      Sup.Supervised(contents, statuses, calls)
    }

    /** Statuses agree with the services' private states. */
    ghost predicate Valid()
      reads this, repr
    {
      Owned() && Services.Inv(Value())
    }

    constructor ()
      ensures Owned() && Value() == Sup.RegisterAll([]) && repr == {}
    {
      services, statuses, contents, calls, repr := map[], map[], map[], [], {};
    }

    method Register(id: Sup.ServiceId, service: ServiceBox, available: bool)
      requires Owned() && Object(service) !in repr
      modifies this
      ensures Owned() && services == old(services)[id := service] && repr == old(repr) + {Object(service)}
      ensures Value() == Sup.Register(old(Value()), Sup.Registration(id, old(Content(service)), available))
    {
      var initial := if available then Sup.Stopped else Sup.Unavailable;
      statuses := statuses[id := initial];
      services := services[id := service];
      contents := contents[id := Content(service)];
      repr := repr + {Object(service)};
    }

    /** Calls `start` on one service and leaves the others alone. */
    method CallStart(id: Sup.ServiceId, env: Services.Outcome) returns (started: Result<nat>)
      requires Owned() && id in services
      modifies this`calls, this`contents, repr
      ensures Owned()
      ensures
        var (svc, r) := Services.StartService(old(contents)[id], env);
        && contents == old(contents)[id := svc] && started == r
        && calls == old(calls) + [Sup.Call(id, Sup.StartCall, r.Ok?)]
    {
      started := StartBoxed(services[id], env);
      contents := contents[id := Content(services[id])];
      calls := calls + [Sup.Call(id, Sup.StartCall, started.Ok?)];
    }

    /** Calls `stop` on one service and leaves the others alone. */
    method CallStop(id: Sup.ServiceId) returns (stopped: Result<()>)
      requires Owned() && id in services
      modifies this`calls, this`contents, repr
      ensures Owned()
      ensures
        var (svc, r) := Services.StopService(old(contents)[id]);
        && contents == old(contents)[id := svc] && stopped == r
        && calls == old(calls) + [Sup.Call(id, Sup.StopCall, r.Ok?)]
    {
      stopped := StopBoxed(services[id]);
      contents := contents[id := Content(services[id])];
      calls := calls + [Sup.Call(id, Sup.StopCall, stopped.Ok?)];
    }

    method SetStatus(id: Sup.ServiceId, status: Sup.Status)
      requires Owned()
      modifies this`statuses
      ensures Owned() && statuses == old(statuses)[id := status]
    {
      statuses := statuses[id := status];
    }

    method HandleStart(id: Sup.ServiceId, env: Services.Outcome) returns (r: Result<()>)
      requires Owned()
      modifies this`statuses, this`calls, this`contents, repr
      ensures Owned()
      ensures (Value(), r) == Sup.HandleStart(Services.BEHAVIOUR, old(Value()), id, env)
    {
      if id !in statuses {
        return Err("not registered");
      }
      match statuses[id] {
        case Unavailable => return Err("not installed on this system");
        case Running(_) => return Err("already running");
        case Starting => return Err("already starting");
        case _ =>
      }
      SetStatus(id, Sup.Starting);
      if id !in services {
        return Err("not registered");
      }
      r := Launch(id, env);
      Overwrite(old(statuses), id, Sup.Starting, statuses[id]);
    }

    /** Starts one service and notes how that went. */
    method Launch(id: Sup.ServiceId, env: Services.Outcome) returns (r: Result<()>)
      requires Owned() && id in services
      modifies this`statuses, this`calls, this`contents, repr
      ensures Owned()
      ensures
        var (svc, started) := Services.StartService(old(contents)[id], env);
        && contents == old(contents)[id := svc]
        && statuses == old(statuses)[id := if started.Ok? then Sup.Running(started.value) else Sup.Failed(started.error)]
        && calls == old(calls) + [Sup.Call(id, Sup.StartCall, started.Ok?)]
        && r == if started.Ok? then Ok(()) else Err(started.error)
    {
      var started := CallStart(id, env);
      match started {
        case Ok(pid) =>
          SetStatus(id, Sup.Running(pid));
          r := Ok(());
        case Err(e) =>
          SetStatus(id, Sup.Failed(e));
          r := Err(e);
      }
    }

    method HandleStop(id: Sup.ServiceId) returns (r: Result<()>)
      requires Owned()
      modifies this`statuses, this`calls, this`contents, repr
      ensures Owned()
      ensures (Value(), r) == Sup.HandleStop(Services.BEHAVIOUR, old(Value()), id)
    {
      if id in statuses {
        match statuses[id] {
          case Stopped => return Err("already stopped");
          case Unavailable => return Err("not available");
          case _ =>
        }
      }
      if id !in services {
        return Err("not registered");
      }
      r := CallStop(id);
      if r.Ok? {
        SetStatus(id, Sup.Stopped);
      }
    }

    method HandleRestart(id: Sup.ServiceId, env: Services.Outcome) returns (r: Result<()>)
      requires Owned()
      modifies this`statuses, this`calls, this`contents, repr
      ensures Owned()
      ensures (Value(), r) == Sup.HandleRestart(Services.BEHAVIOUR, old(Value()), id, env)
    {
      if id in statuses && statuses[id].Running? {
        var _ := HandleStop(id);
      }
      r := HandleStart(id, env);
    }

    method Process(c: Sup.Command<Services.Outcome>) returns (reply: Reply)
      requires Owned()
      modifies this`statuses, this`calls, this`contents, repr
      ensures Owned()
      ensures Value() == Sup.Next(Services.BEHAVIOUR, old(Value()), c)
      ensures reply == ReplyTo(Services.BEHAVIOUR, old(Value()), c)
    {
      match c {
        case Start(id, env) =>
          var r := HandleStart(id, env);
          reply := Done(r);
        case Stop(id) =>
          var r := HandleStop(id);
          reply := Done(r);
        case Restart(id, env) =>
          var r := HandleRestart(id, env);
          reply := Done(r);
        case GetStatus =>
          reply := Statuses(statuses);
      }
    }

    /** The command loop. */
    method ProcessCommands(commands: seq<Sup.Command<Services.Outcome>>) returns (replies: seq<Reply>)
      requires Valid()
      modifies this`statuses, this`calls, this`contents, repr
      ensures Valid()
      ensures Value() == Sup.Run(Services.BEHAVIOUR, old(Value()), commands)
      ensures replies == Replies(Services.BEHAVIOUR, old(Value()), commands)
      ensures AllTell(Services.BEHAVIOUR, old(Value()), commands, replies)
    {
      ghost var start := Value();
      RepliesTell(Services.BEHAVIOUR, start, commands);
      replies := [];
      var i := 0;
      while i < |commands|
        invariant 0 <= i <= |commands| && Owned()
        invariant Value() == Sup.Run(Services.BEHAVIOUR, start, commands[..i])
        invariant replies == Replies(Services.BEHAVIOUR, start, commands[..i])
      {
        var reply := Process(commands[i]);
        Sup.RunNext(Services.BEHAVIOUR, start, commands, i);
        RepliesNext(Services.BEHAVIOUR, start, commands, i);
        replies := replies + [reply];
        i := i + 1;
      }
      assert commands[..i] == commands;
      Services.RunKeeps(start, commands);
    }

    /** Stops the `i`th service of a shutdown that began with `before` and `calls0`. */
    method StopOne(order: seq<Sup.ServiceId>, i: nat, ghost before: States, ghost calls0: seq<Sup.Call>)
      requires Owned() && Distinct(order) && i < |order| && forall id :: id in order ==> id in before
      requires StoppedSoFar(before, contents, Elements(order[..i])) && calls == calls0 + StopCalls(before, order[..i])
      modifies this`calls, this`contents, repr
      ensures Owned()
      ensures StoppedSoFar(before, contents, Elements(order[..i + 1])) && calls == calls0 + StopCalls(before, order[..i + 1])
    {
      StopNext(before, contents, calls0, calls, order, i);
      var _ := CallStop(order[i]);
    }

    /** When the last handle is dropped: every service is stopped, once, in the
        map's `order`, which is arbitrary, and whatever the others answer. */
    method StopAll(order: seq<Sup.ServiceId>)
      requires Owned() && Distinct(order) && Elements(order) == services.Keys
      modifies this`calls, this`contents, repr
      ensures Owned()
      ensures calls == old(calls) + StopCalls(old(contents), order)
      ensures forall id :: id in services ==> Released(old(contents)[id], contents[id])
    {
      ghost var before := contents;
      assert forall id :: id in order ==> id in Elements(order);
      for i := 0 to |order|
        invariant Owned()
        invariant StoppedSoFar(before, contents, Elements(order[..i]))
        invariant calls == old(calls) + StopCalls(before, order[..i])
      {
        StopOne(order, i, before, old(calls));
      }
      assert order[..|order|] == order;
    }

    /** The service objects and statuses are those of a shutdown from the state `last`. */
    ghost predicate Ended(last: Sup.Supervised<Services.Service>, order: seq<Sup.ServiceId>)
      reads this, repr
    {
      Owned() && ShutDown(last, Value(), order)
    }

    /** The spawned task: commands until the last handle is dropped, then the shutdown. */
    method Live(commands: seq<Sup.Command<Services.Outcome>>)
      returns (replies: seq<Reply>, order: seq<Sup.ServiceId>, ghost last: Sup.Supervised<Services.Service>)
      requires Valid()
      modifies this`statuses, this`calls, this`contents, repr
      ensures last == Sup.Run(Services.BEHAVIOUR, old(Value()), commands) && Services.Inv(last)
      ensures AllTell(Services.BEHAVIOUR, old(Value()), commands, replies)
      ensures Ended(last, order)
    {
      replies := ProcessCommands(commands);
      last := Value();
      order := IterationOrder(services.Keys);
      assert forall id :: id in order ==> id in Elements(order);
      StopAll(order);
      AfterShutdown(last, Value(), order);
    }
  }

  // ── A whole life ──────────────────────────────────────────────────────────

  datatype Entry = Entry(id: Sup.ServiceId, service: ServiceBox, available: bool)

  ghost function ObjectsOf(entries: seq<Entry>): set<object> {
    set i | 0 <= i < |entries| :: Object(entries[i].service)
  }

  /** `regs` are the entries with their services' private states. */
  ghost predicate Describes(regs: seq<Sup.Registration<Services.Service>>, entries: seq<Entry>)
    reads ObjectsOf(entries)
  {
    && |regs| == |entries|
    && forall i :: 0 <= i < |entries| ==>
         regs[i] == Sup.Registration(entries[i].id, Content(entries[i].service), entries[i].available)
  }

  /** Each entry has a service of its own. */
  ghost predicate Separate(entries: seq<Entry>) {
    forall i, j :: 0 <= i < j < |entries| ==> Object(entries[i].service) != Object(entries[j].service)
  }

  lemma OneMoreObject(entries: seq<Entry>, i: nat)
    requires i < |entries|
    ensures ObjectsOf(entries[..i + 1]) == ObjectsOf(entries[..i]) + {Object(entries[i].service)}
    ensures Separate(entries) ==> Object(entries[i].service) !in ObjectsOf(entries[..i])
  {
    var next := entries[..i + 1];
    assert next[i] == entries[i] && forall k :: 0 <= k < i ==> next[k] == entries[..i][k];
    forall o | o in ObjectsOf(entries[..i]) ensures o in ObjectsOf(next) {
      var k :| 0 <= k < i && o == Object(entries[..i][k].service);
      assert o == Object(next[k].service);
    }
    assert Object(next[i].service) in ObjectsOf(next);
  }

  method RegisterEntry(sup: Supervisor, entries: seq<Entry>, i: nat, ghost regs: seq<Sup.Registration<Services.Service>>)
    requires i < |entries| && Separate(entries) && Describes(regs, entries) && sup !in ObjectsOf(entries)
    requires sup.Owned() && sup.repr == ObjectsOf(entries[..i]) && sup.Value() == Sup.RegisterAll(regs[..i])
    modifies sup
    ensures sup.Owned() && sup.repr == ObjectsOf(entries[..i + 1]) && sup.Value() == Sup.RegisterAll(regs[..i + 1])
  {
    OneMoreObject(entries, i);
    Sup.RegisterNext(regs, i);
    sup.Register(entries[i].id, entries[i].service, entries[i].available);
  }

  method RegisterEntries(entries: seq<Entry>, ghost regs: seq<Sup.Registration<Services.Service>>) returns (sup: Supervisor)
    requires Separate(entries) && Describes(regs, entries)
    ensures fresh(sup) && sup.Owned() && sup.repr == ObjectsOf(entries)
    ensures sup.Value() == Sup.RegisterAll(regs)
  {
    sup := new Supervisor();
    for i := 0 to |entries|
      invariant fresh(sup) && sup !in ObjectsOf(entries) && Describes(regs, entries)
      invariant sup.Owned() && sup.repr == ObjectsOf(entries[..i]) && sup.Value() == Sup.RegisterAll(regs[..i])
    {
      RegisterEntry(sup, entries, i, regs);
    }
    assert entries[..|entries|] == entries && regs[..|entries|] == regs;
  }

  /** The supervisor from its construction to its shutdown, over services that
      nobody else owns and that are as their constructors leave them. Every command
      is answered as the machine answers it; at the end every registered service
      has been told to stop once and holds no handle; and over its whole life,
      shutdown included, each one-shot service handed out its receivers at most once. */
  method RunSupervisor(entries: seq<Entry>, commands: seq<Sup.Command<Services.Outcome>>,
                       ghost regs: seq<Sup.Registration<Services.Service>>)
    returns (sup: Supervisor, replies: seq<Reply>, order: seq<Sup.ServiceId>, ghost last: Sup.Supervised<Services.Service>)
    requires Separate(entries) && Describes(regs, entries) && Services.AllNew(regs)
    modifies ObjectsOf(entries)
    ensures fresh(sup) && sup.Ended(last, order)
    ensures last == Sup.Run(Services.BEHAVIOUR, Sup.RegisterAll(regs), commands) && Services.Inv(last)
    ensures AllTell(Services.BEHAVIOUR, Sup.RegisterAll(regs), commands, replies)
  {
    sup := RegisterEntries(entries, regs);
    Services.RegisterAllOk(regs);
    replies, order, last := sup.Live(commands);
  }
}
