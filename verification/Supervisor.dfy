/** The supervisor of `src/supervisor.rs` over arbitrary services: any state type,
    any `start` and `stop` behaviour. */
module Supervisor {
  import opened Common

  datatype ServiceId = Gateway | Mosquitto | MqttClient | CloudGateway | GatewayMqttClient

  datatype Status = Unavailable | Stopped | Starting | Running(pid: nat) | Failed(reason: string)

  /** A `ManagedService`: `start` also depends on what the outside world (an `E`)
      does while it runs. */
  datatype Behaviour<!S, !E> = Behaviour(start: (S, E) -> (S, Result<nat>), stop: S -> (S, Result<()>))

  datatype Kind = StartCall | StopCall

  /** One call the supervisor made into a service, and whether it succeeded. */
  datatype Call = Call(id: ServiceId, kind: Kind, ok: bool)

  datatype Supervised<+S> = Supervised(
    services: map<ServiceId, S>,
    statuses: map<ServiceId, Status>,
    calls: seq<Call>)

  datatype Command<+E> =
    | Start(id: ServiceId, env: E)
    | Stop(id: ServiceId)
    | Restart(id: ServiceId, env: E)
    | GetStatus

  datatype Registration<+S> = Registration(id: ServiceId, service: S, available: bool)

  // ── The handlers ──────────────────────────────────────────────────────────

  function Register<S>(s: Supervised<S>, r: Registration<S>): Supervised<S> {
    s.(services := s.services[r.id := r.service],
       statuses := s.statuses[r.id := if r.available then Stopped else Unavailable])
  }

  function RegisterAll<S>(rs: seq<Registration<S>>): Supervised<S> {
    if rs == [] then Supervised(map[], map[], [])
    else Register(RegisterAll(rs[..|rs| - 1]), rs[|rs| - 1])
  }

  lemma RegisterNext<S>(rs: seq<Registration<S>>, k: nat)
    requires k < |rs|
    ensures RegisterAll(rs[..k + 1]) == Register(RegisterAll(rs[..k]), rs[k])
  {
    assert rs[..k + 1][..k] == rs[..k];
  }

  function HandleStart<S, E>(b: Behaviour<S, E>, s: Supervised<S>, id: ServiceId, env: E): (Supervised<S>, Result<()>) {
    if id !in s.statuses then (s, Err("not registered"))
    else if s.statuses[id].Unavailable? then (s, Err("not installed on this system"))
    else if s.statuses[id].Running? then (s, Err("already running"))
    else if s.statuses[id].Starting? then (s, Err("already starting"))
    else if id !in s.services then (s.(statuses := s.statuses[id := Starting]), Err("not registered"))
    else
      var (svc, r) := b.start(s.services[id], env);
      var status := if r.Ok? then Running(r.value) else Failed(r.error);
      (s.(services := s.services[id := svc], statuses := s.statuses[id := status],
          calls := s.calls + [Call(id, StartCall, r.Ok?)]),
       if r.Ok? then Ok(()) else Err(r.error))
  }

  function HandleStop<S, E>(b: Behaviour<S, E>, s: Supervised<S>, id: ServiceId): (Supervised<S>, Result<()>) {
    if id in s.statuses && s.statuses[id].Stopped? then (s, Err("already stopped"))
    else if id in s.statuses && s.statuses[id].Unavailable? then (s, Err("not available"))
    else if id !in s.services then (s, Err("not registered"))
    else
      var (svc, r) := b.stop(s.services[id]);
      (s.(services := s.services[id := svc],
          statuses := if r.Ok? then s.statuses[id := Stopped] else s.statuses,
          calls := s.calls + [Call(id, StopCall, r.Ok?)]),
       r)
  }

  function HandleRestart<S, E>(b: Behaviour<S, E>, s: Supervised<S>, id: ServiceId, env: E): (Supervised<S>, Result<()>) {
    var s1 := if id in s.statuses && s.statuses[id].Running? then HandleStop(b, s, id).0 else s;
    HandleStart(b, s1, id, env)
  }

  function Next<S, E>(b: Behaviour<S, E>, s: Supervised<S>, c: Command<E>): Supervised<S> {
    match c
    case Start(id, env) => HandleStart(b, s, id, env).0
    case Stop(id) => HandleStop(b, s, id).0
    case Restart(id, env) => HandleRestart(b, s, id, env).0
    case GetStatus => s
  }

  function Run<S, E>(b: Behaviour<S, E>, s: Supervised<S>, cs: seq<Command<E>>): Supervised<S> {
    if cs == [] then s else Next(b, Run(b, s, cs[..|cs| - 1]), cs[|cs| - 1])
  }

  /** One more command of a sequence. */
  lemma RunNext<S, E>(b: Behaviour<S, E>, s: Supervised<S>, cs: seq<Command<E>>, k: nat)
    requires k < |cs|
    ensures Run(b, s, cs[..k + 1]) == Next(b, Run(b, s, cs[..k]), cs[k])
  {
    assert cs[..k + 1][..k] == cs[..k];
  }

  // ── Invariant ─────────────────────────────────────────────────────────────

  /** The kinds of the successful calls into one service, oldest first. */
  function Successes(calls: seq<Call>, id: ServiceId): seq<Kind> {
    if calls == [] then []
    else
      var k := |calls| - 1;
      Successes(calls[..k], id) + (if calls[k].id == id && calls[k].ok then [calls[k].kind] else [])
  }

  predicate EndsStarted(kinds: seq<Kind>) {
    kinds != [] && kinds[|kinds| - 1].StartCall?
  }

  predicate Alternating(kinds: seq<Kind>) {
    forall i :: 0 <= i < |kinds| - 1 && kinds[i].StartCall? ==> kinds[i + 1].StopCall?
  }

  predicate Uncalled(calls: seq<Call>, id: ServiceId) {
    forall i :: 0 <= i < |calls| ==> calls[i].id != id
  }

  /** What holds of one service between commands. */
  ghost predicate ServiceInv<S>(s: Supervised<S>, id: ServiceId) {
    var done := Successes(s.calls, id);
    && (id in s.services <==> id in s.statuses)
    && (id in s.statuses ==>
          && !s.statuses[id].Starting?
          && (s.statuses[id].Running? <==> EndsStarted(done))
          && (s.statuses[id].Unavailable? ==> Uncalled(s.calls, id)))
    && (id !in s.statuses ==> done == [])
    && Alternating(done)
  }

  ghost predicate Inv<S>(s: Supervised<S>) {
    forall id :: ServiceInv(s, id)
  }

  lemma OneMoreCall(calls: seq<Call>, c: Call, id: ServiceId)
    ensures Successes(calls + [c], id) == Successes(calls, id) + (if c.id == id && c.ok then [c.kind] else [])
  {
    assert (calls + [c])[..|calls|] == calls;
  }

  lemma CallStep<S>(s: Supervised<S>, s': Supervised<S>, c: Call)
    requires Inv(s) && c.id in s.services && c.id in s.statuses && !s.statuses[c.id].Unavailable?
    requires s'.calls == s.calls + [c] && s'.services.Keys == s.services.Keys
    requires c.id in s'.statuses && s'.statuses == s.statuses[c.id := s'.statuses[c.id]]
    requires !s'.statuses[c.id].Starting? && !s'.statuses[c.id].Unavailable?
    requires c.kind.StartCall? ==> !s.statuses[c.id].Running? && (s'.statuses[c.id].Running? <==> c.ok)
    requires c.kind.StopCall? ==> if c.ok then s'.statuses[c.id].Stopped? else s'.statuses[c.id] == s.statuses[c.id]
    ensures Inv(s')
  {
    forall id ensures ServiceInv(s', id) {
      assert ServiceInv(s, id);
      OneMoreCall(s.calls, c, id);
    }
  }

  lemma StartStep<S, E>(b: Behaviour<S, E>, s: Supervised<S>, id: ServiceId, env: E)
    requires Inv(s)
    ensures Inv(HandleStart(b, s, id, env).0)
  {
    assert ServiceInv(s, id);
    var s' := HandleStart(b, s, id, env).0;
    if s' != s {
      CallStep(s, s', Call(id, StartCall, b.start(s.services[id], env).1.Ok?));
    }
  }

  lemma StopStep<S, E>(b: Behaviour<S, E>, s: Supervised<S>, id: ServiceId)
    requires Inv(s)
    ensures Inv(HandleStop(b, s, id).0)
  {
    assert ServiceInv(s, id);
    var s' := HandleStop(b, s, id).0;
    if s' != s {
      CallStep(s, s', Call(id, StopCall, b.stop(s.services[id]).1.Ok?));
    }
  }

  lemma Step<S, E>(b: Behaviour<S, E>, s: Supervised<S>, c: Command<E>)
    requires Inv(s)
    ensures Inv(Next(b, s, c))
  {
    match c
    case Start(id, env) => StartStep(b, s, id, env);
    case Stop(id) => StopStep(b, s, id);
    case Restart(id, env) =>
      StopStep(b, s, id);
      var s1 := if id in s.statuses && s.statuses[id].Running? then HandleStop(b, s, id).0 else s;
      StartStep(b, s1, id, env);
    case GetStatus =>
  }

  lemma {:induction false} RegisterAllInv<S>(rs: seq<Registration<S>>)
    ensures Inv(RegisterAll(rs)) && RegisterAll(rs).calls == []
  {
    if rs == [] {
    } else {
      var s := RegisterAll(rs[..|rs| - 1]);
      RegisterAllInv(rs[..|rs| - 1]);
      forall id ensures ServiceInv(RegisterAll(rs), id) {
        assert ServiceInv(s, id);
      }
    }
  }

  lemma {:induction false} RunInv<S, E>(b: Behaviour<S, E>, rs: seq<Registration<S>>, cs: seq<Command<E>>)
    ensures Inv(Run(b, RegisterAll(rs), cs))
  {
    if cs == [] {
      RegisterAllInv(rs);
    } else {
      RunInv(b, rs, cs[..|cs| - 1]);
      Step(b, Run(b, RegisterAll(rs), cs[..|cs| - 1]), cs[|cs| - 1]);
    }
  }

  // ── Registration ──────────────────────────────────────────────────────────

  /** The `i`th registration is the last one for its service. */
  predicate Lasts<S>(rs: seq<Registration<S>>, i: nat)
    requires i < |rs|
  {
    forall j :: i < j < |rs| ==> rs[j].id != rs[i].id
  }

  /** A service starts out Stopped if it was registered as available, and
      Unavailable if it was not. */
  lemma {:induction false} RegisteredAs<S>(rs: seq<Registration<S>>, i: nat)
    requires i < |rs| && Lasts(rs, i)
    ensures
      var s, r := RegisterAll(rs), rs[i];
      && r.id in s.statuses && s.statuses[r.id] == (if r.available then Stopped else Unavailable)
      && r.id in s.services && s.services[r.id] == r.service
  {
    var k := |rs| - 1;
    if i == k {
    } else {
      assert Lasts(rs[..k], i);
      RegisteredAs(rs[..k], i);
      assert rs[k].id != rs[i].id;
    }
  }

  // ── Every command sequence, every behaviour ───────────────────────────────

  /** Between commands the two maps have the same keys and nothing is Starting;
      a service is Running exactly when its last successful call was a start; and
      two successful starts always have a successful stop between them. */
  lemma StatusesTellTheTruth<S, E>(b: Behaviour<S, E>, rs: seq<Registration<S>>, cs: seq<Command<E>>)
    ensures
      var s := Run(b, RegisterAll(rs), cs);
      && s.services.Keys == s.statuses.Keys
      && (forall id :: id in s.statuses ==> !s.statuses[id].Starting?)
      && (forall id :: id in s.statuses ==> (s.statuses[id].Running? <==> EndsStarted(Successes(s.calls, id))))
      && (forall id :: Alternating(Successes(s.calls, id)))
  {
    RunInv(b, rs, cs);
    var s := Run(b, RegisterAll(rs), cs);
    forall id: ServiceId
      ensures id in s.services.Keys <==> id in s.statuses.Keys
      ensures id in s.statuses ==> !s.statuses[id].Starting? && (s.statuses[id].Running? <==> EndsStarted(Successes(s.calls, id)))
      ensures Alternating(Successes(s.calls, id))
    {
      assert ServiceInv(s, id);
    }
  }

  predicate IsUnavailable<S>(s: Supervised<S>, id: ServiceId) {
    id in s.statuses && s.statuses[id].Unavailable?
  }

  lemma UnavailableStart<S, E>(b: Behaviour<S, E>, s: Supervised<S>, k: ServiceId, env: E, id: ServiceId)
    requires IsUnavailable(s, id)
    ensures IsUnavailable(HandleStart(b, s, k, env).0, id)
  {
  }

  lemma UnavailableStop<S, E>(b: Behaviour<S, E>, s: Supervised<S>, k: ServiceId, id: ServiceId)
    requires IsUnavailable(s, id)
    ensures IsUnavailable(HandleStop(b, s, k).0, id)
  {
  }

  lemma UnavailableStep<S, E>(b: Behaviour<S, E>, s: Supervised<S>, c: Command<E>, id: ServiceId)
    requires IsUnavailable(s, id)
    ensures IsUnavailable(Next(b, s, c), id)
  {
    match c
    case Start(k, env) => UnavailableStart(b, s, k, env, id);
    case Stop(k) => UnavailableStop(b, s, k, id);
    case Restart(k, env) =>
      UnavailableStop(b, s, k, id);
      UnavailableStart(b, if k in s.statuses && s.statuses[k].Running? then HandleStop(b, s, k).0 else s, k, env, id);
    case GetStatus =>
  }

  /** A service registered as unavailable stays so, and neither its `start` nor
      its `stop` is ever called. */
  lemma UnavailableForEver<S, E>(b: Behaviour<S, E>, rs: seq<Registration<S>>, cs: seq<Command<E>>, i: nat)
    requires i < |rs| && Lasts(rs, i) && !rs[i].available
    ensures
      var s := Run(b, RegisterAll(rs), cs);
      IsUnavailable(s, rs[i].id) && Uncalled(s.calls, rs[i].id)
  {
    RegisteredAs(rs, i);
    StaysUnavailable(b, RegisterAll(rs), cs, rs[i].id);
    RunInv(b, rs, cs);
    assert ServiceInv(Run(b, RegisterAll(rs), cs), rs[i].id);
  }

  lemma {:induction false} StaysUnavailable<S, E>(b: Behaviour<S, E>, s: Supervised<S>, cs: seq<Command<E>>, id: ServiceId)
    requires IsUnavailable(s, id)
    ensures IsUnavailable(Run(b, s, cs), id)
  {
    if cs == [] {
    } else {
      StaysUnavailable(b, s, cs[..|cs| - 1], id);
      UnavailableStep(b, Run(b, s, cs[..|cs| - 1]), cs[|cs| - 1], id);
    }
  }
}
