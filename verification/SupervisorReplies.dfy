/** The supervisor's replies, and what each of them tells about the calls that were
    made and the statuses they left. */
module SupervisorReplies {
  import opened Common
  import Sup = Supervisor

  datatype Reply = Done(result: Result<()>) | Statuses(statuses: map<Sup.ServiceId, Sup.Status>)

  /** The reply to a command handled in state `s`. */
  function ReplyTo<S, E>(b: Sup.Behaviour<S, E>, s: Sup.Supervised<S>, c: Sup.Command<E>): Reply {
    match c
    case Start(id, env) => Done(Sup.HandleStart(b, s, id, env).1)
    case Stop(id) => Done(Sup.HandleStop(b, s, id).1)
    case Restart(id, env) => Done(Sup.HandleRestart(b, s, id, env).1)
    case GetStatus => Statuses(s.statuses)
  }

  /** The replies to a sequence of commands, each given in the state its
      predecessors left. */
  function Replies<S, E>(b: Sup.Behaviour<S, E>, s: Sup.Supervised<S>, cs: seq<Sup.Command<E>>): seq<Reply> {
    if cs == [] then []
    else
      var k := |cs| - 1;
      Replies(b, s, cs[..k]) + [ReplyTo(b, Sup.Run(b, s, cs[..k]), cs[k])]
  }

  // ── What a reply tells ────────────────────────────────────────────────────

  /** The calls made between two states. */
  function Made<S>(before: Sup.Supervised<S>, after: Sup.Supervised<S>): seq<Sup.Call> {
    if |before.calls| <= |after.calls| then after.calls[|before.calls|..] else []
  }

  /** Nothing but the service `id` changed, and the calls made are further ones. */
  ghost predicate OnlyTouches<S>(before: Sup.Supervised<S>, after: Sup.Supervised<S>, id: Sup.ServiceId) {
    && after.calls == before.calls + Made(before, after)
    && (forall x :: x in Made(before, after) ==> x.id == id)
    && (forall k :: k != id ==>
          && (k in after.statuses <==> k in before.statuses) && (k in after.services <==> k in before.services)
          && (k in before.statuses ==> after.statuses[k] == before.statuses[k])
          && (k in before.services ==> after.services[k] == before.services[k]))
  }

  /** The reply to a start is Ok exactly when a start was called and succeeded, and
      the service is Running then. If one was called and failed, the reply carries
      the reason that the service's Failed status has. */
  ghost predicate TellsStart<S>(before: Sup.Supervised<S>, after: Sup.Supervised<S>, id: Sup.ServiceId, reply: Reply) {
    var made := Made(before, after);
    && reply.Done?
    && (reply.result.Ok? <==> Sup.Call(id, Sup.StartCall, true) in made)
    && (reply.result.Ok? ==> id in after.statuses && after.statuses[id].Running?)
    && (Sup.Call(id, Sup.StartCall, false) in made ==>
          reply.result.Err? && id in after.statuses && after.statuses[id] == Sup.Failed(reply.result.error))
  }

  /** The service can be started, or stopped: it is known, and not in a state that forbids it. */
  predicate Startable<S>(s: Sup.Supervised<S>, id: Sup.ServiceId) {
    id in s.statuses && id in s.services && (s.statuses[id].Stopped? || s.statuses[id].Failed?)
  }

  predicate Stoppable<S>(s: Sup.Supervised<S>, id: Sup.ServiceId) {
    id in s.services && (id in s.statuses ==> !s.statuses[id].Stopped? && !s.statuses[id].Unavailable?)
  }

  ghost predicate Tells<S, E>(b: Sup.Behaviour<S, E>, before: Sup.Supervised<S>, after: Sup.Supervised<S>,
                              c: Sup.Command<E>, reply: Reply) {
    var made := Made(before, after);
    match c
    case Start(id, env) =>
      && OnlyTouches(before, after, id) && TellsStart(before, after, id, reply)
      && (Startable(before, id) ==>
            var (svc, r) := b.start(before.services[id], env);
            && made == [Sup.Call(id, Sup.StartCall, r.Ok?)] && after.services == before.services[id := svc]
            && (r.Ok? ==> after.statuses[id] == Sup.Running(r.value)))
      && (!Startable(before, id) ==> made == [])
    case Restart(id, env) =>
      && OnlyTouches(before, after, id) && TellsStart(before, after, id, reply)
      && (id in before.statuses && before.statuses[id].Running? && id in before.services ==>
            made != [] && made[0] == Sup.Call(id, Sup.StopCall, b.stop(before.services[id]).1.Ok?))
      && (!(id in before.statuses && before.statuses[id].Running?) ==> forall x :: x in made ==> x.kind.StartCall?)
    case Stop(id) =>
      && OnlyTouches(before, after, id) && reply.Done?
      && made == (if Stoppable(before, id) then [Sup.Call(id, Sup.StopCall, reply.result.Ok?)] else [])
      && (Stoppable(before, id) ==>
            after.services == before.services[id := b.stop(before.services[id]).0]
            && reply.result == b.stop(before.services[id]).1)
      && (!Stoppable(before, id) ==> reply.result.Err?)
      && after.statuses == (if reply.result.Ok? then before.statuses[id := Sup.Stopped] else before.statuses)
    case GetStatus => after == before && reply == Statuses(before.statuses)
  }

  lemma StartTells<S, E>(b: Sup.Behaviour<S, E>, s: Sup.Supervised<S>, id: Sup.ServiceId, env: E)
    ensures Tells(b, s, Sup.HandleStart(b, s, id, env).0, Sup.Start(id, env), Done(Sup.HandleStart(b, s, id, env).1))
  {
    var (s', r) := Sup.HandleStart(b, s, id, env);
    if Startable(s, id) {
      assert s'.calls == s.calls + [Sup.Call(id, Sup.StartCall, r.Ok?)];
      assert Made(s, s') == [Sup.Call(id, Sup.StartCall, r.Ok?)];
    } else {
      assert Made(s, s') == [];
    }
  }

  lemma StopTells<S, E>(b: Sup.Behaviour<S, E>, s: Sup.Supervised<S>, id: Sup.ServiceId)
    ensures Tells(b, s, Sup.HandleStop(b, s, id).0, Sup.Stop(id), Done(Sup.HandleStop(b, s, id).1))
  {
    var (s', r) := Sup.HandleStop(b, s, id);
    if Stoppable(s, id) {
      assert Made(s, s') == [Sup.Call(id, Sup.StopCall, r.Ok?)];
    } else {
      assert Made(s, s') == [];
    }
  }

  lemma TouchesTwice<S>(s: Sup.Supervised<S>, s1: Sup.Supervised<S>, s2: Sup.Supervised<S>, id: Sup.ServiceId)
    requires OnlyTouches(s, s1, id) && OnlyTouches(s1, s2, id)
    ensures OnlyTouches(s, s2, id) && Made(s, s2) == Made(s, s1) + Made(s1, s2)
  {
    assert s2.calls == s.calls + (Made(s, s1) + Made(s1, s2));
  }

  /** A stop before the start does not change what its reply tells. */
  lemma AfterStop<S>(s: Sup.Supervised<S>, s1: Sup.Supervised<S>, s2: Sup.Supervised<S>, id: Sup.ServiceId, reply: Reply)
    requires TellsStart(s1, s2, id, reply) && Made(s, s2) == Made(s, s1) + Made(s1, s2)
    requires forall x :: x in Made(s, s1) ==> x.kind.StopCall?
    ensures TellsStart(s, s2, id, reply)
  {
  }

  lemma RestartTells<S, E>(b: Sup.Behaviour<S, E>, s: Sup.Supervised<S>, id: Sup.ServiceId, env: E)
    ensures Tells(b, s, Sup.HandleRestart(b, s, id, env).0, Sup.Restart(id, env), Done(Sup.HandleRestart(b, s, id, env).1))
  {
    var running := id in s.statuses && s.statuses[id].Running?;
    var s1 := if running then Sup.HandleStop(b, s, id).0 else s;
    var (s', r) := Sup.HandleStart(b, s1, id, env);
    StartTells(b, s1, id, env);
    if running {
      StopTells(b, s, id);
      TouchesTwice(s, s1, s', id);
      AfterStop(s, s1, s', id, Done(r));
    }
  }

  lemma ReplyTells<S, E>(b: Sup.Behaviour<S, E>, s: Sup.Supervised<S>, c: Sup.Command<E>)
    ensures Tells(b, s, Sup.Next(b, s, c), c, ReplyTo(b, s, c))
  {
    match c
    case Start(id, env) => StartTells(b, s, id, env);
    case Stop(id) => StopTells(b, s, id);
    case Restart(id, env) => RestartTells(b, s, id, env);
    case GetStatus =>
  }

  /** The `i`th reply tells what the `i`th command did. */
  ghost predicate TellsAt<S, E>(b: Sup.Behaviour<S, E>, s: Sup.Supervised<S>, cs: seq<Sup.Command<E>>, reply: Reply, i: nat)
    requires i < |cs|
  {
    Tells(b, Sup.Run(b, s, cs[..i]), Sup.Run(b, s, cs[..i + 1]), cs[i], reply)
  }

  ghost predicate AllTell<S, E>(b: Sup.Behaviour<S, E>, s: Sup.Supervised<S>, cs: seq<Sup.Command<E>>, replies: seq<Reply>) {
    |replies| == |cs| && forall i :: 0 <= i < |cs| ==> TellsAt(b, s, cs, replies[i], i)
  }

  lemma {:induction false} ReplyAt<S, E>(b: Sup.Behaviour<S, E>, s: Sup.Supervised<S>, cs: seq<Sup.Command<E>>, i: nat)
    requires i < |cs|
    ensures |Replies(b, s, cs)| == |cs| && Replies(b, s, cs)[i] == ReplyTo(b, Sup.Run(b, s, cs[..i]), cs[i])
  {
    var k := |cs| - 1;
    if k == 0 {
    } else {
      ReplyAt(b, s, cs[..k], if i < k then i else 0);
      assert i < k ==> cs[..k][..i] == cs[..i];
    }
  }

  /** Over every command sequence, each reply tells what its command did. */
  lemma RepliesTell<S, E>(b: Sup.Behaviour<S, E>, s: Sup.Supervised<S>, cs: seq<Sup.Command<E>>)
    ensures AllTell(b, s, cs, Replies(b, s, cs))
  {
    RepliesCount(b, s, cs);
    forall i | 0 <= i < |cs| ensures TellsAt(b, s, cs, Replies(b, s, cs)[i], i) {
      ReplyAt(b, s, cs, i);
      Sup.RunNext(b, s, cs, i);
      ReplyTells(b, Sup.Run(b, s, cs[..i]), cs[i]);
    }
  }

  lemma {:induction false} RepliesCount<S, E>(b: Sup.Behaviour<S, E>, s: Sup.Supervised<S>, cs: seq<Sup.Command<E>>)
    ensures |Replies(b, s, cs)| == |cs|
  {
    if cs == [] {
    } else {
      RepliesCount(b, s, cs[..|cs| - 1]);
    }
  }

  lemma RepliesNext<S, E>(b: Sup.Behaviour<S, E>, s: Sup.Supervised<S>, cs: seq<Sup.Command<E>>, k: nat)
    requires k < |cs|
    ensures Replies(b, s, cs[..k + 1]) == Replies(b, s, cs[..k]) + [ReplyTo(b, Sup.Run(b, s, cs[..k]), cs[k])]
  {
    assert cs[..k + 1][..k] == cs[..k];
  }
}
