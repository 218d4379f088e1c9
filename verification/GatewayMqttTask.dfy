/** The connection task of `src/services/gateway_mqtt/tasks.rs` as a state machine:
    log in, connect, serve, back off, until shutdown. Each event is what the
    `select!` or `await` the task is parked at delivers. */
module GatewayMqttTask {
  import opened Common
  import opened Backoff

  /** A login response, identified by what it grants. */
  datatype Credentials = Credentials(deviceId: string, broker: string, password: string)

  datatype Pc = LoggingIn | Building | Serving(creds: Credentials) | BackingOff | Done

  /** What the task does to the world, oldest first. */
  datatype Action =
    | Pass                          // the outer loop starts over
    | LoggedIn(creds: Credentials)
    | Connected(creds: Credentials) // a broker connection is created
    | Acked                         // ConnAck: the delay is reset
    | Refused                       // ConnectionRefused: the credentials are dropped
    | Published(msg: string)        // handed to `publish`, whether or not it succeeds
    | Slept(secs: nat)              // a backoff that ran its full length

  datatype Task = Task(
    pc: Pc,
    delay: nat,
    cached: Option<Credentials>,
    queue: seq<string>,
    accepted: seq<string>,
    log: seq<Action>)

  datatype Event =
    | Shutdown
    | LoginOk(creds: Credentials)
    | LoginFailed
    | BuildOk
    | BuildFailed
    | Outbound
    | ConnAck
    | OtherPacket
    | ConnectionRefused
    | ConnectionLost
    | Elapsed
    | Enqueue(msg: string)

  /** The top of the outer loop: cached credentials skip the login. */
  function Top(t: Task): Task {
    t.(pc := if t.cached.Some? then Building else LoggingIn, log := t.log + [Pass])
  }

  function Init(): Task {
    Top(Task(LoggingIn, INITIAL_RECONNECT_DELAY, None, [], [], []))
  }

  /** The event is one the task is parked waiting for; a message can be enqueued
      as long as the task, and with it the receiver, is alive. */
  predicate Awaited(t: Task, e: Event) {
    match e
    case Enqueue(_) => !t.pc.Done?
    case Shutdown => t.pc.LoggingIn? || t.pc.Serving? || t.pc.BackingOff?
    case LoginOk(_) => t.pc.LoggingIn?
    case LoginFailed => t.pc.LoggingIn?
    case BuildOk => t.pc.Building?
    case BuildFailed => t.pc.Building?
    case Outbound => t.pc.Serving? && t.queue != []
    case ConnAck => t.pc.Serving?
    case OtherPacket => t.pc.Serving?
    case ConnectionRefused => t.pc.Serving?
    case ConnectionLost => t.pc.Serving?
    case Elapsed => t.pc.BackingOff?
  }

  function Next(t: Task, e: Event): Task {
    if !Awaited(t, e) then t else
    match e
    case Enqueue(msg) => t.(queue := t.queue + [msg], accepted := t.accepted + [msg])
    case Shutdown => t.(pc := Done, delay := if t.pc.BackingOff? then Doubled(t.delay) else t.delay)
    case LoginOk(creds) => t.(pc := Building, cached := Some(creds), log := t.log + [LoggedIn(creds)])
    case LoginFailed => t.(pc := BackingOff)
    case BuildOk =>
      if t.cached.Some? then t.(pc := Serving(t.cached.value), log := t.log + [Connected(t.cached.value)]) else t
    case BuildFailed => t.(pc := BackingOff)
    case Outbound => t.(queue := t.queue[1..], log := t.log + [Published(t.queue[0])])
    case ConnAck => t.(delay := INITIAL_RECONNECT_DELAY, log := t.log + [Acked])
    case OtherPacket => t
    case ConnectionRefused => t.(pc := BackingOff, cached := None, log := t.log + [Refused])
    case ConnectionLost => t.(pc := BackingOff)
    case Elapsed => Top(t.(delay := Doubled(t.delay), log := t.log + [Slept(t.delay)]))
  }

  function Run(t: Task, es: seq<Event>): Task {
    if es == [] then t else Next(Run(t, es[..|es| - 1]), es[|es| - 1])
  }

  /** One more event of a script. */
  lemma RunNext(t: Task, script: seq<Event>, k: nat)
    requires k < |script|
    ensures Run(t, script[..k + 1]) == Next(Run(t, script[..k]), script[k])
  {
    assert script[..k + 1][..k] == script[..k];
  }

  // ── Reading the log ───────────────────────────────────────────────────────

  function Logins(log: seq<Action>): seq<Credentials> {
    if log == [] then []
    else
      var k := |log| - 1;
      Logins(log[..k]) + (if log[k].LoggedIn? then [log[k].creds] else [])
  }

  function Refusals(log: seq<Action>): nat {
    if log == [] then 0 else Refusals(log[..|log| - 1]) + (if log[|log| - 1].Refused? then 1 else 0)
  }

  function Publications(log: seq<Action>): seq<string> {
    if log == [] then []
    else
      var k := |log| - 1;
      Publications(log[..k]) + (if log[k].Published? then [log[k].msg] else [])
  }

  /** The full backoffs since the last ConnAck, in order. */
  function Sleeps(log: seq<Action>): seq<nat> {
    if log == [] then []
    else
      var k := |log| - 1;
      match log[k]
      case Acked => []
      case Slept(secs) => Sleeps(log[..k]) + [secs]
      case _ => Sleeps(log[..k])
  }

  /** The log without what happens inside a pass: passes and full backoffs only. */
  function Turns(log: seq<Action>): seq<Action> {
    if log == [] then []
    else
      var k := |log| - 1;
      Turns(log[..k]) + (if log[k].Pass? || log[k].Slept? then [log[k]] else [])
  }

  /** Every connection uses the credentials of the latest login before it. */
  predicate ConnectsWithLatestLogin(log: seq<Action>) {
    log == [] ||
    var k := |log| - 1;
    && ConnectsWithLatestLogin(log[..k])
    && (log[k].Connected? ==> var ls := Logins(log[..k]); ls != [] && log[k].creds == ls[|ls| - 1])
  }

  // ── Invariant ─────────────────────────────────────────────────────────────

  predicate LoginInv(t: Task) {
    var ls := Logins(t.log);
    && |ls| == Refusals(t.log) + (if t.cached.Some? then 1 else 0)
    && (t.cached.Some? ==> ls != [] && t.cached.value == ls[|ls| - 1])
    && (t.pc.LoggingIn? ==> t.cached.None?)
    && (t.pc.Building? ==> t.cached.Some?)
    && (t.pc.Serving? ==> t.cached == Some(t.pc.creds))
    && ConnectsWithLatestLogin(t.log)
  }

  ghost predicate DelayInv(t: Task) {
    var s := Sleeps(t.log);
    && (!t.pc.Done? ==> t.delay == DelayAfter(|s|))
    && (forall i :: 0 <= i < |s| ==> s[i] == DelayAfter(i))
  }

  /** Passes and full backoffs alternate, starting and ending with a pass. */
  ghost predicate Alternate(turns: seq<Action>) {
    && |turns| % 2 == 1
    && forall i :: 0 <= i < |turns| ==> if i % 2 == 0 then turns[i].Pass? else turns[i].Slept?
  }

  lemma AlternateLonger(turns: seq<Action>, secs: nat)
    requires Alternate(turns)
    ensures Alternate(turns + [Slept(secs), Pass])
  {
    var n, longer := |turns|, turns + [Slept(secs), Pass];
    assert longer[n] == Slept(secs) && longer[n + 1] == Pass;
    assert forall i :: 0 <= i < n ==> longer[i] == turns[i];
  }

  ghost predicate TurnInv(t: Task) {
    Alternate(Turns(t.log))
  }

  predicate QueueInv(t: Task) {
    Publications(t.log) + t.queue == t.accepted
  }

  /** What one more action adds to each reading of the log. */
  lemma OneMoreAction(log: seq<Action>, a: Action)
    ensures Logins(log + [a]) == Logins(log) + (if a.LoggedIn? then [a.creds] else [])
    ensures Refusals(log + [a]) == Refusals(log) + (if a.Refused? then 1 else 0)
    ensures Publications(log + [a]) == Publications(log) + (if a.Published? then [a.msg] else [])
    ensures Turns(log + [a]) == Turns(log) + (if a.Pass? || a.Slept? then [a] else [])
    ensures Sleeps(log + [a]) == if a.Acked? then [] else if a.Slept? then Sleeps(log) + [a.secs] else Sleeps(log)
    ensures ConnectsWithLatestLogin(log + [a]) <==>
      && ConnectsWithLatestLogin(log)
      && (a.Connected? ==> var ls := Logins(log); ls != [] && a.creds == ls[|ls| - 1])
  {
    var l := log + [a];
    assert l[..|l| - 1] == log && l[|l| - 1] == a;
  }

  /** The actions of one step. */
  function Actions(t: Task, e: Event): seq<Action> {
    Next(t, e).log[|t.log|..]
  }

  /** A step logs nothing, one action, or a full backoff and a new pass. */
  lemma ActionsShape(t: Task, e: Event)
    ensures |t.log| <= |Next(t, e).log| && Next(t, e).log == t.log + Actions(t, e)
    ensures
      var acts := Actions(t, e);
      || acts == []
      || (|acts| == 1 && !acts[0].Pass? && !acts[0].Slept?)
      || (acts == [Slept(t.delay), Pass] && Awaited(t, e) && e.Elapsed?)
  {
  }

  /** Both actions of a full backoff. */
  lemma TwoMoreActions(t: Task)
    ensures
      var l := t.log + [Slept(t.delay), Pass];
      && Logins(l) == Logins(t.log) && Refusals(l) == Refusals(t.log) && Publications(l) == Publications(t.log)
      && Turns(l) == Turns(t.log) + [Slept(t.delay), Pass]
      && Sleeps(l) == Sleeps(t.log) + [t.delay]
      && (ConnectsWithLatestLogin(l) <==> ConnectsWithLatestLogin(t.log))
  {
    OneMoreAction(t.log, Slept(t.delay));
    OneMoreAction(t.log + [Slept(t.delay)], Pass);
    assert t.log + [Slept(t.delay)] + [Pass] == t.log + [Slept(t.delay), Pass];
    assert Turns(t.log) + [Slept(t.delay)] + [Pass] == Turns(t.log) + [Slept(t.delay), Pass];
  }

  lemma LoginStep(t: Task, e: Event)
    requires LoginInv(t)
    ensures LoginInv(Next(t, e))
  {
    var t', acts := Next(t, e), Actions(t, e);
    ActionsShape(t, e);
    if |acts| == 2 {
      TwoMoreActions(t);
    } else if |acts| == 1 {
      OneMoreAction(t.log, acts[0]);
      assert t'.log == t.log + [acts[0]];
    } else {
      assert t'.log == t.log;
    }
  }

  lemma DelayStep(t: Task, e: Event)
    requires DelayInv(t)
    ensures DelayInv(Next(t, e))
  {
    var t', acts := Next(t, e), Actions(t, e);
    ActionsShape(t, e);
    if |acts| == 2 {
      TwoMoreActions(t);
      DoubledDelay(|Sleeps(t.log)|);
    } else if |acts| == 1 {
      OneMoreAction(t.log, acts[0]);
      assert t'.log == t.log + [acts[0]];
    } else {
      assert t'.log == t.log;
    }
  }

  lemma TurnStep(t: Task, e: Event)
    requires TurnInv(t)
    ensures TurnInv(Next(t, e))
  {
    var t', acts := Next(t, e), Actions(t, e);
    ActionsShape(t, e);
    if |acts| == 2 {
      TwoMoreActions(t);
      AlternateLonger(Turns(t.log), t.delay);
    } else if |acts| == 1 {
      OneMoreAction(t.log, acts[0]);
      assert t'.log == t.log + [acts[0]];
      assert Turns(t'.log) == Turns(t.log);
    } else {
      assert t'.log == t.log;
    }
  }

  lemma QueueStep(t: Task, e: Event)
    requires QueueInv(t)
    ensures QueueInv(Next(t, e))
  {
    var t', acts := Next(t, e), Actions(t, e);
    ActionsShape(t, e);
    if |acts| == 2 {
      TwoMoreActions(t);
    } else if |acts| == 1 {
      OneMoreAction(t.log, acts[0]);
      assert t'.log == t.log + [acts[0]];
    } else {
      assert t'.log == t.log;
    }
  }

  lemma {:induction false} RunInv(es: seq<Event>)
    ensures var t := Run(Init(), es); LoginInv(t) && DelayInv(t) && TurnInv(t) && QueueInv(t)
  {
    if es == [] {
      OneMoreAction([], Pass);
      assert Init().log == [] + [Pass];
    } else {
      var k := |es| - 1;
      RunInv(es[..k]);
      var t := Run(Init(), es[..k]);
      LoginStep(t, es[k]);
      DelayStep(t, es[k]);
      TurnStep(t, es[k]);
      QueueStep(t, es[k]);
    }
  }

  // ── Every run ─────────────────────────────────────────────────────────────

  /** A re-login happens only after a refusal: successful logins number the
      refusals, plus one exactly when credentials are cached; and every broker
      connection uses the credentials of the latest login. */
  lemma LoginsFollowRefusals(es: seq<Event>)
    ensures
      var t := Run(Init(), es);
      && |Logins(t.log)| == Refusals(t.log) + (if t.cached.Some? then 1 else 0)
      && ConnectsWithLatestLogin(t.log)
  {
    RunInv(es);
  }

  /** The delay is min(2^(k+1), 60) after k full backoffs since the last ConnAck,
      and those backoffs together took 2(2^k - 1) seconds up to five of them and
      62 + 60(k - 5) seconds from then on. */
  lemma BackoffClosedForm(es: seq<Event>)
    ensures
      var t := Run(Init(), es);
      var s := Sleeps(t.log);
      var k := |s|;
      && (!t.pc.Done? ==> t.delay == Min(Pow2(k + 1), 60))
      && (k <= 5 ==> Sum(s) == 2 * (Pow2(k) - 1))
      && (k >= 5 ==> Sum(s) == 62 + 60 * (k - 5))
  {
    RunInv(es);
    SumOfDelays(Sleeps(Run(Init(), es).log));
  }

  /** Each pass of the outer loop is followed by exactly one full backoff, except
      the one still running or the one shutdown ended. */
  lemma OneBackoffPerPass(es: seq<Event>)
    ensures Alternate(Turns(Run(Init(), es).log))
  {
    RunInv(es);
  }

  /** Messages are handed to `publish` once each and in order: those handed over,
      followed by those still queued, are those accepted. */
  lemma NothingLostInTheQueue(es: seq<Event>)
    ensures var t := Run(Init(), es); Publications(t.log) + t.queue == t.accepted
  {
    RunInv(es);
  }

  /** Shutdown seen at any await ends the task: it acts no more, whatever arrives. */
  lemma {:induction false} ShutdownIsFinal(es: seq<Event>, after: seq<Event>)
    requires Awaited(Run(Init(), es), Shutdown)
    ensures
      var t := Run(Init(), es);
      var end := Run(Next(t, Shutdown), after);
      end.pc.Done? && end.log == t.log && end == Next(t, Shutdown)
  {
    if after == [] {
    } else {
      ShutdownIsFinal(es, after[..|after| - 1]);
    }
  }
}
