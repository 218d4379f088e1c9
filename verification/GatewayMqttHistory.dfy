/** The MQTT connection task read off the events it takes: where it is, with which
    credentials, how long it waits and what it publishes, without its own log. */
module GatewayMqttHistory {
  import opened Common
  import opened Backoff
  import opened GatewayMqttTask

  /** The events that the task was waiting for when they happened. */
  function Taken(es: seq<Event>): seq<Event> {
    if es == [] then []
    else
      var k := |es| - 1;
      Taken(es[..k]) + (if Awaited(Run(Init(), es[..k]), es[k]) then [es[k]] else [])
  }

  /** The credentials of the last login, unless they were refused since. */
  function Granted(taken: seq<Event>): Option<Credentials> {
    if taken == [] then None
    else
      var k := |taken| - 1;
      match taken[k]
      case LoginOk(creds) => Some(creds)
      case ConnectionRefused => None
      case _ => Granted(taken[..k])
  }

  datatype Place = AtLogin | AtBuild | AtServe | AtBackoff | AtEnd

  /** Where the last event that moves the task has put it. */
  function Where(taken: seq<Event>): Place {
    if taken == [] then AtLogin
    else
      var k := |taken| - 1;
      match taken[k]
      case Shutdown => AtEnd
      case LoginOk(_) => AtBuild
      case BuildOk => AtServe
      case LoginFailed => AtBackoff
      case BuildFailed => AtBackoff
      case ConnectionRefused => AtBackoff
      case ConnectionLost => AtBackoff
      case Elapsed => if Granted(taken[..k]).Some? then AtBuild else AtLogin
      case _ => Where(taken[..k])
  }

  function PlaceOf(pc: Pc): Place {
    match pc
    case LoggingIn => AtLogin
    case Building => AtBuild
    case Serving(_) => AtServe
    case BackingOff => AtBackoff
    case Done => AtEnd
  }

  /** The full backoffs since the last ConnAck. */
  function WaitsSinceAck(taken: seq<Event>): nat {
    if taken == [] then 0
    else
      var k := |taken| - 1;
      match taken[k]
      case ConnAck => 0
      case Elapsed => WaitsSinceAck(taken[..k]) + 1
      case _ => WaitsSinceAck(taken[..k])
  }

  /** The messages enqueued, in order. */
  function Enqueued(taken: seq<Event>): seq<string> {
    if taken == [] then []
    else
      var k := |taken| - 1;
      Enqueued(taken[..k]) + (if taken[k].Enqueue? then [taken[k].msg] else [])
  }

  datatype Counts = Counts(logins: nat, refusals: nat, outbounds: nat, waits: nat)

  function Count(taken: seq<Event>): Counts {
    if taken == [] then Counts(0, 0, 0, 0)
    else
      var c := Count(taken[..|taken| - 1]);
      match taken[|taken| - 1]
      case LoginOk(_) => c.(logins := c.logins + 1)
      case ConnectionRefused => c.(refusals := c.refusals + 1)
      case Outbound => c.(outbounds := c.outbounds + 1)
      case Elapsed => c.(waits := c.waits + 1)
      case _ => c
  }

  /** The credentials that each connection was built with. */
  function BuiltWith(taken: seq<Event>): seq<Option<Credentials>> {
    if taken == [] then []
    else
      var k := |taken| - 1;
      BuiltWith(taken[..k]) + (if taken[k].BuildOk? then [Granted(taken[..k])] else [])
  }

  /** The connections in the log. */
  function Connections(log: seq<Action>): seq<Option<Credentials>> {
    if log == [] then []
    else
      var k := |log| - 1;
      Connections(log[..k]) + (if log[k].Connected? then [Some(log[k].creds)] else [])
  }

  // ── One step ──────────────────────────────────────────────────────────────

  ghost predicate PlaceAgrees(t: Task, taken: seq<Event>) {
    && t.cached == Granted(taken) && PlaceOf(t.pc) == Where(taken)
    && (t.pc.Serving? ==> t.cached == Some(t.pc.creds))
    && (t.pc.Building? ==> t.cached.Some?)
    && (t.pc.LoggingIn? ==> t.cached.None?)
    && Count(taken).logins == Count(taken).refusals + (if t.cached.Some? then 1 else 0)
  }

  ghost predicate LogAgrees(t: Task, taken: seq<Event>) {
    && |Sleeps(t.log)| == WaitsSinceAck(taken)
    && |Turns(t.log)| == 1 + 2 * Count(taken).waits
    && t.accepted == Enqueued(taken) && |Publications(t.log)| == Count(taken).outbounds
    && Connections(t.log) == BuiltWith(taken)
  }

  /** What one more event adds to each reading of the history. */
  lemma OneMoreTaken(taken: seq<Event>, e: Event)
    ensures Granted(taken + [e]) == match e case LoginOk(c) => Some(c) case ConnectionRefused => None case _ => Granted(taken)
    ensures WaitsSinceAck(taken + [e])
         == match e case ConnAck => 0 case Elapsed => WaitsSinceAck(taken) + 1 case _ => WaitsSinceAck(taken)
    ensures Enqueued(taken + [e]) == Enqueued(taken) + (if e.Enqueue? then [e.msg] else [])
    ensures BuiltWith(taken + [e]) == BuiltWith(taken) + (if e.BuildOk? then [Granted(taken)] else [])
    ensures
      var c, c' := Count(taken), Count(taken + [e]);
      && c'.logins == c.logins + (if e.LoginOk? then 1 else 0)
      && c'.refusals == c.refusals + (if e.ConnectionRefused? then 1 else 0)
      && c'.outbounds == c.outbounds + (if e.Outbound? then 1 else 0)
      && c'.waits == c.waits + (if e.Elapsed? then 1 else 0)
  {
    assert (taken + [e])[..|taken|] == taken;
  }

  lemma PlaceStep(t: Task, taken: seq<Event>, e: Event)
    requires PlaceAgrees(t, taken) && Awaited(t, e)
    ensures PlaceAgrees(Next(t, e), taken + [e])
  {
    OneMoreTaken(taken, e);
    assert (taken + [e])[..|taken|] == taken;
  }

  lemma OneMoreConnection(log: seq<Action>, a: Action)
    ensures Connections(log + [a]) == Connections(log) + (if a.Connected? then [Some(a.creds)] else [])
  {
    assert (log + [a])[..|log|] == log;
  }

  lemma LogStep(t: Task, taken: seq<Event>, e: Event)
    requires PlaceAgrees(t, taken) && LogAgrees(t, taken) && Awaited(t, e)
    ensures LogAgrees(Next(t, e), taken + [e])
  {
    var t', acts := Next(t, e), Actions(t, e);
    OneMoreTaken(taken, e);
    ActionsShape(t, e);
    if |acts| == 2 {
      TwoMoreActions(t);
      OneMoreConnection(t.log, Slept(t.delay));
      OneMoreConnection(t.log + [Slept(t.delay)], Pass);
      assert t.log + [Slept(t.delay)] + [Pass] == t.log + [Slept(t.delay), Pass];
    } else if |acts| == 1 {
      OneMoreAction(t.log, acts[0]);
      OneMoreConnection(t.log, acts[0]);
      assert t'.log == t.log + [acts[0]];
    } else {
      assert t'.log == t.log;
    }
  }

  lemma {:induction false} RunAgrees(es: seq<Event>)
    ensures PlaceAgrees(Run(Init(), es), Taken(es)) && LogAgrees(Run(Init(), es), Taken(es))
  {
    if es == [] {
      OneMoreAction([], Pass);
      OneMoreConnection([], Pass);
      assert Init().log == [] + [Pass];
    } else {
      var k := |es| - 1;
      RunAgrees(es[..k]);
      if Awaited(Run(Init(), es[..k]), es[k]) {
        PlaceStep(Run(Init(), es[..k]), Taken(es[..k]), es[k]);
        LogStep(Run(Init(), es[..k]), Taken(es[..k]), es[k]);
      } else {
        assert Taken(es[..k]) + [] == Taken(es[..k]);
      }
    }
  }

  // ── Every run ─────────────────────────────────────────────────────────────

  /** The task is where the events it took have put it: every failure and every
      lost or refused connection leads to the backoff, and a backoff to a login
      unless credentials are in force. The cache holds the credentials of the last
      login that were not refused since, so logins taken number the refusals taken,
      plus one exactly when credentials are cached. */
  lemma TaskFollowsEvents(es: seq<Event>)
    ensures
      var t, taken := Run(Init(), es), Taken(es);
      && PlaceOf(t.pc) == Where(taken) && t.cached == Granted(taken)
      && Count(taken).logins == Count(taken).refusals + (if t.cached.Some? then 1 else 0)
  {
    RunAgrees(es);
  }

  /** Every connection is built with the credentials of the last login taken, which
      were not refused since; connections, waits and publications in the log are
      those of the events. */
  lemma ConnectsWithGranted(es: seq<Event>)
    ensures
      var t, taken := Run(Init(), es), Taken(es);
      && Connections(t.log) == BuiltWith(taken)
      && (t.pc.Serving? ==> Granted(taken) == Some(t.pc.creds))
      && |Turns(t.log)| == 1 + 2 * Count(taken).waits
      && Count(taken).outbounds <= |Enqueued(taken)|
      && Publications(t.log) == Enqueued(taken)[..Count(taken).outbounds]
      && t.queue == Enqueued(taken)[Count(taken).outbounds..]
  {
    RunAgrees(es);
    RunInv(es);
    var t := Run(Init(), es);
    assert Publications(t.log) + t.queue == t.accepted;
    assert t.accepted[..|Publications(t.log)|] == Publications(t.log) && t.accepted[|Publications(t.log)|..] == t.queue;
  }

  /** The delay is min(2^(k+1), 60) after the k waits taken since the last ConnAck
      taken, and those waits together lasted 2(2^k - 1) seconds up to five of them
      and 62 + 60(k - 5) seconds from then on. */
  lemma DelayFollowsEvents(es: seq<Event>)
    ensures
      var t, k := Run(Init(), es), WaitsSinceAck(Taken(es));
      && |Sleeps(t.log)| == k
      && (!t.pc.Done? ==> t.delay == Min(Pow2(k + 1), 60))
      && (k <= 5 ==> Sum(Sleeps(t.log)) == 2 * (Pow2(k) - 1))
      && (k >= 5 ==> Sum(Sleeps(t.log)) == 62 + 60 * (k - 5))
  {
    RunAgrees(es);
    BackoffClosedForm(es);
  }

  /** What the task takes in each place: shutdown everywhere but while it builds its
      options, and messages until it has ended. */
  lemma TakesWhereItIs(es: seq<Event>, e: Event)
    ensures
      var at := Where(Taken(es));
      Awaited(Run(Init(), es), e)
      <==> match e
           case Enqueue(_) => at != AtEnd
           case Shutdown => at != AtBuild && at != AtEnd
           case LoginOk(_) => at == AtLogin
           case LoginFailed => at == AtLogin
           case BuildOk => at == AtBuild
           case BuildFailed => at == AtBuild
           case Elapsed => at == AtBackoff
           case Outbound => at == AtServe && Count(Taken(es)).outbounds < |Enqueued(Taken(es))|
           case _ => at == AtServe
  {
    RunAgrees(es);
    ConnectsWithGranted(es);
    RunInv(es);
  }
}
