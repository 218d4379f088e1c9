/** The WebSocket connection task of
    `src/services/cloud_gateway/cloud_gateway_service.rs`: connect, register, relay
    queued messages, reconnect, until shutdown. */
module WebSocketTask {
  import opened Backoff

  datatype Pc = Connecting | Sleeping | Registering | Serving | Done

  /** A frame the task tries to send; `ok` tells whether the sink took it. */
  datatype Frame =
    | Register(ok: bool)
    | Data(msg: string, ok: bool)
    | Pong(ok: bool)
    | Close

  datatype Outcome = Sent | Lost | Unserialisable

  datatype Taken = Taken(msg: string, outcome: Outcome)

  /** `sessions` lists the frames attempted on each connection; `sleeps` the
      waits since the last successful connect. */
  datatype Task = Task(
    pc: Pc,
    delay: nat,
    queue: seq<string>,
    accepted: seq<string>,
    taken: seq<Taken>,
    sessions: seq<seq<Frame>>,
    sleeps: seq<nat>)

  datatype Event =
    | Shutdown
    | ConnectOk
    | ConnectFailed
    | RegisterSent
    | RegisterFailed
    | RegisterUnserialisable
    | Outbound(outcome: Outcome)
    | Ping(ponged: bool)
    | OtherFrame
    | Closed
    | Elapsed
    | Enqueue(msg: string)

  function Init(): Task {
    Task(Connecting, INITIAL_RECONNECT_DELAY, [], [], [], [], [])
  }

  predicate Awaited(pc: Pc, queue: seq<string>, e: Event) {
    match e
    case Enqueue(_) => !pc.Done?
    case Shutdown => pc.Connecting? || pc.Serving?
    case ConnectOk => pc.Connecting?
    case ConnectFailed => pc.Connecting?
    case RegisterSent => pc.Registering?
    case RegisterFailed => pc.Registering?
    case RegisterUnserialisable => pc.Registering?
    case Outbound(_) => pc.Serving? && queue != []
    case Ping(_) => pc.Serving?
    case OtherFrame => pc.Serving?
    case Closed => pc.Serving?
    case Elapsed => pc.Sleeping?
  }

  /** Adds a frame to the current session. */
  function Attempt(sessions: seq<seq<Frame>>, f: Frame): seq<seq<Frame>> {
    if sessions == [] then [[f]]
    else
      var k := |sessions| - 1;
      sessions[k := sessions[k] + [f]]
  }

  function Next(t: Task, e: Event): Task {
    if !Awaited(t.pc, t.queue, e) then t else
    match e
    case Enqueue(msg) => t.(queue := t.queue + [msg], accepted := t.accepted + [msg])
    case Shutdown =>
      t.(pc := Done, sessions := if t.pc.Serving? then Attempt(t.sessions, Close) else t.sessions)
    case ConnectOk =>
      t.(pc := Registering, delay := INITIAL_RECONNECT_DELAY, sessions := t.sessions + [[]], sleeps := [])
    case ConnectFailed => t.(pc := Sleeping)
    case RegisterSent => t.(pc := Serving, sessions := Attempt(t.sessions, Register(true)))
    case RegisterFailed => t.(pc := Connecting, sessions := Attempt(t.sessions, Register(false)))
    case RegisterUnserialisable => t.(pc := Connecting)
    case Outbound(outcome) =>
      var msg := t.queue[0];
      var t1 := t.(queue := t.queue[1..], taken := t.taken + [Taken(msg, outcome)]);
      (match outcome
       case Sent => t1.(sessions := Attempt(t.sessions, Data(msg, true)))
       case Lost => t1.(pc := Sleeping, sessions := Attempt(t.sessions, Data(msg, false)))
       case Unserialisable => t1)
    case Ping(ponged) => t.(sessions := Attempt(t.sessions, Pong(ponged)))
    case OtherFrame => t
    case Closed => t.(pc := Sleeping)
    case Elapsed => t.(pc := Connecting, delay := Doubled(t.delay), sleeps := t.sleeps + [t.delay])
  }

  function Run(t: Task, es: seq<Event>): Task {
    if es == [] then t else Next(Run(t, es[..|es| - 1]), es[|es| - 1])
  }

  /** One more event of a script. */
  lemma RunNext(t: Task, script: seq<Event>, k: nat)
    requires k < |script|
    ensures Run(t, script[..k + 1]) == Next(Run(t, script[..k]), script[k])
  {
    assert script[..k + 1][..k] == script[..k];
  }

  /** Every event is one the task awaits when it happens. */
  ghost predicate Legal(t: Task, es: seq<Event>) {
    es == []
    || (var k := |es| - 1;
        var before := Run(t, es[..k]);
        Legal(t, es[..k]) && Awaited(before.pc, before.queue, es[k]))
  }

  // ── Reading the history ───────────────────────────────────────────────────

  function Messages(taken: seq<Taken>): seq<string> {
    if taken == [] then [] else Messages(taken[..|taken| - 1]) + [taken[|taken| - 1].msg]
  }

  /** The messages taken with the given outcome, in order. */
  function With(taken: seq<Taken>, outcome: Outcome): seq<string> {
    if taken == [] then []
    else
      var k := |taken| - 1;
      With(taken[..k], outcome) + (if taken[k].outcome == outcome then [taken[k].msg] else [])
  }

  /** The data frames of a session that succeeded (or failed), in order. */
  function DataOf(frames: seq<Frame>, ok: bool): seq<string> {
    if frames == [] then []
    else
      var k := |frames| - 1;
      DataOf(frames[..k], ok) + (if frames[k].Data? && frames[k].ok == ok then [frames[k].msg] else [])
  }

  function AllData(sessions: seq<seq<Frame>>, ok: bool): seq<string> {
    if sessions == [] then []
    else
      var k := |sessions| - 1;
      AllData(sessions[..k], ok) + DataOf(sessions[k], ok)
  }

  /** Register is the first frame and only the first, and nothing follows a Register
      or data frame that failed, or a close. A failed Pong is ignored. */
  ghost predicate WellFormed(frames: seq<Frame>) {
    && (forall i :: 0 <= i < |frames| ==> (frames[i].Register? <==> i == 0))
    && (forall i :: 0 <= i < |frames| - 1 ==> !Broken(frames[i]))
  }

  predicate Broken(f: Frame) {
    f.Close? || (f.Register? && !f.ok) || (f.Data? && !f.ok)
  }

  /** The current session can still take frames. */
  ghost predicate Live(frames: seq<Frame>) {
    WellFormed(frames) && frames != [] && !Broken(frames[|frames| - 1])
  }

  // ── Invariants ────────────────────────────────────────────────────────────

  ghost predicate SessionInv(t: Task) {
    var k := |t.sessions| - 1;
    && (forall i :: 0 <= i < |t.sessions| ==> WellFormed(t.sessions[i]))
    && (t.pc.Registering? ==> k >= 0 && t.sessions[k] == [])
    && (t.pc.Serving? ==> k >= 0 && Live(t.sessions[k]))
  }

  predicate FlowInv(t: Task) {
    && Messages(t.taken) + t.queue == t.accepted
    && AllData(t.sessions, true) == With(t.taken, Sent)
    && AllData(t.sessions, false) == With(t.taken, Lost)
    && ((t.pc.Registering? || t.pc.Serving?) ==> t.sessions != [])
  }

  ghost predicate DelayInv(t: Task) {
    && (!t.pc.Done? ==> t.delay == DelayAfter(|t.sleeps|))
    && (forall i :: 0 <= i < |t.sleeps| ==> t.sleeps[i] == DelayAfter(i))
  }

  lemma LiveAppend(frames: seq<Frame>, f: Frame)
    requires Live(frames) && !f.Register?
    ensures WellFormed(frames + [f])
    ensures !Broken(f) ==> Live(frames + [f])
  {
  }

  lemma SessionStep(t: Task, e: Event)
    requires SessionInv(t)
    ensures SessionInv(Next(t, e))
  {
    var t' := Next(t, e);
    var k := |t.sessions| - 1;
    if Awaited(t.pc, t.queue, e) && t.pc.Serving? {
      var frames := t.sessions[k];
      match e
      case Shutdown => LiveAppend(frames, Close);
      case Ping(ponged) => LiveAppend(frames, Pong(ponged));
      case Outbound(outcome) => LiveAppend(frames, Data(t.queue[0], outcome.Sent?));
      case _ =>
    } else if Awaited(t.pc, t.queue, e) && t.pc.Registering? && (e.RegisterSent? || e.RegisterFailed?) {
      assert t'.sessions[k] == [Register(e.RegisterSent?)];
    }
  }

  lemma DataAttempt(sessions: seq<seq<Frame>>, f: Frame, ok: bool)
    requires sessions != []
    ensures AllData(Attempt(sessions, f), ok)
         == AllData(sessions, ok) + (if f.Data? && f.ok == ok then [f.msg] else [])
  {
    var k := |sessions| - 1;
    var frames, s' := sessions[k], Attempt(sessions, f);
    assert s'[..k] == sessions[..k] && s'[k] == frames + [f];
    assert (frames + [f])[..|frames|] == frames;
  }

  lemma DataNewSession(sessions: seq<seq<Frame>>, ok: bool)
    ensures AllData(sessions + [[]], ok) == AllData(sessions, ok)
  {
    assert (sessions + [[]])[..|sessions|] == sessions;
  }

  lemma TakeOne(taken: seq<Taken>, x: Taken, outcome: Outcome)
    ensures Messages(taken + [x]) == Messages(taken) + [x.msg]
    ensures With(taken + [x], outcome) == With(taken, outcome) + (if x.outcome == outcome then [x.msg] else [])
  {
    assert (taken + [x])[..|taken|] == taken;
  }

  lemma TakeKeepsOrder(taken: seq<Taken>, queue: seq<string>, x: Taken)
    requires queue != [] && x.msg == queue[0]
    ensures Messages(taken + [x]) + queue[1..] == Messages(taken) + queue
  {
    TakeOne(taken, x, Sent);
    assert Messages(taken) + [x.msg] + queue[1..] == Messages(taken) + ([x.msg] + queue[1..]);
    assert [x.msg] + queue[1..] == queue;
  }

  lemma OutboundStep(t: Task, e: Event)
    requires FlowInv(t) && e.Outbound? && Awaited(t.pc, t.queue, e)
    ensures FlowInv(Next(t, e))
  {
    var x := Taken(t.queue[0], e.outcome);
    var f := Data(x.msg, e.outcome.Sent?);
    var sessions := if e.outcome.Unserialisable? then t.sessions else Attempt(t.sessions, f);
    TakeKeepsOrder(t.taken, t.queue, x);
    TakeOne(t.taken, x, Sent);
    TakeOne(t.taken, x, Lost);
    DataAttempt(t.sessions, f, true);
    DataAttempt(t.sessions, f, false);
    var t' := Next(t, e);
    assert t'.sessions == sessions && t'.taken == t.taken + [x] && t'.queue == t.queue[1..];
    assert AllData(sessions, true) == With(t.taken + [x], Sent);
    assert AllData(sessions, false) == With(t.taken + [x], Lost);
  }

  lemma FlowStep(t: Task, e: Event)
    requires FlowInv(t)
    ensures FlowInv(Next(t, e))
  {
    var t' := Next(t, e);
    if Awaited(t.pc, t.queue, e) {
      match e
      case Outbound(_) => OutboundStep(t, e);
      case ConnectOk =>
        DataNewSession(t.sessions, true);
        DataNewSession(t.sessions, false);
      case Enqueue(_) =>
      case Ping(ponged) =>
        DataAttempt(t.sessions, Pong(ponged), true);
        DataAttempt(t.sessions, Pong(ponged), false);
      case _ =>
        if t'.sessions != t.sessions {
          var f := if e.Shutdown? then Close else Register(e.RegisterSent?);
          DataAttempt(t.sessions, f, true);
          DataAttempt(t.sessions, f, false);
        }
    }
  }

  lemma DelayStep(t: Task, e: Event)
    requires DelayInv(t)
    ensures DelayInv(Next(t, e))
  {
    DoubledDelay(|t.sleeps|);
  }

  lemma {:induction false} RunInv(es: seq<Event>)
    ensures var t := Run(Init(), es); SessionInv(t) && FlowInv(t) && DelayInv(t)
  {
    if es == [] {
    } else {
      var k := |es| - 1;
      RunInv(es[..k]);
      var t := Run(Init(), es[..k]);
      SessionStep(t, es[k]);
      FlowStep(t, es[k]);
      DelayStep(t, es[k]);
    }
  }

  // ── Every run ─────────────────────────────────────────────────────────────

  /** On every session ever opened, Register is the first frame attempted and the
      only one of its kind, and nothing follows it, or any data frame, that failed;
      a failed Pong ends nothing. */
  lemma RegisterFirst(es: seq<Event>)
    ensures
      forall frames: seq<Frame> :: frames in Run(Init(), es).sessions && frames != [] ==>
        && frames[0].Register?
        && (forall i :: 1 <= i < |frames| ==> !frames[i].Register?)
        && (forall i :: 0 <= i < |frames| - 1 ==> !Broken(frames[i]))
  {
    RunInv(es);
  }

  /** Messages leave the queue in order and none twice; what reached the sink is
      what was taken less the unserialisable and the lost, in order, and no
      session loses more than one. */
  lemma Conservation(es: seq<Event>)
    ensures
      var t := Run(Init(), es);
      && Messages(t.taken) + t.queue == t.accepted
      && AllData(t.sessions, true) == With(t.taken, Sent)
      && |t.taken| == |With(t.taken, Sent)| + |With(t.taken, Lost)| + |With(t.taken, Unserialisable)|
      && |With(t.taken, Lost)| <= |t.sessions|
  {
    RunInv(es);
    var t := Run(Init(), es);
    Partition(t.taken);
    OneLossPerSession(t.sessions);
  }

  lemma {:induction false} Partition(taken: seq<Taken>)
    ensures |taken| == |With(taken, Sent)| + |With(taken, Lost)| + |With(taken, Unserialisable)|
  {
    if taken == [] {
    } else {
      Partition(taken[..|taken| - 1]);
    }
  }

  lemma {:induction false} NoLossWhileUnbroken(frames: seq<Frame>)
    requires forall i :: 0 <= i < |frames| ==> !Broken(frames[i])
    ensures DataOf(frames, false) == []
  {
    if frames == [] {
    } else {
      NoLossWhileUnbroken(frames[..|frames| - 1]);
    }
  }

  lemma {:induction false} OneLossPerSession(sessions: seq<seq<Frame>>)
    requires forall i :: 0 <= i < |sessions| ==> WellFormed(sessions[i])
    ensures |AllData(sessions, false)| <= |sessions|
  {
    if sessions == [] {
    } else {
      var k := |sessions| - 1;
      OneLossPerSession(sessions[..k]);
      var frames := sessions[k];
      if frames != [] {
        NoLossWhileUnbroken(frames[..|frames| - 1]);
      }
    }
  }

  /** Only shutdown ends the task, and a task that ended stays so. */
  lemma OnlyShutdownEnds(t: Task, e: Event)
    ensures Next(t, e).pc.Done? <==> t.pc.Done? || (Awaited(t.pc, t.queue, e) && e.Shutdown?)
  {
  }

  /** A sleeping task sees nothing, shutdown included, before its sleep is over. */
  lemma {:induction false} SleepsOn(t: Task, es: seq<Event>)
    requires t.pc.Sleeping? && Elapsed !in es
    ensures Run(t, es).pc.Sleeping?
  {
    if es == [] {
    } else {
      var k := |es| - 1;
      assert es[k] in es && forall e :: e in es[..k] ==> e in es;
      SleepsOn(t, es[..k]);
    }
  }

  /** The delay is min(2^(k+1), 60) after k waits since the last successful
      connect, and those waits sum as in the MQTT task. */
  lemma BackoffClosedForm(es: seq<Event>)
    ensures
      var t := Run(Init(), es);
      var k := |t.sleeps|;
      && (!t.pc.Done? ==> t.delay == Min(Pow2(k + 1), 60))
      && (k <= 5 ==> Sum(t.sleeps) == 2 * (Pow2(k) - 1))
      && (k >= 5 ==> Sum(t.sleeps) == 62 + 60 * (k - 5))
  {
    RunInv(es);
    SumOfDelays(Run(Init(), es).sleeps);
  }

  // ── Between two connects ──────────────────────────────────────────────────

  /** The `k`th event happens: the task awaits it. */
  ghost predicate Happens(es: seq<Event>, k: nat)
    requires k < |es|
  {
    var t := Run(Init(), es[..k]);
    Awaited(t.pc, t.queue, es[k])
  }

  /** The `k`th event is the outcome of a connect. */
  ghost predicate ConnectAt(es: seq<Event>, k: nat)
    requires k < |es|
  {
    Happens(es, k) && (es[k].ConnectOk? || es[k].ConnectFailed?)
  }

  /** Full waits among the events from `i` up to `j`. */
  ghost function Waits(es: seq<Event>, i: nat, j: nat): nat
    requires i <= j <= |es|
  {
    if i == j then 0 else Waits(es, i, j - 1) + (if Happens(es, j - 1) && es[j - 1].Elapsed? then 1 else 0)
  }

  /** Register frames that could not be sent or serialised among them. */
  ghost function FailedRegisters(es: seq<Event>, i: nat, j: nat): nat
    requires i <= j <= |es|
  {
    if i == j then 0
    else
      var failed := es[j - 1].RegisterFailed? || es[j - 1].RegisterUnserialisable?;
      FailedRegisters(es, i, j - 1) + (if Happens(es, j - 1) && failed then 1 else 0)
  }

  /** Where a task can go without a connect. */
  lemma StepWithoutConnect(t: Task, e: Event)
    requires Awaited(t.pc, t.queue, e) ==> !e.ConnectOk? && !e.ConnectFailed?
    ensures
      var pc, happens := Next(t, e).pc, Awaited(t.pc, t.queue, e);
      if happens && e.Elapsed? then t.pc.Sleeping? && pc.Connecting?
      else if happens && (e.RegisterFailed? || e.RegisterUnserialisable?) then t.pc.Registering? && pc.Connecting?
      else pc == t.pc || pc.Done? || (t.pc.Registering? && pc.Serving?) || (t.pc.Serving? && pc.Sleeping?)
  {
  }

  /** What the task may have done on the way to `pc` since it last connected. */
  predicate WayBack(pc: Pc, failed: bool, waits: nat, registers: nat) {
    && (pc.Registering? || pc.Serving? || pc.Sleeping? ==> waits + registers == 0)
    && (pc.Connecting? ==> waits + registers == 1)
    && (failed ==> registers == 0 && !pc.Registering? && !pc.Serving?)
  }

  /** Until the task connects again it has done neither, or exactly one of the two
      and is about to connect. */
  lemma {:induction false} OneWayBack(es: seq<Event>, i: nat, j: nat)
    requires i < j <= |es| && ConnectAt(es, i) && forall k :: i < k < j ==> !ConnectAt(es, k)
    ensures WayBack(Run(Init(), es[..j]).pc, es[i].ConnectFailed?, Waits(es, i + 1, j), FailedRegisters(es, i + 1, j))
  {
    RunNext(Init(), es, j - 1);
    assert es[..j - 1 + 1] == es[..j];
    if j == i + 1 {
    } else {
      OneWayBack(es, i, j - 1);
      assert !ConnectAt(es, j - 1);
      StepWithoutConnect(Run(Init(), es[..j - 1]), es[j - 1]);
    }
  }

  /** Between two consecutive connects the task either waits once or fails to send
      Register once. So it reconnects without a wait exactly when the first connect
      succeeded and its Register did not. */
  lemma ReconnectsAtOnce(es: seq<Event>, i: nat, j: nat)
    requires i < j < |es| && ConnectAt(es, i) && ConnectAt(es, j) && forall k :: i < k < j ==> !ConnectAt(es, k)
    ensures Waits(es, i + 1, j) + FailedRegisters(es, i + 1, j) == 1
    ensures Waits(es, i + 1, j) == 0 ==> es[i].ConnectOk?
  {
    OneWayBack(es, i, j);
  }
}
