/** The WebSocket task read off the events it takes: where it is, how long it waits
    and which frames it attempts, without its own bookkeeping. */
module WebSocketHistory {
  import opened Backoff
  import opened WebSocketTask

  /** The events that the task was waiting for when they happened. */
  function Happened(es: seq<Event>): seq<Event> {
    if es == [] then []
    else
      var k := |es| - 1;
      var t := Run(Init(), es[..k]);
      Happened(es[..k]) + (if Awaited(t.pc, t.queue, es[k]) then [es[k]] else [])
  }

  /** Where one more event puts the task. */
  function MovesTo(at: Pc, e: Event): Pc {
    match e
    case Shutdown => Done
    case ConnectOk => Registering
    case ConnectFailed => Sleeping
    case RegisterSent => Serving
    case RegisterFailed => Connecting
    case RegisterUnserialisable => Connecting
    case Outbound(Lost) => Sleeping
    case Closed => Sleeping
    case Elapsed => Connecting
    case _ => at
  }

  /** Where the events have put it. */
  function Where(ev: seq<Event>): Pc {
    if ev == [] then Connecting else MovesTo(Where(ev[..|ev| - 1]), ev[|ev| - 1])
  }

  /** The waits since the last successful connect. */
  function WaitsSinceConnect(ev: seq<Event>): nat {
    if ev == [] then 0
    else
      var k := |ev| - 1;
      match ev[k]
      case ConnectOk => 0
      case Elapsed => WaitsSinceConnect(ev[..k]) + 1
      case _ => WaitsSinceConnect(ev[..k])
  }

  function Connects(ev: seq<Event>): nat {
    if ev == [] then 0 else Connects(ev[..|ev| - 1]) + (if ev[|ev| - 1].ConnectOk? then 1 else 0)
  }

  function Enqueued(ev: seq<Event>): seq<string> {
    if ev == [] then []
    else
      var k := |ev| - 1;
      Enqueued(ev[..k]) + (if ev[k].Enqueue? then [ev[k].msg] else [])
  }

  function Outcomes(ev: seq<Event>): seq<Outcome> {
    if ev == [] then []
    else
      var k := |ev| - 1;
      Outcomes(ev[..k]) + (if ev[k].Outbound? then [ev[k].outcome] else [])
  }

  /** The frames, other than data, that one more event makes the task attempt. */
  function ControlAt(ev: seq<Event>, e: Event): seq<Frame> {
    match e
    case RegisterSent => [Register(true)]
    case RegisterFailed => [Register(false)]
    case Ping(ponged) => [Pong(ponged)]
    case Shutdown => if Where(ev).Serving? then [Close] else []
    case _ => []
  }

  function Control(ev: seq<Event>): seq<Frame> {
    if ev == [] then []
    else
      var k := |ev| - 1;
      Control(ev[..k]) + ControlAt(ev[..k], ev[k])
  }

  // ── The task's bookkeeping ────────────────────────────────────────────────

  function OutcomesOf(taken: seq<Taken>): seq<Outcome> {
    if taken == [] then []
    else
      var k := |taken| - 1;
      OutcomesOf(taken[..k]) + [taken[k].outcome]
  }

  function ControlOf(frames: seq<Frame>): seq<Frame> {
    if frames == [] then []
    else
      var k := |frames| - 1;
      ControlOf(frames[..k]) + (if frames[k].Data? then [] else [frames[k]])
  }

  function AllControl(sessions: seq<seq<Frame>>): seq<Frame> {
    if sessions == [] then []
    else
      var k := |sessions| - 1;
      AllControl(sessions[..k]) + ControlOf(sessions[k])
  }

  lemma ControlAttempt(sessions: seq<seq<Frame>>, f: Frame)
    requires sessions != []
    ensures AllControl(Attempt(sessions, f)) == AllControl(sessions) + (if f.Data? then [] else [f])
  {
    var k := |sessions| - 1;
    var frames, s' := sessions[k], Attempt(sessions, f);
    var extra := if f.Data? then [] else [f];
    assert s'[..k] == sessions[..k] && s'[k] == frames + [f];
    ControlAppend(frames, f);
    assert AllControl(sessions[..k]) + (ControlOf(frames) + extra) == AllControl(sessions[..k]) + ControlOf(frames) + extra;
  }

  lemma ControlAppend(frames: seq<Frame>, f: Frame)
    ensures ControlOf(frames + [f]) == ControlOf(frames) + (if f.Data? then [] else [f])
  {
    assert (frames + [f])[..|frames|] == frames;
  }

  lemma ControlNewSession(sessions: seq<seq<Frame>>)
    ensures AllControl(sessions + [[]]) == AllControl(sessions)
  {
    assert (sessions + [[]])[..|sessions|] == sessions;
  }

  lemma OutcomeTaken(taken: seq<Taken>, x: Taken)
    ensures OutcomesOf(taken + [x]) == OutcomesOf(taken) + [x.outcome]
  {
    assert (taken + [x])[..|taken|] == taken;
  }

  // ── One step ──────────────────────────────────────────────────────────────

  ghost predicate Agrees(t: Task, ev: seq<Event>) {
    && t.pc == Where(ev) && |t.sleeps| == WaitsSinceConnect(ev) && |t.sessions| == Connects(ev)
    && t.accepted == Enqueued(ev) && OutcomesOf(t.taken) == Outcomes(ev)
  }

  /** What one more event adds to each reading of the history. */
  lemma OneMoreEvent(ev: seq<Event>, e: Event)
    ensures Where(ev + [e]) == MovesTo(Where(ev), e)
    ensures WaitsSinceConnect(ev + [e])
         == if e.ConnectOk? then 0 else if e.Elapsed? then WaitsSinceConnect(ev) + 1 else WaitsSinceConnect(ev)
    ensures Connects(ev + [e]) == Connects(ev) + (if e.ConnectOk? then 1 else 0)
    ensures Enqueued(ev + [e]) == Enqueued(ev) + (if e.Enqueue? then [e.msg] else [])
    ensures Outcomes(ev + [e]) == Outcomes(ev) + (if e.Outbound? then [e.outcome] else [])
    ensures Control(ev + [e]) == Control(ev) + ControlAt(ev, e)
  {
    assert (ev + [e])[..|ev|] == ev;
  }

  lemma AgreesStep(t: Task, ev: seq<Event>, e: Event)
    requires Agrees(t, ev) && FlowInv(t) && Awaited(t.pc, t.queue, e)
    ensures Agrees(Next(t, e), ev + [e])
  {
    OneMoreEvent(ev, e);
    StepShape(t, e);
    if e.Outbound? {
      OutcomeTaken(t.taken, Taken(t.queue[0], e.outcome));
    }
  }

  /** What one event does to the task, field by field. */
  lemma StepShape(t: Task, e: Event)
    requires FlowInv(t) && Awaited(t.pc, t.queue, e)
    ensures
      var t' := Next(t, e);
      && t'.pc == MovesTo(t.pc, e)
      && |t'.sleeps| == (if e.ConnectOk? then 0 else if e.Elapsed? then |t.sleeps| + 1 else |t.sleeps|)
      && |t'.sessions| == |t.sessions| + (if e.ConnectOk? then 1 else 0)
      && t'.accepted == t.accepted + (if e.Enqueue? then [e.msg] else [])
      && t'.taken == t.taken + (if e.Outbound? then [Taken(t.queue[0], e.outcome)] else [])
  {
  }

  lemma ControlStep(t: Task, ev: seq<Event>, e: Event)
    requires AllControl(t.sessions) == Control(ev) && t.pc == Where(ev) && FlowInv(t) && Awaited(t.pc, t.queue, e)
    ensures AllControl(Next(t, e).sessions) == Control(ev + [e])
  {
    OneMoreEvent(ev, e);
    match e
    case ConnectOk => ControlNewSession(t.sessions);
    case Outbound(outcome) => ControlAttempt(t.sessions, Data(t.queue[0], outcome.Sent?));
    case Ping(ponged) => ControlAttempt(t.sessions, Pong(ponged));
    case RegisterSent => ControlAttempt(t.sessions, Register(true));
    case RegisterFailed => ControlAttempt(t.sessions, Register(false));
    case Shutdown =>
      if t.pc.Serving? {
        ControlAttempt(t.sessions, Close);
      }
    case _ =>
  }

  lemma {:induction false} RunAgrees(es: seq<Event>)
    ensures Agrees(Run(Init(), es), Happened(es)) && AllControl(Run(Init(), es).sessions) == Control(Happened(es))
  {
    if es == [] {
    } else {
      var k := |es| - 1;
      var t := Run(Init(), es[..k]);
      RunAgrees(es[..k]);
      RunInv(es[..k]);
      if Awaited(t.pc, t.queue, es[k]) {
        AgreesStep(t, Happened(es[..k]), es[k]);
        ControlStep(t, Happened(es[..k]), es[k]);
      } else {
        assert Happened(es[..k]) + [] == Happened(es[..k]);
      }
    }
  }

  // ── Every run ─────────────────────────────────────────────────────────────

  /** The task is where the events it took have put it: a failed connect, a lost
      message and a closed stream lead to sleep, a failed Register straight back to
      connecting. Its delay is min(2^(k+1), 60) after the k waits taken since the
      last successful connect, each of them as long as the delay was then. */
  lemma TaskFollowsEvents(es: seq<Event>)
    ensures
      var t, k := Run(Init(), es), WaitsSinceConnect(Happened(es));
      && t.pc == Where(Happened(es))
      && |t.sleeps| == k
      && (!t.pc.Done? ==> t.delay == Min(Pow2(k + 1), 60))
      && (forall i :: 0 <= i < k ==> t.sleeps[i] == Min(Pow2(i + 1), 60))
  {
    RunAgrees(es);
    DelaysOf(es);
  }

  lemma DelaysOf(es: seq<Event>)
    ensures
      var t := Run(Init(), es);
      && (!t.pc.Done? ==> t.delay == Min(Pow2(|t.sleeps| + 1), 60))
      && forall i :: 0 <= i < |t.sleeps| ==> t.sleeps[i] == Min(Pow2(i + 1), 60)
  {
    RunInv(es);
    var t := Run(Init(), es);
    forall i | 0 <= i < |t.sleeps| ensures t.sleeps[i] == Min(Pow2(i + 1), 60) {
      assert t.sleeps[i] == DelayAfter(i);
    }
  }

  /** Each successful connect opens a session. The frames attempted over all of
      them, other than data, are one Register per Register event, one Pong per ping
      and a Close for a shutdown while serving, in order; the messages accepted are
      those enqueued and their outcomes those of the events. */
  lemma FramesFollowEvents(es: seq<Event>)
    ensures
      var t, ev := Run(Init(), es), Happened(es);
      && |t.sessions| == Connects(ev)
      && AllControl(t.sessions) == Control(ev)
      && t.accepted == Enqueued(ev)
      && OutcomesOf(t.taken) == Outcomes(ev)
  {
    RunAgrees(es);
  }

  /** What the task takes in each place: shutdown only while it connects or serves. */
  lemma TakesWhereItIs(es: seq<Event>, e: Event)
    ensures
      var at, t := Where(Happened(es)), Run(Init(), es);
      Awaited(t.pc, t.queue, e)
      <==> match e
           case Enqueue(_) => at != Done
           case Shutdown => at == Connecting || at == Serving
           case ConnectOk => at == Connecting
           case ConnectFailed => at == Connecting
           case RegisterSent => at == Registering
           case RegisterFailed => at == Registering
           case RegisterUnserialisable => at == Registering
           case Elapsed => at == Sleeping
           case Outbound(_) => at == Serving && |Outcomes(Happened(es))| < |Enqueued(Happened(es))|
           case _ => at == Serving
  {
    RunAgrees(es);
    RunInv(es);
    TakenCounts(Run(Init(), es).taken);
  }

  lemma {:induction false} TakenCounts(taken: seq<Taken>)
    ensures |Messages(taken)| == |taken| == |OutcomesOf(taken)|
  {
    if taken == [] {
    } else {
      TakenCounts(taken[..|taken| - 1]);
    }
  }
}
