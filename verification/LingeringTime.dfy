/** How long a task outlives its handle, in seconds. The runs here are timed and
    timely: sleeps end on time, sending Register takes at most `sending` seconds,
    and a task that can notice that its handle was dropped does so before it does
    anything else (`select!` leaves that choice open when several branches are ready). */
module LingeringTime {
  import opened Common
  import opened Registry
  import Loops = MessageLoop
  import Tasks = WebSocketTask
  import opened GatewayTasks
  import opened Backoff

  /** `since` tells when each task came where it is, and `dropped` when its handle
      was dropped, if it was. */
  datatype Timed = Timed(world: World, clock: nat, since: map<Handle, nat>, dropped: map<Handle, nat>)

  datatype Stamped = Stamped(act: Action, at: nat)

  function Start(own: Option<string>, start: nat): Timed {
    Timed(Init(own, start), start, map[], map[])
  }

  /** The step leaves the task where it was. */
  predicate Stays(w: World, w': World, h: Handle)
    requires h in w'.tasks
  {
    h in w.tasks && w.tasks[h].pc == w'.tasks[h].pc
  }

  ghost function After(s: Timed, x: Stamped): Timed {
    var w, w' := s.world, Next(s.world, x.act);
    Timed(w', x.at,
          map h | h in w'.tasks :: if Stays(w, w', h) && h in s.since then s.since[h] else x.at,
          map h | h in w'.tasks && h !in w'.loop.open :: if h in s.dropped then s.dropped[h] else x.at)
  }

  ghost function RunTimed(s: Timed, xs: seq<Stamped>): Timed {
    if xs == [] then s else After(RunTimed(s, xs[..|xs| - 1]), xs[|xs| - 1])
  }

  /** The task is at an await that takes shutdown. */
  predicate Listens(t: Tasks.Task) {
    t.pc.Connecting? || t.pc.Serving?
  }

  ghost predicate Complete(s: Timed) {
    && s.since.Keys == s.world.tasks.Keys
    && (forall h :: h in s.dropped <==> h in s.world.tasks && h !in s.world.loop.open)
  }

  /** The latest moment until which a running task can stay where it is, if bounded. */
  ghost function Deadline(s: Timed, h: Handle, sending: nat): Option<nat>
    requires Complete(s) && h in s.world.tasks
  {
    var t := s.world.tasks[h];
    match t.pc
    case Sleeping => Some(s.since[h] + t.delay)
    case Registering => Some(s.since[h] + sending)
    case Done => None
    case _ =>
      if h in s.world.loop.open then None
      else Some(if s.since[h] <= s.dropped[h] then s.dropped[h] else s.since[h])
  }

  /** Time passes to `at` without any task missing its deadline. */
  ghost predicate Passes(s: Timed, at: nat, sending: nat) {
    && Complete(s) && s.clock <= at
    && forall h :: h in s.world.tasks ==>
         Deadline(s, h, sending).Some? ==> at <= Deadline(s, h, sending).value
  }

  /** A task that can notice its dropped handle does nothing else. */
  predicate Attentive(w: World, a: Action) {
    a.TaskStep? && Lingering(w, a.handle) && Listens(w.tasks[a.handle]) ==> a.did.Shutdown? || a.did.Enqueue?
  }

  /** A step of the loop that reads the clock reads this time. */
  predicate OnClock(a: Action, at: nat) {
    a.LoopStep? && (a.event.Channel? || a.event.Message? || a.event.SweepStart?) ==> a.event.now == at
  }

  ghost predicate Timely(s: Timed, xs: seq<Stamped>, sending: nat) {
    xs == []
    || (var k := |xs| - 1;
        var s1 := RunTimed(s, xs[..k]);
        && Timely(s, xs[..k], sending)
        && Passes(s1, xs[k].at, sending) && Attentive(s1.world, xs[k].act) && OnClock(xs[k].act, xs[k].at))
  }

  // ── One step ──────────────────────────────────────────────────────────────

  function Bound(sending: nat): nat {
    if sending <= MAX_RECONNECT_DELAY then MAX_RECONNECT_DELAY else sending
  }

  /** A task that lost its handle went to sleep, or connected, before that; wherever
      it has come since, it came there in time. */
  predicate TaskInTime(t: Tasks.Task, since: nat, dropped: Option<nat>, clock: nat, sending: nat) {
    && t.delay <= MAX_RECONNECT_DELAY && since <= clock
    && (dropped.Some? ==>
          && dropped.value <= clock
          && (t.pc.Sleeping? || t.pc.Registering? ==> since <= dropped.value)
          && (Listens(t) ==> since <= dropped.value + Bound(sending)))
  }

  function Dropped(s: Timed, h: Handle): Option<nat> {
    if h in s.dropped then Some(s.dropped[h]) else None
  }

  ghost predicate InTime(s: Timed, h: Handle, sending: nat)
    requires Complete(s) && h in s.world.tasks
  {
    TaskInTime(s.world.tasks[h], s.since[h], Dropped(s, h), s.clock, sending)
  }

  ghost predicate TimedInv(s: Timed, sending: nat) {
    Inv(s.world) && Complete(s) && forall h :: h in s.world.tasks ==> InTime(s, h, sending)
  }

  /** While time can pass to `at`, every lingering task lost its handle recently. */
  lemma LingersInTime(s: Timed, at: nat, sending: nat, h: Handle)
    requires TimedInv(s, sending) && Passes(s, at, sending) && Lingering(s.world, h)
    ensures h in s.dropped && at <= s.dropped[h] + Bound(sending)
  {
    assert InTime(s, h, sending);
  }

  lemma DelayBounded(t: Tasks.Task, e: Tasks.Event)
    ensures t.delay <= MAX_RECONNECT_DELAY ==> Tasks.Next(t, e).delay <= MAX_RECONNECT_DELAY
  {
  }

  /** Where a task that does nothing but notice a dropped handle can go. */
  lemma MovesTo(t: Tasks.Task, e: Tasks.Event)
    ensures
      var t' := Tasks.Next(t, e);
      && (t'.pc != t.pc && Listens(t') ==> t.pc.Sleeping? || t.pc.Registering?)
      && (t'.pc != t.pc && (t'.pc.Sleeping? || t'.pc.Registering?) ==> Listens(t) && !e.Shutdown? && !e.Enqueue?)
  {
  }

  /** What a step does to the tasks and to which of them have lost their handle. */
  lemma WorldShape(w: World, a: Action, h: Handle)
    requires Inv(w)
    ensures
      var w' := Next(w, a);
      if h in w.tasks then
        && h in w'.tasks
        && w'.tasks[h] == (if a.TaskStep? && a.handle == h && CanStep(w, h, a.did) then Tasks.Next(w.tasks[h], a.did)
                           else w.tasks[h])
        && (h !in w.loop.open ==> h !in w'.loop.open)
        && (a.TaskStep? ==> w'.loop == w.loop)
      else
        h in w'.tasks ==> w'.tasks[h] == Tasks.Init()
  {
    if a.LoopStep? {
      Loops.SpawnShape(w.loop, a.event);
    }
  }

  lemma AfterComplete(s: Timed, x: Stamped)
    requires Inv(s.world) && Complete(s)
    ensures Complete(After(s, x))
  {
  }

  /** The books of one task after a step. */
  lemma AfterTask(s: Timed, x: Stamped, h: Handle)
    requires Inv(s.world) && Complete(s) && h in s.world.tasks
    ensures
      var s' := After(s, x);
      && Complete(s') && h in s'.world.tasks && s'.clock == x.at
      && s'.since[h] == (if s'.world.tasks[h].pc == s.world.tasks[h].pc then s.since[h] else x.at)
      && (Dropped(s', h) == Dropped(s, h) || (Dropped(s, h).None? && Dropped(s', h) == Some(x.at)))
      && (x.act.TaskStep? ==> Dropped(s', h) == Dropped(s, h))
  {
    AfterComplete(s, x);
    WorldShape(s.world, x.act, h);
  }

  lemma DeadlineMet(s: Timed, at: nat, sending: nat, h: Handle)
    requires Passes(s, at, sending) && h in s.world.tasks
    ensures s.world.tasks[h].pc.Sleeping? ==> at <= s.since[h] + s.world.tasks[h].delay
    ensures s.world.tasks[h].pc.Registering? ==> at <= s.since[h] + sending
  {
    assert Deadline(s, h, sending).Some? ==> at <= Deadline(s, h, sending).value;
  }

  lemma TaskMovesInTime(t: Tasks.Task, e: Tasks.Event, since: nat, dropped: Option<nat>, clock: nat, at: nat, sending: nat)
    requires TaskInTime(t, since, dropped, clock, sending) && clock <= at
    requires t.pc.Sleeping? ==> at <= since + t.delay
    requires t.pc.Registering? ==> at <= since + sending
    requires dropped.Some? && Listens(t) ==> e.Shutdown? || e.Enqueue?
    ensures
      var t' := Tasks.Next(t, e);
      TaskInTime(t', if t'.pc == t.pc then since else at, dropped, at, sending)
  {
    DelayBounded(t, e);
    MovesTo(t, e);
  }

  lemma TaskRestsInTime(t: Tasks.Task, since: nat, dropped: Option<nat>, clock: nat, at: nat, sending: nat)
    requires TaskInTime(t, since, dropped, clock, sending) && clock <= at
    ensures TaskInTime(t, since, dropped, at, sending)
    ensures dropped.None? ==> TaskInTime(t, since, Some(at), at, sending)
  {
  }

  /** A task that was there before the step. */
  lemma KeepsTime(s: Timed, x: Stamped, sending: nat, h: Handle)
    requires TimedInv(s, sending) && Passes(s, x.at, sending) && Attentive(s.world, x.act) && h in s.world.tasks
    ensures Complete(After(s, x)) && h in After(s, x).world.tasks && InTime(After(s, x), h, sending)
  {
    AfterTask(s, x, h);
    WorldShape(s.world, x.act, h);
    assert InTime(s, h, sending);
    if x.act.TaskStep? && x.act.handle == h && CanStep(s.world, h, x.act.did) {
      MovesInTime(s, h, x.act.did, x.at, sending);
    } else {
      TaskRestsInTime(s.world.tasks[h], s.since[h], Dropped(s, h), s.clock, x.at, sending);
    }
  }

  lemma MovesInTime(s: Timed, h: Handle, e: Tasks.Event, at: nat, sending: nat)
    requires TimedInv(s, sending) && Passes(s, at, sending) && Attentive(s.world, TaskStep(h, e)) && CanStep(s.world, h, e)
    ensures
      var t, t' := s.world.tasks[h], Tasks.Next(s.world.tasks[h], e);
      TaskInTime(t', if t'.pc == t.pc then s.since[h] else at, Dropped(s, h), at, sending)
  {
    DeadlineMet(s, at, sending, h);
    assert InTime(s, h, sending);
    TaskMovesInTime(s.world.tasks[h], e, s.since[h], Dropped(s, h), s.clock, at, sending);
  }

  /** A task that the step spawns. */
  lemma StartsInTime(s: Timed, x: Stamped, sending: nat, h: Handle)
    requires TimedInv(s, sending) && h in After(s, x).world.tasks && h !in s.world.tasks
    ensures Complete(After(s, x)) && InTime(After(s, x), h, sending)
  {
    AfterComplete(s, x);
    WorldShape(s.world, x.act, h);
  }

  lemma StepTimed(s: Timed, x: Stamped, sending: nat)
    requires TimedInv(s, sending) && Passes(s, x.at, sending) && Attentive(s.world, x.act)
    ensures TimedInv(After(s, x), sending)
  {
    StepInv(s.world, x.act);
    AfterComplete(s, x);
    forall h | h in After(s, x).world.tasks ensures InTime(After(s, x), h, sending) {
      if h in s.world.tasks {
        KeepsTime(s, x, sending, h);
      } else {
        StartsInTime(s, x, sending, h);
      }
    }
  }

  // ── Every timely run ──────────────────────────────────────────────────────

  lemma {:induction false} TimelyInv(own: Option<string>, start: nat, xs: seq<Stamped>, sending: nat)
    requires Timely(Start(own, start), xs, sending)
    ensures TimedInv(RunTimed(Start(own, start), xs), sending)
  {
    if xs == [] {
      Reachable(own, start, []);
    } else {
      var k := |xs| - 1;
      TimelyInv(own, start, xs[..k], sending);
      StepTimed(RunTimed(Start(own, start), xs[..k]), xs[k], sending);
    }
  }

  /** In every timely run a task outlives its handle by at most 60 seconds, the
      longest reconnect delay, or by the time Register takes if that is longer. */
  lemma LingersBriefly(own: Option<string>, start: nat, xs: seq<Stamped>, at: nat, sending: nat, h: Handle)
    requires Timely(Start(own, start), xs, sending) && Passes(RunTimed(Start(own, start), xs), at, sending)
    requires Lingering(RunTimed(Start(own, start), xs).world, h)
    ensures
      var s := RunTimed(Start(own, start), xs);
      h in s.dropped && at <= s.dropped[h] + if sending <= 60 then 60 else sending
  {
    TimelyInv(own, start, xs, sending);
    LingersInTime(RunTimed(Start(own, start), xs), at, sending, h);
  }

  function Actions(xs: seq<Stamped>): seq<Action> {
    seq(|xs|, i requires 0 <= i < |xs| => xs[i].act)
  }

  lemma {:induction false} SameWorld(s: Timed, xs: seq<Stamped>)
    ensures RunTimed(s, xs).world == Run(s.world, Actions(xs))
  {
    if xs == [] {
    } else {
      var k := |xs| - 1;
      SameWorld(s, xs[..k]);
      assert Actions(xs)[..k] == Actions(xs[..k]);
    }
  }

  /** A spawn comes more than the bound after every handle for its URL was dropped. */
  ghost predicate Spaced(s: Timed, x: Stamped, sending: nat) {
    x.act.LoopStep? && Loops.SpawnedBy(s.world.loop, x.act.event).Some? ==>
      forall h :: h in s.dropped && h.url == Loops.SpawnedBy(s.world.loop, x.act.event).value.url ==>
        x.at > s.dropped[h] + Bound(sending)
  }

  lemma SpacedDoesNotCollide(s: Timed, x: Stamped, sending: nat)
    requires TimedInv(s, sending) && Passes(s, x.at, sending) && Spaced(s, x, sending)
    ensures !Collides(s.world, x.act)
  {
    forall h | Lingering(s.world, h) ensures h in s.dropped && x.at <= s.dropped[h] + Bound(sending) {
      LingersInTime(s, x.at, sending, h);
    }
  }

  lemma {:induction false} TimelyPrefix(s: Timed, xs: seq<Stamped>, k: nat, sending: nat)
    requires Timely(s, xs, sending) && k <= |xs|
    ensures Timely(s, xs[..k], sending)
  {
    if k == |xs| {
      assert xs[..k] == xs;
    } else {
      var n := |xs| - 1;
      assert xs[..n][..k] == xs[..k];
      TimelyPrefix(s, xs[..n], k, sending);
    }
  }

  lemma StepOfTimely(s: Timed, xs: seq<Stamped>, k: nat, sending: nat)
    requires Timely(s, xs, sending) && k < |xs|
    ensures Timely(s, xs[..k], sending) && Passes(RunTimed(s, xs[..k]), xs[k].at, sending)
  {
    TimelyPrefix(s, xs, k + 1, sending);
    TimelyPrefix(s, xs, k, sending);
    assert xs[..k + 1][..k] == xs[..k];
  }

  /** So if no beacon announces a URL within that time of its handle being dropped,
      no two running tasks ever serve one URL. */
  lemma SpacedAnnouncementsSuffice(own: Option<string>, start: nat, xs: seq<Stamped>, sending: nat)
    requires Timely(Start(own, start), xs, sending)
    requires forall k :: 0 <= k < |xs| ==> Spaced(RunTimed(Start(own, start), xs[..k]), xs[k], sending)
    ensures AlwaysUnique(Init(own, start), Actions(xs))
  {
    var s, acts := Start(own, start), Actions(xs);
    forall k | 0 <= k < |acts| ensures !CollidesAt(Init(own, start), acts, k) {
      NoCollisionAt(own, start, xs, k, sending);
    }
    OneTaskPerUrl(own, start, acts);
  }

  lemma NoCollisionAt(own: Option<string>, start: nat, xs: seq<Stamped>, k: nat, sending: nat)
    requires k < |xs| && Timely(Start(own, start), xs, sending)
    requires Spaced(RunTimed(Start(own, start), xs[..k]), xs[k], sending)
    ensures !CollidesAt(Init(own, start), Actions(xs), k)
  {
    var s := Start(own, start);
    StepOfTimely(s, xs, k, sending);
    TimelyInv(own, start, xs[..k], sending);
    SpacedDoesNotCollide(RunTimed(s, xs[..k]), xs[k], sending);
    SameWorld(s, xs[..k]);
    assert Actions(xs)[..k] == Actions(xs[..k]);
  }
}
