/** The message loop together with the WebSocket tasks it spawns. The loop only
    drops a shutdown handle; the task it belongs to ends when it next listens, so
    tasks outlive their handles and two may serve one URL at the same time. URLs
    are compared here as the loop compares them, as announced. */
module GatewayTasks {
  import opened Common
  import opened Registry
  import Loops = MessageLoop
  import Gateways
  import Tasks = WebSocketTask

  datatype World = World(loop: Loops.Loop, tasks: map<Handle, Tasks.Task>)

  datatype Action =
    | LoopStep(event: Loops.Event)
    | TaskStep(handle: Handle, did: Tasks.Event)

  function Init(own: Option<string>, start: nat): World {
    World(Loops.Init(own, start), map[])
  }

  /** The task exists, and it hears of shutdown only once its handle was dropped. */
  predicate CanStep(w: World, h: Handle, e: Tasks.Event) {
    h in w.tasks && (e.Shutdown? ==> h !in w.loop.open)
  }

  ghost function Next(w: World, a: Action): World {
    match a
    case LoopStep(e) =>
      var loop := Loops.Next(w.loop, e);
      (match Loops.SpawnedBy(w.loop, e)
       case None => w.(loop := loop)
       case Some(h) => World(loop, w.tasks[h := Tasks.Init()]))
    case TaskStep(h, e) =>
      if CanStep(w, h, e) then w.(tasks := w.tasks[h := Tasks.Next(w.tasks[h], e)]) else w
  }

  ghost function Run(w: World, acts: seq<Action>): World {
    if acts == [] then w else Next(Run(w, acts[..|acts| - 1]), acts[|acts| - 1])
  }

  /** The loop, or the task, is ready for this. */
  ghost predicate Possible(w: World, a: Action) {
    match a
    case LoopStep(e) => Loops.Enabled(w.loop, e)
    case TaskStep(h, e) => CanStep(w, h, e) && Tasks.Awaited(w.tasks[h].pc, w.tasks[h].queue, e)
  }

  ghost predicate Legal(w: World, acts: seq<Action>) {
    acts == []
    || (var k := |acts| - 1; Legal(w, acts[..k]) && Possible(Run(w, acts[..k]), acts[k]))
  }

  lemma {:induction false} RunConcat(w: World, a: seq<Action>, b: seq<Action>)
    ensures Run(w, a + b) == Run(Run(w, a), b)
    ensures Legal(w, a) && Legal(Run(w, a), b) ==> Legal(w, a + b)
  {
    if b == [] {
      assert a + b == a;
    } else {
      var k := |b| - 1;
      assert (a + b)[..|a| + k] == a + b[..k] && (a + b)[|a| + k] == b[k];
      RunConcat(w, a, b[..k]);
    }
  }

  predicate Live(w: World, h: Handle) {
    h in w.tasks && !w.tasks[h].pc.Done?
  }

  /** Still running although the loop has dropped its handle. */
  predicate Lingering(w: World, h: Handle) {
    Live(w, h) && h !in w.loop.open
  }

  /** No two running tasks serve the same announced URL. */
  ghost predicate Unique(w: World) {
    forall h, k :: Live(w, h) && Live(w, k) && h.url == k.url ==> h == k
  }

  /** A message spawns a task to a URL that a lingering task still serves. */
  ghost predicate Collides(w: World, a: Action) {
    && a.LoopStep? && Loops.SpawnedBy(w.loop, a.event).Some?
    && exists k :: Lingering(w, k) && k.url == Loops.SpawnedBy(w.loop, a.event).value.url
  }

  // ── One step ──────────────────────────────────────────────────────────────

  /** Each handle is an earlier spawn and not to our own URL; held ones are running. */
  ghost predicate Inv(w: World) {
    && Gateways.Inv(w.loop)
    && (forall h :: h in w.tasks ==> h.id < w.loop.spawned && Some(h.url) != w.loop.own)
    && (forall h :: h in w.loop.open ==> Live(w, h))
  }

  /** A held handle's URL is known, and no other held handle goes to it. */
  lemma HeldIsKnown(w: World)
    requires Inv(w)
    ensures forall h :: h in w.loop.open ==> h.url in w.loop.reg.known
    ensures forall h, k :: h in w.loop.open && k in w.loop.open && h.url == k.url ==> h == k
  {
    var s := w.loop;
    Gateways.HandlesApart(Loops.Holders(s), s.reg.known, s.own, s.spawned);
  }

  lemma TaskInv(w: World, h: Handle, e: Tasks.Event)
    requires Inv(w) && CanStep(w, h, e)
    ensures Inv(Next(w, TaskStep(h, e)))
    ensures forall k :: Live(Next(w, TaskStep(h, e)), k) ==> Live(w, k)
  {
    Tasks.OnlyShutdownEnds(w.tasks[h], e);
  }

  lemma LoopInv(w: World, e: Loops.Event)
    requires Inv(w)
    ensures Inv(Next(w, LoopStep(e))) && Next(w, LoopStep(e)).loop.own == w.loop.own
  {
    Gateways.OrphansGrow(w.loop, e);
    Loops.SpawnShape(w.loop, e);
    var w' := Next(w, LoopStep(e));
    forall h | h in w'.loop.open ensures Live(w', h) {
      assert h in w.loop.open ==> Live(w, h) && h.id < w.loop.spawned;
    }
    if Loops.SpawnedBy(w.loop, e).Some? {
      assert OwnUrls(w.loop.own) <= w.loop.reg.known;
    }
  }

  lemma StepInv(w: World, a: Action)
    requires Inv(w)
    ensures Inv(Next(w, a)) && Next(w, a).loop.own == w.loop.own
  {
    match a
    case LoopStep(e) => LoopInv(w, e);
    case TaskStep(h, e) =>
      if CanStep(w, h, e) {
        TaskInv(w, h, e);
      }
  }

  /** The tasks running after a spawn: those before, and the new one. */
  lemma SpawnLive(w: World, e: Loops.Event, k: Handle)
    requires Inv(w)
    ensures
      Live(Next(w, LoopStep(e)), k) <==> Live(w, k) || Loops.SpawnedBy(w.loop, e) == Some(k)
  {
    Loops.SpawnShape(w.loop, e);
  }

  lemma SpawnUnique(w: World, e: Loops.Event)
    requires Inv(w) && Unique(w)
    ensures Unique(Next(w, LoopStep(e))) <==> !Collides(w, LoopStep(e))
  {
    var w' := Next(w, LoopStep(e));
    HeldIsKnown(w);
    forall k ensures Live(w', k) <==> Live(w, k) || Loops.SpawnedBy(w.loop, e) == Some(k) {
      SpawnLive(w, e, k);
    }
    match Loops.SpawnedBy(w.loop, e)
    case None =>
    case Some(h) =>
      assert forall k :: Live(w, k) && k.url == h.url ==> Lingering(w, k) && k != h;
      assert Live(w', h);
  }

  lemma StepUnique(w: World, a: Action)
    requires Inv(w) && Unique(w)
    ensures Unique(Next(w, a)) <==> !Collides(w, a)
  {
    match a
    case LoopStep(e) => SpawnUnique(w, e);
    case TaskStep(h, e) =>
      if CanStep(w, h, e) {
        TaskInv(w, h, e);
      }
  }

  // ── Every run ─────────────────────────────────────────────────────────────

  lemma {:induction false} RunInv(w: World, acts: seq<Action>)
    requires Inv(w)
    ensures Inv(Run(w, acts)) && Run(w, acts).loop.own == w.loop.own
  {
    if acts == [] {
    } else {
      var k := |acts| - 1;
      RunInv(w, acts[..k]);
      StepInv(Run(w, acts[..k]), acts[k]);
    }
  }

  lemma Reachable(own: Option<string>, start: nat, acts: seq<Action>)
    ensures Inv(Run(Init(own, start), acts)) && Run(Init(own, start), acts).loop.own == own
  {
    Gateways.InitInv(own, start);
    RunInv(Init(own, start), acts);
  }

  /** At every moment of every run: a task whose handle is held is running, no
      task was spawned for our own URL, and of two running tasks for the same URL at
      least one lingers. */
  lemma RunningTasks(own: Option<string>, start: nat, acts: seq<Action>)
    ensures
      var w := Run(Init(own, start), acts);
      && (forall h :: h in w.loop.open ==> Live(w, h))
      && (forall h :: Live(w, h) ==> own != Some(h.url))
      && (forall h, k :: Live(w, h) && Live(w, k) && h.url == k.url && h != k ==> Lingering(w, h) || Lingering(w, k))
  {
    Reachable(own, start, acts);
    HeldIsKnown(Run(Init(own, start), acts));
  }

  lemma RunNext(w: World, acts: seq<Action>, k: nat)
    requires k < |acts|
    ensures Run(w, acts[..k + 1]) == Next(Run(w, acts[..k]), acts[k])
  {
    assert acts[..k + 1][..k] == acts[..k];
  }

  ghost predicate UniqueAfter(w: World, acts: seq<Action>, k: nat)
    requires k <= |acts|
  {
    Unique(Run(w, acts[..k]))
  }

  ghost predicate CollidesAt(w: World, acts: seq<Action>, k: nat)
    requires k < |acts|
  {
    Collides(Run(w, acts[..k]), acts[k])
  }

  ghost predicate AlwaysUnique(w: World, acts: seq<Action>) {
    forall k :: 0 <= k <= |acts| ==> UniqueAfter(w, acts, k)
  }

  ghost predicate NeverCollides(w: World, acts: seq<Action>) {
    forall k :: 0 <= k < |acts| ==> !CollidesAt(w, acts, k)
  }

  /** At every moment no two running tasks serve one announced URL, exactly when no
      message spawns a task to a URL that a lingering task still serves. */
  lemma OneTaskPerUrl(own: Option<string>, start: nat, acts: seq<Action>)
    ensures AlwaysUnique(Init(own, start), acts) <==> NeverCollides(Init(own, start), acts)
  {
    var w := Init(own, start);
    var good := seq(|acts| + 1, k requires 0 <= k <= |acts| => UniqueAfter(w, acts, k));
    var bad := seq(|acts|, k requires 0 <= k < |acts| => CollidesAt(w, acts, k));
    forall k | 0 <= k < |acts| ensures good[k] ==> (good[k + 1] <==> !bad[k]) {
      Reachable(own, start, acts[..k]);
      RunNext(w, acts, k);
      if good[k] {
        StepUnique(Run(w, acts[..k]), acts[k]);
      }
    }
    assert acts[..0] == [];
    HoldsThroughout(good, bad);
    assert forall k :: 0 <= k <= |acts| ==> good[k] == UniqueAfter(w, acts, k);
    assert forall k :: 0 <= k < |acts| ==> bad[k] == CollidesAt(w, acts, k);
  }

  /** Until a sweep finishes with a record, no URL is ever forgotten, so no two
      running tasks serve one announced URL. */
  lemma OnlyFinishedSweepsCollide(own: Option<string>, start: nat, acts: seq<Action>)
    requires LoopStep(Loops.SweepFinish) !in acts
    ensures AlwaysUnique(Init(own, start), acts)
  {
    var w := Init(own, start);
    forall k | 0 <= k < |acts| ensures !CollidesAt(w, acts, k) {
      AllKnown(w, acts[..k]);
    }
    OneTaskPerUrl(own, start, acts);
  }

  lemma {:induction false} AllKnown(w: World, acts: seq<Action>)
    requires LoopStep(Loops.SweepFinish) !in acts
    requires forall h :: h in w.tasks ==> h.url in w.loop.reg.known
    ensures forall h :: h in Run(w, acts).tasks ==> h.url in Run(w, acts).loop.reg.known
  {
    if acts == [] {
    } else {
      var k := |acts| - 1;
      assert acts[k] in acts && forall a :: a in acts[..k] ==> a in acts;
      AllKnown(w, acts[..k]);
      KnownStep(Run(w, acts[..k]), acts[k]);
    }
  }

  lemma KnownStep(w: World, a: Action)
    requires a != LoopStep(Loops.SweepFinish)
    requires forall h :: h in w.tasks ==> h.url in w.loop.reg.known
    ensures forall h :: h in Next(w, a).tasks ==> h.url in Next(w, a).loop.reg.known
  {
    if a.LoopStep? {
      assert w.loop.reg.known <= Next(w, a).loop.reg.known;
    }
  }

  /** A running task ends exactly when its handle was dropped and it notices, which
      it can only do while it connects or serves. */
  lemma EndsWhenItListens(own: Option<string>, start: nat, acts: seq<Action>, a: Action, h: Handle)
    requires Live(Run(Init(own, start), acts), h)
    ensures
      var w := Run(Init(own, start), acts);
      !Live(Next(w, a), h)
      <==> a == TaskStep(h, Tasks.Shutdown) && Lingering(w, h) && (w.tasks[h].pc.Connecting? || w.tasks[h].pc.Serving?)
  {
    var w := Run(Init(own, start), acts);
    Reachable(own, start, acts);
    match a
    case LoopStep(e) => SpawnLive(w, e, h);
    case TaskStep(k, e) => Tasks.OnlyShutdownEnds(w.tasks[h], e);
  }

  /** Whatever the loop and the other tasks do, a sleeping task goes on running
      until its sleep is over: dropping its handle goes unnoticed before that. */
  lemma LingersWhileAsleep(own: Option<string>, start: nat, before: seq<Action>, after: seq<Action>, h: Handle)
    requires var w := Run(Init(own, start), before); h in w.tasks && w.tasks[h].pc.Sleeping?
    requires TaskStep(h, Tasks.Elapsed) !in after
    ensures
      var w := Run(Run(Init(own, start), before), after);
      Live(w, h) && (Lingering(w, h) <==> h !in w.loop.open)
  {
    Reachable(own, start, before);
    SleepsOn(Run(Init(own, start), before), after, h);
  }

  lemma {:induction false} SleepsOn(w: World, acts: seq<Action>, h: Handle)
    requires Inv(w) && h in w.tasks && w.tasks[h].pc.Sleeping? && TaskStep(h, Tasks.Elapsed) !in acts
    ensures h in Run(w, acts).tasks && Run(w, acts).tasks[h].pc.Sleeping?
  {
    if acts == [] {
    } else {
      var k := |acts| - 1;
      assert acts[k] in acts && forall a :: a in acts[..k] ==> a in acts;
      SleepsOn(w, acts[..k], h);
      RunInv(w, acts[..k]);
      SleepStep(Run(w, acts[..k]), acts[k], h);
    }
  }

  lemma SleepStep(w: World, a: Action, h: Handle)
    requires Inv(w) && h in w.tasks && w.tasks[h].pc.Sleeping? && a != TaskStep(h, Tasks.Elapsed)
    ensures h in Next(w, a).tasks && Next(w, a).tasks[h].pc.Sleeping?
  {
    match a
    case LoopStep(e) => Loops.SpawnShape(w.loop, e);
    case TaskStep(j, e) =>
      if j == h {
        Tasks.SleepsOn(w.tasks[h], [e]);
        assert [e][..0] == [];
      }
  }

  // ── Each task on its own ──────────────────────────────────────────────────

  /** The task has got where it is by the events of `script`. */
  ghost predicate HasScript(t: Tasks.Task, script: seq<Tasks.Event>) {
    t == Tasks.Run(Tasks.Init(), script)
  }

  lemma ScriptGrows(t: Tasks.Task, script: seq<Tasks.Event>, e: Tasks.Event)
    requires HasScript(t, script)
    ensures HasScript(Tasks.Next(t, e), script + [e])
  {
    assert (script + [e])[..|script|] == script;
  }

  /** Every spawned task is a run of the WebSocket task, whatever the loop does,
      so what holds of all those runs holds of it. */
  lemma {:induction false} TasksAreRuns(own: Option<string>, start: nat, acts: seq<Action>, h: Handle)
    requires h in Run(Init(own, start), acts).tasks
    ensures exists script :: HasScript(Run(Init(own, start), acts).tasks[h], script)
  {
    var w0 := Init(own, start);
    if acts == [] {
    } else {
      var k := |acts| - 1;
      var w := Run(w0, acts[..k]);
      if acts[k].LoopStep? && Loops.SpawnedBy(w.loop, acts[k].event) == Some(h) {
        assert HasScript(Tasks.Init(), []);
      } else {
        TasksAreRuns(own, start, acts[..k], h);
        var script :| HasScript(w.tasks[h], script);
        if acts[k].TaskStep? && acts[k].handle == h && CanStep(w, h, acts[k].did) {
          ScriptGrows(w.tasks[h], script, acts[k].did);
        }
      }
    }
  }
}
