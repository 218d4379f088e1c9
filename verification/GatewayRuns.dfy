/** Concrete runs of the loop and its tasks in which one gateway is dialled twice,
    or is our own. Each is fed by complete handshakes, and every step is possible. */
module GatewayRuns {
  import opened Common
  import opened Registry
  import Loops = MessageLoop
  import Tasks = WebSocketTask
  import opened GatewayTasks
  import opened Backoff

  function LoopSteps(es: seq<Loops.Event>): seq<Action> {
    seq(|es|, i requires 0 <= i < |es| => LoopStep(es[i]))
  }

  function TaskSteps(h: Handle, es: seq<Tasks.Event>): seq<Action> {
    seq(|es|, i requires 0 <= i < |es| => TaskStep(h, es[i]))
  }

  /** Steps of one task alone. */
  lemma {:induction false} RunTask(w: World, h: Handle, es: seq<Tasks.Event>)
    requires h in w.tasks && Tasks.Shutdown !in es
    ensures Run(w, TaskSteps(h, es)) == w.(tasks := w.tasks[h := Tasks.Run(w.tasks[h], es)])
    ensures Tasks.Legal(w.tasks[h], es) ==> Legal(w, TaskSteps(h, es))
  {
    if es == [] {
      assert w.tasks[h := w.tasks[h]] == w.tasks;
    } else {
      var k := |es| - 1;
      assert es[k] in es && forall e :: e in es[..k] ==> e in es;
      RunTask(w, h, es[..k]);
      assert TaskSteps(h, es)[..k] == TaskSteps(h, es[..k]);
    }
  }

  /** Steps of the loop that are no messages leave the tasks alone. */
  lemma {:induction false} RunQuiet(w: World, es: seq<Loops.Event>)
    requires Loops.Legal(w.loop, es) && forall e :: e in es ==> !e.Message?
    ensures Run(w, LoopSteps(es)) == w.(loop := Loops.Run(w.loop, es))
    ensures Legal(w, LoopSteps(es))
  {
    if es == [] {
    } else {
      var k := |es| - 1;
      assert es == es[..k] + [es[k]];
      LegalPrefix(w.loop, es[..k], es[k]);
      RunQuiet(w, es[..k]);
      assert LoopSteps(es)[..k] == LoopSteps(es[..k]);
      Loops.RunAppend(w.loop, es[..k], es[k]);
    }
  }

  lemma {:induction false} LegalPrefix(s: Loops.Loop, es: seq<Loops.Event>, e: Loops.Event)
    requires Loops.Legal(s, es + [e])
    ensures Loops.Legal(s, es) && Loops.Enabled(Loops.Run(s, es), e)
    decreases |es|
  {
    if es == [] {
      assert es + [e] == [e];
    } else {
      assert (es + [e])[1..] == es[1..] + [e];
      LegalPrefix(Loops.Next(s, es[0]), es[1..], e);
    }
  }

  function Announcement(id: string, url: string, now: nat): seq<Action> {
    [LoopStep(Loops.Message(id + REC, Some(url), now))]
  }

  /** The loop's part of an announcement, and the task it spawns. */
  lemma RunAnnouncement(w: World, id: string, url: string, now: nat)
    requires
      var s := w.loop;
      && s.phase.Idle? && s.clock <= now && url !in s.reg.known
      && id in s.reg.records && s.reg.records[id].shutdownTx.None?
    ensures Legal(w, Announcement(id, url, now))
    ensures Run(w, Announcement(id, url, now))
         == World(Loops.AfterAnnouncement(w.loop, id, url, now), w.tasks[Handle(w.loop.spawned, url) := Tasks.Init()])
  {
    var a := LoopStep(Loops.Message(id + REC, Some(url), now));
    Loops.AnnouncementDone(w.loop, id, url, now);
    RunOne(w, a);
  }

  lemma RunOne(w: World, a: Action)
    ensures Run(w, [a]) == Next(w, a)
    ensures Possible(w, a) ==> Legal(w, [a])
  {
    assert [a][..0] == [] && Run(w, []) == w && Legal(w, []);
  }

  lemma RunHandshake(w: World, id: string, now: nat)
    requires w.loop.phase.Idle? && w.loop.clock <= now && id !in w.loop.reg.records
    ensures Legal(w, LoopSteps(Loops.Handshake(id, now)))
    ensures Run(w, LoopSteps(Loops.Handshake(id, now))) == w.(loop := Loops.AfterHandshake(w.loop, id, now))
  {
    Loops.HandshakeDone(w.loop, id, now);
    RunQuiet(w, Loops.Handshake(id, now));
  }

  /** A beacon completes its handshake and announces a gateway. */
  function Joins(id: string, url: string, now: nat): seq<Action> {
    LoopSteps(Loops.Handshake(id, now)) + Announcement(id, url, now)
  }

  function AfterJoin(w: World, id: string, url: string, now: nat): World {
    var s := w.loop;
    var tx := Handle(s.spawned, url);
    var r := Record(id + REC, id + CAST, now, Some(url), Some(tx));
    World(
      s.(reg := Registry(s.reg.records[id := r], s.reg.known + {url}, s.reg.topics + [id + CAST]),
         open := s.open + {tx}, spawned := s.spawned + 1, clock := now),
      w.tasks[tx := Tasks.Init()])
  }

  lemma RunJoin(w: World, id: string, url: string, now: nat)
    requires w.loop.phase.Idle? && w.loop.clock <= now && id !in w.loop.reg.records && url !in w.loop.reg.known
    ensures Legal(w, Joins(id, url, now)) && Run(w, Joins(id, url, now)) == AfterJoin(w, id, url, now)
  {
    RunHandshake(w, id, now);
    var w1 := w.(loop := Loops.AfterHandshake(w.loop, id, now));
    RunAnnouncement(w1, id, url, now);
    RunConcat(w, LoopSteps(Loops.Handshake(id, now)), Announcement(id, url, now));
    var tx := Handle(w.loop.spawned, url);
    var r0, r := Record(id + REC, id + CAST, now, None, None), Record(id + REC, id + CAST, now, Some(url), Some(tx));
    assert w.loop.reg.records[id := r0][id := r] == w.loop.reg.records[id := r];
  }

  // ── One URL, two tasks ────────────────────────────────────────────────────

  /** `n` failed connects and the waits after them. */
  function Retries(n: nat): seq<Tasks.Event> {
    if n == 0 then [] else Retries(n - 1) + [Tasks.ConnectFailed, Tasks.Elapsed]
  }

  lemma {:induction false} AfterRetries(n: nat)
    ensures Tasks.Shutdown !in Retries(n) && Tasks.Legal(Tasks.Init(), Retries(n))
    ensures var t := Tasks.Run(Tasks.Init(), Retries(n)); t.pc.Connecting? && |t.sleeps| == n
  {
    if n == 0 {
    } else {
      AfterRetries(n - 1);
      FailOnce(Tasks.Init(), Retries(n - 1));
    }
  }

  lemma FailOnce(t: Tasks.Task, es: seq<Tasks.Event>)
    requires Tasks.Run(t, es).pc.Connecting? && Tasks.Legal(t, es)
    ensures
      var t1, t2 := Tasks.Run(t, es), Tasks.Run(t, es + [Tasks.ConnectFailed, Tasks.Elapsed]);
      t2.pc.Connecting? && |t2.sleeps| == |t1.sleeps| + 1
    ensures Tasks.Legal(t, es + [Tasks.ConnectFailed, Tasks.Elapsed])
  {
    var one, all := es + [Tasks.ConnectFailed], es + [Tasks.ConnectFailed, Tasks.Elapsed];
    assert one[..|es|] == es && all[..|es| + 1] == one;
    assert Tasks.Run(t, one) == Tasks.Next(Tasks.Run(t, es), Tasks.ConnectFailed);
  }

  /** The sixth connect fails 62 seconds after the first. */
  function SixFailures(): seq<Tasks.Event> {
    Retries(5) + [Tasks.ConnectFailed]
  }

  /** The wait that follows runs from second 62 to second 122. */
  lemma AsleepAfterSixFailures()
    ensures Tasks.Shutdown !in SixFailures() && Tasks.Legal(Tasks.Init(), SixFailures())
    ensures
      var t := Tasks.Run(Tasks.Init(), SixFailures());
      t.pc.Sleeping? && Sum(t.sleeps) == 62 && t.delay == 60
  {
    AfterRetries(5);
    Tasks.BackoffClosedForm(Retries(5));
    LargePow2(6);
    assert SixFailures()[..|Retries(5)|] == Retries(5);
  }

  /** At second 121 beacon `b` completes its handshake, `a`, silent since second 0,
      is swept without interruption, and `b` announces the same gateway. */
  function Takeover(a: string, b: string, url: string): seq<Action> {
    LoopSteps(Loops.Handshake(b, 121)) + (LoopSteps(Loops.Sweep(a, 121)) + Announcement(b, url, 121))
  }

  lemma TopicGone(a: string, b: string)
    requires a != b
    ensures Without([a + CAST, b + CAST], a + CAST) == [b + CAST]
  {
    StripSuffixOfAppend(a, CAST);
    StripSuffixOfAppend(b, CAST);
    var topics := [a + CAST, b + CAST];
    assert topics[1..] == [b + CAST] && [b + CAST][1..] == [];
    assert Without([b + CAST], a + CAST) == [b + CAST];
  }

  /** The loop when only `a` has joined, at second 0. */
  function OneJoined(a: string, url: string): Loops.Loop {
    var h := Handle(0, url);
    var r := Record(a + REC, a + CAST, 0, Some(url), Some(h));
    Loops.Loop(None, Registry(map[a := r], {url}, [a + CAST]), Loops.Idle, {h}, 1, 0, 0)
  }

  /** The loop when `b` has taken the place of `a` and announced nothing yet. */
  function Replaced(b: string): Loops.Loop {
    var r := Record(b + REC, b + CAST, 121, None, None);
    Loops.Loop(None, Registry(map[b := r], {}, [b + CAST]), Loops.Idle, {}, 1, 121, 121)
  }

  lemma SweptLoop(a: string, b: string, url: string)
    requires a != b
    ensures
      var s := Loops.AfterHandshake(OneJoined(a, url), b, 121);
      Loops.Legal(s, Loops.Sweep(a, 121)) && Loops.Run(s, Loops.Sweep(a, 121)) == Replaced(b)
  {
    var s := Loops.AfterHandshake(OneJoined(a, url), b, 121);
    assert Stale(s.reg.records, 121) == {a};
    Loops.SweepDone(s, a, 121);
    TopicGone(a, b);
    assert s.reg.topics == [a + CAST, b + CAST];
    assert s.reg.records - {a} == Replaced(b).reg.records;
  }

  lemma RunTakeover(tasks: map<Handle, Tasks.Task>, a: string, b: string, url: string)
    requires a != b
    ensures
      var w := World(OneJoined(a, url), tasks);
      && Legal(w, Takeover(a, b, url))
      && Run(w, Takeover(a, b, url))
         == World(Loops.AfterAnnouncement(Replaced(b), b, url, 121), tasks[Handle(1, url) := Tasks.Init()])
  {
    var w := World(OneJoined(a, url), tasks);
    RunHandshake(w, b, 121);
    SweptLoop(a, b, url);
    var w1 := w.(loop := Loops.AfterHandshake(w.loop, b, 121));
    RunQuiet(w1, Loops.Sweep(a, 121));
    RunAnnouncement(World(Replaced(b), tasks), b, url, 121);
    RunConcat(w1, LoopSteps(Loops.Sweep(a, 121)), Announcement(b, url, 121));
    RunConcat(w, LoopSteps(Loops.Handshake(b, 121)), LoopSteps(Loops.Sweep(a, 121)) + Announcement(b, url, 121));
  }

  /** Beacon `a` joins, its gateway cannot be reached six times, and `b` takes over. */
  function OverlappingRun(a: string, b: string, url: string): seq<Action> {
    Joins(a, url, 0) + (TaskSteps(Handle(0, url), SixFailures()) + Takeover(a, b, url))
  }

  /** The gateway of a swept beacon is connected to again while the first task,
      asleep between two attempts since second 62, still runs: for every two
      beacons and every URL two running tasks serve it at second 121. */
  lemma TwoTasksOneGateway(a: string, b: string, url: string)
    requires a != b
    ensures
      var h0, h1 := Handle(0, url), Handle(1, url);
      var w := Run(Init(None, 0), OverlappingRun(a, b, url));
      && Legal(Init(None, 0), OverlappingRun(a, b, url))
      && Live(w, h0) && Live(w, h1) && Lingering(w, h0)
      && w.loop.open == {h1} && w.loop.clock == 121
      && Sum(w.tasks[h0].sleeps) == 62 && w.tasks[h0].delay == 60 && w.tasks[h0].pc.Sleeping?
  {
    var h0, w0 := Handle(0, url), Init(None, 0);
    RunJoin(w0, a, url, 0);
    assert AfterJoin(w0, a, url, 0) == World(OneJoined(a, url), map[h0 := Tasks.Init()]);
    AsleepAfterSixFailures();
    RetriedAndReplaced(a, b, url);
    RunConcat(w0, Joins(a, url, 0), TaskSteps(h0, SixFailures()) + Takeover(a, b, url));
  }

  lemma RetriedAndReplaced(a: string, b: string, url: string)
    requires a != b
    ensures
      var h0, h1 := Handle(0, url), Handle(1, url);
      var w := World(OneJoined(a, url), map[h0 := Tasks.Init()]);
      var acts := TaskSteps(h0, SixFailures()) + Takeover(a, b, url);
      && Legal(w, acts)
      && Run(w, acts) == World(Loops.AfterAnnouncement(Replaced(b), b, url, 121),
                               map[h0 := Tasks.Run(Tasks.Init(), SixFailures()), h1 := Tasks.Init()])
  {
    var h0 := Handle(0, url);
    var w, t := World(OneJoined(a, url), map[h0 := Tasks.Init()]), Tasks.Run(Tasks.Init(), SixFailures());
    AsleepAfterSixFailures();
    RunTask(w, h0, SixFailures());
    assert w.tasks[h0 := t] == map[h0 := t];
    RunTakeover(map[h0 := t], a, b, url);
    RunConcat(w, TaskSteps(h0, SixFailures()), Takeover(a, b, url));
  }
}
