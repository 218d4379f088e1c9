/** The loop compares gateway URLs as they were announced, but a task dials what
    `compute_ws_url` makes of them. What holds of URLs therefore need not hold of
    the endpoints, the strings that are handed to the WebSocket client. */
module Endpoints {
  import opened Common
  import opened Registry
  import Loops = MessageLoop
  import opened Urls
  import opened GatewayTasks
  import opened GatewayRuns
  import Tasks = WebSocketTask

  /** From an announced URL to the endpoint that is dialled for it. */
  type Dial = string -> string

  /** No two running tasks dial one endpoint, and none dials our own. */
  ghost predicate Apart(w: World, dial: Dial) {
    && (w.loop.own.Some? ==> forall h :: Live(w, h) ==> dial(h.url) != dial(w.loop.own.value))
    && (forall h, k :: Live(w, h) && Live(w, k) && dial(h.url) == dial(k.url) ==> h == k)
  }

  /** A message spawns a task to the endpoint of a running task, or to our own. */
  ghost predicate Clashes(w: World, a: Action, dial: Dial) {
    && a.LoopStep? && Loops.SpawnedBy(w.loop, a.event).Some?
    && var url := Loops.SpawnedBy(w.loop, a.event).value.url;
    || (w.loop.own.Some? && dial(url) == dial(w.loop.own.value))
    || exists k :: Live(w, k) && dial(k.url) == dial(url)
  }

  lemma SpawnApart(w: World, e: Loops.Event, dial: Dial)
    requires Inv(w) && Apart(w, dial)
    ensures Apart(Next(w, LoopStep(e)), dial) <==> !Clashes(w, LoopStep(e), dial)
  {
    var w' := Next(w, LoopStep(e));
    Loops.SpawnShape(w.loop, e);
    forall k ensures Live(w', k) <==> Live(w, k) || Loops.SpawnedBy(w.loop, e) == Some(k) {
      SpawnLive(w, e, k);
    }
    match Loops.SpawnedBy(w.loop, e)
    case None =>
    case Some(h) =>
      assert forall k :: Live(w, k) ==> k != h;
      assert Live(w', h);
  }

  lemma StepApart(w: World, a: Action, dial: Dial)
    requires Inv(w) && Apart(w, dial)
    ensures Apart(Next(w, a), dial) <==> !Clashes(w, a, dial)
  {
    match a
    case LoopStep(e) => SpawnApart(w, e, dial);
    case TaskStep(h, e) =>
      if CanStep(w, h, e) {
        TaskInv(w, h, e);
      }
  }

  // ── Every run ─────────────────────────────────────────────────────────────

  ghost predicate ApartAfter(w: World, acts: seq<Action>, k: nat, dial: Dial)
    requires k <= |acts|
  {
    Apart(Run(w, acts[..k]), dial)
  }

  ghost predicate ClashesAt(w: World, acts: seq<Action>, k: nat, dial: Dial)
    requires k < |acts|
  {
    Clashes(Run(w, acts[..k]), acts[k], dial)
  }

  ghost predicate AlwaysApart(w: World, acts: seq<Action>, dial: Dial) {
    forall k :: 0 <= k <= |acts| ==> ApartAfter(w, acts, k, dial)
  }

  ghost predicate NeverClashes(w: World, acts: seq<Action>, dial: Dial) {
    forall k :: 0 <= k < |acts| ==> !ClashesAt(w, acts, k, dial)
  }

  lemma ApartIffNoClash(own: Option<string>, start: nat, acts: seq<Action>, dial: Dial)
    ensures AlwaysApart(Init(own, start), acts, dial) <==> NeverClashes(Init(own, start), acts, dial)
  {
    var w := Init(own, start);
    var good := seq(|acts| + 1, k requires 0 <= k <= |acts| => ApartAfter(w, acts, k, dial));
    var bad := seq(|acts|, k requires 0 <= k < |acts| => ClashesAt(w, acts, k, dial));
    forall k | 0 <= k < |acts| ensures good[k] ==> (good[k + 1] <==> !bad[k]) {
      Reachable(own, start, acts[..k]);
      RunNext(w, acts, k);
      if good[k] {
        StepApart(Run(w, acts[..k]), acts[k], dial);
      }
    }
    assert acts[..0] == [];
    HoldsThroughout(good, bad);
    assert forall k :: 0 <= k <= |acts| ==> good[k] == ApartAfter(w, acts, k, dial);
    assert forall k :: 0 <= k < |acts| ==> bad[k] == ClashesAt(w, acts, k, dial);
  }

  /** At every moment running tasks dial pairwise different endpoints, and never our
      own, exactly when no message spawns a task to our own endpoint or to one that
      a running task, with or without its handle, already dials. */
  lemma OneTaskPerEndpoint(own: Option<string>, start: nat, acts: seq<Action>)
    ensures AlwaysApart(Init(own, start), acts, ComputeWsUrl) <==> NeverClashes(Init(own, start), acts, ComputeWsUrl)
  {
    ApartIffNoClash(own, start, acts, ComputeWsUrl);
  }

  // ── One spelling per endpoint ─────────────────────────────────────────────

  /** The URL a step announces. */
  function UrlIn(a: Action): set<string> {
    if a.LoopStep? && a.event.Message? && a.event.gatewayUrl.Some? then {a.event.gatewayUrl.value} else {}
  }

  /** The URLs announced in a run. */
  function UrlsIn(acts: seq<Action>): set<string> {
    if acts == [] then {} else UrlsIn(acts[..|acts| - 1]) + UrlIn(acts[|acts| - 1])
  }

  /** No endpoint is spelled in two ways. */
  ghost predicate SpelledOneWay(urls: set<string>, dial: Dial) {
    forall a, b :: a in urls && b in urls && dial(a) == dial(b) ==> a == b
  }

  lemma {:induction false} TasksWereAnnounced(own: Option<string>, start: nat, acts: seq<Action>)
    ensures forall h :: h in Run(Init(own, start), acts).tasks ==> h.url in UrlsIn(acts)
  {
    if acts == [] {
    } else {
      TasksWereAnnounced(own, start, acts[..|acts| - 1]);
    }
  }

  lemma {:induction false} UrlsGrow(acts: seq<Action>, k: nat)
    requires k <= |acts|
    ensures UrlsIn(acts[..k]) <= UrlsIn(acts)
  {
    if k == |acts| {
      assert acts[..k] == acts;
    } else {
      var n := |acts| - 1;
      assert acts[..n][..k] == acts[..k];
      UrlsGrow(acts[..n], k);
    }
  }

  lemma SameAsUrls(w: World, urls: set<string>, dial: Dial)
    requires Inv(w) && SpelledOneWay(urls, dial) && OwnUrls(w.loop.own) <= urls
    requires forall h :: h in w.tasks ==> h.url in urls
    ensures Apart(w, dial) <==> Unique(w)
  {
    forall h, k | Live(w, h) && Live(w, k) ensures dial(h.url) == dial(k.url) <==> h.url == k.url {
    }
    if w.loop.own.Some? {
      assert w.loop.own.value in OwnUrls(w.loop.own);
      forall h | Live(w, h) ensures dial(h.url) != dial(w.loop.own.value) {
        assert Some(h.url) != w.loop.own;
      }
    }
  }

  lemma ApartAsUnique(own: Option<string>, start: nat, acts: seq<Action>, k: nat, dial: Dial)
    requires k <= |acts| && SpelledOneWay(UrlsIn(acts) + OwnUrls(own), dial)
    ensures ApartAfter(Init(own, start), acts, k, dial) <==> UniqueAfter(Init(own, start), acts, k)
  {
    Reachable(own, start, acts[..k]);
    TasksWereAnnounced(own, start, acts[..k]);
    UrlsGrow(acts, k);
    SameAsUrls(Run(Init(own, start), acts[..k]), UrlsIn(acts) + OwnUrls(own), dial);
  }

  lemma ApartIffNoCollision(own: Option<string>, start: nat, acts: seq<Action>, dial: Dial)
    requires SpelledOneWay(UrlsIn(acts) + OwnUrls(own), dial)
    ensures AlwaysApart(Init(own, start), acts, dial) <==> NeverCollides(Init(own, start), acts)
  {
    var w := Init(own, start);
    forall k | 0 <= k <= |acts| ensures ApartAfter(w, acts, k, dial) <==> UniqueAfter(w, acts, k) {
      ApartAsUnique(own, start, acts, k, dial);
    }
    OneTaskPerUrl(own, start, acts);
  }

  /** When neither the beacons nor our own configuration spell an endpoint in two
      ways, endpoints are as unique as URLs: a running task can be doubled only by a
      message that announces the URL of a lingering one. */
  lemma UniformSpellingSuffices(own: Option<string>, start: nat, acts: seq<Action>)
    requires SpelledOneWay(UrlsIn(acts) + OwnUrls(own), ComputeWsUrl)
    ensures AlwaysApart(Init(own, start), acts, ComputeWsUrl) <==> NeverCollides(Init(own, start), acts)
  {
    ApartIffNoCollision(own, start, acts, ComputeWsUrl);
  }

  // ── Two spellings of one endpoint ─────────────────────────────────────────

  /** Every URL has another spelling: itself and a final slash. */
  lemma SlashAliases(url: string)
    ensures ComputeWsUrl(url + "/") == ComputeWsUrl(url) && url + "/" != url
  {
    TrailingSlashesIgnored(url, 1);
    assert url + Slashes(1) == url + "/";
  }

  /** For any two spellings of one endpoint and any two beacons that announce them:
      both handles are held, and two running tasks dial that endpoint. */
  lemma TwoSpellings(a: string, b: string, url: string, other: string)
    requires a != b && url != other && ComputeWsUrl(url) == ComputeWsUrl(other)
    ensures
      var h0, h1 := Handle(0, url), Handle(1, other);
      var acts := Joins(a, url, 0) + Joins(b, other, 0);
      var w := Run(Init(None, 0), acts);
      && Legal(Init(None, 0), acts)
      && w.loop.open == {h0, h1} && Live(w, h0) && Live(w, h1) && ComputeWsUrl(h0.url) == ComputeWsUrl(h1.url)
  {
    TwoJoined(a, b, url, other);
  }

  lemma TwoJoined(a: string, b: string, url: string, other: string)
    requires a != b && url != other
    ensures
      var h0, h1 := Handle(0, url), Handle(1, other);
      var acts := Joins(a, url, 0) + Joins(b, other, 0);
      var w := Run(Init(None, 0), acts);
      Legal(Init(None, 0), acts) && w.loop.open == {h0, h1} && w.tasks == map[h0 := Tasks.Init(), h1 := Tasks.Init()]
  {
    var w0 := Init(None, 0);
    RunJoin(w0, a, url, 0);
    RunJoin(AfterJoin(w0, a, url, 0), b, other, 0);
    RunConcat(w0, Joins(a, url, 0), Joins(b, other, 0));
  }

  /** A beacon that announces another spelling of our own URL makes us dial ourselves. */
  lemma OwnGatewayDialled(a: string, own: string, other: string)
    requires own != other && ComputeWsUrl(own) == ComputeWsUrl(other)
    ensures
      var h := Handle(0, other);
      var w := Run(Init(Some(own), 0), Joins(a, other, 0));
      && Legal(Init(Some(own), 0), Joins(a, other, 0))
      && w.loop.open == {h} && Live(w, h) && ComputeWsUrl(h.url) == ComputeWsUrl(own)
  {
    RunJoin(Init(Some(own), 0), a, other, 0);
  }
}
