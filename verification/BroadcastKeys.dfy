/** The broadcast-key table of `src/services/beacon_management/key_management.rs`
    as a state machine driven by query, rotate and sweep steps, each of which
    reads the clock for itself. */
module BroadcastKeys {
  import opened Common

  datatype Row = Row(material: seq<byte>, created: int, rotatesAt: int, expiresAt: int, active: bool)

  /** `broadcast_keys`, by primary key. */
  type Table = map<seq<byte>, Row>

  /** `rotation_interval` and `key_expiry`, in seconds. */
  datatype Config = Config(rotation: nat, expiry: nat)

  datatype Event =
    /** The query at `now` finds the row `id`. */
    | Hit(now: int, id: seq<byte>)
    /** The query at `queried` finds nothing; the rotation reads `now`, and each
        of its two statements may fail. */
    | Rotate(queried: int, now: int, retired: bool, inserted: bool, id: seq<byte>, material: seq<byte>)
    | Sweep(now: int, ok: bool)

  function Candidates(t: Table, now: int): set<seq<byte>> {
    set id | id in t && t[id].active && t[id].rotatesAt > now
  }

  /** `ORDER BY rotates_at DESC LIMIT 1` may return `id`. */
  ghost predicate Picks(t: Table, now: int, id: seq<byte>) {
    id in Candidates(t, now) && forall k :: k in Candidates(t, now) ==> t[k].rotatesAt <= t[id].rotatesAt
  }

  function NewRow(c: Config, now: int, material: seq<byte>): Row {
    Row(material, now, now + c.rotation, now + c.expiry, true)
  }

  function RetireAll(t: Table): Table {
    map id | id in t :: t[id].(active := false)
  }

  function Unexpired(t: Table, now: int): Table {
    map id | id in t && t[id].expiresAt > now :: t[id]
  }

  ghost predicate Enabled(t: Table, e: Event) {
    match e
    case Hit(now, id) => Picks(t, now, id)
    case Rotate(queried, now, retired, inserted, id, material) =>
      && Candidates(t, queried) == {}
      && (inserted ==> retired && id !in t && |id| == 4 && |material| == 16)
    case Sweep(_, _) => true
  }

  ghost function Next(c: Config, t: Table, e: Event): Table {
    if !Enabled(t, e) then t else
    match e
    case Hit(_, _) => t
    case Rotate(_, now, retired, inserted, id, material) =>
      if inserted then RetireAll(t)[id := NewRow(c, now, material)]
      else if retired then RetireAll(t)
      else t
    case Sweep(now, ok) => if ok then Unexpired(t, now) else t
  }

  ghost function Run(c: Config, t: Table, es: seq<Event>): Table
    decreases |es|
  {
    if es == [] then t else Run(c, Next(c, t, es[0]), es[1..])
  }

  lemma {:induction false} RunConcat(c: Config, t: Table, a: seq<Event>, b: seq<Event>)
    ensures Run(c, t, a + b) == Run(c, Run(c, t, a), b)
    decreases |a|
  {
    if a == [] {
      assert a + b == b;
    } else {
      assert (a + b)[1..] == a[1..] + b;
      RunConcat(c, Next(c, t, a[0]), a[1..], b);
    }
  }

  // ── Clock readings ────────────────────────────────────────────────────────

  function First(e: Event): int {
    if e.Rotate? then e.queried else e.now
  }

  /** The readings never decrease, starting from `from`. */
  ghost predicate Ordered(es: seq<Event>, from: int) {
    es == [] || (from <= First(es[0]) <= es[0].now && Ordered(es[1..], es[0].now))
  }

  function Clock(es: seq<Event>, from: int): int {
    if es == [] then from else es[|es| - 1].now
  }

  // ── At most one key in force, whatever the clock does ─────────────────────

  ghost predicate UniqueActive(t: Table) {
    forall a, b :: a in t && b in t && t[a].active && t[b].active ==> a == b
  }

  lemma UniqueActiveStep(c: Config, t: Table, e: Event)
    requires UniqueActive(t)
    ensures UniqueActive(Next(c, t, e))
  {
  }

  /** No clock assumption: at most one row is active in every state, also after a
      rotation whose insert failed. */
  lemma {:induction false} AtMostOneActive(c: Config, t: Table, es: seq<Event>)
    requires UniqueActive(t)
    ensures UniqueActive(Run(c, t, es))
    decreases |es|
  {
    if es == [] {
    } else {
      UniqueActiveStep(c, t, es[0]);
      AtMostOneActive(c, Next(c, t, es[0]), es[1..]);
    }
  }

  /** A rotation whose first statement fails changes nothing; one whose insert fails
      leaves every row in place and none of them active; a complete one leaves the
      new row alone active. */
  lemma RotationOutcome(c: Config, t: Table, e: Event)
    requires e.Rotate? && Enabled(t, e)
    ensures
      var t' := Next(c, t, e);
      && (!e.retired ==> t' == t)
      && (e.retired ==> forall id :: id in t ==> id in t' && t'[id] == t[id].(active := false))
      && (e.retired && !e.inserted ==> t'.Keys == t.Keys && forall id :: id in t' ==> !t'[id].active)
      && (e.inserted ==> t'.Keys == t.Keys + {e.id} && forall id :: id in t' ==> (t'[id].active <==> id == e.id))
      && (e.inserted ==> t'[e.id] == Row(e.material, e.now, e.now + c.rotation, e.now + c.expiry, true))
  {
  }

  // ── Invariant of runs with an orderly clock ───────────────────────────────

  predicate Good(c: Config, id: seq<byte>, r: Row, now: int) {
    && r.rotatesAt == r.created + c.rotation
    && r.expiresAt == r.created + c.expiry
    && r.created <= now
    && (!r.active ==> r.rotatesAt <= now)
    && |id| == 4 && |r.material| == 16
  }

  /** Creation times are at least one rotation interval apart. */
  ghost predicate Spaced(c: Config, t: Table) {
    forall a, b :: a in t && b in t && a != b && t[a].created <= t[b].created
      ==> t[a].created + c.rotation <= t[b].created
  }

  ghost predicate Inv(c: Config, t: Table, now: int) {
    && (forall id :: id in t ==> Good(c, id, t[id], now))
    && Spaced(c, t)
    && UniqueActive(t)
  }

  /** A query that finds nothing finds every key past its rotation deadline. */
  lemma AllRotated(c: Config, t: Table, now: int, queried: int)
    requires Inv(c, t, now) && now <= queried && Candidates(t, queried) == {}
    ensures forall id :: id in t ==> t[id].created + c.rotation <= queried
  {
    forall id | id in t ensures t[id].rotatesAt <= queried {
      assert id !in Candidates(t, queried);
    }
  }

  lemma RetireStep(c: Config, t: Table, now: int, queried: int, later: int)
    requires Inv(c, t, now) && now <= queried <= later && Candidates(t, queried) == {}
    ensures Inv(c, RetireAll(t), later)
  {
    AllRotated(c, t, now, queried);
    var t' := RetireAll(t);
    forall id | id in t' ensures Good(c, id, t'[id], later) {
      assert Good(c, id, t[id], now);
    }
  }

  lemma InsertStep(c: Config, t: Table, now: int, id: seq<byte>, material: seq<byte>)
    requires Inv(c, t, now) && id !in t && |id| == 4 && |material| == 16
    requires forall k :: k in t ==> !t[k].active && t[k].created + c.rotation <= now
    ensures Inv(c, t[id := NewRow(c, now, material)], now)
  {
    var t' := t[id := NewRow(c, now, material)];
    forall k | k in t' ensures Good(c, k, t'[k], now) {
      assert k != id ==> Good(c, k, t[k], now);
    }
  }

  lemma InvStep(c: Config, t: Table, e: Event, now: int)
    requires Inv(c, t, now) && now <= First(e) <= e.now
    ensures Inv(c, Next(c, t, e), e.now)
  {
    if e.Rotate? && Enabled(t, e) {
      RetireStep(c, t, now, e.queried, e.now);
      if e.inserted {
        AllRotated(c, t, now, e.queried);
        InsertStep(c, RetireAll(t), e.now, e.id, e.material);
      }
    } else {
      KeepStep(c, t, Next(c, t, e), now, e.now);
    }
  }

  /** Dropping rows and letting time pass keeps the invariant. */
  lemma KeepStep(c: Config, t: Table, t': Table, now: int, later: int)
    requires Inv(c, t, now) && now <= later
    requires forall id :: id in t' ==> id in t && t'[id] == t[id]
    ensures Inv(c, t', later)
  {
    forall id | id in t' ensures Good(c, id, t'[id], later) {
      assert Good(c, id, t[id], now);
    }
  }

  lemma {:induction false} RunInv(c: Config, t: Table, es: seq<Event>, now: int)
    requires Inv(c, t, now) && Ordered(es, now)
    ensures Inv(c, Run(c, t, es), Clock(es, now))
    decreases |es|
  {
    if es == [] {
    } else {
      InvStep(c, t, es[0], now);
      RunInv(c, Next(c, t, es[0]), es[1..], es[0].now);
      assert Clock(es, now) == Clock(es[1..], es[0].now);
    }
  }

  // ── The key in force ──────────────────────────────────────────────────────

  /** While a stored key is before its rotation deadline it is the one and only
      row the query can return, and no rotation can happen. */
  lemma InForce(c: Config, t: Table, id: seq<byte>, from: int, now: int)
    requires Inv(c, t, from) && id in t && from <= now < t[id].rotatesAt
    ensures t[id].active && Candidates(t, now) == {id}
    ensures forall k :: Enabled(t, Hit(now, k)) <==> k == id
    ensures forall e: Event :: e.Rotate? && e.queried == now ==> !Enabled(t, e)
  {
    assert Good(c, id, t[id], from);
    assert id in Candidates(t, now);
  }

  lemma KeyStaysInForce(c: Config, t: Table, es: seq<Event>, id: seq<byte>, from: int, now: int)
    requires Inv(c, t, from) && Ordered(es, from) && Clock(es, from) <= now
    requires id in t && from <= now < t[id].rotatesAt && c.rotation <= c.expiry
    ensures id in Run(c, t, es) && Run(c, t, es)[id] == t[id]
    ensures forall k :: Enabled(Run(c, t, es), Hit(now, k)) <==> k == id
  {
    assert Good(c, id, t[id], from);
    ClocksBelow(es, from);
    RowSurvives(c, t, es, id);
    RunInv(c, t, es, from);
    var t' := Run(c, t, es);
    InForce(c, t, id, from, now);
    InForce(c, t', id, Clock(es, from), now);
  }

  /** In every run from an empty table: once a rotation has stored a key at clock
      `e.now`, every call before `e.now + rotation` returns exactly that row, still
      unchanged, and none rotates. */
  lemma SameKeyThroughWindow(c: Config, before: seq<Event>, e: Event, after: seq<Event>, from: int, now: int)
    requires Ordered(before, from) && Clock(before, from) <= First(e) <= e.now
    requires e.Rotate? && e.inserted && Enabled(Run(c, map[], before), e)
    requires Ordered(after, e.now) && Clock(after, e.now) <= now < e.now + c.rotation && c.rotation <= c.expiry
    ensures
      var t := Run(c, Next(c, Run(c, map[], before), e), after);
      && e.id in t && t[e.id] == NewRow(c, e.now, e.material)
      && (forall k :: Enabled(t, Hit(now, k)) <==> k == e.id)
      && (forall r: Event :: r.Rotate? && r.queried == now ==> !Enabled(t, r))
  {
    RunInv(c, map[], before, from);
    var t0 := Run(c, map[], before);
    InvStep(c, t0, e, Clock(before, from));
    var t1 := Next(c, t0, e);
    assert t1[e.id] == NewRow(c, e.now, e.material);
    ClocksBelow(after, e.now);
    KeyStaysInForce(c, t1, after, e.id, e.now, now);
    RunInv(c, t1, after, e.now);
    InForce(c, Run(c, t1, after), e.id, Clock(after, e.now), now);
  }

  lemma {:induction false} ClocksBelow(es: seq<Event>, from: int)
    requires Ordered(es, from)
    ensures from <= Clock(es, from)
    ensures forall e :: e in es ==> from <= e.now <= Clock(es, from)
    decreases |es|
  {
    if es == [] {
    } else {
      ClocksBelow(es[1..], es[0].now);
      assert Clock(es, from) == Clock(es[1..], es[0].now);
      assert es == [es[0]] + es[1..];
    }
  }

  // ── Retention ─────────────────────────────────────────────────────────────

  /** Every sweep that succeeds reads a clock before `deadline`. */
  ghost predicate NotSwept(es: seq<Event>, deadline: int) {
    forall e :: e in es && e.Sweep? && e.ok ==> e.now < deadline
  }

  /** No rotation draws this id again. */
  ghost predicate NotRedrawn(es: seq<Event>, id: seq<byte>) {
    forall e :: e in es && e.Rotate? ==> e.id != id
  }

  /** The same row, possibly retired since; never re-activated. */
  predicate SameKey(r: Row, r': Row) {
    r' == r || r' == r.(active := false)
  }

  lemma {:induction false} RowSurvives(c: Config, t: Table, es: seq<Event>, id: seq<byte>)
    requires id in t && NotSwept(es, t[id].expiresAt)
    ensures id in Run(c, t, es) && SameKey(t[id], Run(c, t, es)[id])
    decreases |es|
  {
    if es == [] {
    } else {
      assert es[0] in es && forall e :: e in es[1..] ==> e in es;
      var t1 := Next(c, t, es[0]);
      assert id in t1 && SameKey(t[id], t1[id]);
      RowSurvives(c, t1, es[1..], id);
    }
  }

  lemma {:induction false} StaysAway(c: Config, t: Table, es: seq<Event>, id: seq<byte>)
    requires id !in t && NotRedrawn(es, id)
    ensures id !in Run(c, t, es)
    decreases |es|
  {
    if es == [] {
    } else {
      assert es[0] in es && forall e :: e in es[1..] ==> e in es;
      StaysAway(c, Next(c, t, es[0]), es[1..], id);
    }
  }

  lemma {:induction false} RowSwept(c: Config, t: Table, es: seq<Event>, id: seq<byte>)
    requires id in t && !NotSwept(es, t[id].expiresAt) && NotRedrawn(es, id)
    ensures id !in Run(c, t, es)
    decreases |es|
  {
    var late :| late in es && late.Sweep? && late.ok && late.now >= t[id].expiresAt;
    assert es[0] in es && es == [es[0]] + es[1..] && forall e :: e in es[1..] ==> e in es;
    var t1 := Next(c, t, es[0]);
    if id in t1 {
      assert late in es[1..];
      RowSwept(c, t1, es[1..], id);
    } else {
      StaysAway(c, t1, es[1..], id);
    }
  }

  /** A stored key is still there, unchanged but for retirement, exactly as long
      as no sweep has succeeded at or after its creation time plus `key_expiry`. */
  lemma KeptExactlyUntilExpiry(c: Config, t: Table, es: seq<Event>, id: seq<byte>)
    requires id in t && NotRedrawn(es, id)
    ensures id in Run(c, t, es) <==> NotSwept(es, t[id].expiresAt)
    ensures id in Run(c, t, es) ==> SameKey(t[id], Run(c, t, es)[id])
  {
    if NotSwept(es, t[id].expiresAt) {
      RowSurvives(c, t, es, id);
    } else {
      RowSwept(c, t, es, id);
    }
  }

  /** The id of the key that the call returns, if it returns one. */
  function Returned(e: Event): Option<seq<byte>> {
    match e
    case Hit(_, id) => Some(id)
    case Rotate(_, _, _, inserted, id, _) => if inserted then Some(id) else None
    case Sweep(_, _) => None
  }

  /** In every run from an empty table: a key returned by a call that ends at
      clock t survives, with its id, material and deadlines, all that happens up
      to clock t + (expiry - rotation), its own retirement included. */
  lemma ReturnedKeyRetained(c: Config, before: seq<Event>, e: Event, after: seq<Event>, from: int)
    requires 1 <= c.rotation <= c.expiry
    requires Ordered(before, from) && Clock(before, from) <= First(e) <= e.now
    requires Enabled(Run(c, map[], before), e) && Returned(e).Some?
    requires NotSwept(after, e.now + (c.expiry - c.rotation) + 1)
    ensures
      var t := Next(c, Run(c, map[], before), e);
      var id := Returned(e).value;
      id in t && id in Run(c, t, after) && SameKey(t[id], Run(c, t, after)[id])
  {
    RunInv(c, map[], before, from);
    var t0 := Run(c, map[], before);
    InvStep(c, t0, e, Clock(before, from));
    var t, id := Next(c, t0, e), Returned(e).value;
    assert id in t && Good(c, id, t[id], e.now);
    assert t[id].rotatesAt > e.now;
    RowSurvives(c, t, after, id);
  }

  /** The bound is sharp: a key returned one second before its rotation deadline
      is deleted by a sweep one second past the bound. */
  lemma RetentionIsSharp(c: Config, t: Table, id: seq<byte>, from: int, now: int)
    requires Inv(c, t, from) && id in t && from <= now && now == t[id].rotatesAt - 1
    ensures Enabled(t, Hit(now, id))
    ensures id !in Next(c, t, Sweep(now + (c.expiry - c.rotation) + 1, true))
  {
    InForce(c, t, id, from, now);
    assert Good(c, id, t[id], from);
  }

  /** `src/config.rs:268-272` and the doc comment of `new` promise that a retired
      key is kept for `key_expiry` after rotation. The code counts from creation:
      for every configuration, two rotations and a sweep `rotation` seconds
      before the promised end already delete it. */
  lemma RetiredKeyKeptLessThanDocumented(c: Config, a: seq<byte>, b: seq<byte>, material: seq<byte>)
    requires 1 <= c.rotation < c.expiry && a != b && |a| == |b| == 4 && |material| == 16
    ensures
      var retiredAt := c.rotation;
      var sweep := Sweep(c.expiry, true);
      var es := [Rotate(0, 0, true, true, a, material), Rotate(c.rotation, retiredAt, true, true, b, material)];
      var t := Run(c, map[], es);
      && Ordered(es + [sweep], 0)
      && a in t && !t[a].active
      && sweep.now < retiredAt + c.expiry && a !in Next(c, t, sweep)
  {
    var e1, e2 := Rotate(0, 0, true, true, a, material), Rotate(c.rotation, c.rotation, true, true, b, material);
    var t1 := Next(c, map[], e1);
    assert t1 == map[a := NewRow(c, 0, material)];
    assert Candidates(t1, c.rotation) == {};
    var t2 := Next(c, t1, e2);
    assert Run(c, t2, []) == t2 && Run(c, t1, [e2]) == t2 && Run(c, map[], [e1, e2]) == t2;
    var sweep := Sweep(c.expiry, true);
    assert [e1, e2] + [sweep] == [e1, e2, sweep];
    assert Ordered([], c.expiry) && Ordered([sweep], c.rotation) && Ordered([e2, sweep], 0);
  }

  // ── Size of the table ─────────────────────────────────────────────────────

  function Ceil(a: int, b: int): int
    requires b >= 1
  {
    (a + b - 1) / b
  }

  lemma {:induction false} LatestId(t: Table, ids: set<seq<byte>>) returns (id: seq<byte>)
    requires ids != {} && ids <= t.Keys
    ensures id in ids && forall k :: k in ids ==> t[k].created <= t[id].created
    decreases |ids|
  {
    id :| id in ids;
    if ids != {id} {
      assert ids - {id} != {};
      var other := LatestId(t, ids - {id});
      if t[id].created < t[other].created {
        id := other;
      }
    }
  }

  lemma MulStep(n: int, r: int)
    ensures n * r == (n - 1) * r + r
  {
  }

  /** Rows created in [lo, hi], pairwise `rotation` apart, cannot be many. */
  lemma {:induction false} FewInWindow(c: Config, t: Table, ids: set<seq<byte>>, lo: int, hi: int)
    requires Spaced(c, t) && ids <= t.Keys && ids != {}
    requires forall id :: id in ids ==> lo <= t[id].created <= hi
    ensures (|ids| - 1) * c.rotation <= hi - lo
    decreases |ids|
  {
    var last := LatestId(t, ids);
    var rest := ids - {last};
    assert |ids| == |rest| + 1;
    if rest != {} {
      FewInWindow(c, t, rest, lo, t[last].created - c.rotation);
      MulStep(|rest|, c.rotation);
    }
  }

  lemma CeilBound(n: int, e: int, r: int)
    requires r >= 1 && (n - 1) * r <= e - 1
    ensures n <= Ceil(e, r)
  {
    assert n * r <= e + r - 1;
    var q := Ceil(e, r);
    assert (q + 1) * r > e + r - 1;
    MulMonotone(q + 1, n, r);
  }

  lemma UnexpiredFew(c: Config, t: Table, now: int)
    requires c.rotation >= 1 && c.expiry >= 1 && Inv(c, t, now)
    requires forall id :: id in t ==> t[id].expiresAt > now
    ensures |t.Keys| <= Ceil(c.expiry, c.rotation)
  {
    if t.Keys == {} {
      CeilBound(1, c.expiry, c.rotation);
    } else {
      forall id | id in t.Keys ensures now - c.expiry + 1 <= t[id].created <= now {
        assert Good(c, id, t[id], now);
      }
      FewInWindow(c, t, t.Keys, now - c.expiry + 1, now);
      CeilBound(|t.Keys|, c.expiry, c.rotation);
    }
  }

  /** After every successful sweep the table holds at most ceil(expiry/rotation)
      rows, in every run from an empty table, failed inserts and failed earlier
      sweeps included. */
  lemma TableStaysSmall(c: Config, es: seq<Event>, from: int, now: int)
    requires c.rotation >= 1 && c.expiry >= 1 && Ordered(es, from) && Clock(es, from) <= now
    ensures |Next(c, Run(c, map[], es), Sweep(now, true))| <= Ceil(c.expiry, c.rotation)
  {
    RunInv(c, map[], es, from);
    var t := Run(c, map[], es);
    InvStep(c, t, Sweep(now, true), Clock(es, from));
    var t' := Next(c, t, Sweep(now, true));
    UnexpiredFew(c, t', now);
    assert |t'| == |t'.Keys|;
  }

  // ── The bound on the table is attained ────────────────────────────────────

  /** The clock at the k-th rotation on time. */
  function Time(c: Config, k: nat): nat {
    if k == 0 then 0 else Time(c, k - 1) + c.rotation
  }

  lemma {:induction false} TimeIsProduct(c: Config, k: nat)
    ensures Time(c, k) == k * c.rotation
  {
    if k > 0 {
      TimeIsProduct(c, k - 1);
      MulStep(k, c.rotation);
    }
  }

  /** One rotation every `rotation` seconds, drawing the given ids. */
  function Rotations(c: Config, ids: seq<seq<byte>>, material: seq<byte>): seq<Event> {
    if ids == [] then []
    else
      var k := |ids| - 1;
      Rotations(c, ids[..k], material) + [Rotate(Time(c, k), Time(c, k), true, true, ids[k], material)]
  }

  /** `t` holds exactly `ids`, drawn on time, with only the last one active. */
  ghost predicate OnTime(c: Config, t: Table, ids: seq<seq<byte>>) {
    && t.Keys == Elements(ids)
    && (forall i :: 0 <= i < |ids| ==> ids[i] in t && DrawnAt(c, t[ids[i]], i, |ids|))
  }

  predicate DrawnAt(c: Config, r: Row, i: nat, n: nat) {
    && r.rotatesAt == Time(c, i + 1)
    && r.expiresAt == Time(c, i) + c.expiry
    && (r.active ==> i + 1 == n)
  }

  lemma OnTimeStep(c: Config, t: Table, ids: seq<seq<byte>>, id: seq<byte>, material: seq<byte>)
    requires OnTime(c, t, ids) && id !in ids && |id| == 4 && |material| == 16
    ensures
      var now := Time(c, |ids|);
      OnTime(c, Next(c, t, Rotate(now, now, true, true, id, material)), ids + [id])
  {
    var now, ids' := Time(c, |ids|), ids + [id];
    assert Candidates(t, now) == {} by {
      forall k | k in t ensures !t[k].active || t[k].rotatesAt <= now {
        var i :| 0 <= i < |ids| && ids[i] == k;
        assert DrawnAt(c, t[k], i, |ids|);
      }
    }
    assert id !in Elements(ids);
    var t' := Next(c, t, Rotate(now, now, true, true, id, material));
    assert t' == RetireAll(t)[id := NewRow(c, now, material)];
    assert Elements(ids') == Elements(ids) + {id};
    forall i | 0 <= i < |ids'| ensures ids'[i] in t' && DrawnAt(c, t'[ids'[i]], i, |ids'|) {
      if i < |ids| {
        assert ids'[i] == ids[i] && DrawnAt(c, t[ids[i]], i, |ids|);
      }
    }
  }

  ghost predicate Drawable(ids: seq<seq<byte>>) {
    Distinct(ids) && forall i :: 0 <= i < |ids| ==> |ids[i]| == 4
  }

  lemma DropLast(ids: seq<seq<byte>>)
    requires Drawable(ids) && ids != []
    ensures
      var k := |ids| - 1;
      Drawable(ids[..k]) && ids[k] !in ids[..k] && |ids[k]| == 4 && ids[..k] + [ids[k]] == ids
  {
    var k := |ids| - 1;
    assert forall i :: 0 <= i < k ==> ids[..k][i] == ids[i];
  }

  lemma {:induction false} RotationsRun(c: Config, ids: seq<seq<byte>>, material: seq<byte>)
    requires Drawable(ids) && |material| == 16
    ensures OnTime(c, Run(c, map[], Rotations(c, ids, material)), ids)
    decreases |ids|
  {
    if ids == [] {
      assert Run(c, map[], Rotations(c, ids, material)) == map[];
    } else {
      DropLast(ids);
      RotationsRun(c, ids[..|ids| - 1], material);
      LastRotationRun(c, ids, material);
    }
  }

  lemma LastRotationRun(c: Config, ids: seq<seq<byte>>, material: seq<byte>)
    requires ids != [] && Drawable(ids) && |material| == 16
    requires var init := ids[..|ids| - 1]; OnTime(c, Run(c, map[], Rotations(c, init, material)), init)
    ensures OnTime(c, Run(c, map[], Rotations(c, ids, material)), ids)
  {
    var k := |ids| - 1;
    var es, e := Rotations(c, ids[..k], material), Rotate(Time(c, k), Time(c, k), true, true, ids[k], material);
    DropLast(ids);
    RunOneMore(c, map[], es, e);
    OnTimeStep(c, Run(c, map[], es), ids[..k], ids[k], material);
    assert Rotations(c, ids, material) == es + [e];
  }

  lemma {:induction false} RotationsOrdered(c: Config, ids: seq<seq<byte>>, material: seq<byte>)
    ensures Ordered(Rotations(c, ids, material), 0)
    ensures Clock(Rotations(c, ids, material), 0) == Time(c, if ids == [] then 0 else |ids| - 1)
    decreases |ids|
  {
    if ids == [] {
    } else {
      var k := |ids| - 1;
      RotationsOrdered(c, ids[..k], material);
      OrderedAppend(Rotations(c, ids[..k], material), Rotate(Time(c, k), Time(c, k), true, true, ids[k], material), 0);
    }
  }

  lemma {:induction false} OrderedAppend(es: seq<Event>, e: Event, from: int)
    requires Ordered(es, from) && Clock(es, from) <= First(e) <= e.now
    ensures Ordered(es + [e], from) && Clock(es + [e], from) == e.now
    decreases |es|
  {
    if es == [] {
      assert es + [e] == [e] && [e][1..] == [];
    } else {
      assert (es + [e])[1..] == es[1..] + [e];
      assert Clock(es, from) == Clock(es[1..], es[0].now);
      OrderedAppend(es[1..], e, es[0].now);
    }
  }

  lemma RunOneMore(c: Config, t: Table, es: seq<Event>, e: Event)
    ensures Run(c, t, es + [e]) == Next(c, Run(c, t, es), e)
  {
    RunConcat(c, t, es, [e]);
    var t1 := Run(c, t, es);
    assert Run(c, Next(c, t1, e), []) == Next(c, t1, e);
    assert [e][1..] == [];
  }

  /** With ceil(expiry/rotation) ids to draw, rotating on time and sweeping at
      the last rotation leaves exactly that many rows. */
  lemma BoundAttained(c: Config, ids: seq<seq<byte>>, material: seq<byte>)
    requires 1 <= c.rotation && 1 <= c.expiry && |ids| == Ceil(c.expiry, c.rotation)
    requires Drawable(ids) && |material| == 16
    ensures
      var es := Rotations(c, ids, material);
      var sweep := Sweep(Clock(es, 0), true);
      Ordered(es + [sweep], 0) && |Next(c, Run(c, map[], es), sweep)| == Ceil(c.expiry, c.rotation)
  {
    var es := Rotations(c, ids, material);
    LastRotation(c);
    RotationsRun(c, ids, material);
    RotationsOrdered(c, ids, material);
    OrderedAppend(es, Sweep(Clock(es, 0), true), 0);
    AllKept(c, Run(c, map[], es), ids, Clock(es, 0));
  }

  /** The last of ceil(expiry/rotation) rotations happens before the first key expires. */
  lemma LastRotation(c: Config)
    requires 1 <= c.rotation && 1 <= c.expiry
    ensures Ceil(c.expiry, c.rotation) >= 1
    ensures Time(c, Ceil(c.expiry, c.rotation) - 1) < c.expiry
  {
    CeilBound(1, c.expiry, c.rotation);
    CeilSharp(c.expiry, c.rotation);
    TimeIsProduct(c, Ceil(c.expiry, c.rotation) - 1);
  }

  lemma AllKept(c: Config, t: Table, ids: seq<seq<byte>>, now: int)
    requires OnTime(c, t, ids) && Distinct(ids) && now < c.expiry
    ensures |Next(c, t, Sweep(now, true))| == |ids|
  {
    AllUnexpired(c, t, ids, now);
    assert Unexpired(t, now) == t;
    DistinctCount(ids);
    assert |t| == |t.Keys|;
  }

  lemma CeilSharp(e: int, r: int)
    requires r >= 1
    ensures (Ceil(e, r) - 1) * r < e
  {
    assert Ceil(e, r) * r <= e + r - 1;
    assert (Ceil(e, r) - 1) * r == Ceil(e, r) * r - r;
  }

  lemma AllUnexpired(c: Config, t: Table, ids: seq<seq<byte>>, now: int)
    requires OnTime(c, t, ids) && now < c.expiry
    ensures forall id :: id in t ==> t[id].expiresAt > now
  {
    forall id | id in t ensures t[id].expiresAt > now {
      var i :| 0 <= i < |ids| && ids[i] == id;
      assert DrawnAt(c, t[id], i, |ids|);
    }
  }
}
