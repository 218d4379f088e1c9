/** `BroadcastKeyManagement` and one cycle of `run_broadcast_loop` (src/app.rs)
    in imperative form, proved against the key-table machine. */
module KeyManagement {
  import opened Common
  import opened BroadcastKeys
  import opened BroadcastTokens

  datatype BroadcastKey = BroadcastKey(keyId: seq<byte>, keyMaterial: seq<byte>, rotatesAt: int, expiresAt: int)

  /** `build_key`: rows whose blobs have the wrong size are reported as corrupt. */
  function BuildKey(id: seq<byte>, material: seq<byte>, rotatesAt: int, expiresAt: int): (r: Result<BroadcastKey>)
    ensures r.Ok? <==> |id| == 4 && |material| == 16
  {
    if |id| != 4 then Err("corrupt key_id")
    else if |material| != 16 then Err("corrupt key_material")
    else Ok(BroadcastKey(id, material, rotatesAt, expiresAt))
  }

  /** In every run from an empty table, a row the query finds is never corrupt. */
  lemma NeverCorrupt(c: Config, es: seq<Event>, from: int, id: seq<byte>)
    requires Ordered(es, from) && id in Run(c, map[], es)
    ensures
      var r := Run(c, map[], es)[id];
      BuildKey(id, r.material, r.rotatesAt, r.expiresAt)
      == Ok(BroadcastKey(id, r.material, r.created + c.rotation, r.created + c.expiry))
  {
    RunInv(c, map[], es, from);
    assert Good(c, id, Run(c, map[], es)[id], Clock(es, from));
  }

  /** No row of the table is corrupt. */
  ghost predicate WellSized(t: Table) {
    forall id :: id in t ==> |id| == 4 && |t[id].material| == 16
  }

  /** Nor is one ever, in any run from an empty table. */
  lemma AlwaysWellSized(c: Config, es: seq<Event>, from: int)
    requires Ordered(es, from)
    ensures WellSized(Run(c, map[], es))
  {
    RunInv(c, map[], es, from);
    var t := Run(c, map[], es);
    forall id | id in t ensures |id| == 4 && |t[id].material| == 16 {
      assert Good(c, id, t[id], Clock(es, from));
    }
  }

  /** What the clock, the random source and the database deliver to one call. */
  datatype CallInput = CallInput(
    queryOk: bool, queried: int,
    now: int, retireOk: bool, insertOk: bool, id: seq<byte>, material: seq<byte>)

  /** The rotation these inputs amount to; a clashing id fails the insert. */
  function RotateEvent(input: CallInput, t: Table): Event {
    Rotate(input.queried, input.now, input.retireOk,
           input.retireOk && input.insertOk && input.id !in t, input.id, input.material)
  }

  /** The call yields a key: the query succeeds and finds one, or both statements of
      the rotation succeed with a fresh id. */
  predicate GetsKey(input: CallInput, t: Table) {
    && input.queryOk
    && ((exists id :: id in t && t[id].active && t[id].rotatesAt > input.queried)
        || (input.retireOk && input.insertOk && input.id !in t))
  }

  datatype CycleInput = CycleInput(call: CallInput, sweepAt: int, sweepOk: bool, tokenAt: nat)

  datatype Publication = Publication(topic: string, kid: string, tok: string)

  class BroadcastKeyManagement {
    var table: Table
    const config: Config

    constructor (config: Config)
      ensures table == map[] && this.config == config
    {
      this.config := config;
      table := map[];
    }

    /** `SELECT .. WHERE is_active = 1 AND rotates_at > now ORDER BY rotates_at DESC LIMIT 1`. */
    method Query(now: int) returns (row: Option<seq<byte>>)
      ensures row.None? <==> Candidates(table, now) == {}
      ensures row.Some? ==> Picks(table, now, row.value)
      ensures row.None? <==> forall id :: id in table ==> !(table[id].active && table[id].rotatesAt > now)
      ensures row.Some? ==>
        && row.value in table && table[row.value].active && table[row.value].rotatesAt > now
        && forall id :: id in table && table[id].active ==> table[id].rotatesAt <= table[row.value].rotatesAt
    {
      assert forall id :: id in Candidates(table, now) <==> id in table && table[id].active && table[id].rotatesAt > now;
      row := None;
      var rest := Candidates(table, now);
      while rest != {}
        invariant rest <= Candidates(table, now)
        invariant row.None? ==> rest == Candidates(table, now)
        invariant row.Some? ==> row.value in Candidates(table, now)
        invariant row.Some? ==> forall k :: k in Candidates(table, now) - rest ==> table[k].rotatesAt <= table[row.value].rotatesAt
      {
        var id :| id in rest;
        if row.None? || table[row.value].rotatesAt < table[id].rotatesAt {
          row := Some(id);
        }
        rest := rest - {id};
      }
    }

    /** `rotate_key`, reached only when the query found nothing. */
    method RotateKey(input: CallInput) returns (r: Result<BroadcastKey>, ghost e: Event)
      requires Candidates(table, input.queried) == {} && |input.id| == 4 && |input.material| == 16
      modifies this
      ensures Enabled(old(table), e)
      ensures e == RotateEvent(input, old(table)) && table == Next(config, old(table), e)
      ensures r.Ok? <==> e.inserted
      ensures r.Ok? <==> input.retireOk && input.insertOk && input.id !in old(table)
      ensures r.Ok? ==> r.value == BroadcastKey(input.id, input.material, input.now + config.rotation, input.now + config.expiry)
      ensures table.Keys == old(table).Keys + (if r.Ok? then {input.id} else {})
      ensures forall id :: id in old(table) ==>
        table[id] == if input.retireOk then old(table)[id].(active := false) else old(table)[id]
      ensures r.Ok? ==>
        table[input.id] == Row(input.material, input.now, input.now + config.rotation, input.now + config.expiry, true)
    {
      e := RotateEvent(input, table);
      if !input.retireOk {
        return Err("Failed to retire active broadcast keys"), e;
      }
      table := RetireAll(table);
      if !input.insertOk || input.id in table {
        return Err("Failed to insert new broadcast key"), e;
      }
      table := table[input.id := NewRow(config, input.now, input.material)];
      r := Ok(BroadcastKey(input.id, input.material, input.now + config.rotation, input.now + config.expiry));
    }

    /** `get_or_rotate_key`: one step of the machine, or none if the query fails. */
    method GetOrRotateKey(input: CallInput) returns (r: Result<BroadcastKey>, ghost es: seq<Event>)
      requires |input.id| == 4 && |input.material| == 16
      modifies this
      ensures table == Run(config, old(table), es)
      ensures input.queried <= input.now ==> forall from :: from <= input.queried ==> Ordered(es, from)
      ensures !input.queryOk ==> es == [] && r.Err?
      ensures input.queryOk ==> |es| == 1 && First(es[0]) == input.queried && Enabled(old(table), es[0])
      ensures input.queryOk ==>
        if Candidates(old(table), input.queried) != {} then es[0].Hit?
        else es[0] == RotateEvent(input, old(table)) && (r.Ok? <==> es[0].inserted)
      ensures WellSized(old(table)) ==> (r.Ok? <==> GetsKey(input, old(table)))
      ensures input.queryOk && es[0].Hit? ==>
        && es[0].id in table
        && var row := table[es[0].id];
        r == BuildKey(es[0].id, row.material, row.rotatesAt, row.expiresAt)
      ensures r.Ok? ==>
        && |es| == 1 && Returned(es[0]) == Some(r.value.keyId) && r.value.keyId in table
        && var row := table[r.value.keyId];
        && row.material == r.value.keyMaterial
        && row.rotatesAt == r.value.rotatesAt
        && row.expiresAt == r.value.expiresAt
    {
      es := [];
      if !input.queryOk {
        return Err("Failed to query broadcast keys"), es;
      }
      var row := Query(input.queried);
      ghost var e;
      if row.Some? {
        e := Hit(input.queried, row.value);
        var found := table[row.value];
        r := BuildKey(row.value, found.material, found.rotatesAt, found.expiresAt);
      } else {
        r, e := RotateKey(input);
      }
      es := [e];
      assert es[1..] == [];
      assert Run(config, old(table), es) == Run(config, Next(config, old(table), e), []);
    }

    /** `sweep_expired`: the number of rows deleted, all of them expired. */
    method SweepExpired(now: int, ok: bool) returns (r: Result<nat>)
      modifies this
      ensures table == Next(config, old(table), Sweep(now, ok))
      ensures r.Ok? <==> ok
      ensures r.Ok? ==> r.value == |set id | id in old(table) && old(table)[id].expiresAt <= now|
      ensures r.Ok? ==> r.value == |old(table)| - |table|
    {
      if !ok {
        return Err("Failed to sweep expired broadcast keys");
      }
      var expired := set id | id in table && table[id].expiresAt <= now;
      assert table.Keys == Unexpired(table, now).Keys + expired;
      assert |Unexpired(table, now)| == |Unexpired(table, now).Keys| && |table| == |table.Keys|;
      table := Unexpired(table, now);
      r := Ok(|expired|);
    }

    /** One cycle of the broadcast loop: obtain the key, sweep, then publish the
        same two fields to every listed topic in order. Without a key nothing is
        published and nothing is swept. */
    method BroadcastCycle(input: CycleInput, topics: seq<string>, mac: Mac)
      returns (published: seq<Publication>, ghost es: seq<Event>)
      requires |input.call.id| == 4 && |input.call.material| == 16
      modifies this
      ensures table == Run(config, old(table), es)
      ensures es == [] <==> !input.call.queryOk
      ensures es != [] ==>
        && First(es[0]) == input.call.queried && Enabled(old(table), es[0])
        && if Candidates(old(table), input.call.queried) != {} then es[0].Hit? else es[0] == RotateEvent(input.call, old(table))
      ensures es == [] || |es| == 1 || (|es| == 2 && es[1] == Sweep(input.sweepAt, input.sweepOk))
      ensures WellSized(old(table)) ==> (|es| == 2 <==> GetsKey(input.call, old(table)))
      ensures |es| <= 1 ==> published == []
      ensures |es| == 2 ==>
        && Returned(es[0]).Some? && |published| == |topics|
        && var id, mid := Returned(es[0]).value, Next(config, old(table), es[0]);
        && id in mid
        && var slot := input.tokenAt / (if config.rotation < 1 then 1 else config.rotation);
        forall i :: 0 <= i < |published| ==>
          published[i] == Publication(topics[i], HexEncode(id), HexEncode(mac(mid[id].material, slot)))
    {
      published := [];
      var key, call := GetOrRotateKey(input.call);
      es := call;
      if key.Err? {
        return;
      }
      ghost var mid := table;
      RunOneMore(config, old(table), es, Sweep(input.sweepAt, input.sweepOk));
      assert Run(config, Next(config, old(table), es[0]), es[1..]) == mid;
      es := es + [Sweep(input.sweepAt, input.sweepOk)];
      var _ := SweepExpired(input.sweepAt, input.sweepOk);
      var kid := HexEncode(key.value.keyId);
      var tok := HexEncode(Token(mac, key.value.keyMaterial, input.tokenAt, config.rotation));
      for i := 0 to |topics|
        invariant |published| == i
        invariant forall k :: 0 <= k < i ==> published[k] == Publication(topics[k], kid, tok)
      {
        published := published + [Publication(topics[i], kid, tok)];
      }
    }
  }

  /** End to end: whatever a cycle publishes at a clock within `rotation` of the
      beacon's own is accepted by a beacon that holds the key's material. */
  lemma PublishedTokenAccepted(mac: Mac, material: seq<byte>, rotation: nat, now: nat, clock: nat, tok: string)
    requires var n := if rotation < 1 then 1 else rotation;
             tok == HexEncode(mac(material, now / n)) && now <= clock + n && clock <= now + n
    ensures HexDecode(tok).Some? && Accepts(mac, material, clock, rotation, HexDecode(tok).value)
  {
    HexRoundTrip(Token(mac, material, now, rotation));
    DriftingBeaconAccepts(mac, material, rotation, now, clock);
  }
}
