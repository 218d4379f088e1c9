/** Timing of deregistration over every run of the message loop. */
module Timeouts {
  import opened Common
  import opened Registry
  import opened MessageLoop
  import opened History

  ghost predicate Inv(s: Loop) {
    && s.lastSweep <= s.clock
    && (forall id :: id in s.reg.records ==> s.lastSweep <= s.reg.records[id].lastSeen + BEACON_TIMEOUT)
    && (s.phase.Sweeping? ==>
          && s.lastSweep <= s.phase.now <= s.clock
          && (forall id :: id in s.reg.records ==>
                (IsStale(s.reg.records[id], s.phase.now) <==> id in s.phase.todo)))
  }

  lemma Step(s: Loop, e: Event)
    requires Inv(s)
    ensures Inv(Next(s, e))
  {
    if Enabled(s, e) {
      var s' := Next(s, e);
      match e
      case Channel(ch, now, subscribed) =>
        RegisterShape(s.reg, ch, now, subscribed);
      case Message(_, _, _) =>
        MessageShape(s, e);
      case SweepStart(now, order) =>
        assert forall id :: id in order <==> id in Elements(order);
      case SweepRemove =>
        var todo := s.phase.todo;
        assert forall id :: id in todo <==> id == todo[0] || id in todo[1..];
        SweepRemoveStep(s);
      case _ =>
    }
  }

  lemma SweepRemoveStep(s: Loop)
    requires Inv(s) && Enabled(s, SweepRemove)
    ensures Inv(Next(s, SweepRemove))
  {
  }

  lemma {:induction false} RunInv(s: Loop, es: seq<Event>)
    requires Inv(s)
    ensures Inv(Run(s, es))
    decreases |es|
  {
    if es == [] {
    } else {
      Step(s, es[0]);
      RunInv(Next(s, es[0]), es[1..]);
    }
  }

  /** No step of any sweep, completed or interrupted later, removes a beacon that
      was heard in the last 120 seconds before that sweep began. */
  lemma OnlyStaleRemoved(own: Option<string>, start: nat, es: seq<Event>, e: Event, id: string)
    requires id in Run(Init(own, start), es).reg.records
    requires id !in Next(Run(Init(own, start), es), e).reg.records
    ensures
      var s0 := Init(own, start);
      e.SweepRemove? && SweepBegan(s0, es) > LastHeard(s0, es, id) + 120
  {
    RunInv(Init(own, start), es);
    RecordsTellHistory(own, start, es, id);
    SweepsTellHistory(own, start, es);
    var s := Run(Init(own, start), es);
    if e.Channel? {
      RegisterShape(s.reg, e.ch, e.now, e.subscribed);
    }
  }

  /** At any moment `now`, if the last completed sweep began at most `g` seconds
      ago, every registered beacon was heard within the last `120 + g` seconds. */
  lemma SilenceBounded(own: Option<string>, start: nat, es: seq<Event>, now: nat, g: nat, id: string)
    requires now - SweepCompleted(Init(own, start), es) <= g && id in Run(Init(own, start), es).reg.records
    ensures now - LastHeard(Init(own, start), es, id) <= 120 + g
  {
    RunInv(Init(own, start), es);
    RecordsTellHistory(own, start, es, id);
    SweepsTellHistory(own, start, es);
  }
}
