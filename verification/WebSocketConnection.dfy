/** `spawn_connection_task` of src/services/cloud_gateway/cloud_gateway_service.rs in
    the source's nested loops, proved to be the machine of `WebSocketTask`. */
module WebSocketConnection {
  import opened WebSocketTask
  import opened Backoff
  import opened Oneshot

  class WebSocketConnection {
    var delay: nat
    var queue: seq<string>
    var accepted: seq<string>
    var taken: seq<Taken>
    var sessions: seq<seq<Frame>>
    var sleeps: seq<nat>
    var next: nat
    const script: seq<Event>
    const shutdown: ShutdownReceiver

    ghost function Value(pc: Pc): Task
      reads this
    {
      Task(pc, delay, queue, accepted, taken, sessions, sleeps)
    }

    /** The task is parked at `pc`, exactly as the machine after the same events. */
    ghost predicate At(pc: Pc)
      reads this, shutdown
    {
      && next <= |script|
      && Value(pc) == Run(Init(), script[..next])
      && (shutdown.delivered <==> pc.Done?)
    }

    constructor (script: seq<Event>)
      ensures this.script == script && next == 0 && fresh(shutdown) && !shutdown.delivered
      ensures Value(Connecting) == Init()
    {
      this.script := script;
      delay, queue, accepted, taken, sessions, sleeps := INITIAL_RECONNECT_DELAY, [], [], [], [], [];
      next := 0;
      shutdown := new ShutdownReceiver();
    }

    /** Waits at `pc` for an event it takes; messages may be enqueued meanwhile. */
    method Park(pc: Pc) returns (ready: bool)
      requires At(pc)
      modifies this`queue, this`accepted, this`next
      ensures At(pc) && old(next) <= next
      ensures ready ==> next < |script| && Awaited(pc, queue, script[next]) && !script[next].Enqueue?
      ensures !ready ==> next == |script|
    {
      while next < |script|
        invariant At(pc) && old(next) <= next
      {
        var e := script[next];
        RunNext(Init(), script, next);
        if e.Enqueue? {
          if !pc.Done? {
            queue, accepted := queue + [e.msg], accepted + [e.msg];
          }
        } else if Awaited(pc, queue, e) {
          return true;
        }
        next := next + 1;
      }
      ready := false;
    }

    /** `sleep(delay).await` and doubling, which shutdown does not interrupt. */
    method Sleep() returns (pc: Pc)
      requires At(Sleeping)
      modifies this
      ensures At(pc) && old(next) <= next
      ensures (pc == Connecting && old(next) < next) || (pc == Sleeping && next == |script|)
    {
      var ready := Park(Sleeping);
      if !ready {
        return Sleeping;
      }
      RunNext(Init(), script, next);
      sleeps := sleeps + [delay];
      delay := Doubled(delay);
      next := next + 1;
      pc := Connecting;
    }

    /** Sends the Register frame on a fresh connection. */
    method SendRegister() returns (pc: Pc)
      requires At(Registering)
      modifies this
      ensures At(pc) && old(next) <= next
      ensures pc == Serving || (pc == Connecting && old(next) < next) || (pc == Registering && next == |script|)
    {
      var ready := Park(Registering);
      if !ready {
        return Registering;
      }
      RunNext(Init(), script, next);
      if script[next].RegisterSent? {
        sessions := Attempt(sessions, Register(true));
        pc := Serving;
      } else {
        if script[next].RegisterFailed? {
          sessions := Attempt(sessions, Register(false));
        }
        pc := Connecting;
      }
      next := next + 1;
    }

    /** Takes one queued message; a failed send ends the session. */
    method Relay(outcome: Outcome) returns (pc: Pc)
      requires At(Serving) && next < |script| && script[next] == Outbound(outcome) && queue != []
      modifies this
      ensures At(pc) && next == old(next) + 1 && (pc == Serving || pc == Sleeping)
    {
      var msg := queue[0];
      queue, taken := queue[1..], taken + [Taken(msg, outcome)];
      pc := Serving;
      if outcome.Sent? {
        sessions := Attempt(sessions, Data(msg, true));
      } else if outcome.Lost? {
        sessions := Attempt(sessions, Data(msg, false));
        pc := Sleeping;
      }
      RunNext(Init(), script, next);
      next := next + 1;
    }

    /** The inner loop over shutdown, outbound messages and inbound frames. */
    method Serve() returns (pc: Pc)
      requires At(Serving)
      modifies this, shutdown
      ensures At(pc) && old(next) <= next
      ensures pc == Done || pc == Sleeping || (pc == Serving && next == |script|)
    {
      pc := Serving;
      while pc == Serving
        invariant At(pc) && (pc == Serving || pc == Sleeping || pc == Done) && old(next) <= next
        decreases |script| - next
      {
        var ready := Park(pc);
        if !ready {
          return;
        }
        if script[next].Outbound? {
          pc := Relay(script[next].outcome);
        } else {
          pc := Receive();
        }
      }
    }

    /** Shutdown, or something from the other side. */
    method Receive() returns (pc: Pc)
      requires At(Serving) && next < |script| && Awaited(Serving, queue, script[next])
      requires !script[next].Enqueue? && !script[next].Outbound?
      modifies this, shutdown
      ensures At(pc) && next == old(next) + 1 && (pc == Serving || pc == Sleeping || pc == Done)
    {
      pc := Serving;
      match script[next] {
        case Shutdown =>
          shutdown.Deliver();
          sessions := Attempt(sessions, Close);
          pc := Done;
        case Ping(ponged) =>
          sessions := Attempt(sessions, Pong(ponged));
        case Closed =>
          pc := Sleeping;
        case _ =>
      }
      RunNext(Init(), script, next);
      next := next + 1;
    }

    /** Connects, with shutdown as the other branch of the `select!`. */
    method Connect() returns (pc: Pc)
      requires At(Connecting)
      modifies this, shutdown
      ensures At(pc) && old(next) <= next
      ensures pc == Done || pc == Registering || pc == Sleeping || (pc == Connecting && next == |script|)
    {
      var ready := Park(Connecting);
      if !ready {
        return Connecting;
      }
      RunNext(Init(), script, next);
      match script[next] {
        case Shutdown =>
          shutdown.Deliver();
          pc := Done;
        case ConnectOk =>
          delay, sessions, sleeps := INITIAL_RECONNECT_DELAY, sessions + [[]], [];
          pc := Registering;
        case _ =>
          pc := Sleeping;
      }
      next := next + 1;
    }

    /** The whole task ends up where the machine does. */
    method Execute() returns (pc: Pc)
      requires next == 0 && Value(Connecting) == Init() && !shutdown.delivered
      modifies this, shutdown
      ensures Value(pc) == Run(Init(), script)
      ensures shutdown.delivered <==> pc.Done?
    {
      assert script[..0] == [];
      pc := Connecting;
      label reconnect: while true
        invariant At(pc) && pc == Connecting
        decreases |script| - next
      {
        pc := Connect();
        if pc == Registering {
          pc := SendRegister();
          if pc == Connecting {
            continue reconnect;
          }
        }
        if pc == Serving {
          pc := Serve();
        }
        if pc == Sleeping {
          pc := Sleep();
        }
        if pc != Connecting || next == |script| {
          break reconnect;
        }
      }
      var _ := Park(pc);
      assert script[..next] == script;
    }
  }
}
