/** `spawn_connection_task` of src/services/gateway_mqtt/tasks.rs in the source's own
    nested loops, run on a script of what its awaits deliver, and proved to be
    the flat machine of `GatewayMqttTask`. */
module ConnectionTask {
  import opened Common
  import opened Backoff
  import opened GatewayMqttTask
  import opened Oneshot

  class ConnectionTask {
    var delay: nat
    var cached: Option<Credentials>
    var queue: seq<string>
    var accepted: seq<string>
    var log: seq<Action>
    var next: nat
    const script: seq<Event>
    const shutdown: ShutdownReceiver

    ghost function Value(pc: Pc): Task
      reads this
    {
      Task(pc, delay, cached, queue, accepted, log)
    }

    /** The task is parked at `pc`, exactly as the machine after the same events. */
    ghost predicate At(pc: Pc)
      reads this, shutdown
    {
      && next <= |script|
      && Value(pc) == Run(Init(), script[..next])
      && (shutdown.delivered <==> pc.Done?)
    }

    constructor (script: seq<Event>)
      ensures this.script == script && next == 0
      ensures delay == INITIAL_RECONNECT_DELAY && cached == None && queue == [] && accepted == [] && log == []
      ensures fresh(shutdown) && !shutdown.delivered
    {
      this.script := script;
      delay, cached, queue, accepted, log, next := INITIAL_RECONNECT_DELAY, None, [], [], [], 0;
      shutdown := new ShutdownReceiver();
    }

    /** Waits at `pc`: messages may be enqueued meanwhile, and events this await
        does not take pass by. Stops before an event it takes, or at the end.
        Every wait but the final one of a finished task polls the shutdown
        receiver, which by `At` has not delivered then. */
    method Park(pc: Pc) returns (ready: bool)
      requires At(pc)
      modifies this`queue, this`accepted, this`next
      ensures At(pc) && old(next) <= next
      ensures ready ==> next < |script| && Awaited(Value(pc), script[next]) && !script[next].Enqueue?
      ensures !ready ==> next == |script|
    {
      while next < |script|
        invariant At(pc) && old(next) <= next
      {
        var e := script[next];
        RunNext(Init(), script, next);
        if e.Enqueue? {
          if !pc.Done? {
            queue, accepted := queue + [e.msg], accepted + [e.msg];
          }
        } else if Takes(pc, queue, e) {
          return true;
        }
        next := next + 1;
      }
      ready := false;
    }

    /** `backoff`: sleep for the delay unless shutdown comes first, then double it. */
    method Backoff() returns (shuttingDown: bool, stuck: bool)
      requires At(BackingOff)
      modifies this, shutdown
      ensures stuck ==> !shuttingDown && At(BackingOff) && next == |script|
      ensures shuttingDown ==> At(Done)
      ensures !stuck && !shuttingDown ==>
        && old(next) < next <= |script| && !shutdown.delivered
        && Top(Value(LoggingIn)) == Run(Init(), script[..next])
    {
      var ready := Park(BackingOff);
      if !ready {
        return false, true;
      }
      RunNext(Init(), script, next);
      if script[next].Shutdown? {
        shutdown.Deliver();
        shuttingDown := true;
      } else {
        log := log + [Slept(delay)];
        shuttingDown := false;
      }
      delay := Doubled(delay);
      next := next + 1;
      stuck := false;
    }

    /** Step 1 of a pass: credentials from the cache or from a login. */
    method EnsureCredentials() returns (pc: Pc)
      requires next <= |script| && !shutdown.delivered
      requires Value(if cached.Some? then Building else LoggingIn) == Run(Init(), script[..next])
      modifies this, shutdown
      ensures At(pc) && old(next) <= next
      ensures pc == Building || pc == BackingOff || pc == Done || (pc == LoggingIn && next == |script|)
    {
      if cached.Some? {
        return Building;
      }
      var ready := Park(LoggingIn);
      if !ready {
        return LoggingIn;
      }
      RunNext(Init(), script, next);
      match script[next] {
        case Shutdown =>
          shutdown.Deliver();
          pc := Done;
        case LoginOk(creds) =>
          cached, log := Some(creds), log + [LoggedIn(creds)];
          pc := Building;
        case _ =>
          pc := BackingOff;
      }
      next := next + 1;
    }

    /** Step 2: the connection options, whose construction may fail. */
    method BuildConnection() returns (pc: Pc)
      requires At(Building)
      modifies this
      ensures At(pc) && old(next) <= next
      ensures pc.Serving? || pc == BackingOff || (pc == Building && next == |script|)
    {
      RunInv(script[..next]);
      var ready := Park(Building);
      if !ready {
        return Building;
      }
      RunNext(Init(), script, next);
      if script[next].BuildOk? {
        log := log + [Connected(cached.value)];
        pc := Serving(cached.value);
      } else {
        pc := BackingOff;
      }
      next := next + 1;
    }

    /** Step 3: the inner loop over shutdown, outbound messages and the event loop. */
    method Serve(creds: Credentials) returns (pc: Pc)
      requires At(Serving(creds))
      modifies this, shutdown
      ensures At(pc) && old(next) <= next
      ensures pc == Done || pc == BackingOff || (pc == Serving(creds) && next == |script|)
    {
      pc := Serving(creds);
      while true
        invariant At(pc) && pc == Serving(creds) && old(next) <= next
        decreases |script| - next
      {
        var ready := Park(pc);
        if !ready {
          return;
        }
        RunNext(Init(), script, next);
        next := next + 1;
        match script[next - 1] {
          case Shutdown =>
            shutdown.Deliver();
            return Done;
          case Outbound =>
            log := log + [Published(queue[0])];
            queue := queue[1..];
          case ConnAck =>
            delay, log := INITIAL_RECONNECT_DELAY, log + [Acked];
          case ConnectionRefused =>
            cached, log := None, log + [Refused];
            return BackingOff;
          case ConnectionLost =>
            return BackingOff;
          case _ =>
        }
      }
    }

    /** Steps 1 to 3 of a pass: all that happens before its backoff. */
    method ConnectAndServe() returns (pc: Pc)
      requires next <= |script| && !shutdown.delivered
      requires Top(Value(LoggingIn)) == Run(Init(), script[..next])
      modifies this, shutdown
      ensures At(pc) && old(next) <= next
      ensures pc == BackingOff || pc == Done || next == |script|
    {
      log := log + [Pass];
      pc := EnsureCredentials();
      if pc == Building {
        pc := BuildConnection();
      }
      if pc.Serving? {
        pc := Serve(pc.creds);
      }
    }

    /** The whole task. The script ends with the task parked somewhere or done;
        either way it is where the machine is, and the shutdown receiver was
        never polled after it had delivered. */
    method Execute() returns (pc: Pc)
      requires next == 0 && delay == INITIAL_RECONNECT_DELAY && cached == None
      requires queue == [] && accepted == [] && log == [] && !shutdown.delivered
      modifies this, shutdown
      ensures Value(pc) == Run(Init(), script)
      ensures shutdown.delivered <==> pc.Done?
    {
      assert script[..0] == [];
      label reconnect: while true
        invariant next <= |script| && !shutdown.delivered
        invariant Top(Value(LoggingIn)) == Run(Init(), script[..next])
        decreases |script| - next
      {
        pc := ConnectAndServe();
        if pc != BackingOff {
          break reconnect;
        }
        var shuttingDown, stuck := Backoff();
        if stuck {
          break reconnect;
        }
        if shuttingDown {
          pc := Done;
          break reconnect;
        }
      }
      if pc.Done? {
        var _ := Park(Done);
      }
      assert script[..next] == script;
    }
  }

  /** `Awaited`, from what the task itself can see. */
  predicate Takes(pc: Pc, queue: seq<string>, e: Event) {
    Awaited(Task(pc, 0, None, queue, [], []), e)
  }
}
