/** The daemon's main loop as the program runs it: one object owning the
    cooldown record and the connection mode, updated in place input by input. */
module WatchLoop {
  import opened Events
  import opened Reaction
  import opened Properties

  class Watchdog {
    /** The `cooldown` and `timeout` settings, fixed at startup. */
    const cooldownSec: int
    const timeoutSec: int

    /** Time of the last permitted restart, per full container identity. */
    var lastRestart: map<Id, nat>

    /** Subscribed while the loop runs; Stopped once the process has exited. */
    var mode: Mode

    function Settings(): Config {
      Config(cooldownSec, timeoutSec)
    }

    /** The object's state as a value of the reaction machine. */
    function State(): Machine
      reads this
    {
      Machine(lastRestart, mode)
    }

    /** Startup: connected and subscribed, nothing restarted yet. */
    constructor (cooldownSec: int, timeoutSec: int)
      ensures Settings() == Config(cooldownSec, timeoutSec)
      ensures State() == Initial
    {
      this.cooldownSec := cooldownSec;
      this.timeoutSec := timeoutSec;
      lastRestart := map[];
      mode := Subscribed;
    }

    /** The event case of the loop: filter, cooldown check-then-write,
        restart, reports. */
    method HandleEvent(e: Event) returns (effects: seq<Effect>)
      requires mode == Subscribed
      modifies this
      ensures lastRestart == if Granted(old(State()), e, Settings())
        then old(lastRestart)[e.actorId := e.now] else old(lastRestart)
      ensures (State(), effects) == OnEvent(old(State()), e, Settings())
    {
      if e.action != UnhealthyAction {
        return [];
      }
      if e.actorId in lastRestart && e.now - lastRestart[e.actorId] < cooldownSec {
        return [];
      }
      lastRestart := lastRestart[e.actorId := e.now];

      var name := DisplayName(e.attributes);
      if |e.actorId| < ShortIdLength {
        // slicing the identity panics and ends the process
        mode := Stopped(Panicked);
        return [PanicSliceBounds(ShortIdLength, |e.actorId|)];
      }
      var shortId := ShortId(e.actorId);

      effects := Announce(UnhealthyDetected(name, shortId));
      effects := effects + [RestartRequest(e.actorId, timeoutSec)];
      if e.restart.RestartFailed? {
        effects := effects + Announce(RestartFailure(name, e.restart.err));
      }
      effects := effects + Announce(RestartDone(name, shortId));
      assert effects == PermittedEffects(e, Settings()) by {
        assert effects == RestartTrace(UnhealthyDetected(name, shortId), RestartRequest(e.actorId, timeoutSec),
          if e.restart.RestartFailed? then Announce(RestartFailure(name, e.restart.err)) else [],
          RestartDone(name, shortId));
      }
    }

    /** The error case of the loop: report, pause, re-create the client once,
        then resubscribe or exit. */
    method HandleError(err: string, reconnect: ReconnectOutcome) returns (effects: seq<Effect>)
      requires mode == Subscribed
      modifies this
      ensures lastRestart == old(lastRestart)
      ensures (State(), effects) == OnStreamError(old(State()), err, reconnect)
    {
      effects := [Log(StreamFailure(err)), Log(Reconnecting), Pause(ReconnectPauseSec), NewClient];
      match reconnect
      case ReconnectFailed(newErr) =>
        effects := effects + [Fatal(ReconnectFailure(newErr))];
        mode := Stopped(FatalExit);
      case Reconnected =>
        effects := effects + [Log(ReconnectDone), SubscribeEvents];
    }

    /** The loop itself, over the inputs that arrive, until they run out or
        the process exits. */
    method Watch(inputs: seq<Input>) returns (effects: seq<Effect>)
      modifies this
      ensures (State(), effects) == Run(old(State()), inputs, Settings())
    {
      ghost var start := State();
      effects := [];
      var i := 0;
      while i < |inputs| && mode == Subscribed
        invariant 0 <= i <= |inputs|
        invariant (State(), effects) == Run(start, inputs[..i], Settings())
        decreases |inputs| - i
      {
        var x := inputs[i];
        ghost var before := State();
        var turn: seq<Effect>;
        match x {
          case Health(e) =>
            turn := HandleEvent(e);
          case StreamError(err, reconnect) =>
            turn := HandleError(err, reconnect);
        }
        assert (State(), turn) == Step(before, x, Settings());
        RunSplit(start, inputs[..i], [x], Settings());
        RunOne(before, x, Settings());
        assert inputs[..i + 1] == inputs[..i] + [x];
        effects := effects + turn;
        i := i + 1;
      }
      RunSplit(start, inputs[..i], inputs[i..], Settings());
      assert inputs[..i] + inputs[i..] == inputs;
      if i < |inputs| {
        assert Run(State(), inputs[i..], Settings()) == (State(), []);
        assert effects + [] == effects;
      } else {
        assert inputs[i..] == [];
        assert Run(State(), [], Settings()) == (State(), []);
        assert effects + [] == effects;
      }
    }
  }
}
