/** The reaction rule of the watchdog's event loop as a pure state machine:
    the cooldown record, the connection mode, and what one input does to them
    and to the outside world. The class in module Watchdog implements it. */
module Reaction {
  import opened Events

  /** Why the loop ended: `log.Fatalf` after a failed reconnect, or the
      runtime panic of slicing an identity shorter than ShortIdLength. */
  datatype StopReason = FatalExit | Panicked

  datatype Mode = Subscribed | Stopped(reason: StopReason)

  /** The loop's state: the time of the last permitted restart per full
      identity, and whether the loop is still consuming its subscription. */
  datatype Machine = Machine(lastRestart: map<Id, nat>, mode: Mode)

  /** The two settings the loop reads: the cooldown and the restart timeout,
      both in seconds, both taken as given (the flags are plain ints). */
  datatype Config = Config(cooldownSec: int, timeoutSec: int)

  /** The state right after startup: subscribed, nothing restarted yet. */
  const Initial: Machine := Machine(map[], Subscribed)

  /** Only the exact "became unhealthy" action is acted on. */
  predicate Actionable(e: Event) {
    e.action == UnhealthyAction
  }

  /** The cooldown gate. An identity without an entry was never restarted and
      is always let through; otherwise the elapsed time must reach the cooldown. */
  predicate Permits(lastRestart: map<Id, nat>, id: Id, now: nat, cooldownSec: int) {
    id !in lastRestart || now - lastRestart[id] >= cooldownSec
  }

  /** The event passes both the action filter and the cooldown gate, so the
      cooldown record is updated for it. */
  predicate Granted(m: Machine, e: Event, cfg: Config) {
    Actionable(e) && Permits(m.lastRestart, e.actorId, e.now, cfg.cooldownSec)
  }

  /** The input makes the running loop issue a restart request: a granted
      event whose identity is long enough to be abbreviated for display. */
  predicate RequestsRestart(m: Machine, x: Input, cfg: Config) {
    && m.mode == Subscribed
    && x.Health?
    && Granted(m, x.event, cfg)
    && |x.event.actorId| >= ShortIdLength
  }

  /** The effects of a restart: the detection report, the request, the
      failure report when the restart failed, and the completion report. */
  function RestartTrace(detected: Message, request: Effect, failure: seq<Effect>, done: Message): seq<Effect> {
    Announce(detected) + [request] + failure + Announce(done)
  }

  lemma RestartTraceRequestsOnce(detected: Message, id: Id, timeoutSec: int, failure: seq<Effect>, done: Message)
    requires forall i :: 0 <= i < |failure| ==> !failure[i].RestartRequest?
    ensures RestartIds(RestartTrace(detected, RestartRequest(id, timeoutSec), failure, done)) == [id]
  {
    var a := Announce(detected);
    var b := [RestartRequest(id, timeoutSec)];
    var c := Announce(done);
    RestartIdsConcat(a + b + failure, c);
    RestartIdsConcat(a + b, failure);
    RestartIdsConcat(a, b);
    NoRestartRequests(a);
    assert RestartIds(b) == [id] by { assert b[1..] == []; }
    NoRestartRequests(c);
    NoRestartRequests(failure);
  }

  /** What a granted event with a well-formed identity sends out, in order:
      one restart request, preceded by the detection report and followed by
      the failure report only if the restart failed, then by the completion
      report whatever the outcome. */
  function PermittedEffects(e: Event, cfg: Config): (t: seq<Effect>)
    requires |e.actorId| >= ShortIdLength
    ensures RestartIds(t) == [e.actorId]
    ensures var name := DisplayName(e.attributes);
      var short := ShortId(e.actorId);
      && |t| == (if e.restart.RestartFailed? then 7 else 5)
      && t[..2] == Announce(UnhealthyDetected(name, short))
      && t[2] == RestartRequest(e.actorId, cfg.timeoutSec)
      && (e.restart.RestartFailed? ==> t[3..5] == Announce(RestartFailure(name, e.restart.err)))
      && t[|t| - 2..] == Announce(RestartDone(name, short))
  {
    var name := DisplayName(e.attributes);
    var short := ShortId(e.actorId);
    var failure := match e.restart
      case RestartOk => []
      case RestartFailed(err) => Announce(RestartFailure(name, err));
    RestartTraceRequestsOnce(UnhealthyDetected(name, short), e.actorId, cfg.timeoutSec, failure, RestartDone(name, short));
    RestartTrace(UnhealthyDetected(name, short), RestartRequest(e.actorId, cfg.timeoutSec), failure, RestartDone(name, short))
  }

  /** Handling one health event while subscribed (main.go, the event case of
      the loop). */
  function OnEvent(m: Machine, e: Event, cfg: Config): (r: (Machine, seq<Effect>))
    requires m.mode == Subscribed
    // the filter: any other action is invisible
    ensures !Actionable(e) ==> r == (m, [])
    // the cooldown: a blocked event is dropped without a trace
    ensures Actionable(e) && !Permits(m.lastRestart, e.actorId, e.now, cfg.cooldownSec) ==> r == (m, [])
    // bookkeeping: exactly the full identity's entry is set to now
    ensures Granted(m, e, cfg) ==> r.0.lastRestart == m.lastRestart[e.actorId := e.now]
    ensures r.0.mode == (if Granted(m, e, cfg) && |e.actorId| < ShortIdLength then Stopped(Panicked) else Subscribed)
    // a restart, with its effects in their fixed order
    ensures RequestsRestart(m, Health(e), cfg) ==> r.1 == PermittedEffects(e, cfg)
    // too short an identity: the map is already updated when the slice panics
    ensures Granted(m, e, cfg) && |e.actorId| < ShortIdLength ==>
      r.1 == [PanicSliceBounds(ShortIdLength, |e.actorId|)]
  {
    if !Actionable(e) then (m, [])
    else if !Permits(m.lastRestart, e.actorId, e.now, cfg.cooldownSec) then (m, [])
    else
      var updated := m.(lastRestart := m.lastRestart[e.actorId := e.now]);
      if |e.actorId| < ShortIdLength then
        (updated.(mode := Stopped(Panicked)), [PanicSliceBounds(ShortIdLength, |e.actorId|)])
      else
        (updated, PermittedEffects(e, cfg))
  }

  /** Handling an error from the event stream while subscribed (main.go, the
      error case of the loop): report, pause, re-create the client once, and
      either resubscribe or stop. */
  function OnStreamError(m: Machine, err: string, reconnect: ReconnectOutcome): (r: (Machine, seq<Effect>))
    requires m.mode == Subscribed
    // the cooldown record survives the reconnect, never reset
    ensures r.0.lastRestart == m.lastRestart
    ensures r.0.mode == (if reconnect.Reconnected? then Subscribed else Stopped(FatalExit))
    // report, pause, then exactly one client re-creation
    ensures |r.1| >= 5
      && r.1[..4] == [Log(StreamFailure(err)), Log(Reconnecting), Pause(ReconnectPauseSec), NewClient]
    // then the resubscription after a success, or the fatal report after a failure
    ensures r.1[4..] == (if reconnect.Reconnected? then [Log(ReconnectDone), SubscribeEvents]
                         else [Fatal(ReconnectFailure(reconnect.err))])
    // no restart and no notification on this path
    ensures RestartIds(r.1) == [] && NotifyCount(r.1) == 0
  {
    var head := [Log(StreamFailure(err)), Log(Reconnecting), Pause(ReconnectPauseSec), NewClient];
    QuietTrace(head);
    match reconnect
    case Reconnected =>
      var tail := [Log(ReconnectDone), SubscribeEvents];
      assert tail == [Log(ReconnectDone)] + [SubscribeEvents];
      QuietTrace([Log(ReconnectDone)]);
      RestartIdsConcat([Log(ReconnectDone)], [SubscribeEvents]);
      NotifyCountConcat([Log(ReconnectDone)], [SubscribeEvents]);
      RestartIdsConcat(head, tail);
      NotifyCountConcat(head, tail);
      (m, head + tail)
    case ReconnectFailed(newErr) =>
      var tail := [Fatal(ReconnectFailure(newErr))];
      QuietTrace(tail);
      RestartIdsConcat(head, tail);
      NotifyCountConcat(head, tail);
      (m.(mode := Stopped(FatalExit)), head + tail)
  }

  /** A stream error leads to exactly one resubscription when the client was
      re-created, and to none when the loop exits. */
  lemma ReconnectSubscribesOnce(m: Machine, err: string, reconnect: ReconnectOutcome)
    requires m.mode == Subscribed
    ensures SubscribeCount(OnStreamError(m, err, reconnect).1) == (if reconnect.Reconnected? then 1 else 0)
  {
    var t := OnStreamError(m, err, reconnect).1;
    var head := t[..4];
    var tail := t[4..];
    assert t == head + tail;
    QuietTrace(head);
    SubscribeCountConcat(head, tail);
    if reconnect.Reconnected? {
      assert tail == [Log(ReconnectDone)] + [SubscribeEvents];
      QuietTrace([Log(ReconnectDone)]);
      SubscribeCountConcat([Log(ReconnectDone)], [SubscribeEvents]);
    } else {
      QuietTrace(tail);
    }
  }

  /** One turn of the loop. A stopped loop consumes nothing. */
  function Step(m: Machine, x: Input, cfg: Config): (r: (Machine, seq<Effect>))
    ensures m.mode.Stopped? ==> r == (m, [])
  {
    if m.mode.Stopped? then (m, [])
    else
      match x
      case Health(e) => OnEvent(m, e, cfg)
      case StreamError(err, reconnect) => OnStreamError(m, err, reconnect)
  }

  /** Entries are never removed, and only the event's own entry can change. */
  lemma StepFrame(m: Machine, x: Input, cfg: Config)
    ensures var next := Step(m, x, cfg).0.lastRestart;
      && m.lastRestart.Keys <= next.Keys
      && forall k :: k in m.lastRestart && !(x.Health? && k == x.event.actorId) ==> next[k] == m.lastRestart[k]
    // the map is either untouched or has exactly the event's entry set to its time
    ensures var next := Step(m, x, cfg).0.lastRestart;
      next == m.lastRestart || (x.Health? && next == m.lastRestart[x.event.actorId := x.event.now])
  {
  }

  /** One restart request for an input that requests one, none otherwise. */
  lemma StepRestartIds(m: Machine, x: Input, cfg: Config)
    ensures RestartIds(Step(m, x, cfg).1) == (if RequestsRestart(m, x, cfg) then [x.event.actorId] else [])
  {
  }

  /** The loop body for a given configuration. */
  function Turn(cfg: Config): (Machine, Input) -> (Machine, seq<Effect>) {
    (m: Machine, x: Input) => Step(m, x, cfg)
  }

  /** Feeding inputs one at a time to a loop body: the final state and the
      concatenated effects. */
  function Fold(turn: (Machine, Input) -> (Machine, seq<Effect>), m: Machine, xs: seq<Input>): (Machine, seq<Effect>)
    decreases |xs|
  {
    if xs == [] then (m, [])
    else
      var first := turn(m, xs[0]);
      var rest := Fold(turn, first.0, xs[1..]);
      (rest.0, first.1 + rest.1)
  }

  lemma {:induction false} FoldKeepsRecord(m: Machine, xs: seq<Input>, cfg: Config)
    ensures var r := Fold(Turn(cfg), m, xs);
      && (m.mode.Stopped? ==> r == (m, []))
      && m.lastRestart.Keys <= r.0.lastRestart.Keys
    decreases |xs|
  {
    if xs != [] {
      var first := Step(m, xs[0], cfg);
      StepFrame(m, xs[0], cfg);
      FoldKeepsRecord(first.0, xs[1..], cfg);
      var rest := Fold(Turn(cfg), first.0, xs[1..]);
      assert m.mode.Stopped? ==> first.1 + rest.1 == [];
    }
  }

  /** The loop over a finite sequence of inputs: the final state and the
      whole trace of effects. A stopped loop consumes nothing more, and no
      cooldown entry is ever removed. */
  function Run(m: Machine, xs: seq<Input>, cfg: Config): (r: (Machine, seq<Effect>))
    ensures m.mode.Stopped? ==> r == (m, [])
    ensures m.lastRestart.Keys <= r.0.lastRestart.Keys
  {
    FoldKeepsRecord(m, xs, cfg);
    Fold(Turn(cfg), m, xs)
  }

  /** A permitted restart request: whose, and when. */
  datatype Grant = Grant(id: Id, at: nat)

  /** The restart request one turn issues, if any, with its time. */
  function GrantOf(m: Machine, x: Input, cfg: Config): seq<Grant> {
    if RequestsRestart(m, x, cfg) then [Grant(x.event.actorId, x.event.now)] else []
  }

  /** The restart requests a run issues, with the time of each. */
  function Grants(m: Machine, xs: seq<Input>, cfg: Config): seq<Grant>
    decreases |xs|
  {
    if xs == [] then []
    else GrantOf(m, xs[0], cfg) + Grants(Step(m, xs[0], cfg).0, xs[1..], cfg)
  }

  function GrantIds(gs: seq<Grant>): (ids: seq<Id>)
    ensures |ids| == |gs| && forall i :: 0 <= i < |gs| ==> ids[i] == gs[i].id
  {
    if gs == [] then [] else [gs[0].id] + GrantIds(gs[1..])
  }
}
