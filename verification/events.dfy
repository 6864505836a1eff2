/** The inputs the watchdog's event loop consumes, the side effects it
    produces, and the display helpers it uses for its messages. */
module Events {

  /** A container's full identity as the runtime assigns it. */
  type Id = string

  /** The only action the loop reacts to. */
  const UnhealthyAction: string := "health_status: unhealthy"

  /** Length of the abbreviated identity shown in messages. */
  const ShortIdLength: nat := 12

  /** Seconds the loop sleeps before re-creating its runtime client. */
  const ReconnectPauseSec: nat := 5

  /** What the runtime answered to a restart request. */
  datatype RestartOutcome = RestartOk | RestartFailed(err: string)

  /** What re-creating the runtime client after a stream error gave. */
  datatype ReconnectOutcome = Reconnected | ReconnectFailed(err: string)

  /** One health event from the runtime's stream, together with the two things
      the loop learns while handling it: the clock reading and the outcome of
      the restart request, should it issue one. */
  datatype Event = Event(
    action: string,
    actorId: Id,
    attributes: map<string, string>,
    now: nat,
    restart: RestartOutcome)

  /** One item taken off the two channels the loop selects over. */
  datatype Input =
    | Health(event: Event)
    | StreamError(err: string, reconnect: ReconnectOutcome)

  /** The lines the loop writes, as values. */
  datatype Message =
      /** "Unhealthy container detected: <name> (<shortId>)" */
    | UnhealthyDetected(name: string, shortId: string)
      /** "Failed to restart container <name>: <err>" */
    | RestartFailure(name: string, err: string)
      /** "Restarted: <name> (<shortId>)" */
    | RestartDone(name: string, shortId: string)
      /** "Error from Docker event stream: <err>" */
    | StreamFailure(err: string)
      /** "Attempting to re-establish connection..." */
    | Reconnecting
      /** "Successfully re-established connection to Docker daemon." */
    | ReconnectDone
      /** "Failed to re-create Docker client: <err>" */
    | ReconnectFailure(err: string)

  /** Everything the loop does to the outside world, in order. */
  datatype Effect =
    | Log(msg: Message)
    | Notify(msg: Message)
    | RestartRequest(id: Id, timeoutSec: int)
    | Pause(seconds: nat)
    | NewClient
    | SubscribeEvents
    | Fatal(msg: Message)
    | PanicSliceBounds(high: nat, length: nat)

  /** A message that goes both to the log and to the notifier. */
  function Announce(msg: Message): seq<Effect> {
    [Log(msg), Notify(msg)]
  }

  /** The `name` attribute, empty when the runtime did not send one. */
  function NameAttribute(attributes: map<string, string>): string {
    if "name" in attributes then attributes["name"] else ""
  }

  /** The container name shown in messages: the `name` attribute with at most
      one leading slash removed. */
  function DisplayName(attributes: map<string, string>): (name: string)
    ensures var raw := NameAttribute(attributes);
      && |raw| - 1 <= |name| <= |raw|
      && name == raw[|raw| - |name|..]
      && (|name| < |raw| <==> (|raw| > 0 && raw[0] == '/'))
  {
    var raw := NameAttribute(attributes);
    if |raw| > 0 && raw[0] == '/' then raw[1..] else raw
  }

  /** The abbreviated identity shown in messages; only defined for identities
      at least ShortIdLength characters long. */
  function ShortId(id: Id): (short: string)
    requires |id| >= ShortIdLength
    ensures |short| == ShortIdLength && short <= id
  {
    id[..ShortIdLength]
  }

  /** The identities of the restart requests in a trace, in order. */
  function RestartIds(trace: seq<Effect>): seq<Id> {
    if trace == [] then []
    else (if trace[0].RestartRequest? then [trace[0].id] else []) + RestartIds(trace[1..])
  }

  /** Number of notifications in a trace. */
  function NotifyCount(trace: seq<Effect>): nat {
    if trace == [] then 0
    else (if trace[0].Notify? then 1 else 0) + NotifyCount(trace[1..])
  }

  /** Number of event subscriptions requested in a trace. */
  function SubscribeCount(trace: seq<Effect>): nat {
    if trace == [] then 0
    else (if trace[0] == SubscribeEvents then 1 else 0) + SubscribeCount(trace[1..])
  }

  /** An effect that is neither a restart request, a notification nor a
      subscription. */
  predicate Quiet(x: Effect) {
    !x.RestartRequest? && !x.Notify? && x != SubscribeEvents
  }

  lemma {:induction false} QuietTrace(t: seq<Effect>)
    requires forall i :: 0 <= i < |t| ==> Quiet(t[i])
    ensures RestartIds(t) == [] && NotifyCount(t) == 0 && SubscribeCount(t) == 0
  {
    if t != [] {
      QuietTrace(t[1..]);
    }
  }

  lemma {:induction false} NoRestartRequests(t: seq<Effect>)
    requires forall i :: 0 <= i < |t| ==> !t[i].RestartRequest?
    ensures RestartIds(t) == []
  {
    if t != [] {
      NoRestartRequests(t[1..]);
    }
  }

  lemma {:induction false} RestartIdsConcat(a: seq<Effect>, b: seq<Effect>)
    ensures RestartIds(a + b) == RestartIds(a) + RestartIds(b)
  {
    if a != [] {
      assert (a + b)[0] == a[0] && (a + b)[1..] == a[1..] + b;
      RestartIdsConcat(a[1..], b);
    } else {
      assert a + b == b;
    }
  }

  lemma {:induction false} NotifyCountConcat(a: seq<Effect>, b: seq<Effect>)
    ensures NotifyCount(a + b) == NotifyCount(a) + NotifyCount(b)
  {
    if a != [] {
      assert (a + b)[0] == a[0] && (a + b)[1..] == a[1..] + b;
      NotifyCountConcat(a[1..], b);
    } else {
      assert a + b == b;
    }
  }

  lemma {:induction false} SubscribeCountConcat(a: seq<Effect>, b: seq<Effect>)
    ensures SubscribeCount(a + b) == SubscribeCount(a) + SubscribeCount(b)
  {
    if a != [] {
      assert (a + b)[0] == a[0] && (a + b)[1..] == a[1..] + b;
      SubscribeCountConcat(a[1..], b);
    } else {
      assert a + b == b;
    }
  }
}
