# docker-watchdog: the reaction rule of the watch loop

docker-watchdog is a daemon that subscribes to the Docker daemon's container
`health_status` events and restarts every container that reports
`health_status: unhealthy`. It keeps a per-container cooldown so that a
container is not restarted again within `-cooldown` seconds. When the event
stream fails, it pauses five seconds, re-creates its Docker client once and
resubscribes. If re-creating the client fails, it exits.

This project models the core of `main` in `main.go`: the body of its endless
`for`/`select` loop. That core is the event case (filter, cooldown
check-then-write, restart, reports) and the error case (report, pause,
reconnect or exit). Both are modelled together with the `lastRestart` map that
the loop owns.

- `events.dfy` (module `Events`) holds the inputs the loop consumes. An
  `Event` carries its action, the full actor ID, the attribute map, the clock
  reading and the outcome of the restart request. A `StreamError` carries the
  error and the reconnect outcome. The module also holds the `Effect`s the loop
  produces (log lines, notifications, restart requests, the pause, client
  re-creation, resubscription, the fatal exit and the slice panic). It also
  defines the two display helpers: the name with one leading `/` trimmed, and
  the 12-character short ID.
- `reaction.dfy` (module `Reaction`) is the reaction rule as a pure state
  machine. The state is the cooldown record plus the mode (`Subscribed` or
  `Stopped`). `OnEvent`, `OnStreamError` and `Step` handle one input. `Run`
  folds `Step` over a sequence of inputs. `Grants` lists the restart requests
  a run issues, with their times.
- `properties.dfy` (module `Properties`) proves what holds over whole runs:
  restart requests are at least the cooldown apart, requests correspond
  one-for-one with granted events, filtered events are invisible, a reconnect
  is transparent and a failed reconnect is final. It also proves the concrete
  scenarios: 0 s / 10 s / 31 s with a 30 s cooldown, a healthy event, and an
  event after a reconnect.
- `watchdog.dfy` (module `WatchLoop`) is the loop as the program runs it. The
  class `Watchdog` has the `lastRestart` map and the mode as fields, which its
  methods update in place. `HandleEvent` and `HandleError` are the two
  `select` cases, and `Watch` is the loop. Each method is proved to compute
  exactly what the pure machine specifies.

Inputs from the outside world are parameters:
- the clock reading of each event (whole seconds);
- whether `ContainerRestart` succeeded;
- whether `NewClientWithOpts` succeeded on reconnect.

The `-cooldown` and `-timeout` settings form a `Config`. A container that
has no entry in the map counts as never restarted. It is therefore always let
through. This matches Go's zero `time.Time`, for which `time.Since` saturates
to the largest duration.

Three points where the model keeps the code's behaviour as written:

- After a stream error, only the re-creation of the client is checked
  (`main.go:101-104`). The new `cli.Events` subscription cannot fail at that
  point: its errors arrive later on the new error channel, as another stream
  error. So the model makes `NewClient` the single fallible step, and
  `SubscribeEvents` always follows its success.
- An actor ID shorter than 12 characters (bytes in Go; see below) makes `event.Actor.ID[:12]` panic
  (`main.go:79`). This happens after the cooldown entry has already been
  written (`main.go:76`). The model keeps that order: the map is updated, the
  trace is a single `PanicSliceBounds` effect, and the loop is `Stopped`.
- The "Restarted" report is emitted after every permitted restart, including a
  failed one (`main.go:93-95`).

## Model

| member | source | states |
|---|---|---|
| `Events.DisplayName` | main.go:78 | the display name is the `name` attribute (empty when absent) with exactly one character removed when it starts with `/` and none otherwise; the result is a suffix of the attribute |
| `Events.ShortId` | main.go:79 | the display ID is a prefix of the full ID, exactly 12 characters long; only defined for IDs of at least 12 characters |
| `Reaction.PermittedEffects` | main.go:78-95 | a restart emits exactly one restart request. Before it come the "Unhealthy container detected" log and notification. A failed restart adds the "Failed to restart" log and notification. The "Restarted" log and notification always come last. The trace has 5 effects, or 7 when the restart failed. |
| `Reaction.OnEvent` | main.go:67-95 | a non-unhealthy action, and an unhealthy event inside the cooldown, leave the state unchanged and emit nothing. A granted event sets exactly the entry for the full ID to `now` and leaves every other entry unchanged. It then emits `PermittedEffects`. With an ID shorter than 12 characters, it panics after the map update. |
| `Reaction.OnStreamError` | main.go:97-107 | the cooldown map is kept unchanged across the error. The effects are, in this order: the stream-error log, the reconnecting log, the 5 s pause and exactly one client re-creation. On success these are followed by the re-established log and one resubscription. On failure the fatal message comes last instead. The mode is `Subscribed` after a success and `Stopped(FatalExit)` after a failure. No restart request and no notification are emitted. |
| `Reaction.ReconnectSubscribesOnce` | main.go:101-107 | a stream error leads to exactly one resubscription after a successful client re-creation and to none after a failed one |
| `Reaction.Step` | main.go:65-108 | a stopped loop consumes nothing and emits nothing |
| `Reaction.StepFrame` | main.go:73-76 | one turn never removes a cooldown entry and changes no entry except the event's own: the map is either left as it was or has exactly the event's entry set to the event's time, so no entry for another ID is added either |
| `Reaction.StepRestartIds` | main.go:67-91 | one turn issues exactly one restart request, for the event's full ID, when the event is unhealthy, passes the cooldown and has a displayable ID, and none otherwise |
| `Reaction.Run` | main.go:62-108 | over any input sequence: once stopped, nothing more happens; cooldown entries are never removed |
| `Properties.RunSplit` | main.go:65-108 | running two input sequences one after the other gives the state and the concatenated trace of running their concatenation |
| `Properties.RestartRequestsAreGrants` | main.go:73-91 | the restart requests in a run's trace are, in order, exactly the granted events of the run (at-most-once, no retry) |
| `Properties.StepKeepsSpacing` | main.go:73-76 | one turn keeps the invariant "grants of one ID are at least the cooldown apart, and the map holds a time no older than each of them" |
| `Properties.CooldownSpacing` | main.go:62-76 | from startup, over any inputs, any two restart requests for the same full ID are at least the cooldown apart in the loop's clock readings |
| `Properties.FirstSightPermitted` | main.go:73 | an unhealthy event for an ID with no map entry is let through whatever its time and the cooldown; the entry is set to its time and one restart is requested |
| `Properties.WithinCooldownSuppressed` | main.go:73-75 | an unhealthy event for the same ID less than the cooldown after a restart leaves no trace: the run ends in the state of the first restart, with one restart request |
| `Properties.SharedPrefixIndependent` | main.go:73-79 | two different IDs with the same 12-character display ID have independent cooldowns: both are restarted, one after the other |
| `Properties.FilteredInputsInvisible` | main.go:68-70 | any number of events with another action leave the state unchanged and emit nothing |
| `Properties.ReconnectTransparent` | main.go:97-107 | after a stream error with a successful reconnect, the rest of the run behaves exactly as it would without the error; only the reconnect's own effects come first |
| `Properties.FailedReconnectStops` | main.go:101-104 | a failed reconnect keeps the map, ends the trace with the fatal message and consumes nothing after it |
| `Properties.CooldownScenario` | main.go:72-76 | ID `abc123…` with cooldown 30: the events at 0 s and 31 s are restarted, the one at 10 s is suppressed |
| `Properties.HealthyScenario` | main.go:68-70 | an event with action `health_status: healthy` leaves any state unchanged and emits nothing |
| `Properties.ReconnectScenario` | main.go:97-107 | after a stream error and a successful reconnect, an unhealthy event is still restarted and recorded |
| `WatchLoop.Watchdog.constructor` | main.go:59-62 | the loop starts subscribed with an empty `lastRestart` map and the given settings |
| `WatchLoop.Watchdog.HandleEvent` | main.go:67-95 | updates `lastRestart` in place: only a granted event writes, and it writes its own ID's entry with `now`. The returned effects and the new mode are exactly those of `Reaction.OnEvent`. |
| `WatchLoop.Watchdog.HandleError` | main.go:97-107 | leaves `lastRestart` unchanged; effects and new mode are exactly those of `Reaction.OnStreamError` |
| `WatchLoop.Watchdog.Watch` | main.go:65-108 | the loop over the arriving inputs stops when they run out or the process exits. The final fields and the whole trace are exactly those of `Reaction.Run`. |

## Left out

- Startup is not modelled: flag parsing, the first `NewClientWithOpts` and its fatal failure, the "Successfully connected" log and notification, and the first `cli.Events` call (`main.go:33-59`). The model starts in the subscribed state with an empty map.
- The Docker client calls (`ContainerRestart`, `NewClientWithOpts`) are foreign calls. Their outcomes are inputs, and the restart timeout is only passed through in the `RestartRequest` effect.
- Notifications run the `apprise` subprocess (`main.go:24-30`). Each one is modelled only as a `Notify(message)` effect. The fixed title "Docker Watchdog" and the logging of a failed notification are not modelled.
- The `log` package's timestamps and formatting are not modelled, nor the use of the message as a format string. The process exit by `log.Fatalf` and the runtime panic become the terminal `Stopped` mode.
- The `select` over two channels and `time.Sleep` are not modelled: inputs are one interleaved sequence, and the sleep is a `Pause(5)` effect.
- Time is whole seconds, given per event. The source reads the clock twice for an event (`time.Since` at line 73, `time.Now` at line 76). The model uses one reading for both. Monotonic clocks, nanosecond overflow of `cooldownSec*time.Second` and the exact saturation of `time.Since` are not modelled. A missing entry is "always permitted".
- Properties.CooldownSpacing, Properties.StepKeepsSpacing, Properties.SpacingFrom: proved only for a non-negative cooldown. A negative `-cooldown` lets every unhealthy event through in the source. With such a cooldown and clock readings that go backwards, the pairwise spacing does not chain.
- Container IDs and names are sequences of characters, while Go's `len` and `[:12]` count bytes. So the 12-character short ID and the "shorter than 12" panic condition of `main.go:79` agree with the source only for single-byte characters. An ID of seven 2-byte characters panics in the model but not in Go. The runtime assigns 64-hex-digit IDs, on which the two agree.
- Abandoning the old client and channels on reconnect is not modelled, because the model has no resources to release.
