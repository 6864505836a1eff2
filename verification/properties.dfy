/** What the reaction rule guarantees over whole sequences of inputs: the
    cooldown spacing of restarts, that restart requests are exactly the
    granted events, that filtered events are invisible, that a reconnect is
    transparent, and three concrete scenarios: a 0 s / 10 s / 31 s run with a
    30 s cooldown, a healthy event, and an event after a reconnect. */
module Properties {
  import opened Events
  import opened Reaction

  lemma {:induction false} FoldSplit(turn: (Machine, Input) -> (Machine, seq<Effect>), m: Machine, xs: seq<Input>, ys: seq<Input>)
    ensures Fold(turn, m, xs + ys).0 == Fold(turn, Fold(turn, m, xs).0, ys).0
    ensures Fold(turn, m, xs + ys).1 == Fold(turn, m, xs).1 + Fold(turn, Fold(turn, m, xs).0, ys).1
    decreases |xs|
  {
    if xs == [] {
      assert xs + ys == ys;
    } else {
      assert (xs + ys)[0] == xs[0] && (xs + ys)[1..] == xs[1..] + ys;
      FoldSplit(turn, turn(m, xs[0]).0, xs[1..], ys);
    }
  }

  /** Running two sequences one after the other is running their concatenation. */
  lemma RunSplit(m: Machine, xs: seq<Input>, ys: seq<Input>, cfg: Config)
    ensures Run(m, xs + ys, cfg).0 == Run(Run(m, xs, cfg).0, ys, cfg).0
    ensures Run(m, xs + ys, cfg).1 == Run(m, xs, cfg).1 + Run(Run(m, xs, cfg).0, ys, cfg).1
  {
    FoldSplit(Turn(cfg), m, xs, ys);
  }

  /** Running a single input is one turn. */
  lemma RunOne(m: Machine, x: Input, cfg: Config)
    ensures Run(m, [x], cfg) == Step(m, x, cfg)
  {
    var first := Step(m, x, cfg);
    RunCons(m, [x], cfg);
    assert [x][1..] == [];
    assert Run(first.0, [], cfg) == (first.0, []);
    assert first.1 + [] == first.1;
  }

  /** Running a non-empty sequence is one turn followed by the rest. */
  lemma RunCons(m: Machine, xs: seq<Input>, cfg: Config)
    requires xs != []
    ensures var first := Step(m, xs[0], cfg);
      Run(m, xs, cfg) == (Run(first.0, xs[1..], cfg).0, first.1 + Run(first.0, xs[1..], cfg).1)
  {
  }

  lemma {:induction false} GrantIdsConcat(a: seq<Grant>, b: seq<Grant>)
    ensures GrantIds(a + b) == GrantIds(a) + GrantIds(b)
  {
    assert GrantIds(a + b) == GrantIds(a) + GrantIds(b) by {
      var l, r := GrantIds(a + b), GrantIds(a) + GrantIds(b);
      assert |l| == |r|;
      forall i | 0 <= i < |l| ensures l[i] == r[i] {
        if i < |a| { assert (a + b)[i] == a[i]; } else { assert (a + b)[i] == b[i - |a|]; }
      }
    }
  }

  /** The restart requests a run issues are, one for one and in order, the
      granted events it consumes: at most one request per permitted event,
      never a retry. */
  lemma {:induction false} RestartRequestsAreGrants(m: Machine, xs: seq<Input>, cfg: Config)
    ensures RestartIds(Run(m, xs, cfg).1) == GrantIds(Grants(m, xs, cfg))
    decreases |xs|
  {
    if xs != [] {
      var first := Step(m, xs[0], cfg);
      var g := GrantOf(m, xs[0], cfg);
      RestartRequestsAreGrants(first.0, xs[1..], cfg);
      RestartIdsConcat(first.1, Run(first.0, xs[1..], cfg).1);
      GrantIdsConcat(g, Grants(first.0, xs[1..], cfg));
    }
  }

  /** Any two restart requests for the same identity are at least the cooldown apart. */
  ghost predicate Spaced(gs: seq<Grant>, cooldownSec: int) {
    forall i, j :: 0 <= i < j < |gs| && gs[i].id == gs[j].id ==> gs[j].at - gs[i].at >= cooldownSec
  }

  /** Every granted identity has an entry no older than its grants. */
  ghost predicate Recorded(gs: seq<Grant>, lastRestart: map<Id, nat>) {
    forall i :: 0 <= i < |gs| ==> gs[i].id in lastRestart && gs[i].at <= lastRestart[gs[i].id]
  }

  lemma StepKeepsSpacing(m: Machine, gs: seq<Grant>, x: Input, cfg: Config)
    requires cfg.cooldownSec >= 0
    requires Spaced(gs, cfg.cooldownSec) && Recorded(gs, m.lastRestart)
    ensures Spaced(gs + GrantOf(m, x, cfg), cfg.cooldownSec)
    ensures Recorded(gs + GrantOf(m, x, cfg), Step(m, x, cfg).0.lastRestart)
  {
    var next := Step(m, x, cfg).0.lastRestart;
    if m.mode == Subscribed && x.Health? && Granted(m, x.event, cfg) {
      var e := x.event;
      assert next == m.lastRestart[e.actorId := e.now];
      // every earlier grant of this identity is at least a cooldown before now
      forall i | 0 <= i < |gs| && gs[i].id == e.actorId
        ensures e.now - gs[i].at >= cfg.cooldownSec
      {
        assert gs[i].at <= m.lastRestart[e.actorId];
      }
      assert Recorded(gs, next);
    } else {
      assert next == m.lastRestart;
    }
  }

  /** The grants of a non-empty run are those of its first turn followed by
      those of the rest. */
  lemma GrantsCons(m: Machine, xs: seq<Input>, cfg: Config)
    requires xs != []
    ensures Grants(m, xs, cfg) == GrantOf(m, xs[0], cfg) + Grants(Step(m, xs[0], cfg).0, xs[1..], cfg)
  {
  }

  lemma {:induction false} SpacingFrom(m: Machine, gs: seq<Grant>, xs: seq<Input>, cfg: Config)
    requires cfg.cooldownSec >= 0
    requires Spaced(gs, cfg.cooldownSec) && Recorded(gs, m.lastRestart)
    ensures Spaced(gs + Grants(m, xs, cfg), cfg.cooldownSec)
    decreases |xs|
  {
    if xs == [] {
      assert gs + Grants(m, xs, cfg) == gs;
    } else {
      var next := Step(m, xs[0], cfg).0;
      StepKeepsSpacing(m, gs, xs[0], cfg);
      SpacingFrom(next, gs + GrantOf(m, xs[0], cfg), xs[1..], cfg);
      GrantsCons(m, xs, cfg);
      assert gs + Grants(m, xs, cfg) == (gs + GrantOf(m, xs[0], cfg)) + Grants(next, xs[1..], cfg);
    }
  }

  /** The cooldown invariant: from startup, over any inputs, two restart
      requests for the same full identity are at least the cooldown apart. */
  lemma CooldownSpacing(xs: seq<Input>, cfg: Config)
    requires cfg.cooldownSec >= 0
    ensures var gs := Grants(Initial, xs, cfg);
      forall i, j :: 0 <= i < j < |gs| && gs[i].id == gs[j].id ==> gs[j].at - gs[i].at >= cfg.cooldownSec
  {
    SpacingFrom(Initial, [], xs, cfg);
    assert [] + Grants(Initial, xs, cfg) == Grants(Initial, xs, cfg);
  }

  /** An unhealthy event for an identity never restarted before is let
      through whatever its time and whatever the cooldown. */
  lemma FirstSightPermitted(m: Machine, e: Event, cfg: Config)
    requires m.mode == Subscribed && Actionable(e) && e.actorId !in m.lastRestart
    ensures Step(m, Health(e), cfg).0.lastRestart == m.lastRestart[e.actorId := e.now]
    ensures |e.actorId| >= ShortIdLength ==> RestartIds(Step(m, Health(e), cfg).1) == [e.actorId]
  {
    StepRestartIds(m, Health(e), cfg);
  }

  /** A second unhealthy event for the same identity inside the cooldown
      window leaves no trace: one request in all, and the record of the first. */
  lemma WithinCooldownSuppressed(m: Machine, first: Event, second: Event, cfg: Config)
    requires RequestsRestart(m, Health(first), cfg)
    requires Actionable(second) && second.actorId == first.actorId
    requires second.now - first.now < cfg.cooldownSec
    ensures Run(m, [Health(first), Health(second)], cfg) == Step(m, Health(first), cfg)
    ensures RestartIds(Run(m, [Health(first), Health(second)], cfg).1) == [first.actorId]
  {
    var xs := [Health(first), Health(second)];
    var m1 := Step(m, Health(first), cfg);
    assert m1.0.lastRestart == m.lastRestart[first.actorId := first.now];
    RunCons(m, xs, cfg);
    assert xs[1..] == [Health(second)];
    RunOne(m1.0, Health(second), cfg);
    assert Step(m1.0, Health(second), cfg) == (m1.0, []);
    assert m1.1 + [] == m1.1;
    StepRestartIds(m, Health(first), cfg);
  }

  /** The cooldown key is the full identity: two containers whose identities
      share their displayed 12-character prefix are let through one after
      the other. */
  lemma SharedPrefixIndependent(m: Machine, a: Event, b: Event, cfg: Config)
    requires RequestsRestart(m, Health(a), cfg)
    requires Actionable(b) && |b.actorId| >= ShortIdLength && b.actorId != a.actorId
    requires ShortId(a.actorId) == ShortId(b.actorId)
    requires Permits(m.lastRestart, b.actorId, b.now, cfg.cooldownSec)
    ensures RestartIds(Run(m, [Health(a), Health(b)], cfg).1) == [a.actorId, b.actorId]
  {
    var xs := [Health(a), Health(b)];
    var m1 := Step(m, Health(a), cfg);
    assert m1.0.lastRestart == m.lastRestart[a.actorId := a.now];
    RunCons(m, xs, cfg);
    assert xs[1..] == [Health(b)];
    RunOne(m1.0, Health(b), cfg);
    assert RequestsRestart(m1.0, Health(b), cfg);
    var m2 := Step(m1.0, Health(b), cfg);
    StepRestartIds(m, Health(a), cfg);
    StepRestartIds(m1.0, Health(b), cfg);
    RestartIdsConcat(m1.1, m2.1);
  }

  /** Events with any other action change nothing and emit nothing, however
      many of them arrive. */
  lemma {:induction false} FilteredInputsInvisible(m: Machine, xs: seq<Input>, cfg: Config)
    requires forall i :: 0 <= i < |xs| ==> xs[i].Health? && !Actionable(xs[i].event)
    ensures Run(m, xs, cfg) == (m, [])
    decreases |xs|
  {
    if xs != [] {
      assert Step(m, xs[0], cfg) == (m, []);
      FilteredInputsInvisible(m, xs[1..], cfg);
      RunCons(m, xs, cfg);
      assert Step(m, xs[0], cfg).1 + Run(m, xs[1..], cfg).1 == [];
    }
  }

  /** A stream error followed by a successful reconnect keeps the cooldown
      record, so everything after it behaves exactly as without the error;
      only the reconnect's own log lines, pause and resubscription come first. */
  lemma ReconnectTransparent(m: Machine, err: string, xs: seq<Input>, cfg: Config)
    requires m.mode == Subscribed
    ensures var after := Run(m, xs, cfg);
      Run(m, [StreamError(err, Reconnected)] + xs, cfg)
        == (after.0, OnStreamError(m, err, Reconnected).1 + after.1)
  {
    var ys := [StreamError(err, Reconnected)] + xs;
    assert ys[0] == StreamError(err, Reconnected) && ys[1..] == xs;
    assert Step(m, ys[0], cfg).0 == m;
  }

  /** A failed reconnect stops the loop for good: the record is kept, the
      fatal message is the last effect and nothing after it is consumed. */
  lemma FailedReconnectStops(m: Machine, err: string, newErr: string, xs: seq<Input>, cfg: Config)
    requires m.mode == Subscribed
    ensures Run(m, [StreamError(err, ReconnectFailed(newErr))] + xs, cfg)
      == (Machine(m.lastRestart, Stopped(FatalExit)), OnStreamError(m, err, ReconnectFailed(newErr)).1)
  {
    var ys := [StreamError(err, ReconnectFailed(newErr))] + xs;
    assert ys[0] == StreamError(err, ReconnectFailed(newErr)) && ys[1..] == xs;
    var first := Step(m, ys[0], cfg);
    assert first.0 == Machine(m.lastRestart, Stopped(FatalExit));
    assert Run(first.0, xs, cfg) == (first.0, []);
    assert first.1 + [] == first.1;
  }

  /** Identity `abc123…` turns unhealthy at 0 s, 10 s and 31 s with a 30 s
      cooldown: restarted at 0 s, suppressed at 10 s, restarted at 31 s. */
  lemma CooldownScenario()
    ensures var id := "abc123def456789";
      var cfg := Config(30, 10);
      var e := (t: nat) => Health(Event(UnhealthyAction, id, map["name" := "/web"], t, RestartOk));
      var xs := [e(0), e(10), e(31)];
      && Grants(Initial, xs, cfg) == [Grant(id, 0), Grant(id, 31)]
      && RestartIds(Run(Initial, xs, cfg).1) == [id, id]
  {
    var id := "abc123def456789";
    var cfg := Config(30, 10);
    var e := (t: nat) => Health(Event(UnhealthyAction, id, map["name" := "/web"], t, RestartOk));
    var xs := [e(0), e(10), e(31)];
    // 0 s: first sight, restarted
    var m1 := Step(Initial, e(0), cfg).0;
    assert GrantOf(Initial, e(0), cfg) == [Grant(id, 0)];
    assert m1 == Machine(map[id := 0], Subscribed);
    // 10 s: 10 - 0 < 30, suppressed
    assert GrantOf(m1, e(10), cfg) == [];
    assert Step(m1, e(10), cfg).0 == m1;
    // 31 s: 31 - 0 >= 30, restarted
    assert GrantOf(m1, e(31), cfg) == [Grant(id, 31)];
    var m3 := Step(m1, e(31), cfg).0;
    assert xs[1..] == [e(10), e(31)] && xs[1..][1..] == [e(31)] && xs[1..][1..][1..] == [];
    GrantsCons(m1, [e(31)], cfg);
    assert Grants(m3, [], cfg) == [];
    GrantsCons(m1, xs[1..], cfg);
    GrantsCons(Initial, xs, cfg);
    RestartRequestsAreGrants(Initial, xs, cfg);
  }

  /** Identity `xyz999…` reports "health_status: healthy": no restart, no
      log line, no notification, nothing recorded. */
  lemma HealthyScenario(m: Machine, cfg: Config)
    ensures var e := Event("health_status: healthy", "xyz999000111222", map["name" := "/db"], 5, RestartOk);
      Run(m, [Health(e)], cfg) == (m, [])
  {
    var e := Event("health_status: healthy", "xyz999000111222", map["name" := "/db"], 5, RestartOk);
    FilteredInputsInvisible(m, [Health(e)], cfg);
  }

  /** After a stream error and a successful resubscription, an unhealthy
      event is still acted on. */
  lemma ReconnectScenario()
    ensures var id := "abc123def456789";
      var e := Event(UnhealthyAction, id, map["name" := "web"], 40, RestartFailed("timeout"));
      var r := Run(Initial, [StreamError("unexpected EOF", Reconnected), Health(e)], Config(30, 10));
      && r.0 == Machine(map[id := 40], Subscribed)
      && RestartIds(r.1) == [id]
  {
    var id := "abc123def456789";
    var e := Event(UnhealthyAction, id, map["name" := "web"], 40, RestartFailed("timeout"));
    var cfg := Config(30, 10);
    var xs := [StreamError("unexpected EOF", Reconnected), Health(e)];
    var reconnect := OnStreamError(Initial, "unexpected EOF", Reconnected);
    ReconnectTransparent(Initial, "unexpected EOF", [Health(e)], cfg);
    assert [StreamError("unexpected EOF", Reconnected)] + [Health(e)] == xs;
    RunOne(Initial, Health(e), cfg);
    var after := Step(Initial, Health(e), cfg);
    assert RequestsRestart(Initial, Health(e), cfg);
    assert after.0 == Machine(map[id := 40], Subscribed);
    StepRestartIds(Initial, Health(e), cfg);
    RestartIdsConcat(reconnect.1, after.1);
  }
}
