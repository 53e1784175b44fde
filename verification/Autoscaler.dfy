/** WarmPoolAutoscaler: one tick, and what every run of ticks guarantees.  Times and loads are exact reals. */
module Autoscaler {
  import opened Wrappers

  type EngineId = nat

  datatype Lifecycle = STANDBY | ACTIVE | DRAINING

  datatype Observation = Observation(running: int, waiting: int, owners: int) {
    function Requests(): int { running + waiting }
  }

  datatype ScalingAction =
    | ScaleInComplete(engine: EngineId)
    | ScaleOut(engine: EngineId)
    | ScaleInStart(engine: EngineId)

  datatype Config = Config(
    engines: seq<EngineId>, minActive: int, scaleOutWaiting: int, scaleOutRequests: real, scaleInRequests: real,
    scaleOutWindows: int, scaleInWindows: int, cooldown: real)
  {
    predicate Accepted() { 1 <= minActive <= |engines| && scaleOutWindows > 0 && scaleInWindows > 0 }

    /** An accepted configuration of distinct engines. */
    ghost predicate Valid() {
      && Accepted()
      && forall i, j :: 0 <= i < j < |engines| ==> engines[i] != engines[j]
    }
  }

  /** `lastAction` is None before the first scaling action. */
  datatype Pool = Pool(states: map<EngineId, Lifecycle>, outStreak: int, inStreak: int, lastAction: Option<real>)

  datatype Input = Input(now: real, seen: map<EngineId, Observation>)

  datatype Ticked = Ticked(pool: Pool, actions: seq<ScalingAction>)

  predicate Covers(states: map<EngineId, Lifecycle>, engines: seq<EngineId>) {
    forall e :: e in engines ==> e in states
  }

  predicate Sees(seen: map<EngineId, Observation>, engines: seq<EngineId>) {
    forall e :: e in engines ==> e in seen
  }

  /** The engines in a given state, in configuration order. */
  function InState(engines: seq<EngineId>, states: map<EngineId, Lifecycle>, s: Lifecycle): (r: seq<EngineId>)
    requires Covers(states, engines)
    ensures forall e :: e in r <==> e in engines && states[e] == s
  {
    if engines == [] then []
    else
      var before := InState(engines[..|engines|-1], states, s);
      assert engines == engines[..|engines|-1] + [engines[|engines|-1]];
      if states[engines[|engines|-1]] == s then before + [engines[|engines|-1]] else before
  }

  function TotalWaiting(engines: seq<EngineId>, seen: map<EngineId, Observation>): int
    requires Sees(seen, engines)
  {
    if engines == [] then 0 else TotalWaiting(engines[..|engines|-1], seen) + seen[engines[|engines|-1]].waiting
  }

  function TotalRequests(engines: seq<EngineId>, seen: map<EngineId, Observation>): int
    requires Sees(seen, engines)
  {
    if engines == [] then 0 else TotalRequests(engines[..|engines|-1], seen) + seen[engines[|engines|-1]].Requests()
  }

  function RequestsPerEngine(active: seq<EngineId>, seen: map<EngineId, Observation>): real
    requires Sees(seen, active)
  {
    TotalRequests(active, seen) as real / (if |active| > 1 then |active| else 1) as real
  }

  predicate EmptyDrain(o: Observation) { o.owners == 0 && o.Requests() == 0 }

  /** Draining engines seen empty go back to standby. */
  function Drained(engines: seq<EngineId>, states: map<EngineId, Lifecycle>, seen: map<EngineId, Observation>)
    : map<EngineId, Lifecycle>
    requires Covers(states, engines) && Sees(seen, engines)
  {
    map e | e in states ::
      if e in engines && states[e] == DRAINING && EmptyDrain(seen[e]) then STANDBY else states[e]
  }

  function Completions(draining: seq<EngineId>, seen: map<EngineId, Observation>): seq<ScalingAction>
    requires Sees(seen, draining)
  {
    if draining == [] then []
    else
      var before := Completions(draining[..|draining|-1], seen);
      if EmptyDrain(seen[draining[|draining|-1]]) then before + [ScaleInComplete(draining[|draining|-1])] else before
  }

  lemma NoCompletions(seen: map<EngineId, Observation>)
    ensures Completions([], seen) == []
  {
  }

  lemma CompletionsStep(draining: seq<EngineId>, i: nat, seen: map<EngineId, Observation>)
    requires i < |draining| && Sees(seen, draining)
    ensures Completions(draining[..i+1], seen)
            == Completions(draining[..i], seen)
               + if EmptyDrain(seen[draining[i]]) then [ScaleInComplete(draining[i])] else []
  {
    assert draining[..i+1][..i] == draining[..i];
  }

  predicate AtMost(x: Observation, y: Observation) {
    x.owners < y.owners || (x.owners == y.owners && x.Requests() <= y.Requests())
  }

  /** The engine to drain: fewest owners, then fewest requests, then last configured. */
  function Lightest(active: seq<EngineId>, seen: map<EngineId, Observation>): (e: EngineId)
    requires active != [] && Sees(seen, active)
    ensures e in active
    ensures forall x :: x in active ==>
              || seen[e].owners < seen[x].owners
              || (seen[e].owners == seen[x].owners
                  && seen[e].running + seen[e].waiting <= seen[x].running + seen[x].waiting)
    ensures exists i :: 0 <= i < |active| && active[i] == e
                        && forall j :: i < j < |active| ==>
                             || seen[e].owners < seen[active[j]].owners
                             || (seen[e].owners == seen[active[j]].owners
                                 && seen[e].running + seen[e].waiting
                                    < seen[active[j]].running + seen[active[j]].waiting)
  {
    var last := active[|active|-1];
    if |active| == 1 then last
    else
      var best := Lightest(active[..|active|-1], seen);
      assert active == active[..|active|-1] + [last];
      if AtMost(seen[last], seen[best]) then last else best
  }

  predicate WantsScaleOut(c: Config, active: seq<EngineId>, seen: map<EngineId, Observation>)
    requires Sees(seen, active)
  {
    TotalWaiting(active, seen) >= c.scaleOutWaiting || RequestsPerEngine(active, seen) >= c.scaleOutRequests
  }

  predicate WantsScaleIn(c: Config, active: seq<EngineId>, seen: map<EngineId, Observation>)
    requires Sees(seen, active)
  {
    TotalWaiting(active, seen) == 0 && RequestsPerEngine(active, seen) <= c.scaleInRequests
  }

  predicate CooldownOver(c: Config, last: Option<real>, now: real) {
    last.None? || now - last.value >= c.cooldown
  }

  /** A tick whose observations cover every engine. */
  function Tick(c: Config, p: Pool, input: Input): Ticked
    requires Covers(p.states, c.engines) && Sees(input.seen, c.engines)
  {
    var states := Drained(c.engines, p.states, input.seen);
    var done := Completions(InState(c.engines, p.states, DRAINING), input.seen);
    var active := InState(c.engines, states, ACTIVE);
    var standby := InState(c.engines, states, STANDBY);
    var outStreak := if WantsScaleOut(c, active, input.seen) then p.outStreak + 1 else 0;
    var inStreak := if WantsScaleIn(c, active, input.seen) then p.inStreak + 1 else 0;
    var ready := CooldownOver(c, p.lastAction, input.now);
    if ready && standby != [] && outStreak >= c.scaleOutWindows then
      Ticked(Pool(states[standby[0] := ACTIVE], 0, 0, Some(input.now)), done + [ScaleOut(standby[0])])
    else if && ready && |active| > c.minActive && InState(c.engines, states, DRAINING) == []
            && inStreak >= c.scaleInWindows && active != [] then
      var e := Lightest(active, input.seen);
      Ticked(Pool(states[e := DRAINING], 0, 0, Some(input.now)), done + [ScaleInStart(e)])
    else Ticked(Pool(states, outStreak, inStreak, p.lastAction), done)
  }

  /** Missing observations raise before anything changes. */
  function TickOrRaise(c: Config, p: Pool, input: Input): Ticked
    requires Covers(p.states, c.engines)
  {
    if Sees(input.seen, c.engines) then Tick(c, p, input) else Ticked(p, [])
  }

  function InitialStates(engines: seq<EngineId>, minActive: int): (r: map<EngineId, Lifecycle>)
    ensures Covers(r, engines)
  {
    if engines == [] then map[]
    else
      var n := |engines| - 1;
      assert engines == engines[..n] + [engines[n]];
      InitialStates(engines[..n], minActive)[engines[n] := if n < minActive then ACTIVE else STANDBY]
  }

  class WarmPoolAutoscaler {
    const config: Config
    var states: map<EngineId, Lifecycle>
    var outStreak: int
    var inStreak: int
    var lastAction: Option<real>

    function View(): Pool
      reads this
    {
      Pool(states, outStreak, inStreak, lastAction)
    }

    constructor (config: Config)
      ensures this.config == config && View() == Pool(InitialStates(config.engines, config.minActive), 0, 0, None)
    {
      this.config := config;
      states := InitialStates(config.engines, config.minActive);
      outStreak, inStreak, lastAction := 0, 0, None;
    }

    /** None for a configuration that is not accepted. */
    static method Create(config: Config) returns (r: Option<WarmPoolAutoscaler>)
      ensures r.Some? <==> config.Accepted()
      ensures r.Some? ==> fresh(r.value) && r.value.config == config
                          && r.value.View() == Pool(InitialStates(config.engines, config.minActive), 0, 0, None)
    {
      if config.Accepted() {
        var pool := new WarmPoolAutoscaler(config);
        return Some(pool);
      }
      r := None;
    }

    /** Returns every draining engine seen empty to standby. */
    method FinishDrains(seen: map<EngineId, Observation>) returns (done: seq<ScalingAction>)
      requires Covers(states, config.engines) && Sees(seen, config.engines)
      modifies this`states
      ensures states == Drained(config.engines, old(states), seen)
      ensures done == Completions(InState(config.engines, old(states), DRAINING), seen)
    {
      hide InState, Completions, EmptyDrain;
      var draining := InState(config.engines, states, DRAINING);
      done := [];
      NoCompletions(seen);
      for i := 0 to |draining|
        invariant states == map e | e in old(states) ::
                              if e in draining[..i] && EmptyDrain(seen[e]) then STANDBY else old(states)[e]
        invariant done == Completions(draining[..i], seen)
      {
        assert draining[..i+1] == draining[..i] + [draining[i]];
        CompletionsStep(draining, i, seen);
        if EmptyDrain(seen[draining[i]]) {
          states := states[draining[i] := STANDBY];
          done := done + [ScaleInComplete(draining[i])];
        }
      }
      assert draining[..|draining|] == draining;
    }

    method Step(input: Input) returns (actions: Option<seq<ScalingAction>>)
      requires Covers(states, config.engines)
      modifies this
      ensures actions.Some? <==> Sees(input.seen, config.engines)
      ensures View() == TickOrRaise(config, old(View()), input).pool
      ensures actions.Some? ==> actions.value == TickOrRaise(config, old(View()), input).actions
      ensures Covers(states, config.engines)
    {
      hide InState, Completions, Lightest, WantsScaleOut, WantsScaleIn, CooldownOver;
      if !Sees(input.seen, config.engines) {
        return None;
      }
      var engines := config.engines;
      var done := FinishDrains(input.seen);
      hide Drained;
      var active := InState(engines, states, ACTIVE);
      outStreak := if WantsScaleOut(config, active, input.seen) then outStreak + 1 else 0;
      inStreak := if WantsScaleIn(config, active, input.seen) then inStreak + 1 else 0;
      var ready := CooldownOver(config, lastAction, input.now);
      var standby := InState(engines, states, STANDBY);
      if ready && standby != [] && outStreak >= config.scaleOutWindows {
        var e := standby[0];
        states := states[e := ACTIVE];
        lastAction := Some(input.now);
        outStreak, inStreak := 0, 0;
        return Some(done + [ScaleOut(e)]);
      }
      var canDrain := |active| > config.minActive && InState(engines, states, DRAINING) == [];
      if ready && canDrain && inStreak >= config.scaleInWindows && active != [] {
        var e := Lightest(active, input.seen);
        states := states[e := DRAINING];
        lastAction := Some(input.now);
        outStreak, inStreak := 0, 0;
        done := done + [ScaleInStart(e)];
      }
      actions := Some(done);
    }
  }

  // ---- runs ----

  /** The pool after a sequence of ticks. */
  function After(c: Config, inputs: seq<Input>): (p: Pool)
    ensures Covers(p.states, c.engines)
  {
    if inputs == [] then Pool(InitialStates(c.engines, c.minActive), 0, 0, None)
    else TickOrRaise(c, After(c, inputs[..|inputs|-1]), inputs[|inputs|-1]).pool
  }

  /** What the i-th tick of a run reported. */
  function ActionsAt(c: Config, inputs: seq<Input>, i: nat): seq<ScalingAction>
    requires i < |inputs|
  {
    TickOrRaise(c, After(c, inputs[..i]), inputs[i]).actions
  }

  lemma AfterNext(c: Config, inputs: seq<Input>, i: nat)
    requires i < |inputs|
    ensures After(c, inputs[..i+1]) == TickOrRaise(c, After(c, inputs[..i]), inputs[i]).pool
  {
    assert inputs[..i+1][..i] == inputs[..i];
  }

  predicate IsScaleOut(a: ScalingAction) { a.ScaleOut? }

  predicate IsScaleInStart(a: ScalingAction) { a.ScaleInStart? }

  ghost predicate StartsDrain(actions: seq<ScalingAction>) { exists a :: a in actions && IsScaleInStart(a) }

  ghost predicate AddsEngine(actions: seq<ScalingAction>) { exists a :: a in actions && IsScaleOut(a) }

  ghost predicate Scales(actions: seq<ScalingAction>) { StartsDrain(actions) || AddsEngine(actions) }

  lemma {:induction false} CompletionsNeverScale(draining: seq<EngineId>, seen: map<EngineId, Observation>)
    requires Sees(seen, draining)
    ensures !Scales(Completions(draining, seen))
  {
    if draining != [] {
      CompletionsNeverScale(draining[..|draining|-1], seen);
    }
  }

  // ---- counting engines by state ----

  function CountIn(engines: seq<EngineId>, states: map<EngineId, Lifecycle>, s: Lifecycle): nat
    requires Covers(states, engines)
  {
    |InState(engines, states, s)|
  }

  lemma {:induction false} CountUnchanged(engines: seq<EngineId>, states: map<EngineId, Lifecycle>,
                                          states': map<EngineId, Lifecycle>, s: Lifecycle)
    requires Covers(states, engines) && Covers(states', engines)
    requires forall e :: e in engines && states'[e] == s ==> states[e] == s
    ensures CountIn(engines, states', s) <= CountIn(engines, states, s)
    ensures (forall e :: e in engines && states[e] == s ==> states'[e] == s) ==>
              InState(engines, states', s) == InState(engines, states, s)
  {
    if engines != [] {
      CountUnchanged(engines[..|engines|-1], states, states', s);
    }
  }

  lemma {:induction false} CountUpdate(engines: seq<EngineId>, states: map<EngineId, Lifecycle>, e: EngineId,
                                       t: Lifecycle, s: Lifecycle)
    requires Covers(states, engines) && e in states
    requires forall i, j :: 0 <= i < j < |engines| ==> engines[i] != engines[j]
    ensures CountIn(engines, states[e := t], s)
            == CountIn(engines, states, s) + (if e in engines && t == s then 1 else 0)
               - (if e in engines && states[e] == s then 1 else 0)
  {
    if engines != [] {
      var n := |engines| - 1;
      CountUpdate(engines[..n], states, e, t, s);
      assert engines == engines[..n] + [engines[n]];
    }
  }

  lemma {:induction false} InitialCount(engines: seq<EngineId>, minActive: int, k: nat)
    requires k <= |engines| && forall i, j :: 0 <= i < j < |engines| ==> engines[i] != engines[j]
    ensures CountIn(engines[..k], InitialStates(engines[..k], minActive), ACTIVE)
            == (if k <= minActive then k else if minActive < 0 then 0 else minActive)
    ensures CountIn(engines[..k], InitialStates(engines[..k], minActive), DRAINING) == 0
  {
    if k > 0 {
      InitialCount(engines, minActive, k - 1);
      var front := engines[..k-1];
      var states, states' := InitialStates(front, minActive), InitialStates(engines[..k], minActive);
      assert engines[..k][..k-1] == front;
      assert engines[k-1] !in front;
      CountUnchanged(front, states, states', ACTIVE);
      CountUnchanged(front, states', states, ACTIVE);
      CountUnchanged(front, states, states', DRAINING);
    }
  }

  /** Enough engines serve, at most one drains. */
  ghost predicate PoolOk(c: Config, p: Pool) {
    && Covers(p.states, c.engines)
    && CountIn(c.engines, p.states, ACTIVE) >= c.minActive
    && CountIn(c.engines, p.states, DRAINING) <= 1
  }

  lemma DrainedCounts(c: Config, p: Pool, seen: map<EngineId, Observation>)
    requires Covers(p.states, c.engines) && Sees(seen, c.engines)
    ensures var states := Drained(c.engines, p.states, seen);
            && Covers(states, c.engines)
            && InState(c.engines, states, ACTIVE) == InState(c.engines, p.states, ACTIVE)
            && CountIn(c.engines, states, DRAINING) <= CountIn(c.engines, p.states, DRAINING)
  {
    var states := Drained(c.engines, p.states, seen);
    CountUnchanged(c.engines, p.states, states, ACTIVE);
    CountUnchanged(c.engines, p.states, states, DRAINING);
  }

  /** A tick changes at most one engine beyond the finished drains, and only these ways. */
  lemma TickChoices(c: Config, p: Pool, input: Input)
    requires Covers(p.states, c.engines) && Sees(input.seen, c.engines)
    ensures var states, q := Drained(c.engines, p.states, input.seen), Tick(c, p, input);
            var done := Completions(InState(c.engines, p.states, DRAINING), input.seen);
            || (q.actions == done && q.pool.states == states)
            || (exists e :: e in InState(c.engines, states, STANDBY) && q.actions == done + [ScaleOut(e)]
                            && q.pool.states == states[e := ACTIVE])
            || (exists e :: e in InState(c.engines, states, ACTIVE) && q.actions == done + [ScaleInStart(e)]
                            && q.pool.states == states[e := DRAINING]
                            && CountIn(c.engines, states, ACTIVE) > c.minActive
                            && CountIn(c.engines, states, DRAINING) == 0)
  {
    hide Drained, WantsScaleOut, WantsScaleIn, Completions, InState, CooldownOver, Lightest;
  }

  /** What a tick may do to the states left by the finished drains. */
  ghost predicate PoolMove(c: Config, states: map<EngineId, Lifecycle>, states': map<EngineId, Lifecycle>, e: EngineId,
                           t: Lifecycle)
    requires Covers(states, c.engines)
  {
    && e in c.engines && states' == states[e := t]
    && (|| (t == ACTIVE && states[e] == STANDBY)
        || (t == DRAINING && states[e] == ACTIVE && CountIn(c.engines, states, ACTIVE) > c.minActive
            && CountIn(c.engines, states, DRAINING) == 0))
  }

  lemma TickMoves(c: Config, p: Pool, input: Input)
    requires Covers(p.states, c.engines) && Sees(input.seen, c.engines)
    ensures var states, states' := Drained(c.engines, p.states, input.seen), Tick(c, p, input).pool.states;
            states' == states || exists e, t :: PoolMove(c, states, states', e, t)
  {
    TickChoices(c, p, input);
    hide Tick, Drained, Completions, InState, CountIn;
    var states, q := Drained(c.engines, p.states, input.seen), Tick(c, p, input);
    var done := Completions(InState(c.engines, p.states, DRAINING), input.seen);
    if e :| e in InState(c.engines, states, STANDBY) && q.pool.states == states[e := ACTIVE] {
      assert PoolMove(c, states, q.pool.states, e, ACTIVE);
    } else if e :| e in InState(c.engines, states, ACTIVE) && q.actions == done + [ScaleInStart(e)]
                   && q.pool.states == states[e := DRAINING] && CountIn(c.engines, states, ACTIVE) > c.minActive
                   && CountIn(c.engines, states, DRAINING) == 0 {
      assert PoolMove(c, states, q.pool.states, e, DRAINING);
    }
  }

  lemma TickKeepsPool(c: Config, p: Pool, input: Input)
    requires c.Valid() && PoolOk(c, p)
    ensures PoolOk(c, TickOrRaise(c, p, input).pool)
  {
    if Sees(input.seen, c.engines) {
      hide Drained, Tick, InState;
      var states := Drained(c.engines, p.states, input.seen);
      DrainedCounts(c, p, input.seen);
      TickMoves(c, p, input);
      var states' := Tick(c, p, input).pool.states;
      if states' != states {
        var e, t :| PoolMove(c, states, states', e, t);
        MoveKeepsPool(c, states, e, t);
      }
    }
  }

  lemma MoveKeepsPool(c: Config, states: map<EngineId, Lifecycle>, e: EngineId, t: Lifecycle)
    requires c.Valid() && Covers(states, c.engines) && e in c.engines
    requires CountIn(c.engines, states, ACTIVE) >= c.minActive && CountIn(c.engines, states, DRAINING) <= 1
    requires || (t == ACTIVE && states[e] == STANDBY)
             || (t == DRAINING && states[e] == ACTIVE && CountIn(c.engines, states, ACTIVE) > c.minActive
                 && CountIn(c.engines, states, DRAINING) == 0)
    ensures CountIn(c.engines, states[e := t], ACTIVE) >= c.minActive
            && CountIn(c.engines, states[e := t], DRAINING) <= 1
  {
    hide CountIn;
    CountUpdate(c.engines, states, e, t, ACTIVE);
    CountUpdate(c.engines, states, e, t, DRAINING);
  }

  /** Over every run at least min_active engines are ACTIVE and at most one is DRAINING. */
  lemma {:induction false} PoolAlwaysOk(c: Config, inputs: seq<Input>)
    requires c.Valid()
    ensures PoolOk(c, After(c, inputs))
  {
    if inputs == [] {
      InitialCount(c.engines, c.minActive, |c.engines|);
      assert c.engines[..|c.engines|] == c.engines;
    } else {
      PoolAlwaysOk(c, inputs[..|inputs|-1]);
      TickKeepsPool(c, After(c, inputs[..|inputs|-1]), inputs[|inputs|-1]);
    }
  }

  // ---- cooldown ----

  ghost predicate ScalesAt(c: Config, inputs: seq<Input>, i: nat)
    requires i < |inputs|
  {
    Scales(ActionsAt(c, inputs, i))
  }

  /** A tick scales exactly when it resets the streaks and stamps the clock, and then the cooldown is over. */
  lemma ScalingStamps(c: Config, p: Pool, input: Input)
    requires Covers(p.states, c.engines)
    ensures var t := TickOrRaise(c, p, input);
            && (Scales(t.actions) ==> t.pool.lastAction == Some(input.now) && CooldownOver(c, p.lastAction, input.now)
                                      && t.pool.outStreak == 0 && t.pool.inStreak == 0)
            && (!Scales(t.actions) ==> t.pool.lastAction == p.lastAction)
  {
    if Sees(input.seen, c.engines) {
      var done := Completions(InState(c.engines, p.states, DRAINING), input.seen);
      CompletionsNeverScale(InState(c.engines, p.states, DRAINING), input.seen);
      hide Drained, WantsScaleOut, WantsScaleIn, Completions, InState, CooldownOver, Lightest;
      var actions := Tick(c, p, input).actions;
      if actions != done {
        var last := actions[|actions|-1];
        assert last in actions && (IsScaleOut(last) || IsScaleInStart(last));
      }
    }
  }

  function LastActionAt(c: Config, inputs: seq<Input>, n: nat): Option<real>
    requires n <= |inputs|
  {
    After(c, inputs[..n]).lastAction
  }

  lemma StampStep(c: Config, inputs: seq<Input>, i: nat)
    requires i < |inputs|
    ensures LastActionAt(c, inputs, 0) == None
    ensures LastActionAt(c, inputs, i + 1)
            == if ScalesAt(c, inputs, i) then Some(inputs[i].now) else LastActionAt(c, inputs, i)
    ensures ScalesAt(c, inputs, i) ==> CooldownOver(c, LastActionAt(c, inputs, i), inputs[i].now)
  {
    AfterNext(c, inputs, i);
    ScalingStamps(c, After(c, inputs[..i]), inputs[i]);
    hide Tick, Scales, CooldownOver;
  }

  /** `lastAction` is the time of the latest scaling tick. */
  lemma {:induction false} LastActionIsLatest(c: Config, inputs: seq<Input>, i: nat, n: nat)
    requires i < n <= |inputs| && ScalesAt(c, inputs, i)
    requires forall k :: i < k < n ==> !ScalesAt(c, inputs, k)
    ensures LastActionAt(c, inputs, n) == Some(inputs[i].now)
  {
    hide LastActionAt, ScalesAt;
    StampStep(c, inputs, n - 1);
    if i < n - 1 {
      LastActionIsLatest(c, inputs, i, n - 1);
    }
  }

  /** Two scaling ticks with none between them are a cooldown apart, whatever the clock does. */
  lemma ConsecutiveCooldown(c: Config, inputs: seq<Input>, i: nat, j: nat)
    requires i < j < |inputs| && ScalesAt(c, inputs, i) && ScalesAt(c, inputs, j)
    requires forall k :: i < k < j ==> !ScalesAt(c, inputs, k)
    ensures inputs[j].now - inputs[i].now >= c.cooldown
  {
    LastActionIsLatest(c, inputs, i, j);
    StampStep(c, inputs, j);
    hide LastActionAt, ScalesAt;
  }

  /** So with a non-negative cooldown are any two of them. */
  lemma {:induction false} CooldownHolds(c: Config, inputs: seq<Input>, i: nat, j: nat)
    requires c.cooldown >= 0.0 && i < j < |inputs| && ScalesAt(c, inputs, i) && ScalesAt(c, inputs, j)
    ensures inputs[j].now - inputs[i].now >= c.cooldown
    decreases j - i
  {
    hide ScalesAt;
    if k :| i < k < j && ScalesAt(c, inputs, k) {
      CooldownHolds(c, inputs, i, k);
      CooldownHolds(c, inputs, k, j);
    } else {
      ConsecutiveCooldown(c, inputs, i, j);
    }
  }

  // ---- hysteresis ----

  /** What tick i observed asks for scaling out (or in); a tick with missing observations does not count. */
  ghost predicate AsksAt(c: Config, inputs: seq<Input>, i: nat, out: bool)
    requires i < |inputs|
  {
    Sees(inputs[i].seen, c.engines) ==>
      var seen, states := inputs[i].seen, After(c, inputs[..i]).states;
      var active := InState(c.engines, Drained(c.engines, states, seen), ACTIVE);
      if out then WantsScaleOut(c, active, seen) else WantsScaleIn(c, active, seen)
  }

  /** The ticks in [from, to) whose observations were complete. */
  function Ticks(c: Config, inputs: seq<Input>, from: nat, to: nat): nat
    requires from <= to <= |inputs|
  {
    if to == from then 0 else Ticks(c, inputs, from, to - 1) + if Sees(inputs[to-1].seen, c.engines) then 1 else 0
  }

  ghost predicate Unbroken(c: Config, inputs: seq<Input>, from: nat, to: nat, out: bool)
    requires from <= to <= |inputs|
  {
    forall i :: from <= i < to ==> AsksAt(c, inputs, i, out) && !ScalesAt(c, inputs, i)
  }

  function Streak(p: Pool, out: bool): int { if out then p.outStreak else p.inStreak }

  function Windows(c: Config, out: bool): int { if out then c.scaleOutWindows else c.scaleInWindows }

  lemma StreakStep(c: Config, inputs: seq<Input>, i: nat, out: bool)
    requires i < |inputs|
    ensures var before, after := Streak(After(c, inputs[..i]), out), Streak(After(c, inputs[..i+1]), out);
            if ScalesAt(c, inputs, i) then after == 0
            else if !Sees(inputs[i].seen, c.engines) then after == before
            else after == if AsksAt(c, inputs, i, out) then before + 1 else 0
  {
    var p := After(c, inputs[..i]);
    AfterNext(c, inputs, i);
    ScalingStamps(c, p, inputs[i]);
    if Sees(inputs[i].seen, c.engines) {
      TickScales(c, p, inputs[i]);
    }
    hide After, Drained, WantsScaleOut, WantsScaleIn, Completions, InState, CooldownOver, Lightest, Scales;
  }

  /** What a complete tick does to the streaks, and which streak a scaling tick needed. */
  lemma TickScales(c: Config, p: Pool, input: Input)
    requires Covers(p.states, c.engines) && Sees(input.seen, c.engines)
    ensures var active, t := InState(c.engines, Drained(c.engines, p.states, input.seen), ACTIVE), Tick(c, p, input);
            var outStreak := if WantsScaleOut(c, active, input.seen) then p.outStreak + 1 else 0;
            var inStreak := if WantsScaleIn(c, active, input.seen) then p.inStreak + 1 else 0;
            && (!Scales(t.actions) ==> t.pool.outStreak == outStreak && t.pool.inStreak == inStreak)
            && (AddsEngine(t.actions) ==> outStreak >= c.scaleOutWindows)
            && (StartsDrain(t.actions) ==> inStreak >= c.scaleInWindows)
  {
    var done := Completions(InState(c.engines, p.states, DRAINING), input.seen);
    CompletionsNeverScale(InState(c.engines, p.states, DRAINING), input.seen);
    hide Drained, WantsScaleOut, WantsScaleIn, Completions, InState, CooldownOver, Lightest;
    var actions := Tick(c, p, input).actions;
    if actions != done {
      var last := actions[|actions|-1];
      assert actions == done + [last];
      assert last in actions && (IsScaleOut(last) || IsScaleInStart(last));
    }
  }

  function StreakAt(c: Config, inputs: seq<Input>, n: nat, out: bool): int
    requires n <= |inputs|
  {
    Streak(After(c, inputs[..n]), out)
  }

  /** The stretch grows by a tick that asks, and starts afresh after one that scales or does not ask. */
  lemma StretchNext(c: Config, inputs: seq<Input>, from: nat, n: nat, out: bool)
    requires from <= n < |inputs|
    requires Unbroken(c, inputs, from, n, out) && Ticks(c, inputs, from, n) == StreakAt(c, inputs, n, out)
    ensures var from' := if ScalesAt(c, inputs, n) || !AsksAt(c, inputs, n, out) then n + 1 else from;
            Unbroken(c, inputs, from', n + 1, out) && Ticks(c, inputs, from', n + 1) == StreakAt(c, inputs, n + 1, out)
  {
    hide After, AsksAt, ScalesAt, Sees;
    StreakStep(c, inputs, n, out);
    NotAskingIsSeen(c, inputs, n, out);
  }

  lemma NotAskingIsSeen(c: Config, inputs: seq<Input>, n: nat, out: bool)
    requires n < |inputs|
    ensures !AsksAt(c, inputs, n, out) ==> Sees(inputs[n].seen, c.engines)
  {
    hide After, Drained, InState, WantsScaleOut, WantsScaleIn;
  }

  /** The streak counts the complete ticks of an unbroken stretch ending now. */
  lemma {:induction false} StreakIsUnbroken(c: Config, inputs: seq<Input>, n: nat, out: bool) returns (from: nat)
    requires n <= |inputs|
    ensures from <= n && Unbroken(c, inputs, from, n, out) && Ticks(c, inputs, from, n) == StreakAt(c, inputs, n, out)
  {
    hide AsksAt, ScalesAt, Ticks, Unbroken, StreakAt;
    if n == 0 {
      NoStreak(c, inputs, out);
      from := 0;
    } else {
      from := StreakIsUnbroken(c, inputs, n - 1, out);
      StretchNext(c, inputs, from, n - 1, out);
      if ScalesAt(c, inputs, n - 1) || !AsksAt(c, inputs, n - 1, out) {
        from := n;
      }
    }
  }

  lemma NoStreak(c: Config, inputs: seq<Input>, out: bool)
    ensures Unbroken(c, inputs, 0, 0, out) && Ticks(c, inputs, 0, 0) == 0 == StreakAt(c, inputs, 0, out)
  {
    assert inputs[..0] == [];
  }

  /** Before an engine is added (or drained) the load asked for it in every complete tick of a stretch of at least the
      configured number of windows, this tick included, and no earlier tick of the stretch scaled. */
  lemma ScalingFollowsUnbrokenDemand(c: Config, inputs: seq<Input>, j: nat, out: bool) returns (from: nat)
    requires c.Valid() && j < |inputs|
    requires if out then AddsEngine(ActionsAt(c, inputs, j)) else StartsDrain(ActionsAt(c, inputs, j))
    ensures from <= j && Unbroken(c, inputs, from, j, out) && AsksAt(c, inputs, j, out)
    ensures Ticks(c, inputs, from, j + 1) >= Windows(c, out)
  {
    from := StreakIsUnbroken(c, inputs, j, out);
    var p := After(c, inputs[..j]);
    if Sees(inputs[j].seen, c.engines) {
      TickScales(c, p, inputs[j]);
    }
    hide After, Drained, WantsScaleOut, WantsScaleIn, InState, Tick, Unbroken;
  }

  // ---- exactly when a tick scales ----

  /** The load asks for scaling out (or in) at tick `j` and did so in every complete tick of a stretch of at least the
      configured number of windows that ends there, no earlier tick of which scaled. */
  ghost predicate LongDemand(c: Config, inputs: seq<Input>, j: nat, out: bool)
    requires j < |inputs|
  {
    AsksAt(c, inputs, j, out)
    && exists from: nat :: from <= j && Unbroken(c, inputs, from, j, out)
                           && Ticks(c, inputs, from, j + 1) >= Windows(c, out)
  }

  /** The latest scaling tick before `j`, if any, is a cooldown ago. */
  ghost predicate CooledDown(c: Config, inputs: seq<Input>, j: nat)
    requires j < |inputs|
  {
    forall i :: 0 <= i < j && ScalesAt(c, inputs, i) && (forall k :: i < k < j ==> !ScalesAt(c, inputs, k)) ==>
      inputs[j].now - inputs[i].now >= c.cooldown
  }

  /** An engine waits on standby, or has just been seen to have drained. */
  ghost predicate HasSpare(c: Config, p: Pool, seen: map<EngineId, Observation>)
    requires Covers(p.states, c.engines) && Sees(seen, c.engines)
  {
    exists e :: e in c.engines
                && (p.states[e] == STANDBY
                    || (p.states[e] == DRAINING && seen[e].owners == 0 && seen[e].running + seen[e].waiting == 0))
  }

  /** No engine goes on draining. */
  ghost predicate NoDrainLeft(c: Config, p: Pool, seen: map<EngineId, Observation>)
    requires Covers(p.states, c.engines) && Sees(seen, c.engines)
  {
    forall e :: e in c.engines && p.states[e] == DRAINING ==>
      seen[e].owners == 0 && seen[e].running + seen[e].waiting == 0
  }

  /** What the load asks for, in whole numbers of requests. */
  lemma DemandSpelledOut(c: Config, active: seq<EngineId>, seen: map<EngineId, Observation>)
    requires Sees(seen, active)
    ensures var engines := (if |active| == 0 then 1 else |active|) as real;
            && (WantsScaleOut(c, active, seen) <==>
                  || TotalWaiting(active, seen) >= c.scaleOutWaiting
                  || TotalRequests(active, seen) as real >= c.scaleOutRequests * engines)
            && (WantsScaleIn(c, active, seen) <==>
                  && TotalWaiting(active, seen) == 0
                  && TotalRequests(active, seen) as real <= c.scaleInRequests * engines)
  {
    var engines := (if |active| == 0 then 1 else |active|) as real;
    Quotient(TotalRequests(active, seen) as real, engines, c.scaleOutRequests);
    Quotient(TotalRequests(active, seen) as real, engines, c.scaleInRequests);
  }

  lemma Quotient(x: real, y: real, z: real)
    requires y > 0.0
    ensures x / y >= z <==> x >= z * y
    ensures x / y <= z <==> x <= z * y
  {
    var q := x / y;
    assert q * y == x;
    if q > z {
      assert (q - z) * y > 0.0;
    } else if q < z {
      assert (z - q) * y > 0.0;
    }
  }

  lemma {:induction false} TotalsAdd(active: seq<EngineId>, e: EngineId, seen: map<EngineId, Observation>)
    requires Sees(seen, active) && e in seen
    ensures TotalWaiting(active + [e], seen) == TotalWaiting(active, seen) + seen[e].waiting
    ensures TotalRequests(active + [e], seen) == TotalRequests(active, seen) + seen[e].running + seen[e].waiting
    ensures TotalWaiting([], seen) == 0 == TotalRequests([], seen)
  {
    assert (active + [e])[..|active|] == active;
  }

  /** One complete tick, with the streaks as they are after it. */
  lemma TickScalesIff(c: Config, p: Pool, input: Input)
    requires c.Accepted() && Covers(p.states, c.engines) && Sees(input.seen, c.engines)
    ensures var states, t := Drained(c.engines, p.states, input.seen), Tick(c, p, input);
            var active := InState(c.engines, states, ACTIVE);
            var out := p.outStreak + 1 >= c.scaleOutWindows && WantsScaleOut(c, active, input.seen);
            var back := p.inStreak + 1 >= c.scaleInWindows && WantsScaleIn(c, active, input.seen);
            && (AddsEngine(t.actions) <==>
                  CooldownOver(c, p.lastAction, input.now) && HasSpare(c, p, input.seen) && out)
            && (StartsDrain(t.actions) <==>
                  && !AddsEngine(t.actions) && CooldownOver(c, p.lastAction, input.now)
                  && CountIn(c.engines, p.states, ACTIVE) > c.minActive && NoDrainLeft(c, p, input.seen) && back)
  {
    var done := Completions(InState(c.engines, p.states, DRAINING), input.seen);
    var states := Drained(c.engines, p.states, input.seen);
    CompletionsNeverScale(InState(c.engines, p.states, DRAINING), input.seen);
    DrainedCounts(c, p, input.seen);
    SparesAndDrains(c, p, input.seen);
    hide Drained, WantsScaleOut, WantsScaleIn, Completions, InState, CooldownOver, Lightest, HasSpare, NoDrainLeft;
    var actions := Tick(c, p, input).actions;
    if actions != done {
      var last := actions[|actions|-1];
      assert actions == done + [last];
      OneMoreAction(done, last);
    }
  }

  lemma OneMoreAction(done: seq<ScalingAction>, last: ScalingAction)
    requires !Scales(done)
    ensures AddsEngine(done + [last]) <==> last.ScaleOut?
    ensures StartsDrain(done + [last]) <==> last.ScaleInStart?
  {
    var actions := done + [last];
    assert last in actions && forall a :: a in actions ==> a in done || a == last;
    assert last.ScaleOut? ==> IsScaleOut(last);
    assert last.ScaleInStart? ==> IsScaleInStart(last);
  }

  lemma DrainedState(c: Config, p: Pool, seen: map<EngineId, Observation>, e: EngineId)
    requires Covers(p.states, c.engines) && Sees(seen, c.engines) && e in c.engines
    ensures var states := Drained(c.engines, p.states, seen);
            var empty := seen[e].owners == 0 && seen[e].running + seen[e].waiting == 0;
            && e in states
            && (states[e] == STANDBY <==> p.states[e] == STANDBY || (p.states[e] == DRAINING && empty))
            && (states[e] == DRAINING <==> p.states[e] == DRAINING && !empty)
  {
  }

  lemma SparesAndDrains(c: Config, p: Pool, seen: map<EngineId, Observation>)
    requires Covers(p.states, c.engines) && Sees(seen, c.engines)
    ensures var states := Drained(c.engines, p.states, seen);
            && (InState(c.engines, states, STANDBY) != [] <==> HasSpare(c, p, seen))
            && (InState(c.engines, states, DRAINING) == [] <==> NoDrainLeft(c, p, seen))
  {
    DrainedCounts(c, p, seen);
    hide Drained, InState;
    var states := Drained(c.engines, p.states, seen);
    var standby, draining := InState(c.engines, states, STANDBY), InState(c.engines, states, DRAINING);
    forall e | e in c.engines
      ensures var empty := seen[e].owners == 0 && seen[e].running + seen[e].waiting == 0;
              && (e in standby <==> p.states[e] == STANDBY || (p.states[e] == DRAINING && empty))
              && (e in draining <==> p.states[e] == DRAINING && !empty)
    {
      DrainedState(c, p, seen, e);
    }
    if standby != [] {
      assert standby[0] in standby;
    }
    if draining != [] {
      assert draining[0] in draining;
    }
  }

  /** The streak is at least as long as any unbroken stretch that ends now. */
  lemma {:induction false} StreakCoversStretch(c: Config, inputs: seq<Input>, from: nat, n: nat, out: bool)
    requires from <= n <= |inputs| && Unbroken(c, inputs, from, n, out)
    ensures StreakAt(c, inputs, n, out) >= Ticks(c, inputs, from, n)
    decreases n
  {
    hide AsksAt, ScalesAt, StreakAt;
    if n == from {
      var f := StreakIsUnbroken(c, inputs, n, out);
    } else {
      StreakCoversStretch(c, inputs, from, n - 1, out);
      StreakAtNext(c, inputs, n - 1, out);
    }
  }

  lemma StreakAtNext(c: Config, inputs: seq<Input>, n: nat, out: bool)
    requires n < |inputs| && AsksAt(c, inputs, n, out) && !ScalesAt(c, inputs, n)
    ensures StreakAt(c, inputs, n + 1, out)
            == StreakAt(c, inputs, n, out) + if Sees(inputs[n].seen, c.engines) then 1 else 0
  {
    hide After, AsksAt, ScalesAt, Sees;
    StreakStep(c, inputs, n, out);
  }

  lemma LongDemandIff(c: Config, inputs: seq<Input>, j: nat, out: bool)
    requires j < |inputs| && Sees(inputs[j].seen, c.engines)
    ensures LongDemand(c, inputs, j, out) <==>
              AsksAt(c, inputs, j, out) && StreakAt(c, inputs, j, out) + 1 >= Windows(c, out)
  {
    hide AsksAt, StreakAt, Unbroken, Windows;
    var from := StreakIsUnbroken(c, inputs, j, out);
    assert Ticks(c, inputs, from, j + 1) == StreakAt(c, inputs, j, out) + 1;
    if f: nat :| f <= j && Unbroken(c, inputs, f, j, out) && Ticks(c, inputs, f, j + 1) >= Windows(c, out) {
      StreakCoversStretch(c, inputs, f, j, out);
    }
  }

  /** Which of the first `n` ticks scaled last. */
  ghost predicate IsLatestScaling(c: Config, inputs: seq<Input>, n: nat, i: Option<nat>)
    requires n <= |inputs|
  {
    match i
    case None => LastActionAt(c, inputs, n) == None && forall k :: 0 <= k < n ==> !ScalesAt(c, inputs, k)
    case Some(m) =>
      && m < n && ScalesAt(c, inputs, m) && LastActionAt(c, inputs, n) == Some(inputs[m].now)
      && forall k :: m < k < n ==> !ScalesAt(c, inputs, k)
  }

  lemma {:induction false} LatestScaling(c: Config, inputs: seq<Input>, n: nat) returns (i: Option<nat>)
    requires n <= |inputs|
    ensures IsLatestScaling(c, inputs, n, i)
  {
    hide ScalesAt, LastActionAt;
    if n == 0 {
      NoActionYet(c, inputs);
      i := None;
    } else {
      StampStep(c, inputs, n - 1);
      i := LatestScaling(c, inputs, n - 1);
      if ScalesAt(c, inputs, n - 1) {
        i := Some(n - 1);
      }
    }
  }

  lemma NoActionYet(c: Config, inputs: seq<Input>)
    ensures LastActionAt(c, inputs, 0) == None
  {
    assert inputs[..0] == [];
  }

  lemma CooledDownIff(c: Config, inputs: seq<Input>, j: nat)
    requires j < |inputs|
    ensures CooledDown(c, inputs, j) <==> CooldownOver(c, LastActionAt(c, inputs, j), inputs[j].now)
  {
    hide ScalesAt, LastActionAt;
    var i := LatestScaling(c, inputs, j);
    if i.Some? && CooldownOver(c, LastActionAt(c, inputs, j), inputs[j].now) {
      forall m | 0 <= m < j && ScalesAt(c, inputs, m) && (forall k :: m < k < j ==> !ScalesAt(c, inputs, k))
        ensures m == i.value
      {
      }
    }
  }

  /**
  Exactly when a tick of a run scales: its observations are complete, the latest scaling tick is a cooldown ago, and
  either the load has long asked for more and there is a spare engine, which is then added, or not so, the load has long
  asked for fewer, more than the minimum are active and none is left draining; then a drain starts.
  */
  lemma ScalesIff(c: Config, inputs: seq<Input>, j: nat)
    requires c.Accepted() && j < |inputs|
    ensures var p, seen := After(c, inputs[..j]), inputs[j].seen;
            var out, back := AddsEngine(ActionsAt(c, inputs, j)), StartsDrain(ActionsAt(c, inputs, j));
            && (out <==> && Sees(seen, c.engines) && CooledDown(c, inputs, j)
                         && HasSpare(c, p, seen) && LongDemand(c, inputs, j, true))
            && (back <==> && !out && Sees(seen, c.engines) && CooledDown(c, inputs, j)
                          && CountIn(c.engines, p.states, ACTIVE) > c.minActive
                          && NoDrainLeft(c, p, seen) && LongDemand(c, inputs, j, false))
  {
    hide After, Drained, InState, WantsScaleOut, WantsScaleIn, CooledDown, HasSpare, NoDrainLeft, LongDemand;
    hide CooldownOver, Unbroken, Lightest, Completions;
    if Sees(inputs[j].seen, c.engines) {
      var p := After(c, inputs[..j]);
      CooledDownIff(c, inputs, j);
      LongDemandIff(c, inputs, j, true);
      LongDemandIff(c, inputs, j, false);
      TickScalesIff(c, p, inputs[j]);
      hide Tick;
    } else {
      NothingScales();
    }
  }

  lemma NothingScales()
    ensures !AddsEngine([]) && !StartsDrain([])
  {
  }

  ghost predicate IsSpare(p: Pool, seen: map<EngineId, Observation>, e: EngineId)
    requires e in p.states && e in seen
  {
    p.states[e] == STANDBY
    || (p.states[e] == DRAINING && seen[e].owners == 0 && seen[e].running + seen[e].waiting == 0)
  }

  lemma {:induction false} FirstInState(engines: seq<EngineId>, states: map<EngineId, Lifecycle>, s: Lifecycle)
    returns (i: nat)
    requires Covers(states, engines) && InState(engines, states, s) != []
    ensures i < |engines| && engines[i] == InState(engines, states, s)[0] && states[engines[i]] == s
    ensures forall k :: 0 <= k < i ==> states[engines[k]] != s
  {
    var n := |engines| - 1;
    if InState(engines[..n], states, s) != [] {
      i := FirstInState(engines[..n], states, s);
    } else {
      i := n;
      forall k | 0 <= k < n ensures states[engines[k]] != s {
        assert engines[..n][k] !in InState(engines[..n], states, s);
      }
    }
  }

  /** The engine that is added is the first spare one in configuration order. */
  lemma AddsFirstSpare(c: Config, p: Pool, input: Input, e: EngineId) returns (i: nat)
    requires Covers(p.states, c.engines) && Sees(input.seen, c.engines) && ScaleOut(e) in Tick(c, p, input).actions
    ensures i < |c.engines| && c.engines[i] == e && IsSpare(p, input.seen, e)
    ensures forall k :: 0 <= k < i ==> !IsSpare(p, input.seen, c.engines[k])
  {
    var done := Completions(InState(c.engines, p.states, DRAINING), input.seen);
    var states := Drained(c.engines, p.states, input.seen);
    CompletionsNeverScale(InState(c.engines, p.states, DRAINING), input.seen);
    assert IsScaleOut(ScaleOut(e)) && ScaleOut(e) !in done;
    var standby := InState(c.engines, states, STANDBY);
    AddsHead(c, p, input, e);
    i := FirstInState(c.engines, states, STANDBY);
    hide Tick, InState, Completions, Scales;
    forall k | 0 <= k < |c.engines|
      ensures IsSpare(p, input.seen, c.engines[k]) <==> states[c.engines[k]] == STANDBY
    {
      assert c.engines[k] in c.engines;
    }
  }

  lemma AddsHead(c: Config, p: Pool, input: Input, e: EngineId)
    requires Covers(p.states, c.engines) && Sees(input.seen, c.engines) && ScaleOut(e) in Tick(c, p, input).actions
    requires ScaleOut(e) !in Completions(InState(c.engines, p.states, DRAINING), input.seen)
    ensures var standby := InState(c.engines, Drained(c.engines, p.states, input.seen), STANDBY);
            standby != [] && standby[0] == e
  {
    hide Drained, WantsScaleOut, WantsScaleIn, Completions, InState, CooldownOver, Lightest;
  }

  // ---- leaving service ----

  function StateAt(c: Config, inputs: seq<Input>, n: nat, e: EngineId): Lifecycle
    requires n <= |inputs| && e in c.engines
  {
    After(c, inputs[..n]).states[e]
  }

  /** ACTIVE is left only by starting a drain, DRAINING only on an empty observation, STANDBY only by scaling out. */
  lemma StateChanges(c: Config, inputs: seq<Input>, n: nat, e: EngineId)
    requires n < |inputs| && e in c.engines
    ensures var s, t, actions := StateAt(c, inputs, n, e), StateAt(c, inputs, n + 1, e), ActionsAt(c, inputs, n);
            && (s == ACTIVE ==> t == ACTIVE || (t == DRAINING && ScaleInStart(e) in actions))
            && (s == DRAINING && t != DRAINING ==>
                  e in inputs[n].seen && EmptyDrain(inputs[n].seen[e]) && ScaleInComplete(e) in actions)
            && (s == STANDBY ==> t == STANDBY || (t == ACTIVE && ScaleOut(e) in actions))
  {
    AfterNext(c, inputs, n);
    var p, input := After(c, inputs[..n]), inputs[n];
    if Sees(input.seen, c.engines) {
      TickChoices(c, p, input);
      CompletionsReport(InState(c.engines, p.states, DRAINING), input.seen);
      hide After, Tick, Completions;
    }
  }

  lemma {:induction false} CompletionsReport(draining: seq<EngineId>, seen: map<EngineId, Observation>)
    requires Sees(seen, draining)
    ensures forall e :: ScaleInComplete(e) in Completions(draining, seen) <==> e in draining && EmptyDrain(seen[e])
  {
    if draining != [] {
      var n := |draining| - 1;
      CompletionsReport(draining[..n], seen);
      assert draining == draining[..n] + [draining[n]];
    }
  }

  /** A draining engine that once served has drained since the tick that chose it. */
  lemma {:induction false} DrainWasStarted(c: Config, inputs: seq<Input>, i: nat, j: nat, e: EngineId) returns (a: nat)
    requires i < j <= |inputs| && e in c.engines
    requires StateAt(c, inputs, i, e) == ACTIVE && StateAt(c, inputs, j, e) == DRAINING
    ensures i <= a < j && ScaleInStart(e) in ActionsAt(c, inputs, a)
    ensures forall k :: a < k <= j ==> StateAt(c, inputs, k, e) == DRAINING
  {
    hide After, TickOrRaise;
    StateChanges(c, inputs, j - 1, e);
    hide StateAt, ActionsAt;
    if StateAt(c, inputs, j - 1, e) == ACTIVE {
      a := j - 1;
    } else {
      a := DrainWasStarted(c, inputs, i, j - 1, e);
    }
  }

  /** An engine that served and is now on standby was chosen for draining, drained without interruption and was seen
      with no owners and no requests at the tick that ended the drain. */
  lemma {:induction false} LeavesServiceEmpty(c: Config, inputs: seq<Input>, i: nat, j: nat, e: EngineId)
    returns (a: nat, b: nat)
    requires i < j <= |inputs| && e in c.engines
    requires StateAt(c, inputs, i, e) == ACTIVE && StateAt(c, inputs, j, e) == STANDBY
    ensures i <= a < b < j && ScaleInStart(e) in ActionsAt(c, inputs, a)
            && ScaleInComplete(e) in ActionsAt(c, inputs, b)
    ensures e in inputs[b].seen && EmptyDrain(inputs[b].seen[e])
    ensures forall k :: a < k <= b ==> StateAt(c, inputs, k, e) == DRAINING
  {
    hide After, TickOrRaise;
    StateChanges(c, inputs, j - 1, e);
    hide StateAt, ActionsAt;
    if StateAt(c, inputs, j - 1, e) == STANDBY {
      a, b := LeavesServiceEmpty(c, inputs, i, j - 1, e);
    } else {
      a := DrainWasStarted(c, inputs, i, j - 1, e);
      b := j - 1;
    }
  }
}
