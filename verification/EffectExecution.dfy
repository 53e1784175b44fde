/**
One execute that nobody disturbs, from any reachable tables: what it returns, how often it makes the external call, and
what it leaves in the row of its key.  EffectProtocol says what holds when others act in between.
*/
module EffectExecution {
  import opened Wrappers
  import opened StateStore
  import opened World
  import EffectProtocol

  /** The store calls of an execute that makes its external call, read by read. */
  const STEPS := 14

  /** An execute that starts and then takes `n` steps; `reply` is what the external call answers, if it is made. */
  function Executing(p: Pid, k: EffectKey, epoch: int, payload: Json, reply: Reply, n: nat): seq<Action> {
    [BeginCall(p, k, epoch, payload)] + seq(n, _ => AdvanceCall(p, reply))
  }

  predicate HoldsEpoch(w: World, k: EffectKey, epoch: int) {
    k.agentId in w.db.agents && w.db.agents[k.agentId].ownerEpoch == epoch
  }

  /** Only the call itself is new, and it ended in `phase`. */
  predicate Ended(w: World, w': World, p: Pid, k: EffectKey, epoch: int, payload: Json, phase: CallPhase) {
    w' == w.(calls := w.calls[p := EffectCall(k, epoch, payload, phase)])
  }

  /** The row after the external call: what it was prepared with, the caller's epoch and the answer. */
  predicate Recorded(before: Option<Effect>, row: Effect, epoch: int, payload: Json, reply: Reply) {
    && row.payload == (if before.Some? then before.value.payload else payload)
    && row.ownerEpoch == epoch
    && (reply.Answered? ==> row.status == EFFECT_COMPLETED && row.result == Some(reply.result))
    && (reply.Failed? ==> row.status == EFFECT_UNKNOWN && row.result == None)
  }

  function RowOf(w: World, k: EffectKey): Option<Effect> {
    if k in w.db.effects then Some(w.db.effects[k]) else None
  }

  /** The external call was made, once and by `p`, and its answer was recorded and returned. */
  ghost predicate Called(w: World, w': World, p: Pid, k: EffectKey, epoch: int, payload: Json, reply: Reply) {
    && k in w'.db.effects && Recorded(RowOf(w, k), w'.db.effects[k], epoch, payload, reply)
    && EffectProtocol.Invocations(w, k) == 0 && EffectProtocol.Invocations(w', k) == 1
    && Ended(w.(db := w.db.(effects := w.db.effects[k := w'.db.effects[k]]),
                fx := EffectLog(w.fx.holders[k := p], w.fx.invocations[k := 1], w.fx.replies[k := reply])),
             w', p, k, epoch, payload, if reply.Answered? then Returned(reply.result) else Raised)
  }

  /** `n` steps of process `p`. */
  function Steps(w: World, p: Pid, reply: Reply, n: nat): World {
    if n == 0 then w else Apply(Steps(w, p, reply, n - 1), AdvanceCall(p, reply))
  }

  lemma {:induction false} ExecutingIsSteps(w: World, p: Pid, k: EffectKey, epoch: int, payload: Json, reply: Reply,
                                            n: nat)
    ensures After(w, Executing(p, k, epoch, payload, reply, n))
            == Steps(Apply(w, BeginCall(p, k, epoch, payload)), p, reply, n)
  {
    hide Apply;
    var acts := Executing(p, k, epoch, payload, reply, n);
    if n == 0 {
      assert acts == [BeginCall(p, k, epoch, payload)] && acts[..0] == [];
    } else {
      ExecutingIsSteps(w, p, k, epoch, payload, reply, n - 1);
      assert acts[..n] == Executing(p, k, epoch, payload, reply, n - 1);
    }
  }

  lemma {:induction false} MoreSteps(w: World, p: Pid, reply: Reply, m: nat, n: nat)
    ensures Steps(w, p, reply, m + n) == Steps(Steps(w, p, reply, m), p, reply, n)
  {
    hide Apply;
    if n > 0 {
      MoreSteps(w, p, reply, m, n - 1);
    }
  }

  /** One step changes the process, the row of its key and the history of that key. */
  function Stepped(w: World, p: Pid, reply: Reply): World
    requires p in w.calls
  {
    var s := NextStep(w.db, w.fx, p, w.calls[p], reply);
    At(w, p, s.phase).(db := w.db.(effects := s.effects), fx := s.fx)
  }

  /** The process at another phase. */
  function At(w: World, p: Pid, phase: CallPhase): World
    requires p in w.calls
  {
    w.(calls := w.calls[p := w.calls[p].(phase := phase)])
  }

  lemma StepsFirst(w: World, p: Pid, reply: Reply, n: nat)
    requires p in w.calls
    ensures Steps(w, p, reply, n + 1) == Steps(Stepped(w, p, reply), p, reply, n)
  {
    hide NextStep;
    assert Steps(w, p, reply, 1) == Stepped(w, p, reply);
    MoreSteps(w, p, reply, 1, n);
  }

  /** A call that is over takes no more steps. */
  lemma {:induction false} OverIsOver(w: World, p: Pid, reply: Reply, n: nat)
    requires p in w.calls && (w.calls[p].phase.Returned? || w.calls[p].phase.Raised?)
    ensures Steps(w, p, reply, n) == w
    decreases n
  {
    hide Steps;
    if n > 0 {
      StepsFirst(w, p, reply, n - 1);
      assert Stepped(w, p, reply) == w by {
        assert w.calls[p := w.calls[p]] == w.calls;
      }
      OverIsOver(w, p, reply, n - 1);
    } else {
      NoSteps(w, p, reply);
    }
  }

  lemma NoSteps(w: World, p: Pid, reply: Reply)
    ensures Steps(w, p, reply, 0) == w
  {
  }

  /** The two lease reads before each write let a current epoch pass. */
  lemma LeaseReads(w: World, p: Pid, reply: Reply, stage: Stage, n: nat)
    requires p in w.calls && w.calls[p].phase == ReadOwner(stage)
    ensures var passed := HoldsEpoch(w, w.calls[p].key, w.calls[p].epoch);
            Steps(w, p, reply, n + 2) == Steps(At(w, p, if passed then Write(stage) else Raised), p, reply, n)
  {
    hide Steps, WriteStep;
    var c := w.calls[p];
    var w1 := Stepped(w, p, reply);
    StepsFirst(w, p, reply, n + 1);
    StepsFirst(w1, p, reply, n);
    assert Stepped(w1, p, reply)
           == At(w, p, if HoldsEpoch(w, c.key, c.epoch) then Write(stage) else Raised);
  }

  /** From the prepare's transaction on, on the row that it leaves. */
  lemma Prepares(w: World, p: Pid, reply: Reply, n: nat)
    requires p in w.calls && w.calls[p].phase == Write(Prepare)
    ensures var c := w.calls[p];
            var row := if c.key in w.db.effects then w.db.effects[c.key]
                else Effect(c.epoch, PREPARED, c.payload, None);
            Steps(w, p, reply, n + 1) == Steps(WithRow(w, p, row, Fetch), p, reply, n)
  {
    hide Steps;
    StepsFirst(w, p, reply, n);
    if w.calls[p].key in w.db.effects {
      assert w.db.effects[w.calls[p].key := w.db.effects[w.calls[p].key]] == w.db.effects;
    }
  }

  /** A row that is not PREPARED ends the call. */
  lemma FetchesOld(w: World, p: Pid, reply: Reply, n: nat)
    requires p in w.calls && w.calls[p].phase == Fetch && w.calls[p].key in w.db.effects
    requires w.db.effects[w.calls[p].key].status != PREPARED
    requires w.db.effects[w.calls[p].key].status == EFFECT_COMPLETED ==> w.db.effects[w.calls[p].key].result.Some?
    ensures var row := w.db.effects[w.calls[p].key];
            Steps(w, p, reply, n + 1)
            == At(w, p, if row.status == EFFECT_COMPLETED then Returned(row.result.value) else Raised)
  {
    hide Steps;
    StepsFirst(w, p, reply, n);
    OverIsOver(Stepped(w, p, reply), p, reply, n);
  }

  /** The row once the call has ended. */
  function Finished(row: Effect, epoch: int, reply: Reply): Effect {
    match reply
    case Answered(result) => row.(status := EFFECT_COMPLETED, ownerEpoch := epoch, result := Some(result))
    case Failed => row.(status := EFFECT_UNKNOWN, ownerEpoch := epoch, result := None)
  }

  function Last(reply: Reply): CallPhase { if reply.Answered? then Returned(reply.result) else Raised }

  /** The world with another row and another phase of the process that holds it. */
  function WithRow(w: World, p: Pid, row: Effect, phase: CallPhase): World
    requires p in w.calls
  {
    At(w, p, phase).(db := w.db.(effects := w.db.effects[w.calls[p].key := row]))
  }

  /** The world in which the process has made the external call, besides. */
  function WithReply(w: World, p: Pid, k: EffectKey, reply: Reply): World {
    w.(fx := EffectLog(w.fx.holders[k := p], w.fx.invocations[k := 1], w.fx.replies[k := reply]))
  }

  lemma RowTwice(w: World, p: Pid, x: Effect, y: Effect, phase: CallPhase, last: CallPhase)
    requires p in w.calls
    ensures WithRow(WithRow(w, p, x, phase), p, y, last) == WithRow(w, p, y, last)
    ensures At(WithRow(w, p, x, phase), p, last) == WithRow(w, p, x, last)
    ensures WithRow(At(w, p, phase), p, x, last) == WithRow(w, p, x, last)
  {
    var k, c := w.calls[p].key, w.calls[p];
    assert w.db.effects[k := x][k := y] == w.db.effects[k := y];
    assert w.calls[p := c.(phase := phase)][p := c.(phase := last)] == w.calls[p := c.(phase := last)];
  }

  lemma Finishes(w: World, p: Pid, reply: Reply, n: nat)
    requires p in w.calls && w.calls[p].phase == ReadStatus(Finish(reply)) && w.calls[p].key in w.db.effects
    requires w.db.effects[w.calls[p].key].status == SUBMITTED && HoldsEpoch(w, w.calls[p].key, w.calls[p].epoch)
    ensures var c := w.calls[p];
            Steps(w, p, reply, n + 4)
            == WithRow(w, p, Finished(w.db.effects[c.key], c.epoch, reply), Last(reply))
  {
    hide Steps;
    StepsFirst(w, p, reply, n + 3);
    var w1 := Stepped(w, p, reply);
    assert w1 == At(w, p, ReadOwner(Finish(reply)));
    LeaseReads(w1, p, reply, Finish(reply), n + 1);
    var w2 := At(w, p, Write(Finish(reply)));
    assert At(w1, p, Write(Finish(reply))) == w2;
    StepsFirst(w2, p, reply, n);
    OverIsOver(Stepped(w2, p, reply), p, reply, n);
  }

  lemma Submits(w: World, p: Pid, reply: Reply, n: nat)
    requires p in w.calls && w.calls[p].phase == Write(Submit) && w.calls[p].key in w.db.effects
    requires w.db.effects[w.calls[p].key].status == PREPARED && w.calls[p].key !in w.fx.invocations
    ensures var c := w.calls[p];
            var row := w.db.effects[c.key].(status := SUBMITTED, ownerEpoch := c.epoch, result := None);
            Steps(w, p, reply, n + 3)
            == Steps(WithReply(WithRow(w, p, row, ReadStatus(Finish(reply))), p, c.key, reply), p, reply, n)
  {
    hide Steps;
    var c := w.calls[p];
    var row := w.db.effects[c.key].(status := SUBMITTED, ownerEpoch := c.epoch, result := None);
    var won := WithRow(w, p, row, Invoke);
    var w1 := won.(fx := w.fx.(holders := w.fx.holders[c.key := p]));
    StepsFirst(w, p, reply, n + 2);
    assert Stepped(w, p, reply) == w1;
    StepsFirst(w1, p, reply, n + 1);
    StepsFirst(Stepped(w1, p, reply), p, reply, n);
    CallsOut(w1, p, reply);
    var last := ReadStatus(Finish(reply));
    assert At(won, p, last) == WithRow(w, p, row, last) by {
      RowTwice(w, p, row, row, Invoke, last);
    }
    assert At(w1, p, last).calls == At(won, p, last).calls && At(w1, p, last).db == At(won, p, last).db;
  }

  lemma CallsOut(w: World, p: Pid, reply: Reply)
    requires p in w.calls && w.calls[p].phase == Invoke && w.calls[p].key !in w.fx.invocations
    ensures p in Stepped(w, p, reply).calls
    ensures Stepped(Stepped(w, p, reply), p, reply)
            == At(w, p, ReadStatus(Finish(reply))).(
                 fx := w.fx.(invocations := w.fx.invocations[w.calls[p].key := 1],
                             replies := w.fx.replies[w.calls[p].key := reply]))
  {
    var w1 := Stepped(w, p, reply);
    assert w1 == At(w, p, Await).(fx := w.fx.(invocations := w.fx.invocations[w.calls[p].key := 1]));
  }

  /** A PREPARED row is submitted, the external call made and its answer recorded. */
  lemma FetchesNew(w: World, p: Pid, reply: Reply, n: nat)
    requires p in w.calls && w.calls[p].phase == Fetch && w.calls[p].key in w.db.effects
    requires w.db.effects[w.calls[p].key].status == PREPARED && HoldsEpoch(w, w.calls[p].key, w.calls[p].epoch)
    requires w.calls[p].key !in w.fx.invocations
    ensures var c := w.calls[p];
            Steps(w, p, reply, n + 11)
            == WithReply(WithRow(w, p, Finished(w.db.effects[c.key], c.epoch, reply), Last(reply)), p, c.key, reply)
  {
    hide Steps, NextStep;
    var k := w.calls[p].key;
    ReadsPrepared(w, p, reply, n + 7);
    var w2 := At(w, p, Write(Submit));
    Submits(w2, p, reply, n + 4);
    var row := w.db.effects[k].(status := SUBMITTED, ownerEpoch := w.calls[p].epoch, result := None);
    RowTwice(w, p, row, row, Write(Submit), ReadStatus(Finish(reply)));
    RowTwice(w, p, row, Finished(row, w.calls[p].epoch, reply), ReadStatus(Finish(reply)), Last(reply));
    Finishes(WithReply(WithRow(w, p, row, ReadStatus(Finish(reply))), p, k, reply), p, reply, n);
  }

  lemma ReadsPrepared(w: World, p: Pid, reply: Reply, n: nat)
    requires p in w.calls && w.calls[p].phase == Fetch && w.calls[p].key in w.db.effects
    requires w.db.effects[w.calls[p].key].status == PREPARED && HoldsEpoch(w, w.calls[p].key, w.calls[p].epoch)
    ensures Steps(w, p, reply, n + 4) == Steps(At(w, p, Write(Submit)), p, reply, n)
  {
    hide Steps, WriteStep;
    StepsFirst(w, p, reply, n + 3);
    var w1 := At(w, p, ReadStatus(Submit));
    assert Stepped(w, p, reply) == w1;
    StepsFirst(w1, p, reply, n + 2);
    assert Stepped(w1, p, reply) == At(w, p, ReadOwner(Submit));
    LeaseReads(At(w, p, ReadOwner(Submit)), p, reply, Submit, n);
    assert At(At(w, p, ReadOwner(Submit)), p, Write(Submit)) == At(w, p, Write(Submit));
  }

  /** The tables of a reachable world, as far as an execute relies on them. */
  lemma RowFacts(w: World, k: EffectKey)
    requires Reachable(w)
    ensures k in w.db.effects && w.db.effects[k].status == EFFECT_COMPLETED ==> w.db.effects[k].result.Some?
    ensures k !in w.db.effects || w.db.effects[k].status == PREPARED ==> k !in w.fx.invocations
  {
    hide Reachable;
    EffectProtocol.EffectInvReachable(w);
    EffectProtocol.AtMostOnce(w, k);
    if k in w.fx.invocations {
      assert w.fx.invocations[k] == 1;
    }
  }

  /** The call once its prepare has passed the lease check. */
  function Preparing(w: World, p: Pid, k: EffectKey, epoch: int, payload: Json): World {
    w.(calls := w.calls[p := EffectCall(k, epoch, payload, Write(Prepare))])
  }

  lemma Begins(w: World, p: Pid, k: EffectKey, epoch: int, payload: Json, reply: Reply, n: nat)
    requires p !in w.calls
    ensures After(w, Executing(p, k, epoch, payload, reply, n + 2))
            == if HoldsEpoch(w, k, epoch) then Steps(Preparing(w, p, k, epoch, payload), p, reply, n)
               else w.(calls := w.calls[p := EffectCall(k, epoch, payload, Raised)])
  {
    hide Steps, NextStep, After;
    ExecutingIsSteps(w, p, k, epoch, payload, reply, n + 2);
    var begun := w.(calls := w.calls[p := EffectCall(k, epoch, payload, ReadOwner(Prepare))]);
    LeaseReads(begun, p, reply, Prepare, n);
    if HoldsEpoch(w, k, epoch) {
      assert At(begun, p, Write(Prepare)) == Preparing(w, p, k, epoch, payload);
    } else {
      OverIsOver(At(begun, p, Raised), p, reply, n);
    }
  }

  lemma NewRow(w: World, p: Pid, k: EffectKey, epoch: int, payload: Json, reply: Reply, n: nat)
    requires HoldsEpoch(w, k, epoch) && (k in w.db.effects ==> w.db.effects[k].status == PREPARED)
    requires k !in w.fx.invocations
    ensures Called(w, Steps(Preparing(w, p, k, epoch, payload), p, reply, n + 12), p, k, epoch, payload, reply)
  {
    hide Steps, NextStep, HoldsEpoch, Called;
    var row := if k in w.db.effects then w.db.effects[k] else Effect(epoch, PREPARED, payload, None);
    var w1 := Preparing(w, p, k, epoch, payload);
    Prepares(w1, p, reply, n + 11);
    StillHolds(w, w1, p, k, epoch, row);
    FetchesNew(WithRow(w1, p, row, Fetch), p, reply, n);
    RowTwice(w1, p, row, Finished(row, epoch, reply), Fetch, Last(reply));
    OutcomeIsCalled(w, p, k, epoch, payload, reply);
  }

  lemma StillHolds(w: World, w1: World, p: Pid, k: EffectKey, epoch: int, row: Effect)
    requires HoldsEpoch(w, k, epoch) && w1.db == w.db && p in w1.calls
    ensures HoldsEpoch(WithRow(w1, p, row, Fetch), k, epoch)
  {
  }

  lemma OutcomeIsCalled(w: World, p: Pid, k: EffectKey, epoch: int, payload: Json, reply: Reply)
    requires k !in w.fx.invocations
    ensures var row := if k in w.db.effects then w.db.effects[k] else Effect(epoch, PREPARED, payload, None);
            var w1 := Preparing(w, p, k, epoch, payload);
            Called(w, WithReply(WithRow(w1, p, Finished(row, epoch, reply), Last(reply)), p, k, reply), p, k, epoch,
                   payload,
                   reply)
  {
    var c := EffectCall(k, epoch, payload, Write(Prepare));
    assert w.calls[p := c][p := c.(phase := Last(reply))] == w.calls[p := c.(phase := Last(reply))];
  }

  lemma OldRow(w: World, p: Pid, k: EffectKey, epoch: int, payload: Json, reply: Reply, n: nat)
    requires k in w.db.effects && w.db.effects[k].status != PREPARED
    requires w.db.effects[k].status == EFFECT_COMPLETED ==> w.db.effects[k].result.Some?
    ensures var row := w.db.effects[k];
            Ended(w, Steps(Preparing(w, p, k, epoch, payload), p, reply, n + 2), p, k, epoch, payload,
                  if row.status == EFFECT_COMPLETED then Returned(row.result.value) else Raised)
  {
    hide Steps, NextStep;
    var w1 := Preparing(w, p, k, epoch, payload);
    Prepares(w1, p, reply, n + 1);
    assert w.db.effects[k := w.db.effects[k]] == w.db.effects;
    assert WithRow(w1, p, w.db.effects[k], Fetch) == At(w1, p, Fetch);
    FetchesOld(At(w1, p, Fetch), p, reply, n);
  }

  /**
  What an execute that nobody disturbs does, from any reachable tables.  Under a stale epoch it raises.  For a COMPLETED
  key it returns the stored result and for a SUBMITTED or UNKNOWN one it raises; in these three cases nothing changes.
  For a new or PREPARED key it makes the external call, exactly once, and records and returns its answer.
  */
  lemma ExecuteOutcome(w: World, p: Pid, k: EffectKey, epoch: int, payload: Json, reply: Reply, n: nat)
    requires Reachable(w) && p !in w.calls && n >= STEPS
    ensures var w' := After(w, Executing(p, k, epoch, payload, reply, n));
            var row := RowOf(w, k);
            if !HoldsEpoch(w, k, epoch) then Ended(w, w', p, k, epoch, payload, Raised)
            else if row.None? || row.value.status == PREPARED then Called(w, w', p, k, epoch, payload, reply)
            else if row.value.status == EFFECT_COMPLETED then
              row.value.result.Some? && Ended(w, w', p, k, epoch, payload, Returned(row.value.result.value))
            else Ended(w, w', p, k, epoch, payload, Raised)
  {
    hide Reachable, Steps, Called, Ended, HoldsEpoch, After, Preparing;
    RowFacts(w, k);
    var m := n - STEPS;
    Begins(w, p, k, epoch, payload, reply, m + 12);
    if HoldsEpoch(w, k, epoch) {
      if k in w.db.effects && w.db.effects[k].status != PREPARED {
        OldRow(w, p, k, epoch, payload, reply, m + 10);
      } else {
        NewRow(w, p, k, epoch, payload, reply, m);
      }
    } else {
      RaisedIsEnded(w, p, k, epoch, payload);
    }
  }

  lemma RaisedIsEnded(w: World, p: Pid, k: EffectKey, epoch: int, payload: Json)
    ensures Ended(w, w.(calls := w.calls[p := EffectCall(k, epoch, payload, Raised)]), p, k, epoch, payload, Raised)
  {
  }
}
