/**
Effect proxies over whole runs: the external call behind an effect key is made at most
once, and a stored completion is that call's answer.  Neither rests on the lease: it is
read outside the transaction, so only the status compare-and-swap counts.  The lease
decides whether the outcome of a call that was made can still be recorded.
*/
module EffectProtocol {
  import opened Wrappers
  import opened StateStore
  import opened World
  import OwnershipProtocol

  type Effects = map<EffectKey, Effect>
  type Calls = map<Pid, EffectCall>

  /** The stage of a phase that runs a store transition. */
  function StageOf(phase: CallPhase): Option<Stage> {
    match phase
    case ReadStatus(s) => Some(s)
    case ReadOwner(s) => Some(s)
    case CheckOwner(s, _) => Some(s)
    case Write(s) => Some(s)
    case _ => None
  }

  /** The proxy that won PREPARED -> SUBMITTED and has not yet recorded the outcome. */
  predicate Holding(phase: CallPhase) {
    phase == Invoke || phase == Await || (StageOf(phase).Some? && StageOf(phase).value.Finish?)
  }

  ghost predicate RowOk(fx: EffectLog, k: EffectKey, row: Effect) {
    && (row.status == PREPARED <==> k !in fx.holders)
    && (row.status == EFFECT_COMPLETED ==>
          row.result.Some? && k in fx.replies && fx.replies[k] == Answered(row.result.value))
    && (row.status == EFFECT_UNKNOWN ==> k in fx.replies && fx.replies[k] == Failed)
  }

  ghost predicate RowsOk(effects: Effects, fx: EffectLog) {
    && (forall k :: k in effects ==> RowOk(fx, k, effects[k]))
    && (forall k :: k in fx.holders ==> k in effects)
  }

  ghost predicate HistoryOk(fx: EffectLog) {
    && (forall k :: k in fx.invocations ==> k in fx.holders && fx.invocations[k] == 1)
    && (forall k :: k in fx.replies ==> k in fx.invocations)
  }

  ghost predicate CallOk(effects: Effects, fx: EffectLog, p: Pid, c: EffectCall) {
    && (Holding(c.phase) ==>
          && c.key in fx.holders && fx.holders[c.key] == p
          && c.key in effects && effects[c.key].status == SUBMITTED)
    && (c.phase == Invoke ==> c.key !in fx.invocations)
    && (c.phase == Await ==> c.key in fx.invocations && c.key !in fx.replies)
    && (StageOf(c.phase).Some? && StageOf(c.phase).value.Finish? ==>
          c.key in fx.replies && fx.replies[c.key] == StageOf(c.phase).value.reply)
    && (c.phase.Returned? ==> c.key in fx.replies && fx.replies[c.key] == Answered(c.phase.result))
  }

  ghost predicate CallsOk(effects: Effects, fx: EffectLog, calls: Calls) {
    forall p :: p in calls ==> CallOk(effects, fx, p, calls[p])
  }

  ghost predicate EffectInv(w: World) {
    RowsOk(w.db.effects, w.fx) && HistoryOk(w.fx) && CallsOk(w.db.effects, w.fx, w.calls)
  }

  lemma InsertKeepsRows(db: Tables, fx: EffectLog, k: EffectKey, epoch: int, payload: Json)
    requires RowsOk(db.effects, fx)
    ensures RowsOk(TxInsertEffect(db, k, epoch, payload).effects, fx)
  {
    forall j | j in db.effects ensures RowOk(fx, j, db.effects[j]) {
    }
  }

  lemma WinKeepsRows(effects: Effects, fx: EffectLog, k: EffectKey, row: Effect, p: Pid)
    requires RowsOk(effects, fx) && k in effects && row.status == SUBMITTED
    ensures RowsOk(effects[k := row], fx.(holders := fx.holders[k := p]))
  {
    forall j | j in effects && j != k ensures RowOk(fx.(holders := fx.holders[k := p]), j, effects[j]) {
      assert RowOk(fx, j, effects[j]);
    }
  }

  lemma FinishKeepsRows(effects: Effects, fx: EffectLog, k: EffectKey, row: Effect)
    requires RowsOk(effects, fx) && k in effects && RowOk(fx, k, row)
    ensures RowsOk(effects[k := row], fx)
  {
  }

  lemma ReplyKeepsRows(effects: Effects, fx: EffectLog, k: EffectKey, reply: Reply)
    requires RowsOk(effects, fx) && k in effects && effects[k].status == SUBMITTED
    ensures RowsOk(effects, fx.(replies := fx.replies[k := reply]))
  {
    forall j | j in effects ensures RowOk(fx.(replies := fx.replies[k := reply]), j, effects[j]) {
      assert RowOk(fx, j, effects[j]);
    }
  }

  lemma InvokeKeepsRows(effects: Effects, fx: EffectLog, k: EffectKey, n: nat)
    requires RowsOk(effects, fx)
    ensures RowsOk(effects, fx.(invocations := fx.invocations[k := n]))
  {
    forall j | j in effects ensures RowOk(fx.(invocations := fx.invocations[k := n]), j, effects[j]) {
      assert RowOk(fx, j, effects[j]);
    }
  }

  lemma WriteStepOk(db: Tables, fx: EffectLog, p: Pid, c: EffectCall, stage: Stage)
    requires RowsOk(db.effects, fx) && HistoryOk(fx) && CallOk(db.effects, fx, p, c) && c.phase == Write(stage)
    ensures var s := WriteStep(db, fx, p, c, stage);
            && RowsOk(s.effects, s.fx) && HistoryOk(s.fx)
            && CallOk(s.effects, s.fx, p, c.(phase := s.phase))
  {
    hide RowsOk;
    InsertKeepsRows(db, fx, c.key, c.epoch, c.payload);
    if c.key in db.effects {
      var row := db.effects[c.key];
      RowLookup(db.effects, fx, c.key);
      if stage == Submit && row.status == PREPARED {
        WinKeepsRows(db.effects, fx, c.key, row.(status := SUBMITTED, ownerEpoch := c.epoch, result := None), p);
      } else if stage.Finish? {
        var done := if stage.reply.Answered?
                    then row.(status := EFFECT_COMPLETED, ownerEpoch := c.epoch, result := Some(stage.reply.result))
                    else row.(status := EFFECT_UNKNOWN, ownerEpoch := c.epoch, result := None);
        FinishKeepsRows(db.effects, fx, c.key, done);
      }
    }
  }

  lemma OutsideStepOk(db: Tables, fx: EffectLog, p: Pid, c: EffectCall, reply: Reply)
    requires RowsOk(db.effects, fx) && HistoryOk(fx) && CallOk(db.effects, fx, p, c)
    requires c.phase == Invoke || c.phase == Await
    ensures var s := NextStep(db, fx, p, c, reply);
            && RowsOk(s.effects, s.fx) && HistoryOk(s.fx)
            && CallOk(s.effects, s.fx, p, c.(phase := s.phase))
  {
    hide RowsOk;
    if c.phase == Await {
      ReplyKeepsRows(db.effects, fx, c.key, reply);
    } else {
      InvokeKeepsRows(db.effects, fx, c.key, 1);
    }
  }

  /** The step of one proxy keeps the rows, the history and its own part of the invariant. */
  lemma NextStepOk(db: Tables, fx: EffectLog, p: Pid, c: EffectCall, reply: Reply)
    requires RowsOk(db.effects, fx) && HistoryOk(fx) && CallOk(db.effects, fx, p, c)
    ensures var s := NextStep(db, fx, p, c, reply);
            && RowsOk(s.effects, s.fx) && HistoryOk(s.fx)
            && CallOk(s.effects, s.fx, p, c.(phase := s.phase))
  {
    hide WriteStep, RowsOk, HistoryOk;
    if c.phase.Write? {
      WriteStepOk(db, fx, p, c, c.phase.stage);
    } else if c.phase == Invoke || c.phase == Await {
      OutsideStepOk(db, fx, p, c, reply);
    } else if c.key in db.effects {
      RowLookup(db.effects, fx, c.key);
    }
  }

  lemma RowLookup(effects: Effects, fx: EffectLog, k: EffectKey)
    requires RowsOk(effects, fx) && k in effects
    ensures RowOk(fx, k, effects[k])
  {
  }

  /** It cannot disturb another proxy: only the holder of a key changes what a holder relies on. */
  lemma NextStepKeepsOthers(db: Tables, fx: EffectLog, p: Pid, c: EffectCall, reply: Reply, q: Pid, d: EffectCall)
    requires RowsOk(db.effects, fx) && HistoryOk(fx) && CallOk(db.effects, fx, p, c) && CallOk(db.effects, fx, q, d)
    requires p != q
    ensures var s := NextStep(db, fx, p, c, reply);
            CallOk(s.effects, s.fx, q, d)
  {
    if c.key in db.effects {
      assert RowOk(fx, c.key, db.effects[c.key]);
    }
  }

  lemma EffectInvAdvance(w: World, pid: Pid, reply: Reply)
    requires EffectInv(w)
    ensures EffectInv(ApplyAdvanceCall(w, pid, reply))
  {
    hide RowsOk, HistoryOk, NextStep, CallOk;
    if pid in w.calls {
      var c := w.calls[pid];
      var s := NextStep(w.db, w.fx, pid, c, reply);
      assert CallOk(w.db.effects, w.fx, pid, c);
      NextStepOk(w.db, w.fx, pid, c, reply);
      forall q | q in w.calls && q != pid ensures CallOk(s.effects, s.fx, q, w.calls[q]) {
        assert CallOk(w.db.effects, w.fx, q, w.calls[q]);
        NextStepKeepsOthers(w.db, w.fx, pid, c, reply, q, w.calls[q]);
      }
    }
  }

  lemma EffectInvStep(w: World, act: Action)
    requires EffectInv(w)
    ensures EffectInv(Apply(w, act))
  {
    hide RowsOk, HistoryOk, NextStep;
    if act.AdvanceCall? {
      EffectInvAdvance(w, act.pid, act.reply);
    }
  }

  lemma {:induction false} EffectInvRun(run: seq<World>, i: nat)
    requires IsRun(run) && EffectInv(run[0]) && i < |run|
    ensures EffectInv(run[i])
  {
    hide EffectInv, Apply;
    if i > 0 {
      EffectInvRun(run, i - 1);
      assert Step(run[i-1], run[i]);
      var act: Action :| run[i] == Apply(run[i-1], act);
      EffectInvStep(run[i-1], act);
    }
  }

  lemma EffectInvReachable(w: World)
    requires Reachable(w)
    ensures EffectInv(w)
  {
    hide Step;
    var run: seq<World> :| IsRun(run) && run[0] == INITIAL && run[|run|-1] == w;
    EffectInvRun(run, |run| - 1);
  }

  /** How often the external call behind a key was made. */
  function Invocations(w: World, k: EffectKey): nat {
    if k in w.fx.invocations then w.fx.invocations[k] else 0
  }

  /**
  At most one call per key in every reachable world; none while PREPARED or unknown to the table; exactly one once
  COMPLETED or UNKNOWN, whose answer is the stored result, respectively a failure.
  */
  lemma AtMostOnce(w: World, k: EffectKey)
    requires Reachable(w)
    ensures Invocations(w, k) <= 1
    ensures k !in w.db.effects || w.db.effects[k].status == PREPARED ==> Invocations(w, k) == 0
    ensures k in w.db.effects && w.db.effects[k].status == EFFECT_COMPLETED ==>
              && Invocations(w, k) == 1 && k in w.fx.replies && w.db.effects[k].result.Some?
              && w.fx.replies[k] == Answered(w.db.effects[k].result.value)
    ensures k in w.db.effects && w.db.effects[k].status == EFFECT_UNKNOWN ==>
              Invocations(w, k) == 1 && k in w.fx.replies && w.fx.replies[k] == Failed
  {
    hide Reachable, CallsOk;
    EffectInvReachable(w);
    if k in w.db.effects {
      assert RowOk(w.fx, k, w.db.effects[k]);
    }
  }

  /** Every execute that returns for a key returns the answer of the one call made for it. */
  lemma ReturnsAgree(w: World, p: Pid, q: Pid)
    requires Reachable(w) && p in w.calls && q in w.calls && w.calls[p].key == w.calls[q].key
    requires w.calls[p].phase.Returned? && w.calls[q].phase.Returned?
    ensures w.calls[p].phase.result == w.calls[q].phase.result
    ensures Invocations(w, w.calls[p].key) == 1
    ensures w.calls[p].key in w.fx.replies && w.fx.replies[w.calls[p].key] == Answered(w.calls[p].phase.result)
  {
    hide Reachable, RowsOk;
    EffectInvReachable(w);
    assert CallOk(w.db.effects, w.fx, p, w.calls[p]) && CallOk(w.db.effects, w.fx, q, w.calls[q]);
  }

  /** The proxy is gone without recording an outcome. */
  predicate Over(phase: CallPhase) { phase == Crashed || phase == Raised }

  /** The proxy that was to make, or made, the call behind a SUBMITTED effect has crashed or raised. */
  ghost predicate Orphaned(w: World, k: EffectKey) {
    && k in w.db.effects && w.db.effects[k].status == SUBMITTED
    && k in w.fx.holders && w.fx.holders[k] in w.calls && Over(w.calls[w.fx.holders[k]].phase)
  }

  /** A lease that moved during the external call orphans the effect: the proxy raises before recording the outcome. */
  lemma LostLeaseOrphans(w: World, p: Pid, reply: Reply)
    requires EffectInv(w) && p in w.calls && w.calls[p].phase.CheckOwner? && w.calls[p].phase.stage.Finish?
    requires !HoldsLease(w.db, w.calls[p].key.agentId, w.calls[p].phase.owner, w.calls[p].epoch)
    ensures Orphaned(ApplyAdvanceCall(w, p, reply), w.calls[p].key)
  {
    hide RowsOk, HistoryOk;
    assert CallOk(w.db.effects, w.fx, p, w.calls[p]);
  }

  lemma OrphanNextStep(db: Tables, fx: EffectLog, p: Pid, c: EffectCall, reply: Reply, k: EffectKey)
    requires CallOk(db.effects, fx, p, c)
    requires k in db.effects && db.effects[k].status == SUBMITTED && k in fx.holders
    requires fx.holders[k] == p ==> Over(c.phase)
    ensures var s := NextStep(db, fx, p, c, reply);
            && k in s.effects && s.effects[k] == db.effects[k] && k in s.fx.holders && s.fx.holders[k] == fx.holders[k]
            && (k in s.fx.invocations <==> k in fx.invocations)
            && (k in fx.invocations ==> s.fx.invocations[k] == fx.invocations[k])
            && (fx.holders[k] == p ==> Over(s.phase))
  {
  }

  lemma OrphanAdvance(w: World, pid: Pid, reply: Reply, k: EffectKey)
    requires EffectInv(w) && Orphaned(w, k)
    ensures Orphaned(ApplyAdvanceCall(w, pid, reply), k)
    ensures Invocations(ApplyAdvanceCall(w, pid, reply), k) == Invocations(w, k)
  {
    hide RowsOk, HistoryOk, CallOk, NextStep;
    if pid in w.calls {
      assert CallOk(w.db.effects, w.fx, pid, w.calls[pid]);
      OrphanNextStep(w.db, w.fx, pid, w.calls[pid], reply, k);
    }
  }

  lemma OrphanStep(w: World, act: Action, k: EffectKey)
    requires EffectInv(w) && Orphaned(w, k)
    ensures Orphaned(Apply(w, act), k) && Invocations(Apply(w, act), k) == Invocations(w, k)
  {
    hide EffectInv, Apply;
    if act.AdvanceCall? {
      AdvanceIsApplied(w, act);
      OrphanAdvance(w, act.pid, act.reply, k);
    } else {
      OtherActionKeepsEffects(w, act);
      assert w.fx.holders[k] in Apply(w, act).calls;
    }
  }

  /** An orphaned effect is never replayed and never completed, however the run goes on. */
  lemma {:induction false} OrphanIsNeverReplayed(run: seq<World>, i: nat, j: nat, k: EffectKey)
    requires IsRun(run) && EffectInv(run[0]) && i <= j < |run| && Orphaned(run[i], k)
    ensures Orphaned(run[j], k) && Invocations(run[j], k) == Invocations(run[i], k)
    decreases j - i
  {
    hide EffectInv, Apply, Orphaned, Invocations;
    if i < j {
      OrphanIsNeverReplayed(run, i, j - 1, k);
      EffectInvRun(run, j - 1);
      assert Step(run[j-1], run[j]);
      var act: Action :| run[j] == Apply(run[j-1], act);
      OrphanStep(run[j-1], act, k);
    }
  }

  // ---- which submitted effects can still be settled ----

  /** The last write of execute, whose lease check has passed. */
  predicate Recording(phase: CallPhase) { phase.Write? && phase.stage.Finish? }

  /** A proxy past a lease check has an epoch that was current, and the owner it read for its last check is the owner as
      long as that epoch is. */
  ghost predicate LeaseOk(agents: map<AgentId, Agent>, c: EffectCall) {
    var a := c.key.agentId;
    && (c.phase.Write? || Holding(c.phase) ==> a in agents && c.epoch <= agents[a].ownerEpoch)
    && (c.phase.CheckOwner? && c.phase.stage.Finish? && a in agents && agents[a].ownerEpoch == c.epoch ==>
          c.phase.owner == agents[a].ownerEngine)
  }

  ghost predicate LeasesOk(agents: map<AgentId, Agent>, calls: Calls) {
    forall p :: p in calls ==> LeaseOk(agents, calls[p])
  }

  /** The holder of a submitted effect is on its way to record an outcome, or over. */
  ghost predicate HolderOk(fx: EffectLog, calls: Calls, k: EffectKey) {
    && k in fx.holders && fx.holders[k] in calls && calls[fx.holders[k]].key == k
    && (Holding(calls[fx.holders[k]].phase) || Over(calls[fx.holders[k]].phase))
  }

  ghost predicate HoldersOk(effects: Effects, fx: EffectLog, calls: Calls) {
    forall k :: k in effects && effects[k].status == SUBMITTED ==> HolderOk(fx, calls, k)
  }

  ghost predicate SettleInv(w: World) {
    EffectInv(w) && LeasesOk(w.db.agents, w.calls) && HoldersOk(w.db.effects, w.fx, w.calls)
  }

  lemma NextStepLeaseOk(db: Tables, fx: EffectLog, p: Pid, c: EffectCall, reply: Reply)
    requires LeaseOk(db.agents, c)
    ensures LeaseOk(db.agents, c.(phase := NextStep(db, fx, p, c, reply).phase))
  {
  }

  lemma NextStepHolderOk(db: Tables, fx: EffectLog, calls: Calls, p: Pid, reply: Reply, k: EffectKey)
    requires p in calls && CallOk(db.effects, fx, p, calls[p])
    requires k in db.effects && db.effects[k].status == SUBMITTED ==> HolderOk(fx, calls, k)
    ensures var s := NextStep(db, fx, p, calls[p], reply);
            k in s.effects && s.effects[k].status == SUBMITTED ==>
              HolderOk(s.fx, calls[p := calls[p].(phase := s.phase)], k)
  {
    hide WriteStep;
    if calls[p].phase.Write? {
      WriteHolderOk(db, fx, calls, p, calls[p].phase.stage, k);
    }
  }

  lemma WriteHolderOk(db: Tables, fx: EffectLog, calls: Calls, p: Pid, stage: Stage, k: EffectKey)
    requires p in calls && CallOk(db.effects, fx, p, calls[p]) && calls[p].phase == Write(stage)
    requires k in db.effects && db.effects[k].status == SUBMITTED ==> HolderOk(fx, calls, k)
    ensures var s := WriteStep(db, fx, p, calls[p], stage);
            k in s.effects && s.effects[k].status == SUBMITTED ==>
              HolderOk(s.fx, calls[p := calls[p].(phase := s.phase)], k)
  {
  }

  lemma SettleInvAdvance(w: World, pid: Pid, reply: Reply)
    requires SettleInv(w)
    ensures SettleInv(ApplyAdvanceCall(w, pid, reply))
  {
    hide RowsOk, HistoryOk, NextStep, CallOk, LeaseOk, HolderOk;
    EffectInvAdvance(w, pid, reply);
    if pid in w.calls {
      NextStepLeaseOk(w.db, w.fx, pid, w.calls[pid], reply);
      forall k ensures var w' := ApplyAdvanceCall(w, pid, reply);
                       k in w'.db.effects && w'.db.effects[k].status == SUBMITTED ==> HolderOk(w'.fx, w'.calls, k) {
        NextStepHolderOk(w.db, w.fx, w.calls, pid, reply, k);
      }
    }
  }

  lemma LeaseOkStep(w: World, act: Action, c: EffectCall)
    requires LeaseOk(w.db.agents, c)
    ensures LeaseOk(Apply(w, act).db.agents, c)
  {
    hide Apply;
    if c.key.agentId in w.db.agents {
      OwnershipProtocol.LeaseStep(w, act, c.key.agentId);
    }
  }

  /** Other actions leave the effects alone and start or crash proxies. */
  lemma OtherActionKeepsEffects(w: World, act: Action)
    requires !act.AdvanceCall?
    ensures var w' := Apply(w, act);
            && w'.db.effects == w.db.effects && w'.fx == w.fx && w.calls.Keys <= w'.calls.Keys
            && forall p :: p in w'.calls ==> OtherCallStep(w, w'.calls, p)
  {
    hide Apply;
    OtherActionKeepsRows(w, act);
    OtherActionOnCalls(w, act);
  }

  lemma OtherActionKeepsRows(w: World, act: Action)
    requires !act.AdvanceCall?
    ensures Apply(w, act).db.effects == w.db.effects && Apply(w, act).fx == w.fx
  {
  }

  lemma OtherActionOnCalls(w: World, act: Action)
    requires !act.AdvanceCall?
    ensures var calls := Apply(w, act).calls;
            w.calls.Keys <= calls.Keys && forall p :: p in calls ==> OtherCallStep(w, calls, p)
  {
    hide TxRegisterAgent, TxCommitStep, TxClaimStep, TxCommitClaimedStep, TxFailClaimedStep, TxTransitionMigration;
  }

  ghost predicate OtherCallStep(w: World, calls: Calls, p: Pid)
    requires p in calls
  {
    if p in w.calls then calls[p] == w.calls[p] || calls[p] == w.calls[p].(phase := Crashed)
    else calls[p].phase == ReadOwner(Prepare)
  }

  lemma SettleInvStep(w: World, act: Action)
    requires SettleInv(w)
    ensures SettleInv(Apply(w, act))
  {
    hide EffectInv, Apply, HolderOk, LeaseOk;
    EffectInvStep(w, act);
    if act.AdvanceCall? {
      AdvanceIsApplied(w, act);
      SettleInvAdvance(w, act.pid, act.reply);
    } else {
      OtherActionKeepsEffects(w, act);
      var w' := Apply(w, act);
      forall p | p in w'.calls ensures LeaseOk(w'.db.agents, w'.calls[p]) {
        OtherCallKeepsLease(w, act, p);
      }
      forall k | k in w.db.effects && w.db.effects[k].status == SUBMITTED ensures HolderOk(w.fx, w'.calls, k) {
        OtherActionKeepsHolder(w, act, k);
      }
    }
  }

  lemma AdvanceIsApplied(w: World, act: Action)
    requires act.AdvanceCall?
    ensures Apply(w, act) == ApplyAdvanceCall(w, act.pid, act.reply)
  {
  }

  lemma OtherCallKeepsLease(w: World, act: Action, p: Pid)
    requires LeasesOk(w.db.agents, w.calls) && !act.AdvanceCall? && p in Apply(w, act).calls
    ensures LeaseOk(Apply(w, act).db.agents, Apply(w, act).calls[p])
  {
    hide Apply;
    OtherActionKeepsEffects(w, act);
    if p in w.calls && Apply(w, act).calls[p] == w.calls[p] {
      LeaseOkStep(w, act, w.calls[p]);
    }
  }

  lemma OtherActionKeepsHolder(w: World, act: Action, k: EffectKey)
    requires HolderOk(w.fx, w.calls, k) && !act.AdvanceCall?
    ensures HolderOk(w.fx, Apply(w, act).calls, k)
  {
    hide Apply;
    OtherActionKeepsEffects(w, act);
    assert w.fx.holders[k] in Apply(w, act).calls;
  }

  lemma {:induction false} SettleInvRun(run: seq<World>, i: nat)
    requires IsRun(run) && SettleInv(run[0]) && i < |run|
    ensures SettleInv(run[i])
  {
    hide SettleInv, Apply;
    if i > 0 {
      SettleInvRun(run, i - 1);
      assert Step(run[i-1], run[i]);
      var act: Action :| run[i] == Apply(run[i-1], act);
      SettleInvStep(run[i-1], act);
    }
  }

  lemma SettleInvReachable(w: World)
    requires Reachable(w)
    ensures SettleInv(w)
  {
    hide Step;
    var run: seq<World> :| IsRun(run) && run[0] == INITIAL && run[|run|-1] == w;
    SettleInvRun(run, |run| - 1);
  }

  /** A submitted effect whose holder is over, or lost its lease before it could pass the last lease check. */
  ghost predicate Doomed(w: World, k: EffectKey) {
    && k in w.db.effects && w.db.effects[k].status == SUBMITTED && k in w.fx.holders && w.fx.holders[k] in w.calls
    && var c := w.calls[w.fx.holders[k]];
       || Over(c.phase)
       || (!Recording(c.phase) && k.agentId in w.db.agents && w.db.agents[k.agentId].ownerEpoch != c.epoch)
  }

  lemma DoomedNextStep(db: Tables, fx: EffectLog, calls: Calls, p: Pid, reply: Reply, k: EffectKey)
    requires p in calls && CallOk(db.effects, fx, p, calls[p])
    requires k in db.effects && db.effects[k].status == SUBMITTED && HolderOk(fx, calls, k)
    requires p == fx.holders[k] ==>
               || Over(calls[p].phase)
               || (!Recording(calls[p].phase) && k.agentId in db.agents
                   && db.agents[k.agentId].ownerEpoch != calls[p].epoch)
    ensures var s := NextStep(db, fx, p, calls[p], reply);
            && k in s.effects && s.effects[k] == db.effects[k] && k in s.fx.holders && s.fx.holders[k] == fx.holders[k]
            && (p == fx.holders[k] ==> Over(s.phase) || (!Over(calls[p].phase) && !Recording(s.phase)))
  {
  }

  lemma DoomedStep(w: World, act: Action, k: EffectKey)
    requires SettleInv(w) && Doomed(w, k)
    ensures Doomed(Apply(w, act), k)
  {
    hide RowsOk, HistoryOk, NextStep, Apply, CallOk, LeaseOk;
    var p := w.fx.holders[k];
    assert HolderOk(w.fx, w.calls, k);
    if act.AdvanceCall? {
      AdvanceIsApplied(w, act);
      if act.pid in w.calls {
        assert CallOk(w.db.effects, w.fx, act.pid, w.calls[act.pid]);
        DoomedNextStep(w.db, w.fx, w.calls, act.pid, act.reply, k);
      }
    } else {
      OtherActionKeepsEffects(w, act);
      assert p in Apply(w, act).calls;
      if !Over(w.calls[p].phase) {
        assert LeaseOk(w.db.agents, w.calls[p]);
        StaleStaysStale(w, act, w.calls[p]);
      }
    }
  }

  lemma StaleStaysStale(w: World, act: Action, c: EffectCall)
    requires LeaseOk(w.db.agents, c) && Holding(c.phase) && w.db.agents[c.key.agentId].ownerEpoch != c.epoch
    ensures c.key.agentId in Apply(w, act).db.agents && Apply(w, act).db.agents[c.key.agentId].ownerEpoch != c.epoch
  {
    hide Apply;
    OwnershipProtocol.LeaseStep(w, act, c.key.agentId);
  }

  /** A doomed effect stays SUBMITTED: no run ever records how its call ended. */
  lemma {:induction false} DoomedForever(run: seq<World>, i: nat, j: nat, k: EffectKey)
    requires IsRun(run) && SettleInv(run[0]) && i <= j < |run| && Doomed(run[i], k)
    ensures Doomed(run[j], k)
    decreases j - i
  {
    hide SettleInv, Apply, Doomed;
    if i < j {
      DoomedForever(run, i, j - 1, k);
      SettleInvRun(run, j - 1);
      assert Step(run[j-1], run[j]);
      var act: Action :| run[j] == Apply(run[j-1], act);
      DoomedStep(run[j-1], act, k);
    }
  }

  lemma {:induction false} DoomedAfter(w: World, acts: seq<Action>, k: EffectKey)
    requires SettleInv(w) && Doomed(w, k)
    ensures SettleInv(After(w, acts)) && Doomed(After(w, acts), k)
    decreases |acts|
  {
    hide SettleInv, Apply, Doomed;
    if acts != [] {
      DoomedAfter(w, acts[..|acts|-1], k);
      SettleInvStep(After(w, acts[..|acts|-1]), acts[|acts|-1]);
      DoomedStep(After(w, acts[..|acts|-1]), acts[|acts|-1], k);
    }
  }

  /** How many steps a holder is away from its last write. */
  function StepsLeft(phase: CallPhase): nat {
    match phase
    case Invoke => 5
    case Await => 4
    case ReadStatus(_) => 3
    case ReadOwner(_) => 2
    case CheckOwner(_, _) => 1
    case _ => 0
  }

  predicate Settled(w: World, k: EffectKey) {
    k in w.db.effects && (w.db.effects[k].status == EFFECT_COMPLETED || w.db.effects[k].status == EFFECT_UNKNOWN)
  }

  /** Some sequence of proxy steps records how the call behind the effect ended. */
  ghost predicate CanSettle(w: World, k: EffectKey) {
    exists acts: seq<Action> :: (forall i :: 0 <= i < |acts| ==> acts[i].AdvanceCall?) && Settled(After(w, acts), k)
  }

  /** With the current epoch the holder's next step goes on towards its last write. */
  lemma HolderGoesOn(w: World, k: EffectKey, p: Pid)
    requires SettleInv(w) && k in w.db.effects && w.db.effects[k].status == SUBMITTED && !Doomed(w, k)
    requires k in w.fx.holders && p == w.fx.holders[k] && p in w.calls && !Recording(w.calls[p].phase)
    ensures var w' := ApplyAdvanceCall(w, p, Failed);
            && SettleInv(w') && k in w'.db.effects && w'.db.effects[k].status == SUBMITTED && !Doomed(w', k)
            && k in w'.fx.holders && w'.fx.holders[k] == p && p in w'.calls
            && StepsLeft(w'.calls[p].phase) < StepsLeft(w.calls[p].phase)
  {
    hide RowsOk, HistoryOk;
    SettleInvAdvance(w, p, Failed);
    assert HolderOk(w.fx, w.calls, k) && LeaseOk(w.db.agents, w.calls[p]);
    assert CallOk(w.db.effects, w.fx, p, w.calls[p]);
  }

  lemma RecordingSettles(w: World, k: EffectKey, p: Pid)
    requires EffectInv(w) && p in w.calls && w.calls[p].key == k && Recording(w.calls[p].phase)
    ensures Settled(Apply(w, AdvanceCall(p, Failed)), k)
  {
    hide RowsOk, HistoryOk;
    assert CallOk(w.db.effects, w.fx, p, w.calls[p]);
  }

  lemma {:induction false} HolderSettles(w: World, k: EffectKey, p: Pid) returns (acts: seq<Action>)
    requires SettleInv(w) && k in w.db.effects && w.db.effects[k].status == SUBMITTED && !Doomed(w, k)
    requires k in w.fx.holders && p == w.fx.holders[k] && p in w.calls
    ensures forall i :: 0 <= i < |acts| ==> acts[i].AdvanceCall?
    ensures Settled(After(w, acts), k)
    decreases StepsLeft(w.calls[p].phase)
  {
    hide EffectInv, Doomed, Apply, LeasesOk;
    assert HolderOk(w.fx, w.calls, k);
    var first := AdvanceCall(p, Failed);
    AdvanceIsApplied(w, first);
    if Recording(w.calls[p].phase) {
      RecordingSettles(w, k, p);
      AfterFirst(w, first, []);
      acts := [first] + [];
    } else {
      HolderGoesOn(w, k, p);
      var rest := HolderSettles(Apply(w, first), k, p);
      AfterFirst(w, first, rest);
      acts := [first] + rest;
    }
  }

  lemma HolderHasAgent(w: World, k: EffectKey)
    requires SettleInv(w) && HolderOk(w.fx, w.calls, k)
    ensures Over(w.calls[w.fx.holders[k]].phase) || k.agentId in w.db.agents
  {
    hide EffectInv;
    assert LeaseOk(w.db.agents, w.calls[w.fx.holders[k]]);
  }

  /** A submitted effect can still be settled by proxy steps if and only if its holder is not over and has either passed
      its last lease check or still holds the current epoch; otherwise nothing ever settles it (DoomedForever). */
  lemma SettlesIffNotDoomed(w: World, k: EffectKey)
    requires Reachable(w) && k in w.db.effects && w.db.effects[k].status == SUBMITTED
    ensures k in w.fx.holders && w.fx.holders[k] in w.calls
    ensures var c := w.calls[w.fx.holders[k]];
            CanSettle(w, k) <==>
              && !Over(c.phase)
              && (Recording(c.phase)
                  || (k.agentId in w.db.agents && w.db.agents[k.agentId].ownerEpoch == c.epoch))
  {
    hide Reachable, EffectInv, Apply, After, LeasesOk;
    SettleInvReachable(w);
    assert HolderOk(w.fx, w.calls, k);
    HolderHasAgent(w, k);
    if Doomed(w, k) {
      forall acts: seq<Action> ensures !Settled(After(w, acts), k) {
        DoomedAfter(w, acts, k);
      }
    } else {
      var acts := HolderSettles(w, k, w.fx.holders[k]);
    }
  }
}
