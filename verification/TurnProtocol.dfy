/**
Executors over whole runs: one executor per step, one result per step, and a commit log
whose steps rise under the engine that owned the epoch.
*/
module TurnProtocol {
  import opened Wrappers
  import opened StateStore
  import opened World
  import opened OwnershipProtocol

  type Claims = map<StepKey, Claim>
  type Turns = map<Pid, Turn>

  /** An executor in flight holds the claim row of its step and runs under a lease its agent really had. */
  ghost predicate TurnOk(agents: Agents, claims: Claims, owners: Owners, t: Turn) {
    && t.key.agentId in agents
    && t.key in claims && claims[t.key] == Claim(t.epoch, t.rid, CLAIMED)
    && t.key.stepId <= agents[t.key.agentId].committedStep + 1
    && t.epoch <= agents[t.key.agentId].ownerEpoch
    && LeaseKey(t.key.agentId, t.epoch) in owners && owners[LeaseKey(t.key.agentId, t.epoch)] == t.engine
    && (t.draft.Some? && t.key.stepId == agents[t.key.agentId].committedStep + 1
        ==> agents[t.key.agentId].content == t.draft.value.base)
  }

  ghost predicate TurnsOk(agents: Agents, claims: Claims, owners: Owners, turns: Turns) {
    forall p :: p in turns ==> TurnOk(agents, claims, owners, turns[p])
  }

  ghost predicate TurnsDistinct(turns: Turns) {
    forall p, q :: p in turns && q in turns && p != q ==> turns[p].key != turns[q].key
  }

  ghost predicate ClaimOk(agents: Agents, registered: Agents, k: StepKey, c: Claim) {
    && k.agentId in agents && k.agentId in registered
    && registered[k.agentId].committedStep < k.stepId <= agents[k.agentId].committedStep + 1
    && (c.status == COMPLETED ==> k.stepId <= agents[k.agentId].committedStep)
  }

  ghost predicate ClaimsOk(agents: Agents, registered: Agents, claims: Claims) {
    forall k :: k in claims ==> ClaimOk(agents, registered, k, claims[k])
  }

  /** An agent advanced by claims alone has a COMPLETED claim for every step since registration. */
  ghost predicate NoGaps(agents: Agents, registered: Agents, claims: Claims, direct: set<AgentId>) {
    forall k: StepKey ::
      && k.agentId in agents && k.agentId in registered && k.agentId !in direct
      && registered[k.agentId].committedStep < k.stepId <= agents[k.agentId].committedStep
      ==> k in claims && claims[k].status == COMPLETED
  }

  ghost predicate StepsRise(agents: Agents, registered: Agents) {
    forall a :: a in agents ==> a in registered && registered[a].committedStep <= agents[a].committedStep
  }

  ghost predicate EntryOk(agents: Agents, owners: Owners, e: CommitEntry) {
    && e.key.agentId in agents
    && e.key.stepId <= agents[e.key.agentId].committedStep
    && e.epoch <= agents[e.key.agentId].ownerEpoch
    && LeaseKey(e.key.agentId, e.epoch) in owners && owners[LeaseKey(e.key.agentId, e.epoch)] == e.engine
  }

  ghost predicate LogOk(agents: Agents, owners: Owners, commits: seq<CommitEntry>) {
    && (forall i :: 0 <= i < |commits| ==> EntryOk(agents, owners, commits[i]))
    && (forall i, j :: 0 <= i < j < |commits| && commits[i].key.agentId == commits[j].key.agentId ==>
          commits[i].key.stepId < commits[j].key.stepId && commits[i].epoch <= commits[j].epoch)
  }

  ghost predicate WorkParts(agents: Agents, claims: Claims, turns: Turns, registered: Agents, owners: Owners,
                            work: WorkLog) {
    && TurnsOk(agents, claims, owners, turns)
    && TurnsDistinct(turns)
    && ClaimsOk(agents, registered, claims)
    && NoGaps(agents, registered, claims, work.direct)
    && StepsRise(agents, registered)
    && LogOk(agents, owners, work.commits)
  }

  ghost predicate TurnInv(w: World) {
    WorkParts(w.db.agents, w.db.claims, w.turns, w.own.registered, w.own.owners, w.work)
  }

  // ---- ownership moves under the executors ----

  lemma GrowthKeepsTurnsOk(w: World, w': World)
    requires TurnsOk(w.db.agents, w.db.claims, w.own.owners, w.turns) && LeasesGrow(w, w')
    ensures TurnsOk(w'.db.agents, w'.db.claims, w'.own.owners, w'.turns)
  {
    forall p | p in w'.turns ensures TurnOk(w'.db.agents, w'.db.claims, w'.own.owners, w'.turns[p]) {
      assert TurnOk(w.db.agents, w.db.claims, w.own.owners, w.turns[p]);
    }
  }

  lemma GrowthKeepsClaims(w: World, w': World)
    requires ClaimsOk(w.db.agents, w.own.registered, w.db.claims) && StepsRise(w.db.agents, w.own.registered)
    requires NoGaps(w.db.agents, w.own.registered, w.db.claims, w.work.direct) && LeasesGrow(w, w')
    ensures ClaimsOk(w'.db.agents, w'.own.registered, w'.db.claims) && StepsRise(w'.db.agents, w'.own.registered)
    ensures NoGaps(w'.db.agents, w'.own.registered, w'.db.claims, w'.work.direct)
  {
  }

  lemma GrowthKeepsLog(w: World, w': World)
    requires LogOk(w.db.agents, w.own.owners, w.work.commits) && LeasesGrow(w, w')
    ensures LogOk(w'.db.agents, w'.own.owners, w'.work.commits)
  {
    forall i | 0 <= i < |w'.work.commits| ensures EntryOk(w'.db.agents, w'.own.owners, w'.work.commits[i]) {
      assert EntryOk(w.db.agents, w.own.owners, w.work.commits[i]);
    }
  }

  lemma GrowthKeepsTurnInv(w: World, w': World)
    requires TurnInv(w) && LeasesGrow(w, w')
    ensures TurnInv(w')
  {
    hide TurnsOk, TurnsDistinct, ClaimsOk, NoGaps, StepsRise, LogOk;
    GrowthKeepsTurnsOk(w, w');
    GrowthKeepsClaims(w, w');
    GrowthKeepsLog(w, w');
  }

  // ---- committing one step: the row advances, the log grows by one entry ----

  function Advanced(agents: Agents, a: AgentId, step: int, content: Content): Agents
    requires a in agents
  {
    agents[a := agents[a].(committedStep := step, content := content)]
  }

  lemma CommitKeepsLog(agents: Agents, owners: Owners, commits: seq<CommitEntry>, e: CommitEntry, content: Content)
    requires LogOk(agents, owners, commits)
    requires e.key.agentId in agents && agents[e.key.agentId].committedStep < e.key.stepId
    requires e.epoch == agents[e.key.agentId].ownerEpoch
    requires LeaseKey(e.key.agentId, e.epoch) in owners && owners[LeaseKey(e.key.agentId, e.epoch)] == e.engine
    ensures LogOk(Advanced(agents, e.key.agentId, e.key.stepId, content), owners, commits + [e])
  {
    var agents' := Advanced(agents, e.key.agentId, e.key.stepId, content);
    forall i | 0 <= i < |commits| ensures EntryOk(agents', owners, commits[i]) {
      assert EntryOk(agents, owners, commits[i]);
    }
  }

  /** Executors other than the committing one survive a commit: they work on other steps. */
  lemma CommitKeepsTurns(agents: Agents, claims: Claims, owners: Owners, turns: Turns, k: StepKey, content: Content,
                         claims': Claims)
    requires TurnsOk(agents, claims, owners, turns)
    requires k.agentId in agents && agents[k.agentId].committedStep < k.stepId
    requires forall p :: p in turns ==> turns[p].key in claims' && claims'[turns[p].key] == claims[turns[p].key]
    ensures TurnsOk(Advanced(agents, k.agentId, k.stepId, content), claims', owners, turns)
  {
    var agents' := Advanced(agents, k.agentId, k.stepId, content);
    forall p | p in turns ensures TurnOk(agents', claims', owners, turns[p]) {
      assert TurnOk(agents, claims, owners, turns[p]);
    }
  }

  lemma DirectCommitKeepsClaims(agents: Agents, registered: Agents, claims: Claims, direct: set<AgentId>, k: StepKey,
                                content: Content)
    requires ClaimsOk(agents, registered, claims) && NoGaps(agents, registered, claims, direct)
    requires StepsRise(agents, registered)
    requires k.agentId in agents && agents[k.agentId].committedStep < k.stepId
    ensures var agents' := Advanced(agents, k.agentId, k.stepId, content);
            && ClaimsOk(agents', registered, claims)
            && NoGaps(agents', registered, claims, direct + {k.agentId})
            && StepsRise(agents', registered)
  {
    var agents' := Advanced(agents, k.agentId, k.stepId, content);
    forall c | c in claims ensures ClaimOk(agents', registered, c, claims[c]) {
      assert ClaimOk(agents, registered, c, claims[c]);
    }
  }

  lemma TurnCommitKeepsClaims(agents: Agents, registered: Agents, claims: Claims, direct: set<AgentId>, k: StepKey,
                              content: Content)
    requires ClaimsOk(agents, registered, claims) && NoGaps(agents, registered, claims, direct)
    requires StepsRise(agents, registered)
    requires k in claims && k.agentId in agents && k.stepId == agents[k.agentId].committedStep + 1
    ensures var agents' := Advanced(agents, k.agentId, k.stepId, content);
            var claims' := claims[k := claims[k].(status := COMPLETED)];
            && ClaimsOk(agents', registered, claims')
            && NoGaps(agents', registered, claims', direct)
            && StepsRise(agents', registered)
  {
    var agents' := Advanced(agents, k.agentId, k.stepId, content);
    var claims' := claims[k := claims[k].(status := COMPLETED)];
    forall c | c in claims' ensures ClaimOk(agents', registered, c, claims'[c]) {
      assert ClaimOk(agents, registered, c, claims[c]);
    }
  }

  lemma TurnInvCommitDirectly(w: World, a: AgentId, step: int, content: Content, epoch: int)
    requires OwnInv(w) && TurnInv(w)
    ensures TurnInv(ApplyCommitDirectly(w, a, step, content, epoch))
  {
    hide CountsOk, RecordsOk, StartsOk, MovesOk, Exclusive, TurnsDistinct, ClaimsOk, NoGaps, StepsRise, LogOk,
         EntryOk, TurnOk;
    if TxCommitStep(w.db, a, step, content, epoch).Ok? {
      var k := StepKey(a, step);
      CommitKeepsTurns(w.db.agents, w.db.claims, w.own.owners, w.turns, k, content, w.db.claims) by {
        forall p | p in w.turns ensures w.turns[p].key in w.db.claims {
          assert TurnOk(w.db.agents, w.db.claims, w.own.owners, w.turns[p]);
          TurnHasClaim(w.db.agents, w.db.claims, w.own.owners, w.turns[p]);
        }
      }
      DirectCommitKeepsClaims(w.db.agents, w.own.registered, w.db.claims, w.work.direct, k, content);
      CommitKeepsLog(w.db.agents, w.own.owners, w.work.commits, CommitEntry(k, epoch, w.db.agents[a].ownerEngine),
                     content);
    }
  }

  lemma TurnHasClaim(agents: Agents, claims: Claims, owners: Owners, t: Turn)
    requires TurnOk(agents, claims, owners, t)
    ensures t.key in claims && claims[t.key] == Claim(t.epoch, t.rid, CLAIMED)
    ensures t.key.agentId in agents
    ensures LeaseKey(t.key.agentId, t.epoch) in owners && owners[LeaseKey(t.key.agentId, t.epoch)] == t.engine
  {
  }

  lemma TurnInvCommitTurn(w: World, pid: Pid)
    requires TurnInv(w)
    ensures TurnInv(ApplyCommitTurn(w, pid))
  {
    hide ClaimsOk, NoGaps, StepsRise, LogOk, EntryOk, TurnOk, TurnContent;
    if pid in w.turns && w.turns[pid].draft.Some? {
      var t := w.turns[pid];
      var rest := w.turns - {pid};
      assert TurnsOk(w.db.agents, w.db.claims, w.own.owners, rest) && TurnsDistinct(rest);
      if TurnCommitTx(w.db, t).Ok? {
        var content := TurnContent(t, t.draft.value);
        var claims' := w.db.claims[t.key := w.db.claims[t.key].(status := COMPLETED)];
        assert TurnOk(w.db.agents, w.db.claims, w.own.owners, t);
        TurnHasClaim(w.db.agents, w.db.claims, w.own.owners, t);
        forall p | p in rest ensures rest[p].key in claims' && claims'[rest[p].key] == w.db.claims[rest[p].key] {
          TurnHasClaim(w.db.agents, w.db.claims, w.own.owners, rest[p]);
        }
        CommitKeepsTurns(w.db.agents, w.db.claims, w.own.owners, rest, t.key, content, claims');
        TurnCommitKeepsClaims(w.db.agents, w.own.registered, w.db.claims, w.work.direct, t.key, content);
        CommitKeepsLog(w.db.agents, w.own.owners, w.work.commits, CommitEntry(t.key, t.epoch, t.engine), content);
      }
    }
  }

  // ---- claiming, failing, reading, crashing ----

  lemma TurnInvClaim(w: World, pid: Pid, t: Turn)
    requires OwnInv(w) && TurnInv(w)
    ensures TurnInv(ApplyClaimTurn(w, pid, t))
  {
    hide CountsOk, RecordsOk, StartsOk, MovesOk, Exclusive, LogOk, ClaimsOk, NoGaps, StepsRise, TurnsOk, TurnsDistinct;
    if TxClaimStep(w.db, t.key, t.engine, t.epoch, t.rid).Ok? && t.draft == None {
      ClaimKeepsClaims(w.db.agents, w.own.registered, w.db.claims, w.work.direct, t);
      ClaimKeepsTurns(w.db.agents, w.db.claims, w.own.registered, w.own.owners, w.turns, pid, t);
    }
  }

  lemma ClaimKeepsClaims(agents: Agents, registered: Agents, claims: Claims, direct: set<AgentId>, t: Turn)
    requires ClaimsOk(agents, registered, claims) && NoGaps(agents, registered, claims, direct)
             && StepsRise(agents, registered)
    requires t.key.agentId in agents && t.key.stepId == agents[t.key.agentId].committedStep + 1
    ensures ClaimsOk(agents, registered, claims[t.key := Claim(t.epoch, t.rid, CLAIMED)])
    ensures NoGaps(agents, registered, claims[t.key := Claim(t.epoch, t.rid, CLAIMED)], direct)
  {
    assert forall k :: k in claims ==> ClaimOk(agents, registered, k, claims[k]);
  }

  lemma ClaimKeepsTurns(agents: Agents, claims: Claims, registered: Agents, owners: Owners, turns: Turns, pid: Pid,
                        t: Turn)
    requires TurnsOk(agents, claims, owners, turns) && TurnsDistinct(turns) && LeasesOk(agents, registered, owners)
    requires t.key.agentId in agents && t.key.stepId == agents[t.key.agentId].committedStep + 1 && t.draft == None
    requires agents[t.key.agentId].ownerEngine == t.engine && agents[t.key.agentId].ownerEpoch == t.epoch
    requires t.key in claims ==> claims[t.key].status == FAILED
    ensures TurnsOk(agents, claims[t.key := Claim(t.epoch, t.rid, CLAIMED)], owners, turns[pid := t])
    ensures TurnsDistinct(turns[pid := t])
  {
    forall p | p in turns ensures turns[p].key != t.key {
      assert TurnOk(agents, claims, owners, turns[p]);
    }
  }

  lemma TurnInvFail(w: World, pid: Pid)
    requires TurnInv(w)
    ensures TurnInv(ApplyFailTurn(w, pid))
  {
    hide LogOk, StepsRise;
    if pid in w.turns && w.turns[pid].draft == None {
      var t := w.turns[pid];
      assert TurnOk(w.db.agents, w.db.claims, w.own.owners, t);
      forall p | p in w.turns && p != pid ensures w.turns[p].key != t.key {
        assert TurnOk(w.db.agents, w.db.claims, w.own.owners, w.turns[p]);
      }
      assert ClaimOk(w.db.agents, w.own.registered, t.key, w.db.claims[t.key]);
    }
  }

  lemma TurnInvRead(w: World, pid: Pid, outputIds: seq<int>)
    requires TurnInv(w)
    ensures TurnInv(ApplyReadTurn(w, pid, outputIds)) && TurnInv(w.(turns := w.turns - {pid}))
  {
    hide LogOk, StepsRise, ClaimsOk, NoGaps;
    if pid in w.turns {
      assert TurnOk(w.db.agents, w.db.claims, w.own.owners, w.turns[pid]);
    }
  }

  lemma TurnInvStep(w: World, act: Action)
    requires OwnInv(w) && TurnInv(w)
    ensures TurnInv(Apply(w, act))
  {
    hide OwnInv, ApplyRegister, ApplyReadStartLease, ApplyInsertStart, ApplyTransition, ApplyCommitOwnership,
         ApplyRecoverOwnership, ApplyCommitDirectly, ApplyClaimTurn, ApplyFailTurn, ApplyReadTurn, ApplyCommitTurn,
         NextStep, WorkParts;
    if TouchesOwnership(act) {
      OwnershipGrowsLeases(w, act);
      GrowthKeepsTurnInv(w, Apply(w, act));
    } else if act.CommitDirectly? {
      TurnInvCommitDirectly(w, act.agentId, act.step, act.content, act.expectedEpoch);
    } else if act.ClaimTurn? {
      TurnInvClaim(w, act.pid, act.turn);
    } else if act.FailTurn? {
      TurnInvFail(w, act.pid);
    } else if act.ReadTurn? {
      TurnInvRead(w, act.pid, act.outputIds);
    } else if act.CrashTurn? {
      TurnInvRead(w, act.pid, []);
    } else if act.CommitTurn? {
      TurnInvCommitTurn(w, act.pid);
    }
  }

  /** Every world of a run keeps the executors' invariant. */
  lemma {:induction false} TurnInvRun(run: seq<World>, i: nat)
    requires IsRun(run) && OwnInv(run[0]) && TurnInv(run[0]) && i < |run|
    ensures TurnInv(run[i])
  {
    hide OwnInv, TurnInv, Apply;
    if i > 0 {
      TurnInvRun(run, i - 1);
      OwnInvRun(run, i - 1);
      assert Step(run[i-1], run[i]);
      var act: Action :| run[i] == Apply(run[i-1], act);
      TurnInvStep(run[i-1], act);
    }
  }

  lemma TurnInvReachable(w: World)
    requires Reachable(w)
    ensures TurnInv(w)
  {
    hide Step;
    var run: seq<World> :| IsRun(run) && run[0] == INITIAL && run[|run|-1] == w;
    TurnInvRun(run, |run| - 1);
  }

  // ---- what it means for every reachable world ----

  /** At most one executor is between claim and fail or commit of a step, even when rids repeat. */
  lemma OneExecutorPerStep(w: World, p: Pid, q: Pid)
    requires Reachable(w) && p in w.turns && q in w.turns && w.turns[p].key == w.turns[q].key
    ensures p == q
  {
    hide Reachable, TurnsOk, ClaimsOk, NoGaps, StepsRise, LogOk;
    TurnInvReachable(w);
  }

  /** An executor whose engine failed can always record it: fail_claimed_step never finds its claim gone. */
  lemma FailNeverConflicts(w: World, p: Pid)
    requires Reachable(w) && p in w.turns
    ensures TxFailClaimedStep(w.db, w.turns[p].key, w.turns[p].rid, false).Ok?
  {
    hide Reachable, TurnsDistinct, ClaimsOk, NoGaps, StepsRise, LogOk;
    TurnInvReachable(w);
    assert TurnOk(w.db.agents, w.db.claims, w.own.owners, w.turns[p]);
  }

  /**
  An executor's commit succeeds exactly while its epoch is current and its step is next.  The continuation it read
  back after generating is then still the stored one, so nothing another writer stored is lost.
  */
  lemma CommitOutcome(w: World, p: Pid)
    requires Reachable(w) && p in w.turns && w.turns[p].draft.Some?
    ensures var t := w.turns[p];
            && t.key.agentId in w.db.agents
            && var row := w.db.agents[t.key.agentId];
               && (TurnCommitTx(w.db, t).Ok? <==> row.ownerEpoch == t.epoch && t.key.stepId == row.committedStep + 1)
               && (TurnCommitTx(w.db, t).Ok? ==>
                     && row.ownerEngine == t.engine
                     && TurnCommitTx(w.db, t).value.agents[t.key.agentId].content
                        == row.content.(tokenIds := t.inputIds + t.draft.value.outputIds,
                                        pendingToolFuture := t.pendingToolFuture,
                                        streamOffset := row.content.streamOffset + |t.draft.value.outputIds|))
  {
    hide Reachable, TurnsDistinct, ClaimsOk, NoGaps, StepsRise, LogOk, CountsOk, RecordsOk, StartsOk, MovesOk,
         Exclusive;
    TurnInvReachable(w);
    OwnInvReachable(w);
    assert TurnOk(w.db.agents, w.db.claims, w.own.owners, w.turns[p]);
  }

  /** Commits of an agent rise strictly in step and never fall in epoch, each under the engine that owned its epoch. */
  lemma CommitLogIsFenced(w: World, i: nat, j: nat)
    requires Reachable(w) && i < |w.work.commits| && j < |w.work.commits|
    ensures var e := w.work.commits[i];
            && LeaseKey(e.key.agentId, e.epoch) in w.own.owners
            && w.own.owners[LeaseKey(e.key.agentId, e.epoch)] == e.engine
    ensures i < j && w.work.commits[i].key.agentId == w.work.commits[j].key.agentId ==>
              && w.work.commits[i].key.stepId < w.work.commits[j].key.stepId
              && w.work.commits[i].epoch <= w.work.commits[j].epoch
  {
    hide Reachable, TurnsOk, TurnsDistinct, ClaimsOk, NoGaps, StepsRise;
    TurnInvReachable(w);
    assert EntryOk(w.db.agents, w.own.owners, w.work.commits[i]);
  }

  /** At most one result is ever committed for a step. */
  lemma OneResultPerStep(w: World, i: nat, j: nat)
    requires Reachable(w) && i < |w.work.commits| && j < |w.work.commits|
    requires w.work.commits[i].key == w.work.commits[j].key
    ensures i == j
  {
    hide Reachable;
    CommitLogIsFenced(w, i, j);
    CommitLogIsFenced(w, j, i);
  }

  /** For an agent advanced by claims alone the COMPLETED steps are exactly those after registration up to the current
      one. */
  lemma CompletedStepsAreAnInterval(w: World, k: StepKey)
    requires Reachable(w) && k.agentId in w.db.agents && k.agentId !in w.work.direct
    ensures k.agentId in w.own.registered
    ensures (k in w.db.claims && w.db.claims[k].status == COMPLETED)
            <==> w.own.registered[k.agentId].committedStep < k.stepId <= w.db.agents[k.agentId].committedStep
  {
    hide Reachable, TurnsOk, TurnsDistinct, LogOk;
    TurnInvReachable(w);
    assert k in w.db.claims ==> ClaimOk(w.db.agents, w.own.registered, k, w.db.claims[k]);
  }

  // ---- what a lost executor costs ----

  function NextKey(w: World, a: AgentId): StepKey
    requires a in w.db.agents
  {
    StepKey(a, w.db.agents[a].committedStep + 1)
  }

  /** The agent's next step is claimed, or of unknown outcome, and every executor on it has generated under a lease that
      has moved since. */
  ghost predicate Stuck(w: World, a: AgentId) {
    && a in w.db.agents
    && var k := NextKey(w, a);
       && k in w.db.claims && (w.db.claims[k].status == CLAIMED || w.db.claims[k].status == UNKNOWN)
       && forall p :: p in w.turns && w.turns[p].key == k ==>
            w.turns[p].draft.Some? && w.turns[p].epoch < w.db.agents[a].ownerEpoch
  }

  /** An action of some executor: claim, read back, fail or commit. */
  predicate ByExecutor(act: Action) { act.ClaimTurn? || act.ReadTurn? || act.FailTurn? || act.CommitTurn? }

  predicate Spares(act: Action, a: AgentId) { !(act.CommitDirectly? && act.agentId == a) }

  /** A crash leaves the step stuck, and so does a lease that moves between generation and commit. */
  lemma LostExecutorIsStuck(w: World, p: Pid)
    requires Reachable(w) && p in w.turns
    requires w.turns[p].key.agentId in w.db.agents
    requires w.turns[p].key.stepId == w.db.agents[w.turns[p].key.agentId].committedStep + 1
    ensures Stuck(Apply(w, CrashTurn(p)), w.turns[p].key.agentId)
    ensures w.turns[p].draft.Some? && w.turns[p].epoch != w.db.agents[w.turns[p].key.agentId].ownerEpoch ==>
              Stuck(w, w.turns[p].key.agentId)
  {
    hide Reachable, ClaimsOk, NoGaps, StepsRise, LogOk;
    TurnInvReachable(w);
    assert TurnOk(w.db.agents, w.db.claims, w.own.owners, w.turns[p]);
  }

  lemma StuckKept(w: World, w': World, a: AgentId)
    requires Stuck(w, a) && LeasesGrow(w, w')
    ensures Stuck(w', a) && w'.db.agents[a].committedStep == w.db.agents[a].committedStep
  {
  }

  /** Neither a claim, a failure, a read nor a commit of any executor gets past a stuck step. */
  lemma ExecutorKeepsStuck(w: World, act: Action, a: AgentId)
    requires TurnInv(w) && Stuck(w, a) && ByExecutor(act)
    ensures Stuck(Apply(w, act), a) && Apply(w, act).db.agents[a].committedStep == w.db.agents[a].committedStep
  {
    hide ClaimsOk, NoGaps, StepsRise, LogOk, ApplyCommitTurn;
    match act
    case ClaimTurn(_, _) =>
    case ReadTurn(_, _) =>
    case FailTurn(p) =>
      if p in w.turns {
        assert TurnOk(w.db.agents, w.db.claims, w.own.owners, w.turns[p]);
      }
    case CommitTurn(p) => CommitKeepsStuck(w, p, a);
  }

  lemma CommitKeepsStuck(w: World, p: Pid, a: AgentId)
    requires TurnInv(w) && Stuck(w, a)
    ensures Stuck(Apply(w, CommitTurn(p)), a)
    ensures Apply(w, CommitTurn(p)).db.agents[a].committedStep == w.db.agents[a].committedStep
  {
    hide ClaimsOk, NoGaps, StepsRise, LogOk, TurnContent;
    if p in w.turns {
      assert TurnOk(w.db.agents, w.db.claims, w.own.owners, w.turns[p]);
    }
  }

  lemma OtherWorkKeepsStuck(w: World, act: Action, a: AgentId)
    requires Stuck(w, a) && Spares(act, a) && !TouchesOwnership(act) && !ByExecutor(act)
    ensures Stuck(Apply(w, act), a) && Apply(w, act).db.agents[a].committedStep == w.db.agents[a].committedStep
  {
    hide NextStep;
  }

  lemma StuckStep(w: World, act: Action, a: AgentId)
    requires OwnInv(w) && TurnInv(w) && Stuck(w, a) && Spares(act, a)
    ensures Stuck(Apply(w, act), a) && Apply(w, act).db.agents[a].committedStep == w.db.agents[a].committedStep
  {
    hide OwnInv, TurnInv, Stuck, Apply, LeasesGrow;
    if TouchesOwnership(act) {
      OwnershipGrowsLeases(w, act);
      StuckKept(w, Apply(w, act), a);
    } else if ByExecutor(act) {
      ExecutorKeepsStuck(w, act, a);
    } else {
      OtherWorkKeepsStuck(w, act, a);
    }
  }

  /** Without a direct commit_step a stuck agent never commits again, whoever owns it and whatever anybody else does. */
  lemma {:induction false} StuckForever(w: World, acts: seq<Action>, a: AgentId)
    requires Reachable(w) && Stuck(w, a) && forall i :: 0 <= i < |acts| ==> Spares(acts[i], a)
    ensures Stuck(After(w, acts), a) && a in w.db.agents
    ensures After(w, acts).db.agents[a].committedStep == w.db.agents[a].committedStep
    decreases |acts|
  {
    hide Reachable, Apply, OwnInv, TurnInv;
    if acts != [] {
      var front := acts[..|acts|-1];
      StuckForever(w, front, a);
      AfterIsReachable(w, front);
      OwnInvReachable(After(w, front));
      TurnInvReachable(After(w, front));
      hide Stuck;
      StuckStep(After(w, front), acts[|acts|-1], a);
    }
  }

  // ---- and what any other agent can still do ----

  /** An unclaimed or failed next step can be claimed, generated and committed by the owner. */
  lemma FreeStepAdvances(w: World, a: AgentId) returns (acts: seq<Action>)
    requires a in w.db.agents && (NextKey(w, a) in w.db.claims ==> w.db.claims[NextKey(w, a)].status == FAILED)
    ensures forall i :: 0 <= i < |acts| ==> ByExecutor(acts[i])
    ensures a in After(w, acts).db.agents
    ensures After(w, acts).db.agents[a].committedStep == w.db.agents[a].committedStep + 1
  {
    var p := FreshPid(w.turns.Keys);
    var row, k := w.db.agents[a], NextKey(w, a);
    var turn := Turn(k, row.ownerEngine, row.ownerEpoch, "", [], None, None);
    var v := w;
    acts := [];
    acts, v := Then(w, acts, v, ClaimTurn(p, turn));
    assert v.turns[p] == turn && v.db.claims[k] == Claim(row.ownerEpoch, "", CLAIMED) && v.db.agents == w.db.agents;
    acts, v := Then(w, acts, v, ReadTurn(p, []));
    assert v.turns[p].draft.Some? && v.db.claims[k] == Claim(row.ownerEpoch, "", CLAIMED) && v.db.agents == w.db.agents;
    hide TurnContent;
    acts, v := Then(w, acts, v, CommitTurn(p));
  }

  lemma CurrentTurnAdvances(w: World, p: Pid)
    requires TurnInv(w) && p in w.turns && w.turns[p].draft.Some? && w.turns[p].key.agentId in w.db.agents
    requires w.turns[p].key == NextKey(w, w.turns[p].key.agentId)
    requires w.turns[p].epoch == w.db.agents[w.turns[p].key.agentId].ownerEpoch
    ensures var a, w' := w.turns[p].key.agentId, Apply(w, CommitTurn(p));
            a in w'.db.agents && w'.db.agents[a].committedStep == w.db.agents[a].committedStep + 1
  {
    hide TurnContent, ClaimsOk, NoGaps, StepsRise, LogOk;
    assert TurnOk(w.db.agents, w.db.claims, w.own.owners, w.turns[p]);
  }

  lemma FailedTurnFreesStep(w: World, p: Pid)
    requires TurnInv(w) && p in w.turns && w.turns[p].draft.None?
    ensures var k, w' := w.turns[p].key, Apply(w, FailTurn(p));
            w'.db.agents == w.db.agents && k in w'.db.claims && w'.db.claims[k].status == FAILED
  {
    hide ClaimsOk, NoGaps, StepsRise, LogOk;
    assert TurnOk(w.db.agents, w.db.claims, w.own.owners, w.turns[p]);
  }

  ghost predicate Busy(w: World, a: AgentId, p: Pid)
    requires a in w.db.agents
  {
    && p in w.turns && w.turns[p].key == NextKey(w, a)
    && (w.turns[p].draft.None? || w.turns[p].epoch >= w.db.agents[a].ownerEpoch)
  }

  lemma NotStuckMeans(w: World, a: AgentId)
    requires OwnInv(w) && TurnInv(w) && a in w.db.agents && !Stuck(w, a)
    ensures (NextKey(w, a) in w.db.claims ==> w.db.claims[NextKey(w, a)].status == FAILED) || exists p :: Busy(w, a, p)
  {
    hide CountsOk, RecordsOk, StartsOk, MovesOk, Exclusive, LogOk, NoGaps, StepsRise;
    var k := NextKey(w, a);
    if k in w.db.claims {
      assert ClaimOk(w.db.agents, w.own.registered, k, w.db.claims[k]);
      if w.db.claims[k].status == CLAIMED || w.db.claims[k].status == UNKNOWN {
        var p :| p in w.turns && w.turns[p].key == k
                 && !(w.turns[p].draft.Some? && w.turns[p].epoch < w.db.agents[a].ownerEpoch);
        assert Busy(w, a, p);
      }
    }
  }

  /** Executors alone can take an agent that is not stuck to its next committed step. */
  lemma NotStuckAdvances(w: World, a: AgentId) returns (acts: seq<Action>)
    requires Reachable(w) && a in w.db.agents && !Stuck(w, a)
    ensures forall i :: 0 <= i < |acts| ==> ByExecutor(acts[i])
    ensures a in After(w, acts).db.agents
    ensures After(w, acts).db.agents[a].committedStep == w.db.agents[a].committedStep + 1
  {
    hide Reachable, OwnInv, TurnInv, Stuck, Apply;
    OwnInvReachable(w);
    TurnInvReachable(w);
    NotStuckMeans(w, a);
    if NextKey(w, a) in w.db.claims && w.db.claims[NextKey(w, a)].status != FAILED {
      var p :| Busy(w, a, p);
      if w.turns[p].draft.None? {
        FailedTurnFreesStep(w, p);
        var w' := Apply(w, FailTurn(p));
        var rest := FreeStepAdvances(w', a);
        AfterFirst(w, FailTurn(p), rest);
        acts := [FailTurn(p)] + rest;
      } else {
        BusyIsCurrent(w, a, p);
        CurrentTurnAdvances(w, p);
        AfterFirst(w, CommitTurn(p), []);
        acts := [CommitTurn(p)] + [];
      }
    } else {
      acts := FreeStepAdvances(w, a);
    }
  }

  lemma BusyIsCurrent(w: World, a: AgentId, p: Pid)
    requires TurnInv(w) && a in w.db.agents && Busy(w, a, p)
    ensures w.turns[p].draft.Some? ==> w.turns[p].epoch == w.db.agents[a].ownerEpoch
  {
    assert TurnOk(w.db.agents, w.db.claims, w.own.owners, w.turns[p]);
  }

  /** Some sequence of executor actions takes the agent past its committed step. */
  ghost predicate CanAdvance(w: World, a: AgentId)
    requires a in w.db.agents
  {
    exists acts: seq<Action> ::
      && (forall i :: 0 <= i < |acts| ==> ByExecutor(acts[i]))
      && a in After(w, acts).db.agents && After(w, acts).db.agents[a].committedStep > w.db.agents[a].committedStep
  }

  /** An agent can still be advanced by executors if and only if it is not stuck; and a stuck agent is not advanced by
      anything but a direct commit_step (StuckForever). */
  lemma AdvancesIffNotStuck(w: World, a: AgentId)
    requires Reachable(w) && a in w.db.agents
    ensures CanAdvance(w, a) <==> !Stuck(w, a)
  {
    hide Reachable, Stuck, Apply;
    if Stuck(w, a) {
      forall acts: seq<Action> | forall i :: 0 <= i < |acts| ==> ByExecutor(acts[i])
        ensures a in After(w, acts).db.agents ==>
                  After(w, acts).db.agents[a].committedStep == w.db.agents[a].committedStep
      {
        StuckForever(w, acts, a);
      }
    } else {
      var acts := NotStuckAdvances(w, a);
    }
  }

  /** A claim whose executor crashed: the shortest run to a stuck agent. */
  lemma StuckIsReachable(a: AgentId, row: Agent) returns (w: World)
    ensures Reachable(w) && Stuck(w, a)
  {
    hide Reachable, Stuck;
    InitialIsReachable();
    ReachableStep(INITIAL, Register(a, row));
    var registered := Apply(INITIAL, Register(a, row));
    assert registered.db.agents == map[a := row] && registered.turns == map[] && registered.db.claims == map[];
    var turn := Turn(StepKey(a, row.committedStep + 1), row.ownerEngine, row.ownerEpoch, "", [], None, None);
    ReachableStep(registered, ClaimTurn(0, turn));
    var claimed := Apply(registered, ClaimTurn(0, turn));
    assert claimed.turns == map[0 := turn] && claimed.db.agents == registered.db.agents;
    ReachableStep(claimed, CrashTurn(0));
    LostExecutorIsStuck(claimed, 0);
    w := Apply(claimed, CrashTurn(0));
  }
}
