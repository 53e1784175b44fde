/**
Any number of coordinators, executors and effect proxies over one set of tables.

A run is a sequence of actions.  Each action is one transaction or one bare read, so
everything may interleave between a check and the write that relies on it, and a crash
is a process that never acts again.  An action that is not enabled, or whose transaction
raises, changes no table.
*/
module World {
  import opened Wrappers
  import opened StateStore

  type Pid = nat

  datatype LeaseKey = LeaseKey(agentId: AgentId, epoch: int)

  /** start_migration after its lease read and before its insert. */
  datatype StartCall = StartCall(id: MigrationId, m: Migration)

  /** What run_turn holds once generation returned and the continuation was read back. */
  datatype Draft = Draft(base: Content, outputIds: seq<int>)

  /** run_turn between its claim and its commit; `draft` is empty while the engine generates. */
  datatype Turn = Turn(
    key: StepKey,
    engine: EngineId,
    epoch: int,
    rid: string,
    inputIds: seq<int>,
    pendingToolFuture: Option<string>,
    draft: Option<Draft>)

  /** How the external call ended. */
  datatype Reply = Answered(result: Json) | Failed

  /** The three store calls of ManagedEffectProxy.execute. */
  datatype Stage = Prepare | Submit | Finish(reply: Reply)

  datatype CallPhase =
    | ReadStatus(stage: Stage)
    | ReadOwner(stage: Stage)
    | CheckOwner(stage: Stage, owner: EngineId)
    | Write(stage: Stage)
    | Fetch
    | Invoke
    | Await
    | Returned(result: Json)
    | Raised
    | Crashed

  datatype EffectCall = EffectCall(key: EffectKey, epoch: int, payload: Json, phase: CallPhase)

  datatype CommitEntry = CommitEntry(key: StepKey, epoch: int, engine: EngineId)

  /** History of ownership: registered rows, the engine of every epoch, moves made through each record, and the state
      that a record was in when it was marked ABORTED although ownership had moved through it. */
  datatype OwnershipLog = OwnershipLog(
    registered: map<AgentId, Agent>,
    owners: map<LeaseKey, EngineId>,
    moves: map<MigrationId, nat>,
    cleared: map<MigrationId, MigrationState>)

  /** History of work: committed steps in order, and the agents that ever used commit_step directly. */
  datatype WorkLog = WorkLog(commits: seq<CommitEntry>, direct: set<AgentId>)

  /** History of external calls: who won the right to call, how often it called, what came back. */
  datatype EffectLog = EffectLog(
    holders: map<EffectKey, Pid>,
    invocations: map<EffectKey, nat>,
    replies: map<EffectKey, Reply>)

  datatype World = World(
    db: Tables,
    starts: map<Pid, StartCall>,
    turns: map<Pid, Turn>,
    calls: map<Pid, EffectCall>,
    own: OwnershipLog,
    work: WorkLog,
    fx: EffectLog)

  const INITIAL := World(EMPTY_TABLES, map[], map[], map[],
                         OwnershipLog(map[], map[], map[], map[]), WorkLog([], {}), EffectLog(map[], map[], map[]))

  datatype Action =
    | Register(agentId: AgentId, row: Agent)
    | CommitDirectly(agentId: AgentId, step: int, content: Content, expectedEpoch: int)
    | ReadStartLease(pid: Pid, id: MigrationId, m: Migration)
    | InsertStart(pid: Pid)
    | Transition(id: MigrationId, expected: MigrationState, target: MigrationState, progress: Progress)
    | CommitOwnership(id: MigrationId)
    | RecoverOwnership(id: MigrationId, engine: EngineId)
    | ClaimTurn(pid: Pid, turn: Turn)
    | FailTurn(pid: Pid)
    | ReadTurn(pid: Pid, outputIds: seq<int>)
    | CommitTurn(pid: Pid)
    | CrashTurn(pid: Pid)
    | BeginCall(pid: Pid, key: EffectKey, epoch: int, payload: Json)
    | AdvanceCall(pid: Pid, reply: Reply)
    | CrashCall(pid: Pid)

  /** Reconciliation lists ids first and reads their rows one by one: it aborts a record from whatever state its row was
      read in, which may be one that the record reached after it was listed. */
  predicate LatePair(expected: MigrationState, target: MigrationState) {
    (expected == SOURCE_RELEASED || expected == RECOVERED) && target == ABORTED
  }

  /** The transitions the coordinators issue; commits and recoveries have transactions of their own. */
  predicate CoordinatorPair(expected: MigrationState, target: MigrationState) {
    || (expected == PREPARING && target == COPYING)
    || (expected == COPYING && target == DEST_READY)
    || (expected == COMMITTED && target == SOURCE_RELEASED)
    || ((expected == PREPARING || expected == COPYING || expected == DEST_READY) && target == ABORTED)
    || (expected == ABORTED && target == ABORTED)
    || LatePair(expected, target)
  }

  function Apply(w: World, act: Action): World {
    match act
    case Register(a, row) => ApplyRegister(w, a, row)
    case CommitDirectly(a, step, content, epoch) => ApplyCommitDirectly(w, a, step, content, epoch)
    case ReadStartLease(pid, id, m) => ApplyReadStartLease(w, pid, id, m)
    case InsertStart(pid) => ApplyInsertStart(w, pid)
    case Transition(id, expected, target, progress) => ApplyTransition(w, id, expected, target, progress)
    case CommitOwnership(id) => ApplyCommitOwnership(w, id)
    case RecoverOwnership(id, engine) => ApplyRecoverOwnership(w, id, engine)
    case ClaimTurn(pid, turn) => ApplyClaimTurn(w, pid, turn)
    case FailTurn(pid) => ApplyFailTurn(w, pid)
    case ReadTurn(pid, outputIds) => ApplyReadTurn(w, pid, outputIds)
    case CommitTurn(pid) => ApplyCommitTurn(w, pid)
    case CrashTurn(pid) => w.(turns := w.turns - {pid})
    case BeginCall(pid, key, epoch, payload) =>
      if pid in w.calls then w else w.(calls := w.calls[pid := EffectCall(key, epoch, payload, ReadOwner(Prepare))])
    case AdvanceCall(pid, reply) => ApplyAdvanceCall(w, pid, reply)
    case CrashCall(pid) =>
      if pid in w.calls then w.(calls := w.calls[pid := w.calls[pid].(phase := Crashed)]) else w
  }

  ghost predicate Step(w: World, w': World) {
    exists act: Action :: w' == Apply(w, act)
  }

  /** The successive worlds of a run, starting from any world. */
  ghost predicate IsRun(run: seq<World>) {
    && |run| > 0
    && forall i :: 0 < i < |run| ==> Step(run[i-1], run[i])
  }

  /** Some run from the empty tables ends in `w`. */
  ghost predicate Reachable(w: World) {
    exists run: seq<World> :: IsRun(run) && run[0] == INITIAL && run[|run|-1] == w
  }

  /** The world after a sequence of actions. */
  function After(w: World, acts: seq<Action>): World
    decreases |acts|
  {
    if acts == [] then w else Apply(After(w, acts[..|acts|-1]), acts[|acts|-1])
  }

  lemma ReachableStep(w: World, act: Action)
    requires Reachable(w)
    ensures Reachable(Apply(w, act))
  {
    hide Apply;
    var run: seq<World> :| IsRun(run) && run[0] == INITIAL && run[|run|-1] == w;
    assert Step(w, Apply(w, act));
    hide Step;
    RunGoesOn(run, Apply(w, act));
    var longer := run + [Apply(w, act)];
    assert IsRun(longer) && longer[0] == INITIAL && longer[|longer|-1] == Apply(w, act);
  }

  lemma RunGoesOn(run: seq<World>, w: World)
    requires IsRun(run) && Step(run[|run|-1], w)
    ensures IsRun(run + [w]) && (run + [w])[0] == run[0]
  {
    hide Step;
    var longer := run + [w];
    forall i | 0 < i < |longer| ensures Step(longer[i-1], longer[i]) {
      assert i < |run| ==> Step(run[i-1], run[i]);
    }
  }

  lemma InitialIsReachable()
    ensures Reachable(INITIAL)
  {
    var run := [INITIAL];
    assert IsRun(run);
  }

  lemma {:induction false} AfterIsReachable(w: World, acts: seq<Action>)
    requires Reachable(w)
    ensures Reachable(After(w, acts))
    decreases |acts|
  {
    hide Apply, Reachable;
    if acts != [] {
      AfterIsReachable(w, acts[..|acts|-1]);
      ReachableStep(After(w, acts[..|acts|-1]), acts[|acts|-1]);
    }
  }

  /** One more action. */
  lemma Then(start: World, acts: seq<Action>, w: World, act: Action) returns (acts': seq<Action>, w': World)
    requires w == After(start, acts)
    ensures acts' == acts + [act] && w' == Apply(w, act) && w' == After(start, acts')
  {
    hide Apply;
    acts', w' := acts + [act], Apply(w, act);
    assert acts'[..|acts|] == acts;
  }

  /** One action before the others. */
  lemma {:induction false} AfterFirst(w: World, act: Action, rest: seq<Action>)
    ensures After(w, [act] + rest) == After(Apply(w, act), rest)
    decreases |rest|
  {
    hide Apply;
    var acts := [act] + rest;
    if rest == [] {
      assert acts[..|acts|-1] == [];
    } else {
      assert acts[..|acts|-1] == [act] + rest[..|rest|-1];
      AfterFirst(w, act, rest[..|rest|-1]);
    }
  }

  lemma {:induction false} FreshPid(used: set<Pid>) returns (p: Pid)
    ensures forall q :: q in used ==> q < p
  {
    if used == {} {
      p := 0;
    } else {
      var q :| q in used;
      var r := FreshPid(used - {q});
      p := if q < r then r else q + 1;
      forall x | x in used ensures x < p {
        assert x == q || x in used - {q};
      }
    }
  }

  function ApplyRegister(w: World, a: AgentId, row: Agent): World {
    var tx := TxRegisterAgent(w.db, a, row);
    if tx.Ok? then
      w.(db := tx.value,
         own := w.own.(registered := w.own.registered[a := row],
                       owners := w.own.owners[LeaseKey(a, row.ownerEpoch) := row.ownerEngine]))
    else w
  }

  function ApplyCommitDirectly(w: World, a: AgentId, step: int, content: Content, epoch: int): World {
    var tx := TxCommitStep(w.db, a, step, content, epoch);
    if tx.Ok? then
      w.(db := tx.value,
         work := WorkLog(w.work.commits + [CommitEntry(StepKey(a, step), epoch, w.db.agents[a].ownerEngine)],
                         w.work.direct + {a}))
    else w
  }

  function ApplyInsertStart(w: World, pid: Pid): World {
    if pid in w.starts then
      var call := w.starts[pid];
      var tx := TxInsertMigration(w.db, call.id, call.m);
      if tx.Ok? then
        w.(db := tx.value, starts := w.starts - {pid}, own := w.own.(moves := w.own.moves[call.id := 0]))
      else w.(starts := w.starts - {pid})
    else w
  }

  function ApplyReadStartLease(w: World, pid: Pid, id: MigrationId, m: Migration): World {
    if pid !in w.starts && m.state == PREPARING && HoldsLease(w.db, m.agentId, m.sourceEngine, m.sourceEpoch)
    then w.(starts := w.starts[pid := StartCall(id, m)]) else w
  }

  function ApplyTransition(w: World, id: MigrationId, expected: MigrationState, target: MigrationState,
                           progress: Progress): World
  {
    var tx := TxTransitionMigration(w.db, id, expected, target, progress);
    if CoordinatorPair(expected, target) && tx.Ok? then
      w.(db := tx.value,
         own := if LatePair(expected, target) then w.own.(cleared := w.own.cleared[id := expected]) else w.own)
    else w
  }

  /** Ownership moves through record `id`: the new lease and the extra move are recorded. */
  function LogMove(own: OwnershipLog, id: MigrationId, a: AgentId, engine: EngineId, epoch: int): OwnershipLog {
    own.(owners := own.owners[LeaseKey(a, epoch) := engine],
         moves := own.moves[id := 1 + if id in own.moves then own.moves[id] else 0])
  }

  function ApplyCommitOwnership(w: World, id: MigrationId): World {
    var tx := TxCommitMigration(w.db, id);
    if tx.Ok? then
      var m := w.db.migrations[id];
      w.(db := tx.value, own := LogMove(w.own, id, m.agentId, m.destinationEngine, m.sourceEpoch + 1))
    else w
  }

  function ApplyRecoverOwnership(w: World, id: MigrationId, engine: EngineId): World {
    var tx := TxRecoverMigration(w.db, id, engine);
    if tx.Ok? && w.db.migrations[id].state != RECOVERED then
      var m := w.db.migrations[id];
      w.(db := tx.value, own := LogMove(w.own, id, m.agentId, engine, m.sourceEpoch + 2))
    else w
  }

  function ApplyClaimTurn(w: World, pid: Pid, turn: Turn): World {
    var tx := TxClaimStep(w.db, turn.key, turn.engine, turn.epoch, turn.rid);
    if pid !in w.turns && turn.draft == None && tx.Ok? then w.(db := tx.value, turns := w.turns[pid := turn]) else w
  }

  function ApplyFailTurn(w: World, pid: Pid): World {
    if pid in w.turns && w.turns[pid].draft == None then
      var tx := TxFailClaimedStep(w.db, w.turns[pid].key, w.turns[pid].rid, false);
      w.(db := if tx.Ok? then tx.value else w.db, turns := w.turns - {pid})
    else w
  }

  function ApplyReadTurn(w: World, pid: Pid, outputIds: seq<int>): World {
    if pid in w.turns && w.turns[pid].draft == None && w.turns[pid].key.agentId in w.db.agents then
      var turn := w.turns[pid];
      w.(turns := w.turns[pid := turn.(draft := Some(Draft(w.db.agents[turn.key.agentId].content, outputIds)))])
    else w
  }

  /** replace(current, ...) of run_turn. */
  function TurnContent(turn: Turn, draft: Draft): Content {
    draft.base.(tokenIds := turn.inputIds + draft.outputIds,
                pendingToolFuture := turn.pendingToolFuture,
                streamOffset := draft.base.streamOffset + |draft.outputIds|)
  }

  function TurnCommitTx(db: Tables, turn: Turn): Tx
    requires turn.draft.Some?
  {
    TxCommitClaimedStep(db, turn.key, TurnContent(turn, turn.draft.value), turn.epoch, turn.rid)
  }

  function ApplyCommitTurn(w: World, pid: Pid): World {
    if pid in w.turns && w.turns[pid].draft.Some? then
      var turn := w.turns[pid];
      var tx := TurnCommitTx(w.db, turn);
      if tx.Ok? then
        w.(db := tx.value, turns := w.turns - {pid},
           work := w.work.(commits := w.work.commits + [CommitEntry(turn.key, turn.epoch, turn.engine)]))
      else w.(turns := w.turns - {pid})
    else w
  }

  /** What one step of execute changes: its own phase, the effects table and the history. */
  datatype CallStep = CallStep(phase: CallPhase, effects: map<EffectKey, Effect>, fx: EffectLog)

  function ApplyAdvanceCall(w: World, pid: Pid, reply: Reply): World {
    if pid in w.calls then
      var step := NextStep(w.db, w.fx, pid, w.calls[pid], reply);
      w.(db := w.db.(effects := step.effects),
         calls := w.calls[pid := w.calls[pid].(phase := step.phase)],
         fx := step.fx)
    else w
  }

  /** The transaction of a stage: insert-or-ignore, win the right to call, or record how the call ended. */
  function WriteStep(db: Tables, fx: EffectLog, pid: Pid, c: EffectCall, stage: Stage): CallStep {
    match stage
    case Prepare => CallStep(Fetch, TxInsertEffect(db, c.key, c.epoch, c.payload).effects, fx)
    case Submit =>
      var tx := TxCasEffect(db, c.key, PREPARED, SUBMITTED, c.epoch, None);
      if tx.Ok? then CallStep(Invoke, tx.value.effects, fx.(holders := fx.holders[c.key := pid]))
      else CallStep(Raised, db.effects, fx)
    case Finish(Answered(result)) =>
      var tx := TxCasEffect(db, c.key, SUBMITTED, EFFECT_COMPLETED, c.epoch, Some(result));
      if tx.Ok? then CallStep(Returned(result), tx.value.effects, fx) else CallStep(Raised, db.effects, fx)
    case Finish(Failed) =>
      var tx := TxCasEffect(db, c.key, SUBMITTED, EFFECT_UNKNOWN, c.epoch, None);
      CallStep(Raised, if tx.Ok? then tx.value.effects else db.effects, fx)
  }

  /** The next step of execute; `reply` is used only where the external call answers. */
  function NextStep(db: Tables, fx: EffectLog, pid: Pid, c: EffectCall, reply: Reply): CallStep {
    var a := c.key.agentId;
    match c.phase
    case ReadStatus(stage) =>
      var expected := if stage == Submit then PREPARED else SUBMITTED;
      var ready := c.key in db.effects && db.effects[c.key].status == expected;
      CallStep(if ready then ReadOwner(stage) else Raised, db.effects, fx)
    case ReadOwner(stage) =>
      CallStep(if a in db.agents then CheckOwner(stage, db.agents[a].ownerEngine) else Raised, db.effects, fx)
    case CheckOwner(stage, owner) =>
      CallStep(if HoldsLease(db, a, owner, c.epoch) then Write(stage) else Raised, db.effects, fx)
    case Write(stage) => WriteStep(db, fx, pid, c, stage)
    case Fetch =>
      if c.key !in db.effects then CallStep(Raised, db.effects, fx)
      else
        var row := db.effects[c.key];
        if row.status == EFFECT_COMPLETED then
          CallStep(Returned(if row.result.Some? then row.result.value else "{}"), db.effects, fx)
        else CallStep(if row.status == PREPARED then ReadStatus(Submit) else Raised, db.effects, fx)
    case Invoke =>
      var n := if c.key in fx.invocations then fx.invocations[c.key] else 0;
      CallStep(Await, db.effects, fx.(invocations := fx.invocations[c.key := n + 1]))
    case Await => CallStep(ReadStatus(Finish(reply)), db.effects, fx.(replies := fx.replies[c.key := reply]))
    case _ => CallStep(c.phase, db.effects, fx)
  }
}
