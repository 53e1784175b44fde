/**
Ownership over whole runs: one owner per epoch, one live migration per agent, and an
epoch that counts exactly the moves made through the migration records.
*/
module OwnershipProtocol {
  import opened Wrappers
  import opened StateStore
  import opened World

  /** How many times ownership has moved through a record in this state. */
  function Span(s: MigrationState): nat {
    match s
    case COMMITTED => 1
    case SOURCE_RELEASED => 1
    case RECOVERED => 2
    case _ => 0
  }

  /** The records of agent `a` through which ownership moved `n` times. */
  function Moved(ms: map<MigrationId, Migration>, a: AgentId, n: nat): set<MigrationId> {
    set id | id in ms && ms[id].agentId == a && Span(ms[id].state) == n
  }

  /** COMMITTED and SOURCE_RELEASED records count once, RECOVERED records twice. */
  function EpochShift(ms: map<MigrationId, Migration>, a: AgentId): nat {
    |Moved(ms, a, 1)| + 2 * |Moved(ms, a, 2)|
  }

  type Agents = map<AgentId, Agent>
  type Records = map<MigrationId, Migration>
  type Owners = map<LeaseKey, EngineId>

  /** The epochs an agent has had, registered to current, are exactly the ones with a recorded owner. */
  ghost predicate LeasesOk(agents: Agents, registered: Agents, owners: Owners) {
    && registered.Keys == agents.Keys
    && (forall a :: a in agents ==> registered[a].ownerEpoch <= agents[a].ownerEpoch)
    && (forall k :: k in owners <==>
          k.agentId in agents && registered[k.agentId].ownerEpoch <= k.epoch <= agents[k.agentId].ownerEpoch)
    && (forall a :: a in agents ==> owners[LeaseKey(a, agents[a].ownerEpoch)] == agents[a].ownerEngine)
  }

  ghost predicate CountsOk(agents: Agents, registered: Agents, ms: Records) {
    && registered.Keys == agents.Keys
    && forall a :: a in agents ==> agents[a].ownerEpoch == registered[a].ownerEpoch + EpochShift(ms, a)
  }

  /** The lease a record was started under, and the one it granted when it committed. */
  ghost predicate RecordOk(agents: Agents, owners: Owners, m: Migration) {
    && m.agentId in agents
    && LeaseKey(m.agentId, m.sourceEpoch) in owners
    && owners[LeaseKey(m.agentId, m.sourceEpoch)] == m.sourceEngine
    && (Span(m.state) > 0 ==>
          && m.sourceEpoch + Span(m.state) <= agents[m.agentId].ownerEpoch
          && LeaseKey(m.agentId, m.sourceEpoch + 1) in owners
          && owners[LeaseKey(m.agentId, m.sourceEpoch + 1)] == m.destinationEngine)
    && (m.state == COMMITTED ==> agents[m.agentId].ownerEpoch == m.sourceEpoch + 1)
  }

  ghost predicate RecordsOk(agents: Agents, owners: Owners, ms: Records) {
    forall id :: id in ms ==> RecordOk(agents, owners, ms[id])
  }

  ghost predicate StartsOk(agents: Agents, owners: Owners, starts: map<Pid, StartCall>) {
    forall pid :: pid in starts ==> starts[pid].m.state == PREPARING && RecordOk(agents, owners, starts[pid].m)
  }

  ghost predicate MovesOk(ms: Records, moves: map<MigrationId, nat>) {
    && moves.Keys == ms.Keys
    && forall id :: id in ms ==> moves[id] == Span(ms[id].state)
  }

  ghost predicate BothLive(x: Migration, y: Migration) {
    x.agentId == y.agentId && LiveState(x.state) && LiveState(y.state)
  }

  /** Both moved their agent's lease off the same source epoch. */
  ghost predicate SameMove(x: Migration, y: Migration) {
    x.agentId == y.agentId && x.sourceEpoch == y.sourceEpoch && Span(x.state) > 0 && Span(y.state) > 0
  }

  ghost predicate Exclusive(ms: Records) {
    forall i, j :: i in ms && j in ms && i != j ==> !BothLive(ms[i], ms[j]) && !SameMove(ms[i], ms[j])
  }

  /** The parts of OwnInv, on the values they read. */
  ghost predicate Parts(agents: Agents, registered: Agents, owners: Owners, ms: Records, starts: map<Pid, StartCall>,
                        moves: map<MigrationId, nat>)
  {
    && LeasesOk(agents, registered, owners)
    && CountsOk(agents, registered, ms)
    && RecordsOk(agents, owners, ms)
    && StartsOk(agents, owners, starts)
    && MovesOk(ms, moves)
    && Exclusive(ms)
  }

  /** The records with the state of each one that was cleared late put back: what really happened through them. */
  function Restored(ms: Records, cleared: map<MigrationId, MigrationState>): (r: Records) {
    map id | id in ms :: if id in cleared then ms[id].(state := cleared[id]) else ms[id]
  }

  function Truth(w: World): Records { Restored(w.db.migrations, w.own.cleared) }

  ghost predicate ClearedOk(ms: Records, cleared: map<MigrationId, MigrationState>) {
    forall id :: id in cleared ==>
      id in ms && ms[id].state == ABORTED && Span(cleared[id]) > 0 && !LiveState(cleared[id])
  }

  ghost predicate OwnInv(w: World) {
    && ClearedOk(w.db.migrations, w.own.cleared)
    && Parts(w.db.agents, w.own.registered, w.own.owners, Truth(w), w.starts, w.own.moves)
  }

  lemma RestoredWrite(ms: Records, cleared: map<MigrationId, MigrationState>, id: MigrationId, m: Migration)
    requires ClearedOk(ms, cleared) && id !in cleared
    ensures Restored(ms[id := m], cleared) == Restored(ms, cleared)[id := m]
    ensures id in ms ==> Restored(ms, cleared)[id] == ms[id]
  {
  }

  /** A record that is cleared late really stays what it was. */
  lemma RestoredClear(ms: Records, cleared: map<MigrationId, MigrationState>, id: MigrationId, m: Migration,
                      s: MigrationState)
    requires ClearedOk(ms, cleared) && id in ms
    ensures Restored(ms[id := m], cleared[id := s]) == Restored(ms, cleared)[id := m.(state := s)]
  {
  }

  lemma SameLive(ms: Records, cleared: map<MigrationId, MigrationState>, a: AgentId)
    requires ClearedOk(ms, cleared)
    ensures HasLiveMigration(Restored(ms, cleared), a) <==> HasLiveMigration(ms, a)
  {
    var rs := Restored(ms, cleared);
    assert forall id :: id in ms ==> rs[id].agentId == ms[id].agentId
                                     && (LiveState(rs[id].state) <==> LiveState(ms[id].state));
    hide Restored;
    if id :| id in rs && rs[id].agentId == a && LiveState(rs[id].state) {
      assert id in ms;
    }
    if id :| id in ms && ms[id].agentId == a && LiveState(ms[id].state) {
      assert id in rs;
    }
  }

  // ---- counting records ----

  lemma MovedUpdate(ms: Records, id: MigrationId, m: Migration, a: AgentId, n: nat)
    requires id in ms ==> ms[id].agentId == m.agentId
    ensures Moved(ms[id := m], a, n)
            == if m.agentId == a && Span(m.state) == n then Moved(ms, a, n) + {id} else Moved(ms, a, n) - {id}
  {
  }

  /** Rewriting one record shifts its own agent's count by the change of span, and no other's. */
  lemma EpochShiftUpdate(ms: Records, id: MigrationId, m: Migration, a: AgentId)
    requires id in ms ==> ms[id].agentId == m.agentId
    ensures EpochShift(ms[id := m], a) ==
            EpochShift(ms, a)
            + if m.agentId == a then Span(m.state) - (if id in ms then Span(ms[id].state) else 0) else 0
  {
    MovedUpdate(ms, id, m, a, 1);
    MovedUpdate(ms, id, m, a, 2);
    assert id in Moved(ms, a, 1) <==> id in ms && m.agentId == a && Span(ms[id].state) == 1;
    assert id in Moved(ms, a, 2) <==> id in ms && m.agentId == a && Span(ms[id].state) == 2;
  }

  // ---- writing a record without moving ownership: insert and transition ----

  lemma WriteKeepsCounts(agents: Agents, registered: Agents, ms: Records, id: MigrationId, m: Migration)
    requires CountsOk(agents, registered, ms)
    requires if id in ms then ms[id].agentId == m.agentId && Span(ms[id].state) == Span(m.state) else Span(m.state) == 0
    ensures CountsOk(agents, registered, ms[id := m])
  {
    forall a | a in agents ensures agents[a].ownerEpoch == registered[a].ownerEpoch + EpochShift(ms[id := m], a) {
      EpochShiftUpdate(ms, id, m, a);
    }
  }

  lemma InsertKeepsExclusive(ms: Records, id: MigrationId, m: Migration)
    requires Exclusive(ms) && id !in ms && Span(m.state) == 0 && !HasLiveMigration(ms, m.agentId)
    ensures Exclusive(ms[id := m])
  {
  }

  lemma TransitionKeepsExclusive(ms: Records, id: MigrationId, m: Migration)
    requires Exclusive(ms) && id in ms
    requires m.agentId == ms[id].agentId && m.sourceEpoch == ms[id].sourceEpoch
    requires Span(m.state) == Span(ms[id].state) && (LiveState(m.state) ==> LiveState(ms[id].state))
    ensures Exclusive(ms[id := m])
  {
    forall j | j in ms && j != id ensures !BothLive(m, ms[j]) && !SameMove(m, ms[j]) {
      assert !BothLive(ms[id], ms[j]) && !SameMove(ms[id], ms[j]);
    }
  }

  // ---- moving the lease of agent `a` one epoch on ----

  lemma MoveKeepsLeases(agents: Agents, registered: Agents, owners: Owners, a: AgentId, engine: EngineId, epoch: int)
    requires LeasesOk(agents, registered, owners) && a in agents && epoch == agents[a].ownerEpoch + 1
    ensures LeasesOk(SetLease(agents, a, engine, epoch), registered, owners[LeaseKey(a, epoch) := engine])
  {
  }

  lemma MoveKeepsCounts(agents: Agents, registered: Agents, ms: Records, id: MigrationId, m: Migration,
                        engine: EngineId,
                        epoch: int)
    requires CountsOk(agents, registered, ms) && id in ms && m.agentId == ms[id].agentId && m.agentId in agents
    requires Span(m.state) == Span(ms[id].state) + 1 && epoch == agents[m.agentId].ownerEpoch + 1
    ensures CountsOk(SetLease(agents, m.agentId, engine, epoch), registered, ms[id := m])
  {
    var agents' := SetLease(agents, m.agentId, engine, epoch);
    forall a | a in agents' ensures agents'[a].ownerEpoch == registered[a].ownerEpoch + EpochShift(ms[id := m], a) {
      EpochShiftUpdate(ms, id, m, a);
    }
  }

  /** A record whose agent does not move, or that is not COMMITTED, stays in order when the lease moves. */
  lemma MoveKeepsRecord(agents: Agents, registered: Agents, owners: Owners, m: Migration, a: AgentId, engine: EngineId,
                        epoch: int)
    requires LeasesOk(agents, registered, owners) && RecordOk(agents, owners, m)
    requires a in agents && epoch == agents[a].ownerEpoch + 1
    requires m.state == COMMITTED ==> m.agentId != a
    ensures RecordOk(SetLease(agents, a, engine, epoch), owners[LeaseKey(a, epoch) := engine], m)
  {
    assert LeaseKey(a, epoch) !in owners;
  }

  /** The record through which the lease moves to `epoch`: from its source to its destination, or onward from there. */
  ghost predicate CanMove(agents: Agents, m: Migration, state: MigrationState, epoch: int) {
    && m.agentId in agents
    && ((m.state == DEST_READY && state == COMMITTED)
        || ((m.state == COMMITTED || m.state == SOURCE_RELEASED) && state == RECOVERED))
    && agents[m.agentId].ownerEpoch == m.sourceEpoch + Span(m.state)
    && epoch == m.sourceEpoch + Span(state)
  }

  lemma MoveKeepsRecords(agents: Agents, registered: Agents, owners: Owners, ms: Records, id: MigrationId,
                         state: MigrationState, engine: EngineId, epoch: int)
    requires LeasesOk(agents, registered, owners) && RecordsOk(agents, owners, ms) && Exclusive(ms)
    requires id in ms && CanMove(agents, ms[id], state, epoch)
    requires state == COMMITTED ==> engine == ms[id].destinationEngine
    ensures RecordsOk(SetLease(agents, ms[id].agentId, engine, epoch),
                      owners[LeaseKey(ms[id].agentId, epoch) := engine], ms[id := ms[id].(state := state)])
  {
    var m := ms[id];
    var a := m.agentId;
    var agents', owners' := SetLease(agents, a, engine, epoch), owners[LeaseKey(a, epoch) := engine];
    assert RecordOk(agents, owners, m);
    assert LeaseKey(a, epoch) !in owners;
    assert RecordOk(agents', owners', m.(state := state));
    forall i | i in ms && i != id ensures RecordOk(agents', owners', ms[i]) {
      assert RecordOk(agents, owners, ms[i]) && !BothLive(ms[i], m) && !SameMove(ms[i], m);
      MoveKeepsRecord(agents, registered, owners, ms[i], a, engine, epoch);
    }
  }

  lemma MoveKeepsStarts(agents: Agents, registered: Agents, owners: Owners, starts: map<Pid, StartCall>, a: AgentId,
                        engine: EngineId, epoch: int)
    requires LeasesOk(agents, registered, owners) && StartsOk(agents, owners, starts)
    requires a in agents && epoch == agents[a].ownerEpoch + 1
    ensures StartsOk(SetLease(agents, a, engine, epoch), owners[LeaseKey(a, epoch) := engine], starts)
  {
    forall pid | pid in starts
      ensures RecordOk(SetLease(agents, a, engine, epoch), owners[LeaseKey(a, epoch) := engine], starts[pid].m)
    {
      MoveKeepsRecord(agents, registered, owners, starts[pid].m, a, engine, epoch);
    }
  }

  lemma MoveKeepsExclusive(agents: Agents, owners: Owners, ms: Records, id: MigrationId, state: MigrationState,
                           epoch: int)
    requires RecordsOk(agents, owners, ms) && Exclusive(ms) && id in ms && CanMove(agents, ms[id], state, epoch)
    ensures Exclusive(ms[id := ms[id].(state := state)])
  {
    var m := ms[id];
    forall j | j in ms && j != id
      ensures !BothLive(m.(state := state), ms[j]) && !SameMove(m.(state := state), ms[j])
    {
      assert RecordOk(agents, owners, ms[j]) && !BothLive(m, ms[j]) && !SameMove(m, ms[j]);
    }
  }

  lemma MoveKeepsMoves(ms: Records, own: OwnershipLog, id: MigrationId, state: MigrationState, a: AgentId,
                       engine: EngineId,
                       epoch: int)
    requires MovesOk(ms, own.moves) && id in ms && Span(state) == Span(ms[id].state) + 1
    ensures MovesOk(ms[id := ms[id].(state := state)], LogMove(own, id, a, engine, epoch).moves)
  {
  }

  lemma MoveKeepsParts(agents: Agents, own: OwnershipLog, ms: Records, starts: map<Pid, StartCall>, id: MigrationId,
                       state: MigrationState, engine: EngineId, epoch: int)
    requires Parts(agents, own.registered, own.owners, ms, starts, own.moves)
    requires id in ms && CanMove(agents, ms[id], state, epoch)
    requires state == COMMITTED ==> engine == ms[id].destinationEngine
    ensures var own' := LogMove(own, id, ms[id].agentId, engine, epoch);
            Parts(SetLease(agents, ms[id].agentId, engine, epoch), own'.registered, own'.owners,
                  ms[id := ms[id].(state := state)], starts, own'.moves)
  {
    hide LeasesOk, CountsOk, RecordsOk, StartsOk, MovesOk, Exclusive;
    var m := ms[id];
    MoveKeepsLeases(agents, own.registered, own.owners, m.agentId, engine, epoch);
    MoveKeepsCounts(agents, own.registered, ms, id, m.(state := state), engine, epoch);
    MoveKeepsRecords(agents, own.registered, own.owners, ms, id, state, engine, epoch);
    MoveKeepsStarts(agents, own.registered, own.owners, starts, m.agentId, engine, epoch);
    MoveKeepsExclusive(agents, own.owners, ms, id, state, epoch);
    MoveKeepsMoves(ms, own, id, state, m.agentId, engine, epoch);
  }

  // ---- every step keeps the invariant ----

  lemma RegisterKeepsCounts(agents: Agents, registered: Agents, owners: Owners, ms: Records, a: AgentId, row: Agent)
    requires CountsOk(agents, registered, ms) && RecordsOk(agents, owners, ms) && a !in agents
    ensures CountsOk(agents[a := row], registered[a := row], ms)
  {
    assert forall id :: id in ms ==> RecordOk(agents, owners, ms[id]);
    assert Moved(ms, a, 1) == {} && Moved(ms, a, 2) == {};
  }

  lemma RegisterKeepsRecord(agents: Agents, registered: Agents, owners: Owners, m: Migration, a: AgentId, row: Agent)
    requires LeasesOk(agents, registered, owners) && RecordOk(agents, owners, m) && a !in agents
    ensures RecordOk(agents[a := row], owners[LeaseKey(a, row.ownerEpoch) := row.ownerEngine], m)
  {
  }

  lemma RegisterKeepsLeases(agents: Agents, registered: Agents, owners: Owners, a: AgentId, row: Agent)
    requires LeasesOk(agents, registered, owners) && a !in agents
    ensures LeasesOk(agents[a := row], registered[a := row], owners[LeaseKey(a, row.ownerEpoch) := row.ownerEngine])
  {
  }

  lemma OwnInvRegister(w: World, a: AgentId, row: Agent)
    requires OwnInv(w)
    ensures OwnInv(ApplyRegister(w, a, row))
  {
    hide LeasesOk, CountsOk, RecordOk, MovesOk, Exclusive, Restored, ClearedOk;
    if a !in w.db.agents {
      var agents, owners := w.db.agents[a := row], w.own.owners[LeaseKey(a, row.ownerEpoch) := row.ownerEngine];
      var rs := Truth(w);
      RegisterKeepsLeases(w.db.agents, w.own.registered, w.own.owners, a, row);
      RegisterKeepsCounts(w.db.agents, w.own.registered, w.own.owners, rs, a, row);
      forall id | id in rs ensures RecordOk(agents, owners, rs[id]) {
        RegisterKeepsRecord(w.db.agents, w.own.registered, w.own.owners, rs[id], a, row);
      }
      forall pid | pid in w.starts ensures RecordOk(agents, owners, w.starts[pid].m) {
        RegisterKeepsRecord(w.db.agents, w.own.registered, w.own.owners, w.starts[pid].m, a, row);
      }
    }
  }

  lemma OwnInvInsert(w: World, pid: Pid)
    requires OwnInv(w)
    ensures OwnInv(ApplyInsertStart(w, pid))
  {
    hide LeasesOk, CountsOk, Exclusive, RecordOk, Restored, HasLiveMigration;
    if pid in w.starts && TxInsertMigration(w.db, w.starts[pid].id, w.starts[pid].m).Ok? {
      var call, rs := w.starts[pid], Truth(w);
      RestoredKeys(w.db.migrations, w.own.cleared);
      RestoredWrite(w.db.migrations, w.own.cleared, call.id, call.m);
      SameLive(w.db.migrations, w.own.cleared, call.m.agentId);
      WriteKeepsCounts(w.db.agents, w.own.registered, rs, call.id, call.m);
      InsertKeepsExclusive(rs, call.id, call.m);
    }
  }

  lemma RestoredKeys(ms: Records, cleared: map<MigrationId, MigrationState>)
    ensures Restored(ms, cleared).Keys == ms.Keys
  {
  }

  /** Rewriting a record without changing what happened through it. */
  lemma RewriteKeepsParts(agents: Agents, registered: Agents, owners: Owners, rs: Records, starts: map<Pid, StartCall>,
                          moves: map<MigrationId, nat>, id: MigrationId, m: Migration)
    requires Parts(agents, registered, owners, rs, starts, moves) && id in rs
    requires m.agentId == rs[id].agentId && m.sourceEpoch == rs[id].sourceEpoch
    requires m.sourceEngine == rs[id].sourceEngine && m.destinationEngine == rs[id].destinationEngine
    requires Span(m.state) == Span(rs[id].state) && (m.state == COMMITTED ==> rs[id].state == COMMITTED)
    requires LiveState(m.state) ==> LiveState(rs[id].state)
    ensures Parts(agents, registered, owners, rs[id := m], starts, moves)
  {
    hide LeasesOk, CountsOk, StartsOk, Exclusive;
    WriteKeepsCounts(agents, registered, rs, id, m);
    TransitionKeepsExclusive(rs, id, m);
    assert RecordOk(agents, owners, rs[id]);
    assert RecordOk(agents, owners, m);
  }

  lemma OwnInvTransition(w: World, id: MigrationId, expected: MigrationState, target: MigrationState,
                         progress: Progress)
    requires OwnInv(w)
    ensures OwnInv(ApplyTransition(w, id, expected, target, progress))
  {
    hide Parts, Restored;
    if CoordinatorPair(expected, target) && TxTransitionMigration(w.db, id, expected, target, progress).Ok? {
      var m, rs := WithProgress(w.db.migrations[id], target, progress), Truth(w);
      RestoredKeys(w.db.migrations, w.own.cleared);
      if LatePair(expected, target) || id in w.own.cleared {
        var s := if id in w.own.cleared then w.own.cleared[id] else expected;
        TruthOf(w, id);
        RestoredClear(w.db.migrations, w.own.cleared, id, m, s);
        assert id in w.own.cleared ==> w.own.cleared[id := s] == w.own.cleared;
        RewriteKeepsParts(w.db.agents, w.own.registered, w.own.owners, rs, w.starts, w.own.moves, id, m.(state := s));
      } else {
        RestoredWrite(w.db.migrations, w.own.cleared, id, m);
        RewriteKeepsParts(w.db.agents, w.own.registered, w.own.owners, rs, w.starts, w.own.moves, id, m);
      }
    }
  }

  /** A record's true state is the stored one unless it was cleared late. */
  lemma TruthOf(w: World, id: MigrationId)
    requires id in w.db.migrations
    ensures id in Truth(w)
    ensures Truth(w)[id] == if id in w.own.cleared then w.db.migrations[id].(state := w.own.cleared[id])
                            else w.db.migrations[id]
  {
  }

  lemma OwnInvReadStartLease(w: World, pid: Pid, id: MigrationId, m: Migration)
    requires OwnInv(w)
    ensures OwnInv(ApplyReadStartLease(w, pid, id, m))
  {
    hide CountsOk, MovesOk, Exclusive;
    if m.state == PREPARING && HoldsLease(w.db, m.agentId, m.sourceEngine, m.sourceEpoch) {
      assert RecordOk(w.db.agents, w.own.owners, m);
    }
  }

  lemma OwnInvCommit(w: World, id: MigrationId)
    requires OwnInv(w)
    ensures OwnInv(ApplyCommitOwnership(w, id))
  {
    hide LeasesOk, CountsOk, RecordsOk, StartsOk, MovesOk, Exclusive, Restored;
    if TxCommitMigration(w.db, id).Ok? {
      var m := w.db.migrations[id];
      TruthOf(w, id);
      RestoredWrite(w.db.migrations, w.own.cleared, id, m.(state := COMMITTED));
      MoveKeepsParts(w.db.agents, w.own, Truth(w), w.starts, id, COMMITTED, m.destinationEngine, m.sourceEpoch + 1);
    }
  }

  lemma OwnInvRecover(w: World, id: MigrationId, engine: EngineId)
    requires OwnInv(w)
    ensures OwnInv(ApplyRecoverOwnership(w, id, engine))
  {
    hide LeasesOk, CountsOk, RecordsOk, StartsOk, MovesOk, Exclusive, Restored;
    if TxRecoverMigration(w.db, id, engine).Ok? && w.db.migrations[id].state != RECOVERED {
      var m := w.db.migrations[id];
      TruthOf(w, id);
      RestoredWrite(w.db.migrations, w.own.cleared, id, m.(state := RECOVERED));
      MoveKeepsParts(w.db.agents, w.own, Truth(w), w.starts, id, RECOVERED, engine, m.sourceEpoch + 2);
    }
  }

  predicate SameLease(x: Agent, y: Agent) {
    x.ownerEngine == y.ownerEngine && x.ownerEpoch == y.ownerEpoch
  }

  /** Leases and migration records are what OwnInv reads; nothing else matters to it. */
  ghost predicate SameLeases(w: World, w': World) {
    && w'.own == w.own && w'.starts == w.starts && w'.db.migrations == w.db.migrations
    && w'.db.agents.Keys == w.db.agents.Keys
    && forall a :: a in w.db.agents ==> SameLease(w.db.agents[a], w'.db.agents[a])
  }

  lemma OwnInvFrame(w: World, w': World)
    requires OwnInv(w) && SameLeases(w, w')
    ensures OwnInv(w')
  {
    forall id | id in Truth(w') ensures RecordOk(w'.db.agents, w'.own.owners, Truth(w')[id]) {
      assert RecordOk(w.db.agents, w.own.owners, Truth(w)[id]);
    }
    forall pid | pid in w'.starts ensures RecordOk(w'.db.agents, w'.own.owners, w'.starts[pid].m) {
      assert RecordOk(w.db.agents, w.own.owners, w.starts[pid].m);
    }
    assert LeasesOk(w'.db.agents, w'.own.registered, w'.own.owners);
  }

  predicate TouchesOwnership(act: Action) {
    || act.Register? || act.ReadStartLease? || act.InsertStart?
    || act.Transition? || act.CommitOwnership? || act.RecoverOwnership?
  }

  /** Executors and effect proxies never touch a lease or a migration record. */
  lemma WorkKeepsLeases(w: World, act: Action)
    requires !TouchesOwnership(act)
    ensures SameLeases(w, Apply(w, act))
  {
    hide NextStep;
  }

  lemma OwnInvStep(w: World, act: Action)
    requires OwnInv(w)
    ensures OwnInv(Apply(w, act))
  {
    hide OwnInv, ApplyRegister, ApplyReadStartLease, ApplyInsertStart, ApplyTransition, ApplyCommitOwnership,
         ApplyRecoverOwnership;
    if act.Register? {
      OwnInvRegister(w, act.agentId, act.row);
    } else if act.ReadStartLease? {
      OwnInvReadStartLease(w, act.pid, act.id, act.m);
    } else if act.InsertStart? {
      OwnInvInsert(w, act.pid);
    } else if act.Transition? {
      OwnInvTransition(w, act.id, act.expected, act.target, act.progress);
    } else if act.CommitOwnership? {
      OwnInvCommit(w, act.id);
    } else if act.RecoverOwnership? {
      OwnInvRecover(w, act.id, act.engine);
    } else {
      WorkKeepsLeases(w, act);
      OwnInvFrame(w, Apply(w, act));
    }
  }

  /** Every world of a run that starts in the invariant keeps it. */
  lemma {:induction false} OwnInvRun(run: seq<World>, i: nat)
    requires IsRun(run) && OwnInv(run[0]) && i < |run|
    ensures OwnInv(run[i])
  {
    hide OwnInv, Apply;
    if i > 0 {
      OwnInvRun(run, i - 1);
      assert Step(run[i-1], run[i]);
      var act: Action :| run[i] == Apply(run[i-1], act);
      OwnInvStep(run[i-1], act);
    }
  }

  lemma OwnInvReachable(w: World)
    requires Reachable(w)
    ensures OwnInv(w)
  {
    hide Step;
    var run: seq<World> :| IsRun(run) && run[0] == INITIAL && run[|run|-1] == w;
    OwnInvRun(run, |run| - 1);
  }

  /** What an ownership action leaves to the executors: rows only advance their lease, and owners are only added. */
  ghost predicate LeasesGrow(w: World, w': World) {
    && w'.db.claims == w.db.claims && w'.db.effects == w.db.effects
    && w'.turns == w.turns && w'.calls == w.calls && w'.work == w.work && w'.fx == w.fx
    && (forall k :: k in w.own.owners ==> k in w'.own.owners && w'.own.owners[k] == w.own.owners[k])
    && (forall a :: a in w.db.agents ==>
          && a in w'.db.agents && a in w.own.registered && a in w'.own.registered
          && w'.own.registered[a] == w.own.registered[a]
          && w.db.agents[a].ownerEpoch <= w'.db.agents[a].ownerEpoch
          && w'.db.agents[a].committedStep == w.db.agents[a].committedStep
          && w'.db.agents[a].content == w.db.agents[a].content)
    && (forall a :: a in w'.db.agents && a !in w.db.agents ==>
          && a in w'.own.registered && w'.own.registered[a] == w'.db.agents[a])
  }

  lemma CommitGrowsLeases(w: World, id: MigrationId)
    requires OwnInv(w)
    ensures LeasesGrow(w, ApplyCommitOwnership(w, id))
  {
    hide CountsOk, RecordsOk, StartsOk, MovesOk, Exclusive, Restored, ClearedOk;
  }

  lemma RecoveryGrowsLeases(w: World, id: MigrationId, engine: EngineId)
    requires OwnInv(w)
    ensures LeasesGrow(w, ApplyRecoverOwnership(w, id, engine))
  {
    hide CountsOk, RecordsOk, StartsOk, MovesOk, Exclusive, Restored, ClearedOk;
  }

  lemma RegisterGrowsLeases(w: World, a: AgentId, row: Agent)
    requires OwnInv(w)
    ensures LeasesGrow(w, ApplyRegister(w, a, row))
  {
    hide CountsOk, RecordsOk, StartsOk, MovesOk, Exclusive, Restored, ClearedOk;
  }

  lemma ReadStartLeaseGrowsLeases(w: World, pid: Pid, id: MigrationId, m: Migration)
    requires OwnInv(w)
    ensures LeasesGrow(w, ApplyReadStartLease(w, pid, id, m))
  {
    hide CountsOk, RecordsOk, StartsOk, MovesOk, Exclusive, Restored, ClearedOk;
  }

  lemma InsertGrowsLeases(w: World, pid: Pid)
    requires OwnInv(w)
    ensures LeasesGrow(w, ApplyInsertStart(w, pid))
  {
    hide CountsOk, RecordsOk, StartsOk, MovesOk, Exclusive, Restored, ClearedOk;
  }

  lemma TransitionGrowsLeases(w: World, id: MigrationId, expected: MigrationState, target: MigrationState,
                              progress: Progress)
    requires OwnInv(w)
    ensures LeasesGrow(w, ApplyTransition(w, id, expected, target, progress))
  {
    hide CountsOk, RecordsOk, StartsOk, MovesOk, Exclusive, Restored, ClearedOk;
  }

  lemma OwnershipGrowsLeases(w: World, act: Action)
    requires OwnInv(w) && TouchesOwnership(act)
    ensures LeasesGrow(w, Apply(w, act))
  {
    hide OwnInv, LeasesGrow, ApplyRegister, ApplyReadStartLease, ApplyInsertStart, ApplyTransition,
         ApplyCommitOwnership, ApplyRecoverOwnership;
    if act.Register? {
      RegisterGrowsLeases(w, act.agentId, act.row);
    } else if act.CommitOwnership? {
      CommitGrowsLeases(w, act.id);
    } else if act.RecoverOwnership? {
      RecoveryGrowsLeases(w, act.id, act.engine);
    } else if act.ReadStartLease? {
      ReadStartLeaseGrowsLeases(w, act.pid, act.id, act.m);
    } else if act.InsertStart? {
      InsertGrowsLeases(w, act.pid);
    } else {
      TransitionGrowsLeases(w, act.id, act.expected, act.target, act.progress);
    }
  }

  // ---- what it means for every reachable world ----

  function InState(ms: Records, a: AgentId, s: MigrationState): set<MigrationId> {
    set id | id in ms && ms[id].agentId == a && ms[id].state == s
  }

  /** The agent's records that were cleared late after ownership had moved n times through them. */
  function Lost(w: World, a: AgentId, n: nat): set<MigrationId> {
    set id | id in w.own.cleared && id in w.db.migrations && w.db.migrations[id].agentId == a
             && Span(w.own.cleared[id]) == n
  }

  lemma MovedByState(w: World, a: AgentId)
    requires ClearedOk(w.db.migrations, w.own.cleared)
    ensures Moved(Truth(w), a, 1)
            == InState(w.db.migrations, a, COMMITTED) + InState(w.db.migrations, a, SOURCE_RELEASED) + Lost(w, a, 1)
    ensures Moved(Truth(w), a, 2) == InState(w.db.migrations, a, RECOVERED) + Lost(w, a, 2)
  {
  }

  lemma StatesAreDisjoint(w: World, a: AgentId)
    requires ClearedOk(w.db.migrations, w.own.cleared)
    ensures InState(w.db.migrations, a, COMMITTED) !! InState(w.db.migrations, a, SOURCE_RELEASED)
    ensures InState(w.db.migrations, a, COMMITTED) !! Lost(w, a, 1)
    ensures InState(w.db.migrations, a, SOURCE_RELEASED) !! Lost(w, a, 1)
    ensures InState(w.db.migrations, a, RECOVERED) !! Lost(w, a, 2)
  {
  }

  /** What the epoch accounts for by the states that the records are in. */
  function Accounted(ms: Records, a: AgentId): nat {
    |InState(ms, a, COMMITTED)| + |InState(ms, a, SOURCE_RELEASED)| + 2 * |InState(ms, a, RECOVERED)|
  }

  /** An agent's epoch is its registered epoch plus one per committed or released and two per recovered migration, and
      as much for each of those that was cleared late. */
  lemma EpochAccounting(w: World, a: AgentId)
    requires Reachable(w) && a in w.db.agents
    ensures a in w.own.registered
    ensures w.db.agents[a].ownerEpoch
            == w.own.registered[a].ownerEpoch + Accounted(w.db.migrations, a) + |Lost(w, a, 1)| + 2 * |Lost(w, a, 2)|
  {
    hide Reachable, LeasesOk, RecordsOk, StartsOk, MovesOk, Exclusive;
    OwnInvReachable(w);
    MovedByState(w, a);
    StatesAreDisjoint(w, a);
    hide Moved, InState, Lost, Restored;
  }

  /** So the states account for the epoch if and only if none of the agent's records was cleared late. */
  lemma EpochAccountingIff(w: World, a: AgentId)
    requires Reachable(w) && a in w.db.agents
    ensures a in w.own.registered
    ensures w.db.agents[a].ownerEpoch == w.own.registered[a].ownerEpoch + Accounted(w.db.migrations, a)
            <==> forall id :: id in w.own.cleared && id in w.db.migrations ==> w.db.migrations[id].agentId != a
  {
    hide Reachable, Parts, Accounted;
    EpochAccounting(w, a);
    OwnInvReachable(w);
    if id :| id in w.own.cleared && id in w.db.migrations && w.db.migrations[id].agentId == a {
      assert id in Lost(w, a, 1) || id in Lost(w, a, 2);
    }
  }

  /** A COMMITTED record's agent sits at its destination one epoch on, so recovery never finds a stale lease. */
  lemma CommittedIsRecoverable(w: World, id: MigrationId, engine: EngineId)
    requires Reachable(w) && id in w.db.migrations && w.db.migrations[id].state == COMMITTED
    ensures var m := w.db.migrations[id];
            && HoldsLease(w.db, m.agentId, m.destinationEngine, m.sourceEpoch + 1)
            && TxRecoverMigration(w.db, id, engine).Ok?
            && HoldsLease(TxRecoverMigration(w.db, id, engine).value, m.agentId, engine, m.sourceEpoch + 2)
  {
    hide Reachable, CountsOk, StartsOk, MovesOk, Exclusive;
    OwnInvReachable(w);
    TruthOf(w, id);
    assert RecordOk(w.db.agents, w.own.owners, Truth(w)[id]);
  }

  /** Recovering a SOURCE_RELEASED record works exactly while the epoch it granted is still the agent's epoch. */
  lemma ReleasedIsRecoverableIff(w: World, id: MigrationId, engine: EngineId)
    requires Reachable(w) && id in w.db.migrations && w.db.migrations[id].state == SOURCE_RELEASED
    ensures var m := w.db.migrations[id];
            && m.agentId in w.db.agents
            && (TxRecoverMigration(w.db, id, engine).Ok? <==> w.db.agents[m.agentId].ownerEpoch == m.sourceEpoch + 1)
  {
    hide Reachable, CountsOk, StartsOk, MovesOk, Exclusive;
    OwnInvReachable(w);
    TruthOf(w, id);
    assert RecordOk(w.db.agents, w.own.owners, Truth(w)[id]);
  }

  lemma StartHandoff(w: World, a: AgentId, id: MigrationId, destination: EngineId) returns (v: World)
    requires Reachable(w) && a in w.db.agents && !HasLiveMigration(w.db.migrations, a) && id !in w.db.migrations
    ensures Reachable(v) && v.turns == w.turns
    ensures v.db == w.db.(migrations := w.db.migrations[id := Handoff(w, a, destination)])
  {
    hide Reachable;
    var p := FreshPid(w.starts.Keys);
    var m := Handoff(w, a, destination);
    ReachableStep(w, ReadStartLease(p, id, m));
    v := Apply(w, ReadStartLease(p, id, m));
    assert v == w.(starts := w.starts[p := StartCall(id, m)]);
    ReachableStep(v, InsertStart(p));
    v := Apply(v, InsertStart(p));
  }

  lemma AdvanceHandoff(w: World, id: MigrationId, expected: MigrationState, target: MigrationState) returns (v: World)
    requires Reachable(w) && id in w.db.migrations && w.db.migrations[id].state == expected
             && CoordinatorPair(expected, target)
    ensures Reachable(v) && v.turns == w.turns
    ensures v.db == w.db.(migrations := w.db.migrations[id := w.db.migrations[id].(state := target, error := None)])
  {
    hide Reachable;
    ReachableStep(w, Transition(id, expected, target, NO_PROGRESS));
    v := Apply(w, Transition(id, expected, target, NO_PROGRESS));
  }

  /** One undisturbed handoff: any agent without a live migration can be moved to any engine. */
  lemma HandOver(w: World, a: AgentId, id: MigrationId, destination: EngineId) returns (w': World)
    requires Reachable(w) && a in w.db.agents && !HasLiveMigration(w.db.migrations, a) && id !in w.db.migrations
    ensures Reachable(w')
    ensures var row, m := w.db.agents[a], Handoff(w, a, destination);
            && w'.db.agents == w.db.agents[a := row.(ownerEngine := destination, ownerEpoch := row.ownerEpoch + 1)]
            && w'.db.migrations == w.db.migrations[id := m.(state := COMMITTED)]
            && w'.turns == w.turns && w'.db.claims == w.db.claims
  {
    hide Reachable, HasLiveMigration;
    w' := StartHandoff(w, a, id, destination);
    w' := AdvanceHandoff(w', id, PREPARING, COPYING);
    w' := AdvanceHandoff(w', id, COPYING, DEST_READY);
    assert w'.db.migrations == w.db.migrations[id := Handoff(w, a, destination).(state := DEST_READY)];
    ReachableStep(w', CommitOwnership(id));
    w' := Apply(w', CommitOwnership(id));
  }

  /** The record that a handoff of the agent starts with. */
  function Handoff(w: World, a: AgentId, destination: EngineId): Migration
    requires a in w.db.agents
  {
    Migration(a, w.db.agents[a].ownerEngine, destination, w.db.agents[a].ownerEpoch, PREPARING, 0, 0, 0.0, None)
  }

  /** After its source let go and the agent moved on, a record's recovery is refused. */
  lemma RefusedRecoveryIsReachable(a: AgentId, row: Agent, first: EngineId, second: EngineId) returns (w: World)
    ensures Reachable(w) && 0 in w.db.migrations && w.db.migrations[0].state == SOURCE_RELEASED
    ensures forall engine :: TxRecoverMigration(w.db, 0, engine) == Err(StaleLease)
  {
    hide Reachable;
    InitialIsReachable();
    ReachableStep(INITIAL, Register(a, row));
    w := Apply(INITIAL, Register(a, row));
    assert w.db.migrations == map[] && w.db.agents == map[a := row];
    w := HandOver(w, a, 0, first);
    ReachableStep(w, Transition(0, COMMITTED, SOURCE_RELEASED, NO_PROGRESS));
    w := Apply(w, Transition(0, COMMITTED, SOURCE_RELEASED, NO_PROGRESS));
    w := HandOver(w, a, 1, second);
  }

  /** Ownership moved through a record 0, 1 or 2 times as its state says, unless the record was cleared late. */
  lemma MovesMatchState(w: World, id: MigrationId)
    requires Reachable(w) && id in w.db.migrations
    ensures id in w.own.moves
    ensures id !in w.own.cleared ==> w.own.moves[id] == Span(w.db.migrations[id].state)
    ensures id in w.own.cleared ==>
              w.db.migrations[id].state == ABORTED && w.own.moves[id] == Span(w.own.cleared[id]) > 0
  {
    hide Reachable, LeasesOk, CountsOk, RecordsOk, StartsOk, Exclusive;
    OwnInvReachable(w);
    TruthOf(w, id);
    hide Restored;
  }

  /** Ownership never moved through an ABORTED record if and only if it was not cleared late. */
  lemma AbortedNeverMovedIff(w: World, id: MigrationId)
    requires Reachable(w) && id in w.db.migrations && w.db.migrations[id].state == ABORTED
    ensures id in w.own.moves && (w.own.moves[id] == 0 <==> id !in w.own.cleared)
  {
    hide Reachable;
    MovesMatchState(w, id);
  }

  /** At most one record of an agent is live, whatever happened between lease reads and inserts. */
  lemma OneLiveMigration(w: World, i: MigrationId, j: MigrationId)
    requires Reachable(w) && i in w.db.migrations && j in w.db.migrations
    requires w.db.migrations[i].agentId == w.db.migrations[j].agentId
    requires LiveState(w.db.migrations[i].state) && LiveState(w.db.migrations[j].state)
    ensures i == j
  {
    hide Reachable, LeasesOk, CountsOk, RecordsOk, StartsOk, MovesOk;
    OwnInvReachable(w);
    TruthOf(w, i);
    TruthOf(w, j);
    assert BothLive(Truth(w)[i], Truth(w)[j]);
  }

  predicate LeaseAdvances(x: Agent, y: Agent) {
    && x.ownerEpoch <= y.ownerEpoch
    && (x.ownerEpoch == y.ownerEpoch ==> x.ownerEngine == y.ownerEngine)
  }

  lemma CommitAdvances(w: World, id: MigrationId, a: AgentId)
    requires a in w.db.agents
    ensures a in ApplyCommitOwnership(w, id).db.agents
    ensures LeaseAdvances(w.db.agents[a], ApplyCommitOwnership(w, id).db.agents[a])
  {
  }

  lemma RecoveryAdvances(w: World, id: MigrationId, engine: EngineId, a: AgentId)
    requires a in w.db.agents
    ensures a in ApplyRecoverOwnership(w, id, engine).db.agents
    ensures LeaseAdvances(w.db.agents[a], ApplyRecoverOwnership(w, id, engine).db.agents[a])
  {
  }

  /** One step never lowers an epoch and keeps the engine of an unchanged one. */
  lemma LeaseStep(w: World, act: Action, a: AgentId)
    requires a in w.db.agents
    ensures a in Apply(w, act).db.agents
    ensures LeaseAdvances(w.db.agents[a], Apply(w, act).db.agents[a])
  {
    hide ApplyCommitOwnership, ApplyRecoverOwnership;
    if act.CommitOwnership? {
      CommitAdvances(w, act.id, a);
    } else if act.RecoverOwnership? {
      RecoveryAdvances(w, act.id, act.engine, a);
    } else if !TouchesOwnership(act) {
      WorkKeepsLeases(w, act);
    }
  }

  /** Between any two worlds of a run an epoch never falls, and equal epochs mean equal owners. */
  lemma {:induction false} EpochHasOneOwner(run: seq<World>, i: nat, j: nat, a: AgentId)
    requires IsRun(run) && i <= j < |run| && a in run[i].db.agents
    ensures a in run[j].db.agents
    ensures LeaseAdvances(run[i].db.agents[a], run[j].db.agents[a])
    decreases j - i
  {
    hide Apply;
    if i < j {
      EpochHasOneOwner(run, i, j - 1, a);
      assert Step(run[j-1], run[j]);
      var act: Action :| run[j] == Apply(run[j-1], act);
      LeaseStep(run[j-1], act, a);
    }
  }
}
