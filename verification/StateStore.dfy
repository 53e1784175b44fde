/**
The durable tables and their transactions.

Every function `Tx...` is one BEGIN IMMEDIATE block: it maps the tables before the
block to the tables after it, or names the exception after which the block is rolled
back.  The class `SQLiteStateStore` runs the same transactions on mutable tables.
*/
module StateStore {
  import opened Wrappers

  type AgentId = nat
  type EngineId = nat
  type MigrationId = nat
  type Json = string

  /** The columns of a continuation that travel with the agent and do not decide ownership. */
  datatype Content = Content(
    tokenIds: seq<int>,
    pendingToolFuture: Option<string>,
    workspaceRef: Option<string>,
    streamOffset: int,
    metadata: Json)

  datatype Agent = Agent(committedStep: int, ownerEngine: EngineId, ownerEpoch: int, content: Content)

  datatype MigrationState = PREPARING | COPYING | DEST_READY | COMMITTED | SOURCE_RELEASED | RECOVERED | ABORTED

  datatype Migration = Migration(
    agentId: AgentId,
    sourceEngine: EngineId,
    destinationEngine: EngineId,
    sourceEpoch: int,
    state: MigrationState,
    tokenCount: int,
    bytesTransferred: int,
    transferSeconds: real,
    error: Option<string>)

  datatype StepStatus = CLAIMED | COMPLETED | FAILED | UNKNOWN

  datatype StepKey = StepKey(agentId: AgentId, stepId: int)

  datatype Claim = Claim(ownerEpoch: int, rid: string, status: StepStatus)

  datatype EffectStatus = PREPARED | SUBMITTED | EFFECT_COMPLETED | EFFECT_UNKNOWN

  datatype EffectKey = EffectKey(agentId: AgentId, stepId: int, operationId: string)

  datatype Effect = Effect(ownerEpoch: int, status: EffectStatus, payload: Json, result: Option<Json>)

  datatype Tables = Tables(
    agents: map<AgentId, Agent>,
    claims: map<StepKey, Claim>,
    migrations: map<MigrationId, Migration>,
    effects: map<EffectKey, Effect>)

  /** TypeError is what subscripting a missing row raises. */
  datatype StoreError = KeyError | StaleLease | StateConflict | TypeError

  type Tx = Result<Tables, StoreError>

  /** The optional columns a migration transition may overwrite. */
  datatype Progress = Progress(
    tokenCount: Option<int>,
    bytesTransferred: Option<int>,
    transferSeconds: Option<real>,
    error: Option<string>)

  const EMPTY_TABLES := Tables(map[], map[], map[], map[])

  const NO_PROGRESS := Progress(None, None, None, None)

  predicate LiveState(s: MigrationState) {
    s != SOURCE_RELEASED && s != RECOVERED && s != ABORTED
  }

  /** The partial unique index one_live_migration_per_agent. */
  predicate HasLiveMigration(migrations: map<MigrationId, Migration>, a: AgentId) {
    exists id :: id in migrations && migrations[id].agentId == a && LiveState(migrations[id].state)
  }

  predicate HoldsLease(db: Tables, a: AgentId, engine: EngineId, epoch: int) {
    a in db.agents && db.agents[a].ownerEngine == engine && db.agents[a].ownerEpoch == epoch
  }

  function WithProgress(m: Migration, target: MigrationState, p: Progress): Migration {
    m.(state := target,
       error := p.error,
       tokenCount := if p.tokenCount.Some? then p.tokenCount.value else m.tokenCount,
       bytesTransferred := if p.bytesTransferred.Some? then p.bytesTransferred.value else m.bytesTransferred,
       transferSeconds := if p.transferSeconds.Some? then p.transferSeconds.value else m.transferSeconds)
  }

  function TxRegisterAgent(db: Tables, a: AgentId, row: Agent): Tx {
    if a in db.agents then Err(StateConflict) else Ok(db.(agents := db.agents[a := row]))
  }

  function CheckLease(db: Tables, a: AgentId, engine: EngineId, epoch: int): Option<StoreError> {
    if a !in db.agents then Some(KeyError)
    else if (db.agents[a].ownerEngine, db.agents[a].ownerEpoch) != (engine, epoch) then Some(StaleLease)
    else None
  }

  function TxCommitStep(db: Tables, a: AgentId, step: int, content: Content, expectedEpoch: int): Tx {
    if a !in db.agents then Err(KeyError)
    else if db.agents[a].ownerEpoch != expectedEpoch then Err(StaleLease)
    else if step <= db.agents[a].committedStep then Err(StateConflict)
    else Ok(db.(agents := db.agents[a := db.agents[a].(committedStep := step, content := content)]))
  }

  function TxClaimStep(db: Tables, key: StepKey, engine: EngineId, epoch: int, rid: string): Tx {
    var lease := CheckLease(db, key.agentId, engine, epoch);
    if lease.Some? then Err(lease.value)
    else if key.stepId != db.agents[key.agentId].committedStep + 1 then Err(StateConflict)
    else if key in db.claims && db.claims[key].status != FAILED then Err(StateConflict)
    else Ok(db.(claims := db.claims[key := Claim(epoch, rid, CLAIMED)]))
  }

  function TxCommitClaimedStep(db: Tables, key: StepKey, content: Content, expectedEpoch: int, rid: string): Tx {
    var a := key.agentId;
    if key !in db.claims || db.claims[key].status != CLAIMED then Err(StateConflict)
    else if db.claims[key].rid != rid || db.claims[key].ownerEpoch != expectedEpoch then Err(StaleLease)
    else if a !in db.agents then Err(TypeError)
    else if db.agents[a].ownerEpoch != expectedEpoch then Err(StaleLease)
    else if key.stepId != db.agents[a].committedStep + 1 then Err(StateConflict)
    else Ok(db.(agents := db.agents[a := db.agents[a].(committedStep := key.stepId, content := content)],
                claims := db.claims[key := db.claims[key].(status := COMPLETED)]))
  }

  function TxFailClaimedStep(db: Tables, key: StepKey, rid: string, outcomeUnknown: bool): Tx {
    if key in db.claims && db.claims[key].rid == rid && db.claims[key].status == CLAIMED then
      Ok(db.(claims := db.claims[key := db.claims[key].(status := if outcomeUnknown then UNKNOWN else FAILED)]))
    else Err(StateConflict)
  }

  /** The INSERT of start_migration: primary key, foreign key and partial unique index. */
  function TxInsertMigration(db: Tables, id: MigrationId, m: Migration): Tx {
    if || id in db.migrations
       || m.agentId !in db.agents
       || (LiveState(m.state) && HasLiveMigration(db.migrations, m.agentId))
    then Err(StateConflict)
    else Ok(db.(migrations := db.migrations[id := m]))
  }

  function TxTransitionMigration(db: Tables, id: MigrationId, expected: MigrationState, target: MigrationState,
                                 progress: Progress): Tx
  {
    if id !in db.migrations then Err(KeyError)
    else if db.migrations[id].state != expected then Err(StateConflict)
    else Ok(db.(migrations := db.migrations[id := WithProgress(db.migrations[id], target, progress)]))
  }

  /** The agents table once `a` is leased to `engine` at `epoch`. */
  function SetLease(agents: map<AgentId, Agent>, a: AgentId, engine: EngineId, epoch: int): map<AgentId, Agent>
    requires a in agents
  {
    agents[a := agents[a].(ownerEngine := engine, ownerEpoch := epoch)]
  }

  function MoveOwner(db: Tables, id: MigrationId, engine: EngineId, epoch: int, state: MigrationState): Tables
    requires id in db.migrations && db.migrations[id].agentId in db.agents
  {
    db.(agents := SetLease(db.agents, db.migrations[id].agentId, engine, epoch),
        migrations := db.migrations[id := db.migrations[id].(state := state)])
  }

  function TxCommitMigration(db: Tables, id: MigrationId): Tx {
    if id !in db.migrations then Err(KeyError)
    else
      var m := db.migrations[id];
      if m.state != DEST_READY then Err(StateConflict)
      else if m.agentId !in db.agents then Err(TypeError)
      else if !HoldsLease(db, m.agentId, m.sourceEngine, m.sourceEpoch) then Err(StaleLease)
      else Ok(MoveOwner(db, id, m.destinationEngine, m.sourceEpoch + 1, COMMITTED))
  }

  function TxRecoverMigration(db: Tables, id: MigrationId, recoveryEngine: EngineId): Tx {
    if id !in db.migrations then Err(KeyError)
    else
      var m := db.migrations[id];
      if m.state == RECOVERED then Ok(db)
      else if m.state != COMMITTED && m.state != SOURCE_RELEASED then Err(StateConflict)
      else if m.agentId !in db.agents then Err(TypeError)
      else if !HoldsLease(db, m.agentId, m.destinationEngine, m.sourceEpoch + 1) then Err(StaleLease)
      else Ok(MoveOwner(db, id, recoveryEngine, m.sourceEpoch + 2, RECOVERED))
  }

  /** INSERT OR IGNORE of prepare_effect. */
  function TxInsertEffect(db: Tables, key: EffectKey, epoch: int, payload: Json): Tables {
    if key in db.effects then db else db.(effects := db.effects[key := Effect(epoch, PREPARED, payload, None)])
  }

  /** The compare-and-swap UPDATE of transition_effect. */
  function TxCasEffect(db: Tables, key: EffectKey, expected: EffectStatus, target: EffectStatus, epoch: int,
                       result: Option<Json>): Tx
  {
    if key in db.effects && db.effects[key].status == expected then
      Ok(db.(effects := db.effects[key := db.effects[key].(status := target, ownerEpoch := epoch, result := result)]))
    else Err(StateConflict)
  }

  /** A method that ran transaction `tx` on tables `before` left `after` behind and reported `r`. */
  ghost predicate Ran(tx: Tx, before: Tables, after: Tables, r: Option<StoreError>) {
    match tx
    case Ok(db) => r == None && after == db
    case Err(e) => r == Some(e) && after == before
  }

  class SQLiteStateStore {
    var agents: map<AgentId, Agent>
    var claims: map<StepKey, Claim>
    var migrations: map<MigrationId, Migration>
    var effects: map<EffectKey, Effect>

    function Db(): Tables
      reads this
    {
      Tables(agents, claims, migrations, effects)
    }

    constructor ()
      ensures Db() == EMPTY_TABLES
    {
      agents, claims, migrations, effects := map[], map[], map[], map[];
    }

    method RegisterAgent(a: AgentId, row: Agent) returns (r: Option<StoreError>)
      modifies this`agents
      ensures Ran(TxRegisterAgent(old(Db()), a, row), old(Db()), Db(), r)
      ensures (r == None <==> a !in old(agents)) && agents == if r == None then old(agents)[a := row] else old(agents)
    {
      if a in agents {
        return Some(StateConflict);
      }
      agents := agents[a := row];
      r := None;
    }

    method AssertLease(a: AgentId, engine: EngineId, epoch: int) returns (r: Option<StoreError>)
      ensures r == CheckLease(Db(), a, engine, epoch)
      ensures r == None <==> HoldsLease(Db(), a, engine, epoch)
    {
      if a !in agents {
        return Some(KeyError);
      }
      var current := agents[a];
      r := if current.ownerEngine == engine && current.ownerEpoch == epoch then None else Some(StaleLease);
    }

    method CommitStep(a: AgentId, step: int, content: Content, expectedEpoch: int) returns (r: Option<StoreError>)
      modifies this`agents
      ensures Ran(TxCommitStep(old(Db()), a, step, content, expectedEpoch), old(Db()), Db(), r)
      ensures r == None <==> a in old(agents) && old(agents)[a].ownerEpoch == expectedEpoch
                             && old(agents)[a].committedStep < step
      ensures agents == if r == None then old(agents)[a := old(agents)[a].(committedStep := step, content := content)]
                        else old(agents)
    {
      if a !in agents {
        return Some(KeyError);
      }
      var current := agents[a];
      if current.ownerEpoch != expectedEpoch {
        return Some(StaleLease);
      }
      if step <= current.committedStep {
        return Some(StateConflict);
      }
      agents := agents[a := current.(committedStep := step, content := content)];
      r := None;
    }

    method ClaimStep(key: StepKey, engine: EngineId, epoch: int, rid: string) returns (r: Option<StoreError>)
      modifies this`claims
      ensures Ran(TxClaimStep(old(Db()), key, engine, epoch, rid), old(Db()), Db(), r)
      ensures r == None <==> && HoldsLease(old(Db()), key.agentId, engine, epoch)
                             && key.stepId == agents[key.agentId].committedStep + 1
                             && (key in old(claims) ==> old(claims)[key].status == FAILED)
      ensures claims == if r == None then old(claims)[key := Claim(epoch, rid, CLAIMED)] else old(claims)
    {
      if key.agentId !in agents {
        return Some(KeyError);
      }
      var agent := agents[key.agentId];
      if agent.ownerEngine != engine || agent.ownerEpoch != epoch {
        return Some(StaleLease);
      }
      if key.stepId != agent.committedStep + 1 {
        return Some(StateConflict);
      }
      if key in claims {
        if claims[key].status == FAILED {
          claims := claims[key := claims[key].(ownerEpoch := epoch, rid := rid, status := CLAIMED)];
          return None;
        }
        return Some(StateConflict);
      }
      claims := claims[key := Claim(epoch, rid, CLAIMED)];
      r := None;
    }

    method CommitClaimedStep(key: StepKey, content: Content, expectedEpoch: int, rid: string)
      returns (r: Option<StoreError>)
      modifies this`agents, this`claims
      ensures Ran(TxCommitClaimedStep(old(Db()), key, content, expectedEpoch, rid), old(Db()), Db(), r)
      ensures r == None <==> && key in old(claims) && old(claims)[key] == Claim(expectedEpoch, rid, CLAIMED)
                             && key.agentId in old(agents) && old(agents)[key.agentId].ownerEpoch == expectedEpoch
                             && key.stepId == old(agents)[key.agentId].committedStep + 1
      ensures r == None ==>
                && claims == old(claims)[key := Claim(expectedEpoch, rid, COMPLETED)]
                && agents == old(agents)[key.agentId := old(agents)[key.agentId].(
                                           committedStep := key.stepId, content := content)]
      ensures r != None ==> agents == old(agents) && claims == old(claims)
    {
      if key !in claims || claims[key].status != CLAIMED {
        return Some(StateConflict);
      }
      if claims[key].rid != rid || claims[key].ownerEpoch != expectedEpoch {
        return Some(StaleLease);
      }
      if key.agentId !in agents {
        return Some(TypeError);
      }
      var agent := agents[key.agentId];
      if agent.ownerEpoch != expectedEpoch {
        return Some(StaleLease);
      }
      if key.stepId != agent.committedStep + 1 {
        return Some(StateConflict);
      }
      agents := agents[key.agentId := agent.(committedStep := key.stepId, content := content)];
      claims := claims[key := claims[key].(status := COMPLETED)];
      r := None;
    }

    method FailClaimedStep(key: StepKey, rid: string, outcomeUnknown: bool) returns (r: Option<StoreError>)
      modifies this`claims
      ensures Ran(TxFailClaimedStep(old(Db()), key, rid, outcomeUnknown), old(Db()), Db(), r)
      ensures r == None <==> key in old(claims) && old(claims)[key].rid == rid && old(claims)[key].status == CLAIMED
      ensures claims == if r == None
                        then old(claims)[key := Claim(old(claims)[key].ownerEpoch, rid,
                                                      if outcomeUnknown then UNKNOWN else FAILED)]
                        else old(claims)
    {
      var target := if outcomeUnknown then UNKNOWN else FAILED;
      if key !in claims || claims[key].rid != rid || claims[key].status != CLAIMED {
        return Some(StateConflict);
      }
      claims := claims[key := claims[key].(status := target)];
      r := None;
    }

    /** With nobody else writing, the lease read and the insert see the same tables. */
    method StartMigration(id: MigrationId, m: Migration) returns (r: Option<StoreError>)
      modifies this`migrations
      ensures var lease := CheckLease(old(Db()), m.agentId, m.sourceEngine, m.sourceEpoch);
              Ran(if lease.Some? then Err(lease.value) else TxInsertMigration(old(Db()), id, m), old(Db()), Db(), r)
      ensures r == None <==> && HoldsLease(old(Db()), m.agentId, m.sourceEngine, m.sourceEpoch)
                             && id !in old(migrations)
                             && !(m.state in {PREPARING, COPYING, DEST_READY, COMMITTED}
                                  && exists j :: j in old(migrations) && old(migrations)[j].agentId == m.agentId
                                       && old(migrations)[j].state in {PREPARING, COPYING, DEST_READY, COMMITTED})
      ensures migrations == if r == None then old(migrations)[id := m] else old(migrations)
    {
      r := AssertLease(m.agentId, m.sourceEngine, m.sourceEpoch);
      if r.Some? {
        return;
      }
      if id in migrations || (LiveState(m.state) && HasLiveMigration(migrations, m.agentId)) {
        return Some(StateConflict);
      }
      migrations := migrations[id := m];
    }

    method TransitionMigration(id: MigrationId, expected: MigrationState, target: MigrationState, progress: Progress)
      returns (r: Option<StoreError>)
      modifies this`migrations
      ensures Ran(TxTransitionMigration(old(Db()), id, expected, target, progress), old(Db()), Db(), r)
      ensures r == None <==> id in old(migrations) && old(migrations)[id].state == expected
      ensures r == None ==>
                && id in migrations && migrations == old(migrations)[id := migrations[id]]
                && var m, n := old(migrations)[id], migrations[id];
                   && n.state == target && n.error == progress.error && n.agentId == m.agentId
                   && n.sourceEngine == m.sourceEngine && n.destinationEngine == m.destinationEngine
                   && n.sourceEpoch == m.sourceEpoch
                   && (if progress.tokenCount.Some? then progress.tokenCount == Some(n.tokenCount)
                       else n.tokenCount == m.tokenCount)
                   && (if progress.bytesTransferred.Some? then progress.bytesTransferred == Some(n.bytesTransferred)
                       else n.bytesTransferred == m.bytesTransferred)
                   && (if progress.transferSeconds.Some? then progress.transferSeconds == Some(n.transferSeconds)
                       else n.transferSeconds == m.transferSeconds)
      ensures r != None ==> migrations == old(migrations)
    {
      if id !in migrations {
        return Some(KeyError);
      }
      var row := migrations[id];
      if row.state != expected {
        return Some(StateConflict);
      }
      row := row.(state := target, error := progress.error);
      if progress.tokenCount.Some? {
        row := row.(tokenCount := progress.tokenCount.value);
      }
      if progress.bytesTransferred.Some? {
        row := row.(bytesTransferred := progress.bytesTransferred.value);
      }
      if progress.transferSeconds.Some? {
        row := row.(transferSeconds := progress.transferSeconds.value);
      }
      migrations := migrations[id := row];
      r := None;
    }

    method CommitMigration(id: MigrationId) returns (r: Option<StoreError>)
      modifies this`agents, this`migrations
      ensures Ran(TxCommitMigration(old(Db()), id), old(Db()), Db(), r)
      ensures r == None <==> && id in old(migrations) && old(migrations)[id].state == DEST_READY
                             && var m := old(migrations)[id];
                                HoldsLease(old(Db()), m.agentId, m.sourceEngine, m.sourceEpoch)
      ensures r == None ==>
                var m := old(migrations)[id];
                && migrations == old(migrations)[id := m.(state := COMMITTED)]
                && agents == old(agents)[m.agentId := old(agents)[m.agentId].(
                                           ownerEngine := m.destinationEngine, ownerEpoch := m.sourceEpoch + 1)]
      ensures r != None ==> agents == old(agents) && migrations == old(migrations)
    {
      if id !in migrations {
        return Some(KeyError);
      }
      var m := migrations[id];
      if m.state != DEST_READY {
        return Some(StateConflict);
      }
      if m.agentId !in agents {
        return Some(TypeError);
      }
      var agent := agents[m.agentId];
      if agent.ownerEngine != m.sourceEngine || agent.ownerEpoch != m.sourceEpoch {
        return Some(StaleLease);
      }
      var newEpoch := m.sourceEpoch + 1;
      agents := agents[m.agentId := agent.(ownerEngine := m.destinationEngine, ownerEpoch := newEpoch)];
      migrations := migrations[id := m.(state := COMMITTED)];
      r := None;
    }

    method RecoverCommittedMigration(id: MigrationId, recoveryEngine: EngineId) returns (r: Option<StoreError>)
      modifies this`agents, this`migrations
      ensures Ran(TxRecoverMigration(old(Db()), id, recoveryEngine), old(Db()), Db(), r)
      ensures r == None <==>
                && id in old(migrations)
                && var m := old(migrations)[id];
                   || m.state == RECOVERED
                   || ((m.state == COMMITTED || m.state == SOURCE_RELEASED)
                       && HoldsLease(old(Db()), m.agentId, m.destinationEngine, m.sourceEpoch + 1))
      ensures r == None && old(migrations)[id].state != RECOVERED ==>
                var m := old(migrations)[id];
                && migrations == old(migrations)[id := m.(state := RECOVERED)]
                && agents == old(agents)[m.agentId := old(agents)[m.agentId].(
                                           ownerEngine := recoveryEngine, ownerEpoch := m.sourceEpoch + 2)]
      ensures r != None || old(migrations)[id].state == RECOVERED ==>
                agents == old(agents) && migrations == old(migrations)
    {
      if id !in migrations {
        return Some(KeyError);
      }
      var m := migrations[id];
      if m.state == RECOVERED {
        return None;
      }
      if m.state != COMMITTED && m.state != SOURCE_RELEASED {
        return Some(StateConflict);
      }
      if m.agentId !in agents {
        return Some(TypeError);
      }
      var agent := agents[m.agentId];
      var destinationEpoch := m.sourceEpoch + 1;
      if agent.ownerEngine != m.destinationEngine || agent.ownerEpoch != destinationEpoch {
        return Some(StaleLease);
      }
      var recoveryEpoch := destinationEpoch + 1;
      agents := agents[m.agentId := agent.(ownerEngine := recoveryEngine, ownerEpoch := recoveryEpoch)];
      migrations := migrations[id := m.(state := RECOVERED)];
      r := None;
    }

    method InsertEffect(key: EffectKey, epoch: int, payload: Json)
      modifies this`effects
      ensures Db() == TxInsertEffect(old(Db()), key, epoch, payload)
      ensures effects == if key in old(effects) then old(effects)
                         else old(effects)[key := Effect(epoch, PREPARED, payload, None)]
    {
      if key !in effects {
        effects := effects[key := Effect(epoch, PREPARED, payload, None)];
      }
    }

    method CasEffect(key: EffectKey, expected: EffectStatus, target: EffectStatus, epoch: int, result: Option<Json>)
      returns (r: Option<StoreError>)
      modifies this`effects
      ensures Ran(TxCasEffect(old(Db()), key, expected, target, epoch, result), old(Db()), Db(), r)
      ensures r == None <==> key in old(effects) && old(effects)[key].status == expected
      ensures effects == if r == None
                         then old(effects)[key := Effect(epoch, target, old(effects)[key].payload, result)]
                         else old(effects)
    {
      if key !in effects || effects[key].status != expected {
        return Some(StateConflict);
      }
      effects := effects[key := effects[key].(status := target, ownerEpoch := epoch, result := result)];
      r := None;
    }
  }
}
