/**
One migration driver, a crash anywhere inside it, and the reconciliation that follows a
restart.  Engine replies are inputs: `Fault` says where an engine call raised or the
controller died, `CopyReport` what the transfer status queries answered.

The coordinator starts from the tables of any reachable world and keeps track of the world
that its own writes lead to.  Steps of other processes between its writes are the subject
of CoordinatorProtocol, whose steps its methods take.
*/
module Coordinator {
  import opened Wrappers
  import opened StateStore
  import opened World
  import opened OwnershipProtocol
  import P = CoordinatorProtocol

  /** The store writes of a driver; a fault strikes right after one of them. */
  datatype Point = INSERTED | COPY_STARTED | READY | OWNED

  datatype Fault = NoFault | Raises(at: Point) | Dies(at: Point)

  datatype Outcome = Finished | EngineError | StoreFailure(error: StoreError) | BadRequest | Died

  datatype CopyReport = STILL_COPYING | SETTLED

  const ABORT_NOTE := "controller restart before ownership commit"

  /** The record a driver leaves behind, fault by fault. */
  function StateAfter(fault: Fault): MigrationState {
    match fault
    case NoFault => COMMITTED
    case Raises(OWNED) => COMMITTED
    case Raises(READY) => DEST_READY
    case Raises(_) => ABORTED
    case Dies(INSERTED) => PREPARING
    case Dies(COPY_STARTED) => COPYING
    case Dies(READY) => DEST_READY
    case Dies(OWNED) => COMMITTED
  }

  /** What reconcile_after_restart turns a record into. */
  function Reconciled(m: Migration, report: CopyReport): Migration {
    if m.state == PREPARING || m.state == DEST_READY || (m.state == COPYING && report == SETTLED)
    then m.(state := ABORTED, error := Some(ABORT_NOTE)) else m
  }

  lemma SettledStays(m: Migration, report: CopyReport)
    requires !LiveState(m.state)
    ensures Reconciled(m, report) == m
  {
  }

  lemma ReconciledSpelledOut()
    ensures forall m: Migration, report ::
              var aborted := m.(state := ABORTED, error := Some("controller restart before ownership commit"));
              Reconciled(m, report)
              == match m.state
                 case COPYING => if report == STILL_COPYING then m else aborted
                 case PREPARING => aborted
                 case DEST_READY => aborted
                 case _ => m
  {
  }

  /** A running copy and whatever is past the copying is left alone; every other live record is ABORTED with the restart
      note, or as it was if the reconciliation raised. */
  ghost predicate RowsReconciled(before: map<MigrationId, Migration>, after: map<MigrationId, Migration>,
                                 reports: map<MigrationId, CopyReport>, ok: bool)
  {
    && after.Keys == before.Keys <= reports.Keys
    && forall id :: id in after ==>
         var aborted := before[id].(state := ABORTED, error := Some("controller restart before ownership commit"));
         match before[id].state
         case COPYING => if reports[id] == STILL_COPYING then after[id] == before[id]
                         else after[id] == aborted || (!ok && after[id] == before[id])
         case PREPARING => after[id] == aborted || (!ok && after[id] == before[id])
         case DEST_READY => after[id] == aborted || (!ok && after[id] == before[id])
         case _ => after[id] == before[id]
  }

  lemma LiveAfterwards(before: map<MigrationId, Migration>, after: map<MigrationId, Migration>,
                       reports: map<MigrationId, CopyReport>)
    requires RowsReconciled(before, after, reports, true)
    ensures forall id :: id in after && LiveState(after[id].state) ==>
              after[id].state == COMMITTED
              || (after[id].state == COPYING && id in reports && reports[id] == STILL_COPYING)
  {
  }

  lemma RowAfterwards(before: map<MigrationId, Migration>, after: map<MigrationId, Migration>,
                      reports: map<MigrationId, CopyReport>, id: MigrationId)
    requires RowsReconciled(before, after, reports, true)
    ensures id in before ==>
              && id in after && id in reports
              && after[id].state == match before[id].state
                                    case PREPARING => ABORTED
                                    case COPYING => if reports[id] == STILL_COPYING then COPYING else ABORTED
                                    case DEST_READY => ABORTED
                                    case s => s
  {
  }

  /** States the except clause leaves alone. */
  predicate PastCopying(s: MigrationState) {
    s != PREPARING && s != COPYING
  }

  /** The two records are about the same handoff. */
  predicate SameParties(m: Migration, n: Migration) {
    && m.agentId == n.agentId && m.sourceEpoch == n.sourceEpoch
    && m.sourceEngine == n.sourceEngine && m.destinationEngine == n.destinationEngine
  }

  lemma MovesAreCounted(w: World)
    requires Reachable(w)
    ensures forall i :: i in w.db.migrations ==>
              i in w.own.moves
              && (w.db.migrations[i].state == ABORTED ==> (w.own.moves[i] == 0 <==> i !in w.own.cleared))
              && (w.db.migrations[i].state == COMMITTED ==> w.own.moves[i] == 1)
  {
    hide Reachable;
    forall i | i in w.db.migrations ensures i in w.own.moves
        && (w.db.migrations[i].state == ABORTED ==> (w.own.moves[i] == 0 <==> i !in w.own.cleared))
        && (w.db.migrations[i].state == COMMITTED ==> w.own.moves[i] == 1)
    {
      MovesMatchState(w, i);
    }
  }

  lemma RecoveryFinds(w: World, id: MigrationId)
    requires Reachable(w) && id in w.db.migrations
    ensures w.db.migrations[id].agentId in w.db.agents
  {
    hide Reachable;
    OwnInvReachable(w);
    TruthOf(w, id);
    assert RecordOk(w.db.agents, w.own.owners, Truth(w)[id]);
  }

  /** What the recovery of a reachable record meets. */
  lemma RecoverableNow(w: World, id: MigrationId)
    requires Reachable(w)
    ensures id in w.db.migrations && w.db.migrations[id].state == COMMITTED ==>
              forall engine :: TxRecoverMigration(w.db, id, engine).Ok?
    ensures id in w.db.migrations && w.db.migrations[id].state == SOURCE_RELEASED ==>
              var m := w.db.migrations[id];
              && m.agentId in w.db.agents
              && forall engine :: TxRecoverMigration(w.db, id, engine).Ok? <==>
                                    w.db.agents[m.agentId].ownerEpoch == m.sourceEpoch + 1
    ensures id in w.db.migrations ==> w.db.migrations[id].agentId in w.db.agents
  {
    hide Reachable;
    if id in w.db.migrations {
      RecoveryFinds(w, id);
      if w.db.migrations[id].state == COMMITTED {
        forall engine ensures TxRecoverMigration(w.db, id, engine).Ok? {
          CommittedIsRecoverable(w, id, engine);
        }
      } else if w.db.migrations[id].state == SOURCE_RELEASED {
        forall engine ensures TxRecoverMigration(w.db, id, engine).Ok? <==>
                              w.db.agents[w.db.migrations[id].agentId].ownerEpoch
                              == w.db.migrations[id].sourceEpoch + 1
        {
          ReleasedIsRecoverableIff(w, id, engine);
        }
      }
    }
  }

  class MigrationCoordinator {
    const store: SQLiteStateStore
    const engines: set<EngineId>
    ghost var world: World

    /** The tables are those of a reachable world. */
    ghost predicate Valid()
      reads this, store
    {
      Reachable(world) && world.db == store.Db()
    }

    constructor (store: SQLiteStateStore, engines: set<EngineId>, ghost world: World)
      requires Reachable(world) && world.db == store.Db()
      ensures Valid() && this.store == store && this.engines == engines && this.world == world
    {
      this.store, this.engines, this.world := store, engines, world;
    }

    /** One compare-and-swap of a coordinator. */
    method Transition(id: MigrationId, expected: MigrationState, target: MigrationState, progress: Progress)
      returns (r: Option<StoreError>)
      requires Valid() && CoordinatorPair(expected, target) && !LatePair(expected, target)
      modifies store`migrations, this`world
      ensures Valid()
      ensures var before := old(store.Db());
              Ran(TxTransitionMigration(before, id, expected, target, progress), before, store.Db(), r)
      ensures world == Apply(old(world), Action.Transition(id, expected, target, progress))
              && world.own == old(world.own)
    {
      hide Reachable;
      ReachableStep(world, Action.Transition(id, expected, target, progress));
      world := Apply(world, Action.Transition(id, expected, target, progress));
      r := store.TransitionMigration(id, expected, target, progress);
    }

    /** The insert of a driver's record, with nobody between its lease read and its insert. */
    method Start(id: MigrationId, m: Migration) returns (r: Option<StoreError>)
      requires Valid() && m.state == PREPARING && HoldsLease(store.Db(), m.agentId, m.sourceEngine, m.sourceEpoch)
      modifies store`migrations, this`world
      ensures world.own.cleared == old(world.own.cleared)
      ensures Valid() && Ran(TxInsertMigration(old(store.Db()), id, m), old(store.Db()), store.Db(), r)
    {
      hide Reachable, HasLiveMigration;
      ghost var p := FreshPid(world.starts.Keys);
      ReachableStep(world, ReadStartLease(p, id, m));
      world := Apply(world, ReadStartLease(p, id, m));
      ReachableStep(world, InsertStart(p));
      world := Apply(world, InsertStart(p));
      r := store.StartMigration(id, m);
    }

    method Commit(id: MigrationId) returns (r: Option<StoreError>)
      requires Valid()
      modifies store`agents, store`migrations, this`world
      ensures world.own.cleared == old(world.own.cleared)
      ensures Valid() && Ran(TxCommitMigration(old(store.Db()), id), old(store.Db()), store.Db(), r)
    {
      hide Reachable;
      ReachableStep(world, CommitOwnership(id));
      world := Apply(world, CommitOwnership(id));
      r := store.CommitMigration(id);
    }

    /** The except clause shared by the drivers: only a copy that never became ready is aborted. */
    method AbortUnlessReady(id: MigrationId)
      requires Valid() && id in store.migrations
      modifies store`migrations, this`world
      ensures Valid() && world.own.cleared == old(world.own.cleared)
      ensures PastCopying(old(store.migrations[id].state)) ==> store.migrations == old(store.migrations)
      ensures !PastCopying(old(store.migrations[id].state)) ==>
                && id in store.migrations && store.migrations == old(store.migrations)[id := store.migrations[id]]
                && var m := old(store.migrations[id]);
                   store.migrations[id] == m.(state := ABORTED, error := store.migrations[id].error)
    {
      var current := store.migrations[id];
      if current.state == PREPARING || current.state == COPYING {
        var r := Transition(id, current.state, ABORTED, NO_PROGRESS.(error := Some("engine error")));
      }
    }

    /** The fault, if it is the one at this point: a dead controller does nothing, an engine error runs the except
        clause. */
    method Strike(id: MigrationId, fault: Fault, point: Point) returns (hit: Option<Outcome>)
      requires Valid() && id in store.migrations
      modifies store`migrations, this`world
      ensures Valid() && world.own.cleared == old(world.own.cleared)
      ensures hit == if fault == Dies(point) then Some(Died)
                     else if fault == Raises(point) then Some(EngineError) else None
      ensures fault != Raises(point) || PastCopying(old(store.migrations[id].state)) ==>
                store.migrations == old(store.migrations)
      ensures fault == Raises(point) && !PastCopying(old(store.migrations[id].state)) ==>
                && id in store.migrations && store.migrations == old(store.migrations)[id := store.migrations[id]]
                && var m := old(store.migrations[id]);
                   store.migrations[id] == m.(state := ABORTED, error := store.migrations[id].error)
    {
      if fault == Raises(point) {
        AbortUnlessReady(id);
        return Some(EngineError);
      }
      hit := if fault == Dies(point) then Some(Died) else None;
    }

    /** One step of the copy and the fault point behind it. */
    method Stage(id: MigrationId, expected: MigrationState, target: MigrationState, progress: Progress, fault: Fault,
                 point: Point)
      returns (hit: Option<Outcome>)
      requires Valid() && id in store.migrations && store.migrations[id].state == expected
      requires (expected, target) == (PREPARING, COPYING) || (expected, target) == (COPYING, DEST_READY)
      modifies store`migrations, this`world
      ensures Valid() && world.own.cleared == old(world.own.cleared)
      ensures hit == if fault == Dies(point) then Some(Died)
                     else if fault == Raises(point) then Some(EngineError) else None
      ensures id in store.migrations && store.migrations == old(store.migrations)[id := store.migrations[id]]
      ensures SameParties(old(store.migrations[id]), store.migrations[id])
      ensures store.migrations[id].state == if fault == Raises(point) && target == COPYING then ABORTED else target
    {
      hide Reachable, Apply;
      var _ := Transition(id, expected, target, progress);
      hit := Strike(id, fault, point);
    }

    /** The copy: PREPARING to DEST_READY, unless the fault strikes on the way. */
    method CopyPrefix(id: MigrationId, tokenCount: int, bytes: int, seconds: real, fault: Fault)
      returns (hit: Option<Outcome>)
      requires Valid() && id in store.migrations && store.migrations[id].state == PREPARING
      modifies store`migrations, this`world
      ensures Valid() && world.own.cleared == old(world.own.cleared)
      ensures id in store.migrations && store.migrations == old(store.migrations)[id := store.migrations[id]]
      ensures SameParties(old(store.migrations[id]), store.migrations[id])
      ensures store.migrations[id].state
              == if fault == NoFault || fault == Raises(OWNED) || fault == Dies(OWNED) then DEST_READY
                 else StateAfter(fault)
      ensures hit == if fault == NoFault || fault == Raises(OWNED) || fault == Dies(OWNED) then None
                     else if fault.Raises? then Some(EngineError) else Some(Died)
    {
      hide Reachable, Apply;
      hit := Strike(id, fault, INSERTED);
      if hit.Some? {
        return;
      }
      hit := Stage(id, PREPARING, COPYING, NO_PROGRESS.(tokenCount := Some(tokenCount)), fault, COPY_STARTED);
      if hit.Some? {
        return;
      }
      hit := Stage(id, COPYING, DEST_READY,
                   NO_PROGRESS.(bytesTransferred := Some(bytes), transferSeconds := Some(seconds)), fault, READY);
    }

    /** The try block, from the inserted record on. */
    method DriveRecord(id: MigrationId, tokenCount: int, bytes: int, seconds: real, fault: Fault)
      returns (outcome: Outcome)
      requires Valid() && id in store.migrations && store.migrations[id].state == PREPARING
      requires var m := store.migrations[id]; HoldsLease(store.Db(), m.agentId, m.sourceEngine, m.sourceEpoch)
      modifies store`agents, store`migrations, this`world
      ensures world.own.cleared == old(world.own.cleared)
      ensures Valid() && store.claims == old(store.claims) && store.effects == old(store.effects)
      ensures outcome == match fault case NoFault => Finished case Raises(_) => EngineError case Dies(_) => Died
      ensures id in store.migrations && store.migrations == old(store.migrations)[id := store.migrations[id]]
      ensures store.migrations[id].state == StateAfter(fault)
              && SameParties(old(store.migrations[id]), store.migrations[id])
      ensures var m := old(store.migrations[id]);
              store.agents == if StateAfter(fault) == COMMITTED
                              then SetLease(old(store.agents), m.agentId, m.destinationEngine, m.sourceEpoch + 1)
                              else old(store.agents)
    {
      hide Reachable;
      var hit := CopyPrefix(id, tokenCount, bytes, seconds, fault);
      if hit.Some? {
        return hit.value;
      }
      var _ := Commit(id);
      hit := Strike(id, fault, OWNED);
      if hit.Some? {
        return hit.value;
      }
      outcome := Finished;
    }

    /**
    _migrate_serial and HybridMigrationCoordinator.migrate, reduced to their store writes.  Ownership moves exactly
    when the record ends COMMITTED; nothing but this record and this lease changes.  A cancelled call is not an
    Exception: it passes the except clause by and ends like a dead controller.
    */
    method MigrateSerial(a: AgentId, destination: EngineId, id: MigrationId, tokenCount: int, bytes: int, seconds: real,
                         fault: Fault)
      returns (outcome: Outcome)
      requires Valid() && id !in store.migrations
      modifies store`agents, store`migrations, this`world
      ensures Valid() && world.own.cleared == old(world.own.cleared)
      ensures store.claims == old(store.claims) && store.effects == old(store.effects)
      ensures outcome.BadRequest? <==>
                old(a !in store.agents || destination == store.agents[a].ownerEngine || destination !in engines
                    || store.agents[a].ownerEngine !in engines)
      ensures outcome.StoreFailure? <==>
                !outcome.BadRequest? && HasLiveMigration(old(store.migrations), a)
      ensures outcome.BadRequest? || outcome.StoreFailure? ==> store.Db() == old(store.Db())
      ensures !outcome.BadRequest? && !outcome.StoreFailure? ==>
                && outcome == (match fault case NoFault => Finished case Raises(_) => EngineError case Dies(_) => Died)
                && id in store.migrations && a in store.agents
                && store.migrations == old(store.migrations)[id := store.migrations[id]]
                && var m, before := store.migrations[id], old(store.agents[a]);
                   && m.state == StateAfter(fault)
                   && m.agentId == a && m.sourceEngine == before.ownerEngine && m.sourceEpoch == before.ownerEpoch
                   && m.destinationEngine == destination
                   && store.agents == (if m.state == COMMITTED
                                       then SetLease(old(store.agents), a, destination, before.ownerEpoch + 1)
                                       else old(store.agents))
    {
      hide HasLiveMigration, Reachable;
      if a !in store.agents {
        return BadRequest;
      }
      var continuation := store.agents[a];
      if destination == continuation.ownerEngine || destination !in engines || continuation.ownerEngine !in engines {
        return BadRequest;
      }
      var record := Migration(a, continuation.ownerEngine, destination, continuation.ownerEpoch, PREPARING, 0, 0, 0.0,
                              None);
      var r := Start(id, record);
      if r.Some? {
        return StoreFailure(r.value);
      }
      outcome := DriveRecord(id, tokenCount, bytes, seconds, fault);
    }

    /**
    Reconciliation in any order of the live records.  A copy that the engines report as running, and whatever is past
    the copying, is left alone; when it returns, every other live record is ABORTED with the restart note.  It raises
    exactly when one of those has an unknown engine or a release that raises; then a part of that work is done.
    */
    method ReconcileAfterRestart(reports: map<MigrationId, CopyReport>, releaseRaises: set<MigrationId>)
      returns (ok: bool)
      requires Valid() && forall id :: id in store.migrations ==> id in reports
      modifies store`migrations, this`world
      ensures Valid() && world.own == old(world.own)
      ensures RowsReconciled(old(store.migrations), store.migrations, reports, ok)
      ensures ok <==> forall id :: id in old(store.migrations) ==>
                          ReconcilesWell(old(store.migrations)[id], reports[id], id in releaseRaises)
    {
      hide Reachable, Reconciled, ReconcilesWell;
      var todo := set id | id in store.migrations && LiveState(store.migrations[id].state);
      forall id | id in store.migrations && id !in todo
        ensures Reconciled(store.migrations[id], reports[id]) == store.migrations[id]
      {
        SettledStays(store.migrations[id], reports[id]);
      }
      forall id | id in store.migrations && id !in todo
        ensures ReconcilesWell(store.migrations[id], reports[id], id in releaseRaises)
      {
        SettledReconciles(store.migrations[id], reports[id], id in releaseRaises);
      }
      while todo != {}
        modifies store`migrations, this`world
        invariant Valid() && world.own == old(world.own)
        invariant store.migrations.Keys == old(store.migrations.Keys)
        invariant todo <= store.migrations.Keys
        invariant forall id :: id in store.migrations ==>
                    store.migrations[id] == if id in todo then old(store.migrations[id])
                                            else Reconciled(old(store.migrations[id]), reports[id])
        invariant forall id :: id in store.migrations && id !in todo ==>
                    ReconcilesWell(old(store.migrations)[id], reports[id], id in releaseRaises)
        decreases todo
      {
        var id :| id in todo;
        ok := ReconcileOne(id, reports[id], id in releaseRaises);
        if !ok {
          break;
        }
        todo := todo - {id};
      }
      ok := todo == {};
      ReconciledSpelledOut();
    }

    /** An engine of the record answers for all that reconciliation asks of it. */
    predicate ReconcilesWell(m: Migration, report: CopyReport, releaseRaises: bool) {
      m.state == PREPARING || m.state == COPYING || m.state == DEST_READY ==>
        && m.sourceEngine in engines && m.destinationEngine in engines
        && ((m.state == COPYING && report == STILL_COPYING) || !releaseRaises)
    }

    lemma SettledReconciles(m: Migration, report: CopyReport, releaseRaises: bool)
      requires !LiveState(m.state)
      ensures ReconcilesWell(m, report, releaseRaises)
    {
    }

    /** One live record. */
    method ReconcileOne(id: MigrationId, report: CopyReport, releaseRaises: bool) returns (ok: bool)
      requires Valid() && id in store.migrations && LiveState(store.migrations[id].state)
      modifies store`migrations, this`world
      ensures Valid() && world.own == old(world.own)
      ensures store.migrations
              == if ok then old(store.migrations)[id := Reconciled(old(store.migrations[id]), report)]
                 else old(store.migrations)
      ensures ok <==> ReconcilesWell(old(store.migrations[id]), report, releaseRaises)
    {
      hide Reachable;
      var migration := store.migrations[id];
      if migration.state == COMMITTED {
        return true;
      }
      if migration.sourceEngine !in engines || migration.destinationEngine !in engines {
        return false;
      }
      if migration.state == COPYING && report == STILL_COPYING {
        return true;
      }
      if releaseRaises {
        return false;
      }
      var _ := Transition(id, migration.state, ABORTED, Progress(None, None, None, Some(ABORT_NOTE)));
      ok := true;
    }

    // ---- acknowledging ----

    /** Reads the record and, if it is COMMITTED, issues the release of the source shadow. */
    method BeginRelease(id: MigrationId, releaseRaises: bool) returns (phase: P.AckPhase)
      requires Valid()
      ensures var read := P.AckMove(world, P.Ack(id, P.ReadingState), P.Done, NO_PROGRESS);
              && read.act == None && read.proc.Ack?
              && phase == (if read.proc.acknowledging.Releasing?
                           then P.AckMove(world, read.proc, if releaseRaises then P.Raises else P.Done,
                                          NO_PROGRESS).proc.acknowledging
                           else read.proc.acknowledging)
    {
      if id !in store.migrations || store.migrations[id].state != COMMITTED {
        return P.AckDone(id in store.migrations && store.migrations[id].state == SOURCE_RELEASED, false);
      }
      if releaseRaises {
        return P.AckDone(false, true);
      }
      phase := P.Closing(store.migrations[id]);
    }

    /** The compare-and-swap once the release has returned. */
    method FinishRelease(id: MigrationId, m: Migration) returns (phase: P.AckPhase)
      requires Valid()
      modifies store`migrations, this`world
      ensures Valid()
      ensures var move := P.AckMove(old(world), P.Ack(id, P.Closing(m)), P.Done, NO_PROGRESS);
              && world == P.Acted(old(world), move.act) && move.proc == P.Ack(id, phase)
    {
      var r := Transition(id, COMMITTED, SOURCE_RELEASED, NO_PROGRESS);
      phase := P.AckDone(r.None?, true);
    }

    /** Both, with nobody in between: a release is issued exactly for a COMMITTED record, and a failed one leaves it
        COMMITTED so that it can be retried. */
    method AcknowledgeDestination(id: MigrationId, releaseRaises: bool) returns (ok: bool, issued: bool)
      requires Valid()
      modifies store`migrations, this`world
      ensures Valid()
      ensures issued <==> old(id in store.migrations && store.migrations[id].state == COMMITTED)
      ensures ok <==> (old(id in store.migrations && store.migrations[id].state == SOURCE_RELEASED)
                       || (issued && !releaseRaises))
      ensures ok ==> id in store.migrations && store.migrations[id].state == SOURCE_RELEASED
                     && store.migrations == old(store.migrations)[id := store.migrations[id]]
      ensures !ok ==> store.migrations == old(store.migrations)
    {
      var phase := BeginRelease(id, releaseRaises);
      if phase.Closing? {
        phase := FinishRelease(id, phase.m);
      }
      ok, issued := phase.ok, phase.issued;
    }

    // ---- recovering ----

    /** Reads the record and, while the source shadow is held and wanted, has it rebound to the recovery epoch. */
    method PlanRecovery(id: MigrationId, target: Option<EngineId>, rebindRaises: bool) returns (phase: P.RecoveryPhase)
      requires Valid()
      ensures var read := P.RecoveryMove(world, P.Recovery(id, target, P.ReadingRecord), P.Done);
              && read.act == None && read.proc.Recovery?
              && phase == (if read.proc.recovering.Rebinding?
                           then P.RecoveryMove(world, read.proc,
                                               if rebindRaises then P.Raises else P.Done).proc.recovering
                           else read.proc.recovering)
    {
      if id !in store.migrations {
        return P.RecoveryFailed;
      }
      var m := store.migrations[id];
      var engine := if target.Some? then target.value else m.sourceEngine;
      if m.state == RECOVERED {
        return P.Returning(m, engine, None, false, false);
      }
      if m.state != COMMITTED && m.state != SOURCE_RELEASED {
        return P.RecoveryFailed;
      }
      if m.state == COMMITTED && engine == m.sourceEngine {
        return P.Planned(m, engine, Some(m.sourceEpoch + 2), !rebindRaises);
      }
      phase := P.Planned(m, engine, None, false);
    }

    /** The transaction of a planned recovery, on whatever the tables are by then. */
    method CommitRecovery(id: MigrationId, target: Option<EngineId>, plan: P.RecoveryPhase)
      returns (phase: P.RecoveryPhase)
      requires Valid() && plan.Planned?
      modifies store`agents, store`migrations, this`world
      ensures Valid()
      ensures var move := P.RecoveryMove(old(world), P.Recovery(id, target, plan), P.Done);
              && world == P.Acted(old(world), move.act) && move.proc == P.Recovery(id, target, phase)
    {
      hide Reachable;
      var already := id in store.migrations && store.migrations[id].state == RECOVERED;
      ReachableStep(world, RecoverOwnership(id, plan.engine));
      world := Apply(world, RecoverOwnership(id, plan.engine));
      var r := store.RecoverCommittedMigration(id, plan.engine);
      if r.Some? || plan.m.agentId !in store.agents {
        phase := P.RecoveryFailed;
      } else if already {
        phase := P.Recovered(plan.m, plan.engine, plan.rebind, plan.reused, false, store.agents[plan.m.agentId]);
      } else {
        phase := P.Returning(plan.m, plan.engine, plan.rebind, plan.reused, true);
      }
    }

    /** The read of the agent for the caller, on whatever the tables are by then. */
    method ReadBack(id: MigrationId, target: Option<EngineId>, before: P.RecoveryPhase) returns (phase: P.RecoveryPhase)
      requires Valid() && before.Returning?
      ensures var move := P.RecoveryMove(world, P.Recovery(id, target, before), P.Done);
              move.act == None && move.proc == P.Recovery(id, target, phase)
    {
      if before.m.agentId !in store.agents {
        return P.RecoveryFailed;
      }
      phase := P.Recovered(before.m, before.engine, before.rebind, before.reused, before.own,
                           store.agents[before.m.agentId]);
    }

    /** All three, with nobody in between: a rebind is tried exactly for a COMMITTED record that goes back to its
        source, and the lease that is returned is then the one it was rebound to. */
    method RecoverDestinationFailure(id: MigrationId, target: Option<EngineId>, rebindRaises: bool)
      returns (phase: P.RecoveryPhase)
      requires Valid()
      modifies store`agents, store`migrations, this`world
      ensures Valid()
      ensures phase.Recovered? ==> id in old(store.migrations)
      ensures phase.Recovered? && old(store.migrations)[id].state == RECOVERED ==> store.Db() == old(store.Db())
      ensures phase.Recovered? && old(store.migrations)[id].state != RECOVERED ==>
                var m := old(store.migrations)[id];
                && store.migrations == old(store.migrations)[id := m.(state := RECOVERED)]
                && phase.engine == (if target.Some? then target.value else m.sourceEngine)
                && phase.lease.ownerEngine == phase.engine && phase.lease.ownerEpoch == m.sourceEpoch + 2
                && HoldsLease(store.Db(), m.agentId, phase.engine, m.sourceEpoch + 2)
                && (phase.rebind.Some? <==> m.state == COMMITTED && phase.engine == m.sourceEngine)
                && (phase.rebind.Some? ==> phase.rebind.value == phase.lease.ownerEpoch)
                && (phase.reused <==> phase.rebind.Some? && !rebindRaises)
      ensures !phase.Recovered? ==> store.Db() == old(store.Db())
      ensures phase.Recovered? <==>
                && id in old(store.migrations)
                && var m := old(store.migrations)[id];
                   && (m.state == COMMITTED || m.state == SOURCE_RELEASED || m.state == RECOVERED)
                   && (m.state == SOURCE_RELEASED ==>
                         m.agentId in old(store.agents)
                         && old(store.agents)[m.agentId].ownerEpoch == m.sourceEpoch + 1)
      ensures phase.Recovered? && old(store.migrations)[id].state == RECOVERED ==>
                var a := old(store.migrations)[id].agentId;
                a in old(store.agents) && phase.lease == old(store.agents)[a] && !phase.reused
    {
      RecoverableNow(world, id);
      phase := PlanRecovery(id, target, rebindRaises);
      if phase.Planned? {
        RecoveryFinds(world, id);
        phase := CommitRecovery(id, target, phase);
      }
      if phase.Returning? {
        phase := ReadBack(id, target, phase);
      }
    }

    /**
    A driver struck anywhere, then a restart: afterwards the record is COMMITTED with ownership moved exactly once,
    or ABORTED (or a copy still running) with ownership untouched.
    */
    method CrashThenReconcile(a: AgentId, destination: EngineId, id: MigrationId, fault: Fault,
                              reports: map<MigrationId, CopyReport>, releaseRaises: set<MigrationId>)
      returns (outcome: Outcome, ok: bool)
      requires Valid() && id !in store.migrations
      requires id in reports && forall i :: i in store.migrations ==> i in reports
      modifies store`agents, store`migrations, this`world
      ensures Valid()
      ensures ok ==> forall i :: i in store.migrations && LiveState(store.migrations[i].state) ==>
                store.migrations[i].state == COMMITTED
                || (store.migrations[i].state == COPYING && i in reports && reports[i] == STILL_COPYING)
      ensures ok && !outcome.BadRequest? && !outcome.StoreFailure? ==>
                && a in old(store.agents) && id in store.migrations
                && var moved := fault == NoFault || fault == Raises(OWNED) || fault == Dies(OWNED);
                   && store.migrations[id].state == (if moved then COMMITTED
                                                     else if fault == Dies(COPY_STARTED) && reports[id] == STILL_COPYING
                                                     then COPYING else ABORTED)
                   && store.agents == (if moved then SetLease(old(store.agents), a, destination,
                                                              old(store.agents)[a].ownerEpoch + 1)
                                       else old(store.agents))
      ensures ok ==> forall i :: i in store.migrations ==>
                i in world.own.moves
                && (store.migrations[i].state == ABORTED ==>
                      (world.own.moves[i] == 0 <==> i !in old(world.own.cleared)))
                && (store.migrations[i].state == COMMITTED ==> world.own.moves[i] == 1)
    {
      hide Reachable, HasLiveMigration, SetLease, ReconcilesWell, RowsReconciled, LiveState;
      outcome := MigrateSerial(a, destination, id, 1, 1, 0.0, fault);
      ghost var driven := store.migrations;
      ok := ReconcileAfterRestart(reports, releaseRaises);
      if ok {
        LiveAfterwards(driven, store.migrations, reports);
        RowAfterwards(driven, store.migrations, reports, id);
      }
      MovesAreCounted(world);
    }
  }
}
