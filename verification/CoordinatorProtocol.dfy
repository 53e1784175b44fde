/**
The coordinators as processes: any number of migration drivers, recoveries, acknowledgements
and restarts over one set of tables, each crashing anywhere.  Whatever a coordinator awaits
from an engine lies between two of its steps, and so does every read of the tables that is
a statement of its own, so every other process may act in between.  Engine replies are
inputs; a call that is cancelled runs no except clause and counts as crashed.
*/
module CoordinatorProtocol {
  import opened Wrappers
  import opened StateStore
  import opened World
  import opened OwnershipProtocol

  /** What an awaited engine call came back with. */
  datatype Reply = Done | Copies | Raises

  /** One migration call; `m` is the record that it starts with, `newEpoch` the epoch that it reports. */
  datatype DriverPhase =
    | Reading
    | Leasing(m: Migration)
    | Starting(m: Migration)
    | Preparing(m: Migration)
    | Copying(m: Migration)
    | Ready(m: Migration)
    | Committed(m: Migration)
    | Handling(m: Migration)
    | Aborting(m: Migration, seen: MigrationState)
    | Finished(m: Migration, newEpoch: int)
    | GaveUp(m: Migration)
    | Refused

  /** One recovery call; `m` is the record as it was read, `reused` what the rebind of the source shadow came back with,
      `own` that its own transaction moved the lease, and `lease` the agent as it was read last and is returned. */
  datatype RecoveryPhase =
    | ReadingRecord
    | Rebinding(m: Migration, engine: EngineId)
    | Planned(m: Migration, engine: EngineId, rebind: Option<int>, reused: bool)
    | Returning(m: Migration, engine: EngineId, rebind: Option<int>, reused: bool, own: bool)
    | Recovered(m: Migration, engine: EngineId, rebind: Option<int>, reused: bool, own: bool, lease: Agent)
    | RecoveryFailed

  /** One acknowledgement; from Releasing on, the release of the source shadow has been issued. */
  datatype AckPhase =
    | ReadingState
    | Releasing(m: Migration)
    | Closing(m: Migration)
    | AckDone(ok: bool, issued: bool)

  datatype Listed = Listed(id: MigrationId, m: Migration)

  /** One reconciliation: the records that existed when it listed the ids of the live ones, the ids whose rows it has
      yet to read, the rows as it read them, and the copies that it was told are still running. */
  datatype RestartPhase =
    | Listing
    | ReadingRows(ids: seq<MigrationId>, todo: seq<Listed>, known: set<MigrationId>)
    | Visiting(todo: seq<Listed>, known: set<MigrationId>, waited: set<MigrationId>)
    | Clearing(todo: seq<Listed>, known: set<MigrationId>, waited: set<MigrationId>)
    | Reconciled(known: set<MigrationId>, waited: set<MigrationId>)
    | RestartFailed

  datatype Proc =
    | Driver(agentId: AgentId, destination: EngineId, id: MigrationId, driving: DriverPhase)
    | Recovery(id: MigrationId, target: Option<EngineId>, recovering: RecoveryPhase)
    | Ack(id: MigrationId, acknowledging: AckPhase)
    | Restart(restarting: RestartPhase)
    | Dead

  datatype System = System(w: World, procs: map<Pid, Proc>)

  /** A step of one process: at most one action on the tables. */
  datatype Move = Move(act: Option<Action>, proc: Proc)

  datatype Event =
    | Work(act: Action)
    | Spawn(pid: Pid, proc: Proc)
    | Advance(pid: Pid, reply: Reply, progress: Progress, order: seq<MigrationId>)
    | Crash(pid: Pid)

  predicate IsNew(proc: Proc) {
    match proc
    case Driver(_, _, _, phase) => phase.Reading?
    case Recovery(_, _, phase) => phase.ReadingRecord?
    case Ack(_, phase) => phase.ReadingState?
    case Restart(phase) => phase.Listing?
    case Dead => false
  }

  /** Registration, executors and effect proxies: what the coordinators share the tables with. */
  predicate IsWork(act: Action) { act.Register? || !TouchesOwnership(act) }

  predicate Unsettled(s: MigrationState) { s == PREPARING || s == COPYING || s == DEST_READY }

  predicate Granted(s: MigrationState) { s == COMMITTED || s == SOURCE_RELEASED || s == RECOVERED }

  function StateOf(w: World, id: MigrationId): Option<MigrationState> {
    if id in w.db.migrations then Some(w.db.migrations[id].state) else None
  }

  // ---- the steps ----

  /** The compare-and-swap of a driver, inside its try block. */
  function DriverCas(w: World, d: Proc, m: Migration, reply: Reply, expected: MigrationState, target: MigrationState,
                     progress: Progress, next: DriverPhase): Move
    requires d.Driver?
  {
    if reply == Raises then Move(None, d.(driving := Handling(m)))
    else Move(Some(Transition(d.id, expected, target, progress)),
              d.(driving := if StateOf(w, d.id) == Some(expected) then next else Handling(m)))
  }

  function DriverMove(w: World, pid: Pid, d: Proc, reply: Reply, progress: Progress): Move
    requires d.Driver?
  {
    match d.driving
    case Reading =>
      if d.agentId !in w.db.agents || w.db.agents[d.agentId].ownerEngine == d.destination
      then Move(None, d.(driving := Refused))
      else Move(None, d.(driving := Leasing(Handoff(w, d.agentId, d.destination))))
    case Leasing(m) =>
      if HoldsLease(w.db, m.agentId, m.sourceEngine, m.sourceEpoch)
      then Move(Some(ReadStartLease(pid, d.id, m)), d.(driving := Starting(m)))
      else Move(None, d.(driving := Refused))
    case Starting(m) =>
      Move(Some(InsertStart(pid)),
           d.(driving := if TxInsertMigration(w.db, d.id, m).Ok? then Preparing(m) else Refused))
    case Preparing(m) => DriverCas(w, d, m, reply, PREPARING, COPYING, progress, Copying(m))
    case Copying(m) => DriverCas(w, d, m, reply, COPYING, DEST_READY, progress, Ready(m))
    case Ready(m) =>
      if reply == Raises then Move(None, d.(driving := Handling(m)))
      else Move(Some(CommitOwnership(d.id)),
                d.(driving := if TxCommitMigration(w.db, d.id).Ok? then Committed(m) else Handling(m)))
    case Committed(m) =>
      Move(None, d.(driving := if reply == Raises || m.agentId !in w.db.agents then Handling(m)
                               else Finished(m, w.db.agents[m.agentId].ownerEpoch)))
    case Handling(m) =>
      var seen := StateOf(w, d.id);
      Move(None, d.(driving := if seen == Some(PREPARING) || seen == Some(COPYING) then Aborting(m, seen.value)
                               else GaveUp(m)))
    case Aborting(m, seen) => Move(Some(Transition(d.id, seen, ABORTED, progress)), d.(driving := GaveUp(m)))
    case _ => Move(None, d)
  }

  function RecoveryMove(w: World, r: Proc, reply: Reply): Move
    requires r.Recovery?
  {
    match r.recovering
    case ReadingRecord =>
      if r.id !in w.db.migrations || !Granted(w.db.migrations[r.id].state)
      then Move(None, r.(recovering := RecoveryFailed))
      else
        var m := w.db.migrations[r.id];
        var engine := if r.target.Some? then r.target.value else m.sourceEngine;
        if m.state == RECOVERED then Move(None, r.(recovering := Returning(m, engine, None, false, false)))
        else if m.state == COMMITTED && engine == m.sourceEngine
        then Move(None, r.(recovering := Rebinding(m, engine)))
        else Move(None, r.(recovering := Planned(m, engine, None, false)))
    case Rebinding(m, engine) =>
      Move(None, r.(recovering := Planned(m, engine, Some(m.sourceEpoch + 2), reply != Raises)))
    case Planned(m, engine, rebind, reused) =>
      var tx := TxRecoverMigration(w.db, r.id, engine);
      var next :=
        if tx.Err? || m.agentId !in tx.value.agents then RecoveryFailed
        else if StateOf(w, r.id) == Some(RECOVERED)
        then Recovered(m, engine, rebind, reused, false, tx.value.agents[m.agentId])
        else Returning(m, engine, rebind, reused, true);
      Move(Some(RecoverOwnership(r.id, engine)), r.(recovering := next))
    case Returning(m, engine, rebind, reused, own) =>
      Move(None, r.(recovering := if m.agentId in w.db.agents
                                  then Recovered(m, engine, rebind, reused, own, w.db.agents[m.agentId])
                                  else RecoveryFailed))
    case _ => Move(None, r)
  }

  function AckMove(w: World, a: Proc, reply: Reply, progress: Progress): Move
    requires a.Ack?
  {
    match a.acknowledging
    case ReadingState =>
      var state := StateOf(w, a.id);
      Move(None, a.(acknowledging := if state == Some(COMMITTED) then Releasing(w.db.migrations[a.id])
                                     else AckDone(state == Some(SOURCE_RELEASED), false)))
    case Releasing(m) => Move(None, a.(acknowledging := if reply == Raises then AckDone(false, true) else Closing(m)))
    case Closing(m) =>
      Move(Some(Transition(a.id, COMMITTED, SOURCE_RELEASED, progress)),
           a.(acknowledging := AckDone(StateOf(w, a.id) == Some(COMMITTED), true)))
    case AckDone(_, _) => Move(None, a)
  }

  /** Exactly the live records, in some order. */
  predicate ListsLive(w: World, order: seq<MigrationId>) {
    && (forall id :: id in order ==> id in w.db.migrations && LiveState(w.db.migrations[id].state))
    && (forall id :: id in w.db.migrations ==> LiveState(w.db.migrations[id].state) ==> id in order)
  }

  function RestartMove(w: World, r: Proc, reply: Reply, progress: Progress, order: seq<MigrationId>): Move
    requires r.Restart?
  {
    match r.restarting
    case Listing =>
      Move(None, if ListsLive(w, order) then r.(restarting := ReadingRows(order, [], w.db.migrations.Keys)) else r)
    case ReadingRows(ids, todo, known) =>
      if ids == [] then Move(None, r.(restarting := Visiting(todo, known, {})))
      else if ids[0] !in w.db.migrations then Move(None, r.(restarting := RestartFailed))
      else
        var row := Listed(ids[0], w.db.migrations[ids[0]]);
        Move(None, r.(restarting := ReadingRows(ids[1..], todo + [row], known)))
    case Visiting(todo, known, waited) =>
      if todo == [] then Move(None, r.(restarting := Reconciled(known, waited)))
      else if todo[0].m.state == COMMITTED then Move(None, r.(restarting := Visiting(todo[1..], known, waited)))
      else if reply == Raises then Move(None, r.(restarting := RestartFailed))
      else if todo[0].m.state == COPYING && reply == Copies
      then Move(None, r.(restarting := Visiting(todo[1..], known, waited + {todo[0].id})))
      else Move(None, r.(restarting := Clearing(todo, known, waited)))
    case Clearing(todo, known, waited) =>
      if todo == [] || reply == Raises then Move(None, r.(restarting := RestartFailed))
      else
        Move(Some(Transition(todo[0].id, todo[0].m.state, ABORTED, progress)),
             r.(restarting := if StateOf(w, todo[0].id) == Some(todo[0].m.state)
                              then Visiting(todo[1..], known, waited) else RestartFailed))
    case _ => Move(None, r)
  }

  function MoveOf(w: World, pid: Pid, proc: Proc, reply: Reply, progress: Progress, order: seq<MigrationId>): Move {
    match proc
    case Driver(_, _, _, _) => DriverMove(w, pid, proc, reply, progress)
    case Recovery(_, _, _) => RecoveryMove(w, proc, reply)
    case Ack(_, _) => AckMove(w, proc, reply, progress)
    case Restart(_) => RestartMove(w, proc, reply, progress, order)
    case Dead => Move(None, proc)
  }

  function Acted(w: World, act: Option<Action>): World {
    if act.Some? then Apply(w, act.value) else w
  }

  function Next(s: System, e: Event): System {
    match e
    case Work(act) => if IsWork(act) then s.(w := Apply(s.w, act)) else s
    case Spawn(pid, proc) => if pid !in s.procs && IsNew(proc) then s.(procs := s.procs[pid := proc]) else s
    case Advance(pid, reply, progress, order) =>
      if pid in s.procs then
        var move := MoveOf(s.w, pid, s.procs[pid], reply, progress, order);
        System(Acted(s.w, move.act), s.procs[pid := move.proc])
      else s
    case Crash(pid) => if pid in s.procs then s.(procs := s.procs[pid := Dead]) else s
  }

  function Exec(events: seq<Event>): System
    decreases |events|
  {
    if events == [] then System(INITIAL, map[]) else Next(Exec(events[..|events|-1]), events[|events|-1])
  }

  // ---- a record only goes forward ----

  /** The states that a record can get to. */
  predicate CanBecome(s: MigrationState, t: MigrationState) {
    match s
    case PREPARING => true
    case COPYING => t != PREPARING
    case DEST_READY => t != PREPARING && t != COPYING
    case COMMITTED => Granted(t)
    case SOURCE_RELEASED => t == SOURCE_RELEASED || t == RECOVERED
    case RECOVERED => t == RECOVERED
    case ABORTED => t == ABORTED
  }

  predicate SameHandoff(x: Migration, y: Migration) {
    && x.agentId == y.agentId && x.sourceEpoch == y.sourceEpoch
    && x.sourceEngine == y.sourceEngine && x.destinationEngine == y.destinationEngine
  }

  predicate Progressed(ms: Records, id: MigrationId, m: Migration) {
    id in ms && SameHandoff(m, ms[id]) && CanBecome(m.state, ms[id].state)
  }

  ghost predicate AllProgress(ms: Records, ms': Records) {
    forall id :: id in ms ==> Progressed(ms', id, ms[id])
  }

  ghost predicate TrueOk(w: World) { ClearedOk(w.db.migrations, w.own.cleared) }

  /** What the ownership actions make of the true records. */
  lemma TransitionTruth(w: World, id: MigrationId, expected: MigrationState, target: MigrationState, progress: Progress)
    requires TrueOk(w) && CoordinatorPair(expected, target) && StateOf(w, id) == Some(expected)
    ensures var w', x := ApplyTransition(w, id, expected, target, progress),
                         WithProgress(w.db.migrations[id], target, progress);
            var s := if id in w.own.cleared then w.own.cleared[id] else if LatePair(expected, target) then expected
                     else target;
            Truth(w') == Truth(w)[id := x.(state := s)] && w'.starts == w.starts
  {
    hide Restored;
    var m := WithProgress(w.db.migrations[id], target, progress);
    TruthOf(w, id);
    if LatePair(expected, target) || id in w.own.cleared {
      var s := if id in w.own.cleared then w.own.cleared[id] else expected;
      RestoredClear(w.db.migrations, w.own.cleared, id, m, s);
      assert id in w.own.cleared ==> w.own.cleared[id := s] == w.own.cleared;
    } else {
      RestoredWrite(w.db.migrations, w.own.cleared, id, m);
    }
  }

  lemma CommitTruth(w: World, id: MigrationId)
    requires TrueOk(w) && TxCommitMigration(w.db, id).Ok?
    ensures var w' := ApplyCommitOwnership(w, id);
            && id in Truth(w) && Truth(w)[id] == w.db.migrations[id]
            && Truth(w') == Truth(w)[id := w.db.migrations[id].(state := COMMITTED)] && w'.starts == w.starts
  {
    hide Restored, HoldsLease;
    TruthOf(w, id);
    RestoredWrite(w.db.migrations, w.own.cleared, id, w.db.migrations[id].(state := COMMITTED));
  }

  lemma RecoveryTruth(w: World, id: MigrationId, engine: EngineId)
    requires TrueOk(w) && TxRecoverMigration(w.db, id, engine).Ok?
    ensures var w' := ApplyRecoverOwnership(w, id, engine);
            && id in Truth(w) && Truth(w)[id] == w.db.migrations[id]
            && Truth(w') == Truth(w)[id := w.db.migrations[id].(state := RECOVERED)]
  {
    hide Restored, HoldsLease;
    TruthOf(w, id);
    RestoredWrite(w.db.migrations, w.own.cleared, id, w.db.migrations[id].(state := RECOVERED));
  }

  lemma TransitionProgress(w: World, id: MigrationId, expected: MigrationState, target: MigrationState,
                           progress: Progress)
    requires TrueOk(w)
    ensures AllProgress(Truth(w), Truth(ApplyTransition(w, id, expected, target, progress)))
  {
    SameRecords(Truth(w));
    TruthKeys(w);
    if CoordinatorPair(expected, target) && StateOf(w, id) == Some(expected) {
      TransitionTruth(w, id, expected, target, progress);
      TruthOf(w, id);
    }
    hide Truth;
  }

  lemma InsertProgress(w: World, pid: Pid)
    requires TrueOk(w)
    ensures AllProgress(Truth(w), Truth(ApplyInsertStart(w, pid)))
  {
    hide Restored, HasLiveMigration;
    RestoredKeys(w.db.migrations, w.own.cleared);
    if pid in w.starts && w.starts[pid].id !in w.db.migrations {
      RestoredWrite(w.db.migrations, w.own.cleared, w.starts[pid].id, w.starts[pid].m);
    }
  }

  lemma CommitProgress(w: World, id: MigrationId)
    requires TrueOk(w)
    ensures AllProgress(Truth(w), Truth(ApplyCommitOwnership(w, id)))
  {
    hide Truth, HoldsLease;
    SameRecords(Truth(w));
    if TxCommitMigration(w.db, id).Ok? {
      CommitTruth(w, id);
    }
  }

  lemma RecoveryProgress(w: World, id: MigrationId, engine: EngineId)
    requires TrueOk(w)
    ensures AllProgress(Truth(w), Truth(ApplyRecoverOwnership(w, id, engine)))
  {
    hide Truth, HoldsLease;
    SameRecords(Truth(w));
    if TxRecoverMigration(w.db, id, engine).Ok? {
      RecoveryTruth(w, id, engine);
    }
  }

  /** Whatever anybody does, what really happened through a record only goes forward. */
  lemma RecordsProgress(w: World, act: Action)
    requires TrueOk(w)
    ensures AllProgress(Truth(w), Truth(Apply(w, act)))
  {
    hide Restored, ApplyTransition, ApplyInsertStart, ApplyCommitOwnership, ApplyRecoverOwnership, TrueOk, AllProgress;
    SameRecords(Truth(w));
    if IsWork(act) {
      WorkKeepsRecords(w, act);
    } else {
      match act
      case Transition(id, e, t, progress) => TransitionProgress(w, id, e, t, progress);
      case InsertStart(pid) => InsertProgress(w, pid);
      case CommitOwnership(id) => CommitProgress(w, id);
      case RecoverOwnership(id, engine) => RecoveryProgress(w, id, engine);
      case ReadStartLease(_, _, _) =>
    }
  }

  lemma StillProgressed(ms: Records, ms': Records, id: MigrationId, m: Migration)
    requires Progressed(ms, id, m) && AllProgress(ms, ms')
    ensures Progressed(ms', id, m)
  {
    assert Progressed(ms', id, ms[id]);
  }

  /** What everybody but its driver may do to a record. */
  predicate OthersMay(s: MigrationState, t: MigrationState) {
    || s == t
    || (Unsettled(s) && t == ABORTED)
    || (Granted(s) && Granted(t))
  }

  // ---- what every process can rely on ----

  predicate Inserted(phase: DriverPhase) {
    !(phase.Reading? || phase.Leasing? || phase.Starting? || phase.Refused?)
  }

  /** The states of a driver's record, phase by phase. */
  predicate Fits(phase: DriverPhase, s: MigrationState)
    requires Inserted(phase)
  {
    match phase
    case Preparing(_) => s == PREPARING || s == ABORTED
    case Copying(_) => s == COPYING || s == ABORTED
    case Ready(_) => s == DEST_READY || s == ABORTED
    case Committed(_) => Granted(s)
    case Aborting(_, seen) => (seen == PREPARING || seen == COPYING) && (s == seen || s == ABORTED)
    case Finished(_, _) => Granted(s)
    case GaveUp(_) => s != PREPARING && s != COPYING
    case _ => true
  }

  ghost predicate DriverOk(w: World, pid: Pid, d: Proc)
    requires d.Driver?
  {
    && (d.driving.Leasing? || d.driving.Starting? ==> d.driving.m.state == PREPARING)
    && (d.driving.Leasing? ==> pid !in w.starts)
    && (d.driving.Reading? ==> pid !in w.starts)
    && (d.driving.Starting? ==> pid in w.starts && w.starts[pid] == StartCall(d.id, d.driving.m))
    && (Inserted(d.driving) ==>
          d.id in Truth(w) && SameHandoff(d.driving.m, Truth(w)[d.id]) && Fits(d.driving, Truth(w)[d.id].state))
    && (d.driving.Finished? ==> d.driving.newEpoch > d.driving.m.sourceEpoch)
  }

  ghost predicate RecoveryOk(w: World, r: Proc)
    requires r.Recovery?
  {
    && (r.recovering.Rebinding? || r.recovering.Planned? ==>
          (r.recovering.m.state == COMMITTED || r.recovering.m.state == SOURCE_RELEASED)
          && Progressed(Truth(w), r.id, r.recovering.m))
    && (r.recovering.Rebinding? ==> r.recovering.engine == r.recovering.m.sourceEngine)
    && (r.recovering.Planned? || r.recovering.Returning? || r.recovering.Recovered? ==>
          r.recovering.rebind.Some? ==>
            && r.recovering.rebind.value == r.recovering.m.sourceEpoch + 2
            && r.recovering.engine == r.recovering.m.sourceEngine)
    && (r.recovering.Returning? || r.recovering.Recovered? ==>
          && Progressed(Truth(w), r.id, r.recovering.m) && Truth(w)[r.id].state == RECOVERED
          && RecoveryKey(r.recovering.m) in w.own.owners
          && (r.recovering.own ==> w.own.owners[RecoveryKey(r.recovering.m)] == r.recovering.engine))
    && (r.recovering.Recovered? ==>
          && r.recovering.lease.ownerEpoch >= r.recovering.m.sourceEpoch + 2
          && (r.recovering.lease.ownerEpoch == r.recovering.m.sourceEpoch + 2 ==>
                r.recovering.lease.ownerEngine == w.own.owners[RecoveryKey(r.recovering.m)]))
  }

  /** The lease that recovering the record grants. */
  function RecoveryKey(m: Migration): LeaseKey { LeaseKey(m.agentId, m.sourceEpoch + 2) }

  ghost predicate AckOk(w: World, a: Proc)
    requires a.Ack?
  {
    && (a.acknowledging.Releasing? || a.acknowledging.Closing? ==>
          a.acknowledging.m.state == COMMITTED && Progressed(Truth(w), a.id, a.acknowledging.m))
    && (a.acknowledging.AckDone? && (a.acknowledging.ok || a.acknowledging.issued) ==>
          a.id in Truth(w) && Granted(Truth(w)[a.id].state)
          && (a.acknowledging.ok ==> Truth(w)[a.id].state != COMMITTED))
  }

  predicate Settled(ms: Records, id: MigrationId) { id in ms && !Unsettled(ms[id].state) }

  predicate InTodo(todo: seq<Listed>, id: MigrationId) { exists i :: 0 <= i < |todo| && todo[i].id == id }

  /** What a row once read still says about its record. */
  predicate ReadOk(rs: Records, row: Listed) {
    row.id in rs && if row.m.state == ABORTED then Settled(rs, row.id) else CanBecome(row.m.state, rs[row.id].state)
  }

  /** Every record known at the listing is settled, reported copying, read and still to do, or still to be read. */
  ghost predicate Covered(rs: Records, ids: seq<MigrationId>, todo: seq<Listed>, known: set<MigrationId>,
                          waited: set<MigrationId>)
  {
    && known <= rs.Keys
    && (forall i :: 0 <= i < |todo| ==> ReadOk(rs, todo[i]))
    && (forall id :: id in known ==> Settled(rs, id) || id in waited || InTodo(todo, id) || id in ids)
  }

  ghost predicate RestartOk(w: World, r: Proc)
    requires r.Restart?
  {
    match r.restarting
    case ReadingRows(ids, todo, known) => Covered(Truth(w), ids, todo, known, {})
    case Visiting(todo, known, waited) => Covered(Truth(w), [], todo, known, waited)
    case Clearing(todo, known, waited) =>
      Covered(Truth(w), [], todo, known, waited) && todo != [] && todo[0].m.state != COMMITTED
    case Reconciled(known, waited) => Covered(Truth(w), [], [], known, waited)
    case _ => true
  }

  ghost predicate ProcOk(w: World, pid: Pid, proc: Proc) {
    match proc
    case Driver(_, _, _, _) => DriverOk(w, pid, proc)
    case Recovery(_, _, _) => RecoveryOk(w, proc)
    case Ack(_, _) => AckOk(w, proc)
    case Restart(_) => RestartOk(w, proc)
    case Dead => true
  }

  predicate Drives(proc: Proc, id: MigrationId) { proc.Driver? && Inserted(proc.driving) && proc.id == id }

  ghost predicate OneDriver(procs: map<Pid, Proc>) {
    forall p, q, id :: p in procs && q in procs && Drives(procs[p], id) && Drives(procs[q], id) ==> p == q
  }

  ghost predicate SystemInv(s: System) {
    && (forall p :: p in s.procs ==> ProcOk(s.w, p, s.procs[p]))
    && (forall p :: p in s.w.starts ==> p in s.procs)
    && OneDriver(s.procs)
  }

  // ---- other processes' steps ----

  /** What an action of process q may do while another process relies on the tables. */
  predicate Harmless(act: Action, q: Pid, other: Proc) {
    match act
    case ReadStartLease(r, _, _) => r == q
    case InsertStart(r) => r == q
    case Transition(id, expected, target, _) =>
      || !Drives(other, id)
      || target == ABORTED
      || (expected == COMMITTED && target == SOURCE_RELEASED)
    case CommitOwnership(id) => !Drives(other, id)
    case RecoverOwnership(_, _) => true
    case _ => IsWork(act)
  }

  lemma WorkKeepsRecords(w: World, act: Action)
    requires IsWork(act)
    ensures Apply(w, act).db.migrations == w.db.migrations && Apply(w, act).starts == w.starts
    ensures Apply(w, act).own.cleared == w.own.cleared
  {
    hide NextStep;
  }

  /** What everybody but the process itself leaves alone, for the process at p. */
  ghost predicate Leaves(w: World, w': World, p: Pid, proc: Proc) {
    && AllProgress(Truth(w), Truth(w'))
    && (p in w'.starts <==> p in w.starts) && (p in w.starts ==> w'.starts[p] == w.starts[p])
    && (forall k :: k in w.own.owners ==> k in w'.own.owners && w'.own.owners[k] == w.own.owners[k])
    && forall id :: id in Truth(w) && Drives(proc, id) ==>
         id in Truth(w') && OthersMay(Truth(w)[id].state, Truth(w')[id].state)
  }

  lemma TransitionIsHarmless(w: World, id: MigrationId, expected: MigrationState, target: MigrationState,
                             progress: Progress, other: Proc, j: MigrationId)
    requires TrueOk(w) && j in Truth(w) && Drives(other, j)
    requires Harmless(Transition(id, expected, target, progress), 0, other)
    ensures var rs := Truth(ApplyTransition(w, id, expected, target, progress));
            j in rs && OthersMay(Truth(w)[j].state, rs[j].state)
  {
    if CoordinatorPair(expected, target) && StateOf(w, id) == Some(expected) {
      TransitionTruth(w, id, expected, target, progress);
      TruthOf(w, id);
    }
    hide Truth;
  }

  lemma InsertIsHarmless(w: World, pid: Pid, other: Proc, j: MigrationId)
    requires TrueOk(w) && j in Truth(w)
    ensures var rs := Truth(ApplyInsertStart(w, pid)); j in rs && OthersMay(Truth(w)[j].state, rs[j].state)
  {
    hide Restored, HasLiveMigration;
    RestoredKeys(w.db.migrations, w.own.cleared);
    if pid in w.starts && w.starts[pid].id !in w.db.migrations {
      RestoredWrite(w.db.migrations, w.own.cleared, w.starts[pid].id, w.starts[pid].m);
    }
  }

  lemma CommitIsHarmless(w: World, id: MigrationId, j: MigrationId)
    requires TrueOk(w) && j in Truth(w) && j != id
    ensures var rs := Truth(ApplyCommitOwnership(w, id)); j in rs && OthersMay(Truth(w)[j].state, rs[j].state)
  {
    hide Truth, HoldsLease;
    if TxCommitMigration(w.db, id).Ok? {
      CommitTruth(w, id);
    }
  }

  lemma RecoveryIsHarmless(w: World, id: MigrationId, engine: EngineId, j: MigrationId)
    requires TrueOk(w) && j in Truth(w)
    ensures var rs := Truth(ApplyRecoverOwnership(w, id, engine)); j in rs && OthersMay(Truth(w)[j].state, rs[j].state)
  {
    hide Truth, HoldsLease;
    if TxRecoverMigration(w.db, id, engine).Ok? {
      RecoveryTruth(w, id, engine);
    }
  }

  lemma RecordIsHarmless(w: World, act: Action, q: Pid, other: Proc, j: MigrationId)
    requires TrueOk(w) && j in Truth(w) && Drives(other, j) && Harmless(act, q, other)
    requires TouchesOwnership(act)
    ensures var rs := Truth(Apply(w, act)); j in rs && OthersMay(Truth(w)[j].state, rs[j].state)
  {
    hide Restored, HoldsLease, ApplyTransition, ApplyInsertStart, ApplyCommitOwnership, ApplyRecoverOwnership, TrueOk;
    match act
    case Transition(id, e, t, progress) => TransitionIsHarmless(w, id, e, t, progress, other, j);
    case InsertStart(pid) => InsertIsHarmless(w, pid, other, j);
    case CommitOwnership(id) => CommitIsHarmless(w, id, j);
    case RecoverOwnership(id, engine) => RecoveryIsHarmless(w, id, engine, j);
    case ReadStartLease(_, _, _) =>
    case Register(_, _) => WorkKeepsRecords(w, act);
  }

  lemma OwnershipStarts(w: World, act: Action, q: Pid, p: Pid, other: Proc)
    requires p != q && Harmless(act, q, other) && TouchesOwnership(act)
    ensures var w' := Apply(w, act);
            (p in w'.starts <==> p in w.starts) && (p in w.starts ==> w'.starts[p] == w.starts[p])
  {
    hide HoldsLease, HasLiveMigration;
  }

  lemma OwnershipIsHarmless(w: World, act: Action, q: Pid, p: Pid, other: Proc)
    requires OwnInv(w) && p != q && Harmless(act, q, other) && TouchesOwnership(act)
    ensures Leaves(w, Apply(w, act), p, other)
  {
    hide Parts, Restored, Apply, Drives, Harmless, TouchesOwnership, LeasesGrow, AllProgress;
    RecordsProgress(w, act);
    OwnershipStarts(w, act, q, p, other);
    OwnershipGrowsLeases(w, act);
    GrownOwners(w, Apply(w, act));
    forall j | j in Truth(w) && Drives(other, j)
      ensures j in Truth(Apply(w, act)) && OthersMay(Truth(w)[j].state, Truth(Apply(w, act))[j].state)
    {
      RecordIsHarmless(w, act, q, other, j);
    }
  }

  lemma WorkIsHarmless(w: World, act: Action, p: Pid, other: Proc)
    requires OwnInv(w) && IsWork(act)
    ensures Leaves(w, Apply(w, act), p, other)
  {
    hide OwnInv, Restored, Apply, LeasesGrow, Drives, AllProgress;
    WorkKeepsRecords(w, act);
    SameRecords(Truth(w));
    if act.Register? {
      OwnershipGrowsLeases(w, act);
      GrownOwners(w, Apply(w, act));
    } else {
      WorkKeepsLeases(w, act);
    }
  }

  lemma SameRecords(rs: Records)
    ensures AllProgress(rs, rs)
  {
  }

  lemma GrownOwners(w: World, w': World)
    requires LeasesGrow(w, w')
    ensures forall k :: k in w.own.owners ==> k in w'.own.owners && w'.own.owners[k] == w.own.owners[k]
  {
  }

  lemma OthersKept(w: World, w': World, p: Pid, proc: Proc)
    requires ProcOk(w, p, proc) && Leaves(w, w', p, proc)
    ensures ProcOk(w', p, proc)
  {
    hide Restored;
    match proc
    case Driver(_, _, id, phase) => DriverKept(w, w', p, proc);
    case Recovery(id, _, phase) =>
      if phase.Rebinding? || phase.Planned? || phase.Returning? || phase.Recovered? {
        StillProgressed(Truth(w), Truth(w'), id, phase.m);
        assert Progressed(Truth(w'), id, Truth(w)[id]);
      }
    case Ack(id, phase) =>
      if phase.Releasing? || phase.Closing? {
        StillProgressed(Truth(w), Truth(w'), id, phase.m);
      } else if id in Truth(w) {
        assert Progressed(Truth(w'), id, Truth(w)[id]);
      }
    case Restart(phase) =>
      match phase {
        case ReadingRows(ids, todo, known) => CoveredKept(Truth(w), Truth(w'), ids, todo, known, {});
        case Visiting(todo, known, waited) => CoveredKept(Truth(w), Truth(w'), [], todo, known, waited);
        case Clearing(todo, known, waited) => CoveredKept(Truth(w), Truth(w'), [], todo, known, waited);
        case Reconciled(known, waited) => CoveredKept(Truth(w), Truth(w'), [], [], known, waited);
        case _ =>
      }
    case Dead =>
  }

  lemma DriverKept(w: World, w': World, p: Pid, d: Proc)
    requires d.Driver? && DriverOk(w, p, d) && Leaves(w, w', p, d)
    ensures DriverOk(w', p, d)
  {
    hide Restored;
    assert d.id in Truth(w) ==> Progressed(Truth(w'), d.id, Truth(w)[d.id]);
  }

  lemma CoveredKept(rs: Records, rs': Records, ids: seq<MigrationId>, todo: seq<Listed>, known: set<MigrationId>,
                    waited: set<MigrationId>)
    requires Covered(rs, ids, todo, known, waited) && AllProgress(rs, rs')
    ensures Covered(rs', ids, todo, known, waited)
  {
    forall i | 0 <= i < |todo| ensures ReadOk(rs', todo[i]) {
      assert ReadOk(rs, todo[i]) && Progressed(rs', todo[i].id, rs[todo[i].id]);
    }
    forall id | id in known ensures id in rs' && (Settled(rs, id) ==> Settled(rs', id)) {
      assert Progressed(rs', id, rs[id]);
    }
  }

  /** A process acts on a record only as its driver, or as anybody may. */
  lemma MoveIsHarmless(w: World, q: Pid, proc: Proc, reply: Reply, progress: Progress, order: seq<MigrationId>,
                       other: Proc)
    requires ProcOk(w, q, proc) && forall id :: !(Drives(proc, id) && Drives(other, id))
    ensures var act := MoveOf(w, q, proc, reply, progress, order).act;
            act.Some? ==> Harmless(act.value, q, other) && TouchesOwnership(act.value)
  {
    hide Progressed, Covered, HoldsLease, HasLiveMigration, Restored;
    if proc.Driver? {
      assert Inserted(proc.driving) ==> Drives(proc, proc.id);
    }
  }

  // ---- a process's own step ----

  lemma DriverKeepsSelf(w: World, pid: Pid, d: Proc, reply: Reply, progress: Progress)
    requires d.Driver? && DriverOk(w, pid, d) && OwnInv(w)
    ensures var move := DriverMove(w, pid, d, reply, progress);
            move.proc.Driver? && move.proc.id == d.id && DriverOk(Acted(w, move.act), pid, move.proc)
  {
    hide HasLiveMigration, ApplyCommitOwnership, ApplyTransition, ApplyInsertStart, Truth, Parts, DriverCas;
    hide TxCommitMigration, TxInsertMigration, SameHandoff;
    TruthKeys(w);
    match d.driving
    case Starting(m) => DriverInsertOk(w, pid, d, reply, progress);
    case Preparing(m) => DriverCasOk(w, pid, d, m, reply, PREPARING, COPYING, progress, Copying(m));
    case Copying(m) => DriverCasOk(w, pid, d, m, reply, COPYING, DEST_READY, progress, Ready(m));
    case Ready(_) => DriverCommitOk(w, pid, d, reply, progress);
    case Committed(_) => DriverFinishOk(w, pid, d, reply, progress);
    case Handling(_) => TruthOf(w, d.id);
    case Aborting(_, _) => DriverAbortOk(w, pid, d, reply, progress);
    case _ =>
  }

  lemma DriverFinishOk(w: World, pid: Pid, d: Proc, reply: Reply, progress: Progress)
    requires d.Driver? && DriverOk(w, pid, d) && OwnInv(w) && d.driving.Committed?
    ensures var move := DriverMove(w, pid, d, reply, progress);
            move.proc.Driver? && move.proc.id == d.id && DriverOk(Acted(w, move.act), pid, move.proc)
  {
    hide Truth, Parts;
    TruthKeys(w);
    GrantedEpoch(w, d.id);
  }

  lemma DriverInsertOk(w: World, pid: Pid, d: Proc, reply: Reply, progress: Progress)
    requires d.Driver? && DriverOk(w, pid, d) && TrueOk(w) && d.driving.Starting?
    ensures var move := DriverMove(w, pid, d, reply, progress);
            move.proc.Driver? && move.proc.id == d.id && DriverOk(Acted(w, move.act), pid, move.proc)
  {
    hide HasLiveMigration, Restored;
    if d.id !in w.db.migrations {
      RestoredWrite(w.db.migrations, w.own.cleared, d.id, d.driving.m);
    }
  }

  /** A record through which ownership has moved left its agent at a later epoch. */
  lemma GrantedEpoch(w: World, id: MigrationId)
    requires OwnInv(w) && id in Truth(w) && Granted(Truth(w)[id].state)
    ensures var m := Truth(w)[id];
            && m.agentId in w.db.agents && w.db.agents[m.agentId].ownerEpoch >= m.sourceEpoch + Span(m.state)
            && Span(m.state) > 0
  {
    hide LeasesOk, CountsOk, StartsOk, MovesOk, Exclusive;
    assert RecordOk(w.db.agents, w.own.owners, Truth(w)[id]);
  }

  /** A driver goes on to a phase that its record's true state fits. */
  lemma DriverGoesOn(w: World, pid: Pid, d: Proc, phase: DriverPhase)
    requires d.Driver? && Inserted(phase) && !phase.Finished? && d.id in Truth(w)
    requires SameHandoff(phase.m, Truth(w)[d.id]) && Fits(phase, Truth(w)[d.id].state)
    ensures DriverOk(w, pid, d.(driving := phase))
  {
  }

  lemma DriverCasOk(w: World, pid: Pid, d: Proc, m: Migration, reply: Reply, expected: MigrationState,
                    target: MigrationState, progress: Progress, next: DriverPhase)
    requires d.Driver? && DriverOk(w, pid, d) && TrueOk(w) && Inserted(d.driving) && d.driving.m == m
    requires CoordinatorPair(expected, target) && !LatePair(expected, target) && Unsettled(expected)
    requires Inserted(next) && !next.Finished? && next.m == m && Fits(next, target)
    ensures var move := DriverCas(w, d, m, reply, expected, target, progress, next);
            move.proc.Driver? && move.proc.id == d.id && DriverOk(Acted(w, move.act), pid, move.proc)
  {
    hide Truth, ApplyTransition, CoordinatorPair, Fits, CanBecome, TrueOk, SameHandoff, LatePair, Unsettled;
    TruthKeys(w);
    var w' := ApplyTransition(w, d.id, expected, target, progress);
    FitsAnything(m, Truth(w)[d.id].state);
    DriverGoesOn(w, pid, d, Handling(m));
    if StateOf(w, d.id) == Some(expected) {
      CasTruth(w, d.id, m, expected, target, progress);
      DriverGoesOn(w', pid, d, next);
    } else {
      NoTransition(w, d.id, expected, target, progress);
    }
  }

  lemma CasTruth(w: World, id: MigrationId, m: Migration, expected: MigrationState, target: MigrationState,
                 progress: Progress)
    requires TrueOk(w) && CoordinatorPair(expected, target) && !LatePair(expected, target) && Unsettled(expected)
    requires StateOf(w, id) == Some(expected) && id in Truth(w) && SameHandoff(m, Truth(w)[id])
    ensures var truth := Truth(ApplyTransition(w, id, expected, target, progress));
            id in truth && SameHandoff(m, truth[id]) && truth[id].state == target
  {
    hide Truth, ApplyTransition, CoordinatorPair;
    TruthOf(w, id);
    TransitionTruth(w, id, expected, target, progress);
  }

  lemma TruthKeys(w: World)
    ensures Truth(w).Keys == w.db.migrations.Keys
  {
  }

  lemma FitsAnything(m: Migration, s: MigrationState)
    ensures Fits(Handling(m), s)
  {
  }

  lemma NoTransition(w: World, id: MigrationId, expected: MigrationState, target: MigrationState, progress: Progress)
    requires StateOf(w, id) != Some(expected)
    ensures ApplyTransition(w, id, expected, target, progress) == w
  {
  }

  lemma DriverCommitOk(w: World, pid: Pid, d: Proc, reply: Reply, progress: Progress)
    requires d.Driver? && DriverOk(w, pid, d) && TrueOk(w) && d.driving.Ready?
    ensures var move := DriverMove(w, pid, d, reply, progress);
            move.proc.Driver? && move.proc.id == d.id && DriverOk(Acted(w, move.act), pid, move.proc)
  {
    hide TxCommitMigration, Restored;
    RestoredKeys(w.db.migrations, w.own.cleared);
    if TxCommitMigration(w.db, d.id).Ok? {
      CommitTruth(w, d.id);
    }
  }

  lemma DriverAbortOk(w: World, pid: Pid, d: Proc, reply: Reply, progress: Progress)
    requires d.Driver? && DriverOk(w, pid, d) && TrueOk(w) && d.driving.Aborting?
    ensures var move := DriverMove(w, pid, d, reply, progress);
            move.proc.Driver? && move.proc.id == d.id && DriverOk(Acted(w, move.act), pid, move.proc)
  {
    hide Restored, ApplyTransition;
    RestoredKeys(w.db.migrations, w.own.cleared);
    TruthOf(w, d.id);
    if StateOf(w, d.id) == Some(d.driving.seen) {
      TransitionTruth(w, d.id, d.driving.seen, ABORTED, progress);
    } else {
      NoTransition(w, d.id, d.driving.seen, ABORTED, progress);
    }
  }

  lemma RecoveryKeepsSelf(w: World, r: Proc, reply: Reply)
    requires r.Recovery? && RecoveryOk(w, r) && OwnInv(w)
    ensures var move := RecoveryMove(w, r, reply);
            move.proc.Recovery? && RecoveryOk(Acted(w, move.act), move.proc)
  {
    hide HoldsLease, Restored, Parts, ApplyRecoverOwnership, TxRecoverMigration;
    RestoredKeys(w.db.migrations, w.own.cleared);
    match r.recovering
    case ReadingRecord =>
      if r.id in w.db.migrations && Granted(w.db.migrations[r.id].state) {
        TruthOf(w, r.id);
        if w.db.migrations[r.id].state == RECOVERED {
          RecoveredLease(w, r.id);
        }
      }
    case Planned(_, _, _, _) => RecoveryTxOk(w, r, reply);
    case Returning(_, _, _, _, _) => RecoveredLease(w, r.id);
    case _ =>
  }

  /** A recovered record's agent has reached the recovery epoch, whose owner is on record. */
  lemma RecoveredLease(w: World, id: MigrationId)
    requires OwnInv(w) && id in Truth(w) && Truth(w)[id].state == RECOVERED
    ensures var m := Truth(w)[id];
            && RecoveryKey(m) in w.own.owners && m.agentId in w.db.agents
            && w.db.agents[m.agentId].ownerEpoch >= m.sourceEpoch + 2
            && (w.db.agents[m.agentId].ownerEpoch == m.sourceEpoch + 2 ==>
                  w.db.agents[m.agentId].ownerEngine == w.own.owners[RecoveryKey(m)])
  {
    hide CountsOk, StartsOk, MovesOk, Exclusive, Restored;
    assert RecordOk(w.db.agents, w.own.owners, Truth(w)[id]);
  }

  lemma RecoveryTxOk(w: World, r: Proc, reply: Reply)
    requires r.Recovery? && RecoveryOk(w, r) && OwnInv(w) && r.recovering.Planned?
    ensures var move := RecoveryMove(w, r, reply);
            move.proc.Recovery? && RecoveryOk(Acted(w, move.act), move.proc)
  {
    hide HoldsLease, Restored, Parts, ApplyRecoverOwnership, TxRecoverMigration;
    RestoredKeys(w.db.migrations, w.own.cleared);
    TruthOf(w, r.id);
    if TxRecoverMigration(w.db, r.id, r.recovering.engine).Ok? {
      RecoveryTruth(w, r.id, r.recovering.engine);
      RecoveryOwner(w, r.id, r.recovering.engine);
      if StateOf(w, r.id) == Some(RECOVERED) {
        RecoveredLease(w, r.id);
      }
    }
  }

  /** What a recovery transaction does to the leases. */
  lemma RecoveryOwner(w: World, id: MigrationId, engine: EngineId)
    requires TxRecoverMigration(w.db, id, engine).Ok?
    ensures id in w.db.migrations && Granted(w.db.migrations[id].state)
    ensures var m, tx := w.db.migrations[id], TxRecoverMigration(w.db, id, engine).value;
            var owners := ApplyRecoverOwnership(w, id, engine).own.owners;
            && (m.state == RECOVERED ==> tx == w.db && owners == w.own.owners)
            && (m.state != RECOVERED ==> owners == w.own.owners[RecoveryKey(m) := engine])
  {
    hide HoldsLease;
  }

  lemma AckKeepsSelf(w: World, a: Proc, reply: Reply, progress: Progress)
    requires a.Ack? && AckOk(w, a) && TrueOk(w)
    ensures var move := AckMove(w, a, reply, progress);
            move.proc.Ack? && AckOk(Acted(w, move.act), move.proc)
  {
    hide Restored;
    RestoredKeys(w.db.migrations, w.own.cleared);
    if a.id in w.db.migrations {
      TruthOf(w, a.id);
      if a.acknowledging.Closing? && StateOf(w, a.id) == Some(COMMITTED) {
        RestoredWrite(w.db.migrations, w.own.cleared, a.id,
                      WithProgress(w.db.migrations[a.id], SOURCE_RELEASED, progress));
      }
    }
  }

  lemma RestartKeepsSelf(w: World, r: Proc, reply: Reply, progress: Progress, order: seq<MigrationId>)
    requires r.Restart? && RestartOk(w, r) && TrueOk(w)
    ensures var move := RestartMove(w, r, reply, progress, order);
            move.proc.Restart? && RestartOk(Acted(w, move.act), move.proc)
  {
    hide Apply, Restored, Covered;
    match r.restarting
    case Listing =>
      if ListsLive(w, order) {
        ListingCovers(w, order);
      }
    case ReadingRows(ids, todo, known) =>
      if ids != [] && ids[0] in w.db.migrations {
        RowRead(w, ids, todo, known);
      }
    case Visiting(todo, known, waited) =>
      if todo != [] {
        DropHead(Truth(w), todo, known, waited);
      }
    case Clearing(todo, known, waited) =>
      var act := Transition(todo[0].id, todo[0].m.state, ABORTED, progress);
      if StateOf(w, todo[0].id) == Some(todo[0].m.state) {
        RecordsProgress(w, act);
        CoveredKept(Truth(w), Truth(Apply(w, act)), [], todo, known, waited);
        HeadSettled(w, todo, known, waited, progress);
        DropHead(Truth(Apply(w, act)), todo, known, waited);
      }
    case _ =>
  }

  lemma ListingCovers(w: World, order: seq<MigrationId>)
    requires ListsLive(w, order) && TrueOk(w)
    ensures Covered(Truth(w), order, [], w.db.migrations.Keys, {})
  {
    RestoredKeys(w.db.migrations, w.own.cleared);
    forall id | id in w.db.migrations ensures Settled(Truth(w), id) || id in order {
      TruthOf(w, id);
    }
  }

  lemma RowRead(w: World, ids: seq<MigrationId>, todo: seq<Listed>, known: set<MigrationId>)
    requires TrueOk(w) && ids != [] && ids[0] in w.db.migrations && Covered(Truth(w), ids, todo, known, {})
    ensures Covered(Truth(w), ids[1..], todo + [Listed(ids[0], w.db.migrations[ids[0]])], known, {})
  {
    var rs, row := Truth(w), Listed(ids[0], w.db.migrations[ids[0]]);
    TruthOf(w, ids[0]);
    hide Restored;
    var more := todo + [row];
    assert more[|todo|] == row;
    assert ids == [ids[0]] + ids[1..];
    forall id | id in known ensures Settled(rs, id) || InTodo(more, id) || id in ids[1..] {
      if InTodo(todo, id) {
        var i :| 0 <= i < |todo| && todo[i].id == id;
        assert more[i].id == id;
      }
    }
  }

  /** The record of a row that has just been cleared is settled, from whatever state it was cleared. */
  lemma HeadSettled(w: World, todo: seq<Listed>, known: set<MigrationId>, waited: set<MigrationId>, progress: Progress)
    requires TrueOk(w) && todo != [] && todo[0].m.state != COMMITTED && Covered(Truth(w), [], todo, known, waited)
    requires StateOf(w, todo[0].id) == Some(todo[0].m.state)
    ensures Settled(Truth(Apply(w, Transition(todo[0].id, todo[0].m.state, ABORTED, progress))), todo[0].id)
  {
    var id, seen := todo[0].id, todo[0].m.state;
    assert ReadOk(Truth(w), todo[0]);
    TruthOf(w, id);
    hide Truth, Covered, ApplyTransition;
    TransitionTruth(w, id, seen, ABORTED, progress);
  }

  /** The head can be dropped once it is settled or reported copying; a head read as committed always is settled. */
  lemma DropHead(rs: Records, todo: seq<Listed>, known: set<MigrationId>, waited: set<MigrationId>)
    requires Covered(rs, [], todo, known, waited) && todo != []
    ensures Settled(rs, todo[0].id) || todo[0].m.state == COMMITTED ==> Covered(rs, [], todo[1..], known, waited)
    ensures Covered(rs, [], todo[1..], known, waited + {todo[0].id})
  {
    assert ReadOk(rs, todo[0]);
    forall id | id in known && !Settled(rs, id) && id !in waited && id != todo[0].id
      ensures InTodo(todo[1..], id)
    {
      var i :| 0 <= i < |todo| && todo[i].id == id;
      assert todo[1..][i-1].id == id;
    }
  }

  // ---- every event ----

  lemma AdvanceKeepsOneDriver(s: System, q: Pid, move: Move)
    requires SystemInv(s) && q in s.procs
    requires forall id :: Drives(move.proc, id) ==> Drives(s.procs[q], id) || id !in Truth(s.w)
    ensures OneDriver(s.procs[q := move.proc])
  {
    forall p, id | p in s.procs && Drives(s.procs[p], id) ensures id in Truth(s.w) {
      assert ProcOk(s.w, p, s.procs[p]);
    }
  }

  lemma NewDriverIsAlone(w: World, q: Pid, proc: Proc, reply: Reply, progress: Progress, order: seq<MigrationId>,
                         id: MigrationId)
    requires Drives(MoveOf(w, q, proc, reply, progress, order).proc, id)
    ensures Drives(proc, id) || id !in Truth(w)
  {
    hide HoldsLease, HasLiveMigration, Restored;
    RestoredKeys(w.db.migrations, w.own.cleared);
  }

  lemma AdvanceKeepsSelf(w: World, q: Pid, proc: Proc, reply: Reply, progress: Progress, order: seq<MigrationId>)
    requires ProcOk(w, q, proc) && OwnInv(w)
    ensures var move := MoveOf(w, q, proc, reply, progress, order); ProcOk(Acted(w, move.act), q, move.proc)
  {
    hide DriverOk, RecoveryOk, AckOk, RestartOk, DriverMove, RecoveryMove, AckMove, RestartMove, Apply, Parts, Restored;
    match proc
    case Driver(_, _, _, _) => DriverKeepsSelf(w, q, proc, reply, progress);
    case Recovery(_, _, _) => RecoveryKeepsSelf(w, proc, reply);
    case Ack(_, _) => AckKeepsSelf(w, proc, reply, progress);
    case Restart(_) => RestartKeepsSelf(w, proc, reply, progress, order);
    case Dead =>
  }

  lemma AdvanceKeepsOther(s: System, q: Pid, reply: Reply, progress: Progress, order: seq<MigrationId>, p: Pid)
    requires SystemInv(s) && OwnInv(s.w) && q in s.procs && p in s.procs && p != q
    ensures ProcOk(Acted(s.w, MoveOf(s.w, q, s.procs[q], reply, progress, order).act), p, s.procs[p])
  {
    hide ProcOk, MoveOf, Apply, Harmless, OwnInv, Leaves;
    assert ProcOk(s.w, q, s.procs[q]) && ProcOk(s.w, p, s.procs[p]);
    var act := MoveOf(s.w, q, s.procs[q], reply, progress, order).act;
    MoveIsHarmless(s.w, q, s.procs[q], reply, progress, order, s.procs[p]);
    if act.Some? {
      OwnershipIsHarmless(s.w, act.value, q, p, s.procs[p]);
      OthersKept(s.w, Apply(s.w, act.value), p, s.procs[p]);
    }
  }

  lemma StartsAreProcs(w: World, q: Pid, proc: Proc, reply: Reply, progress: Progress, order: seq<MigrationId>)
    ensures var move := MoveOf(w, q, proc, reply, progress, order);
            forall p :: p in Acted(w, move.act).starts ==> p in w.starts || p == q
  {
    hide HoldsLease, HasLiveMigration;
  }

  lemma AdvanceKeepsInv(s: System, q: Pid, reply: Reply, progress: Progress, order: seq<MigrationId>)
    requires SystemInv(s) && OwnInv(s.w) && q in s.procs
    ensures SystemInv(Next(s, Advance(q, reply, progress, order)))
  {
    hide ProcOk, MoveOf, Drives, OneDriver, Acted, OwnInv, Restored;
    var move := MoveOf(s.w, q, s.procs[q], reply, progress, order);
    assert ProcOk(s.w, q, s.procs[q]);
    AdvanceKeepsSelf(s.w, q, s.procs[q], reply, progress, order);
    StartsAreProcs(s.w, q, s.procs[q], reply, progress, order);
    forall p | p in s.procs && p != q ensures ProcOk(Acted(s.w, move.act), p, s.procs[p]) {
      AdvanceKeepsOther(s, q, reply, progress, order, p);
    }
    forall id | Drives(move.proc, id) ensures Drives(s.procs[q], id) || id !in Truth(s.w) {
      NewDriverIsAlone(s.w, q, s.procs[q], reply, progress, order, id);
    }
    AdvanceKeepsOneDriver(s, q, move);
  }

  lemma WorkKeepsInv(s: System, act: Action)
    requires SystemInv(s) && OwnInv(s.w) && IsWork(act)
    ensures SystemInv(Next(s, Work(act)))
  {
    hide ProcOk, OneDriver, OwnInv, Apply, Leaves;
    WorkKeepsRecords(s.w, act);
    forall p | p in s.procs ensures ProcOk(Apply(s.w, act), p, s.procs[p]) {
      WorkIsHarmless(s.w, act, p, s.procs[p]);
      OthersKept(s.w, Apply(s.w, act), p, s.procs[p]);
    }
  }

  lemma NextKeepsInv(s: System, e: Event)
    requires SystemInv(s) && OwnInv(s.w)
    ensures SystemInv(Next(s, e))
  {
    hide OwnInv, Restored;
    match e
    case Work(act) =>
      if IsWork(act) {
        WorkKeepsInv(s, act);
      }
    case Spawn(_, _) =>
    case Advance(q, reply, progress, order) =>
      if q in s.procs {
        AdvanceKeepsInv(s, q, reply, progress, order);
      }
    case Crash(_) =>
  }

  /** After every sequence of events the tables are those of a run of World, and every process finds what it
      relies on. */
  lemma {:induction false} ExecIsReachable(events: seq<Event>)
    ensures SystemInv(Exec(events)) && Reachable(Exec(events).w)
    decreases |events|
  {
    hide Apply, Reachable, SystemInv, MoveOf, OwnInv;
    if events == [] {
      InitialIsReachable();
      NobodyYet();
    } else {
      var s, e := Exec(events[..|events|-1]), events[|events|-1];
      ExecIsReachable(events[..|events|-1]);
      OwnInvReachable(s.w);
      NextKeepsInv(s, e);
      if e.Work? {
        ReachableStep(s.w, e.act);
      } else if e.Advance? && e.pid in s.procs {
        var act := MoveOf(s.w, e.pid, s.procs[e.pid], e.reply, e.progress, e.order).act;
        if act.Some? {
          ReachableStep(s.w, act.value);
        }
      }
    }
  }

  lemma NobodyYet()
    ensures SystemInv(System(INITIAL, map[]))
  {
  }

  // ---- what it means for the coordinators ----

  /** However others interleave, a driver that returns has moved ownership through its record, and one whose except
      clause ran leaves the record ABORTED, or DEST_READY, or moved; never half copied. */
  lemma DriverEnds(events: seq<Event>, p: Pid)
    requires p in Exec(events).procs && Exec(events).procs[p].Driver?
    requires Exec(events).procs[p].driving.Finished? || Exec(events).procs[p].driving.GaveUp?
    ensures var w, d := Exec(events).w, Exec(events).procs[p];
            && d.id in w.db.migrations && d.id in w.own.moves
            && SameHandoff(d.driving.m, w.db.migrations[d.id])
            && (d.driving.Finished? ==> w.own.moves[d.id] >= 1 && d.driving.newEpoch > d.driving.m.sourceEpoch)
            && (d.driving.GaveUp? && w.own.moves[d.id] == 0 ==> w.db.migrations[d.id].state in {ABORTED, DEST_READY})
  {
    hide Reachable, Exec, Restored, Parts;
    ExecIsReachable(events);
    var s := Exec(events);
    assert ProcOk(s.w, p, s.procs[p]);
    RestoredKeys(s.w.db.migrations, s.w.own.cleared);
    TruthOf(s.w, s.procs[p].id);
    OwnInvReachable(s.w);
    MovesMatchState(s.w, s.procs[p].id);
  }

  /** When a reconciliation returns, whatever everybody else did meanwhile, every record that it found and was not told
      is still being copied is live only as COMMITTED, and is ABORTED exactly when ownership never moved through it; the
      latter if and only if nobody has cleared it late. */
  lemma RestartSettles(events: seq<Event>, p: Pid, id: MigrationId)
    requires p in Exec(events).procs && Exec(events).procs[p].Restart? && Exec(events).procs[p].restarting.Reconciled?
    requires id in Exec(events).procs[p].restarting.known && id !in Exec(events).procs[p].restarting.waited
    ensures var w := Exec(events).w;
            && id in w.db.migrations && id in w.own.moves
            && (LiveState(w.db.migrations[id].state) ==> w.db.migrations[id].state == COMMITTED && w.own.moves[id] == 1)
            && ((w.db.migrations[id].state == ABORTED <==> w.own.moves[id] == 0) <==> id !in w.own.cleared)
  {
    hide Reachable, Exec, Restored, Parts;
    ExecIsReachable(events);
    var s := Exec(events);
    assert ProcOk(s.w, p, s.procs[p]);
    RestoredKeys(s.w.db.migrations, s.w.own.cleared);
    assert Settled(Truth(s.w), id);
    TruthOf(s.w, id);
    OwnInvReachable(s.w);
    MovesMatchState(s.w, id);
  }

  /** Process `p` visits row `row` and is answered `reply`. */
  predicate Visits(s: System, e: Event, p: Pid, row: Listed) {
    && e.Advance? && e.pid == p && p in s.procs && s.procs[p].Restart? && s.procs[p].restarting.Visiting?
    && s.procs[p].restarting.todo != [] && s.procs[p].restarting.todo[0] == row
  }

  /** A visit changes no table.  A COMMITTED record is passed by; a COPYING one whose engines report a running copy is
      waited for; any other one is to be cleared next, unless an engine raises. */
  lemma VisitOutcome(s: System, e: Event, p: Pid, row: Listed)
    requires Visits(s, e, p, row)
    ensures var r, s' := s.procs[p].restarting, Next(s, e);
            && s'.w == s.w && p in s'.procs && s'.procs == s.procs[p := s'.procs[p]]
            && (row.m.state == COMMITTED ==> s'.procs[p] == Restart(Visiting(r.todo[1..], r.known, r.waited)))
            && (row.m.state == COPYING && e.reply == Copies ==>
                  s'.procs[p] == Restart(Visiting(r.todo[1..], r.known, r.waited + {row.id})))
            && (row.m.state != COMMITTED && e.reply == Raises ==> s'.procs[p] == Restart(RestartFailed))
            && (row.m.state != COMMITTED && e.reply != Raises && !(row.m.state == COPYING && e.reply == Copies) ==>
                  s'.procs[p] == Restart(Clearing(r.todo, r.known, r.waited)))
  {
  }

  /** The run visited row `row` by process `p` before its end, and no engine reported a running copy or raised. */
  ghost predicate FoundSettled(events: seq<Event>, p: Pid, row: Listed) {
    exists m: nat :: m < |events| && Visits(Exec(events[..m]), events[m], p, row)
                     && events[m].reply != Raises && (row.m.state == COPYING ==> events[m].reply != Copies)
  }

  /** A reconciliation is about to clear a row only after it visited that row and found it settled. */
  lemma {:induction false} ClearsSettled(events: seq<Event>, p: Pid)
    requires p in Exec(events).procs && Exec(events).procs[p].Restart? && Exec(events).procs[p].restarting.Clearing?
    requires Exec(events).procs[p].restarting.todo != []
    ensures var row := Exec(events).procs[p].restarting.todo[0];
            row.m.state != COMMITTED && FoundSettled(events, p, row)
    decreases |events|
  {
    hide Visits, StateOf, Apply;
    var n := |events| - 1;
    var front, e := events[..n], events[n];
    var s := Exec(front);
    var row := Exec(events).procs[p].restarting.todo[0];
    if p in s.procs && s.procs[p] == Exec(events).procs[p] {
      ClearsSettled(front, p);
      StillFound(events, p, row);
    } else {
      BeginsToClear(s, e, p);
    }
  }

  lemma BeginsToClear(s: System, e: Event, p: Pid)
    requires p in Next(s, e).procs && (p in s.procs ==> s.procs[p] != Next(s, e).procs[p])
    requires Next(s, e).procs[p].Restart? && Next(s, e).procs[p].restarting.Clearing?
    requires Next(s, e).procs[p].restarting.todo != []
    ensures var row := Next(s, e).procs[p].restarting.todo[0];
            && Visits(s, e, p, row) && row.m.state != COMMITTED && e.reply != Raises
            && (row.m.state == COPYING ==> e.reply != Copies)
  {
    hide Apply;
  }

  lemma StillFound(events: seq<Event>, p: Pid, row: Listed)
    requires events != [] && FoundSettled(events[..|events|-1], p, row)
    ensures FoundSettled(events, p, row)
  {
    hide Exec;
    var front := events[..|events|-1];
    var m: nat :| m < |front| && Visits(Exec(front[..m]), front[m], p, row)
                  && front[m].reply != Raises && (row.m.state == COPYING ==> front[m].reply != Copies);
    assert front[..m] == events[..m];
  }

  /**
  Over every run: what a reconciliation writes is one record marked ABORTED, in the state in which it read it; it read
  it as something else than COMMITTED, and if that was COPYING, it asked the engines first and neither reported a
  running copy.
  */
  lemma AbortsOnlySettled(events: seq<Event>, e: Event)
    requires e.Advance? && e.pid in Exec(events).procs && Exec(events).procs[e.pid].Restart?
    requires Next(Exec(events), e).w != Exec(events).w
    ensures var s, w' := Exec(events), Next(Exec(events), e).w;
            && s.procs[e.pid].restarting.Clearing? && s.procs[e.pid].restarting.todo != []
            && var row := s.procs[e.pid].restarting.todo[0];
               && row.m.state != COMMITTED && FoundSettled(events, e.pid, row)
               && StateOf(s.w, row.id) == Some(row.m.state)
               && w'.db.agents == s.w.db.agents && row.id in w'.db.migrations
               && w'.db.migrations == s.w.db.migrations[row.id := w'.db.migrations[row.id]]
               && w'.db.migrations[row.id].state == ABORTED
  {
    hide Exec;
    ClearsSettled(events, e.pid);
  }

  // ---- aborting a record that was read late ----

  /** The event clears a row that was read after its record had left the live states; the record is still as read. */
  predicate ClearsLate(s: System, e: Event) {
    && e.Advance? && e.pid in s.procs && s.procs[e.pid].Restart? && s.procs[e.pid].restarting.Clearing?
    && e.reply != Raises
    && s.procs[e.pid].restarting.todo != []
    && var row := s.procs[e.pid].restarting.todo[0];
       && !LiveState(row.m.state) && row.m.state != ABORTED
       && StateOf(s.w, row.id) == Some(row.m.state)
  }

  /** Exactly such an event adds a record to those that were cleared late; none is ever taken off. */
  lemma ClearedByEvent(s: System, e: Event)
    requires SystemInv(s) && TrueOk(s.w)
    ensures var cleared, cleared' := s.w.own.cleared.Keys, Next(s, e).w.own.cleared.Keys;
            if ClearsLate(s, e) then cleared' == cleared + {s.procs[e.pid].restarting.todo[0].id}
            else cleared' == cleared
  {
    hide Restored;
    match e
    case Work(act) =>
      if IsWork(act) {
        WorkKeepsRecords(s.w, act);
      }
    case Spawn(_, _) =>
    case Crash(_) =>
    case Advance(pid, reply, progress, order) =>
      if pid in s.procs {
        assert ProcOk(s.w, pid, s.procs[pid]);
        ClearedByMove(s.w, pid, s.procs[pid], reply, progress, order);
      }
  }

  predicate LateRow(w: World, proc: Proc, reply: Reply) {
    && proc.Restart? && proc.restarting.Clearing? && reply != Raises && proc.restarting.todo != []
    && var row := proc.restarting.todo[0];
       !LiveState(row.m.state) && row.m.state != ABORTED && StateOf(w, row.id) == Some(row.m.state)
  }

  lemma ClearedByMove(w: World, pid: Pid, proc: Proc, reply: Reply, progress: Progress, order: seq<MigrationId>)
    requires ProcOk(w, pid, proc)
    ensures var move := MoveOf(w, pid, proc, reply, progress, order);
            Acted(w, move.act).own.cleared.Keys
            == if LateRow(w, proc, reply) then w.own.cleared.Keys + {proc.restarting.todo[0].id} else w.own.cleared.Keys
  {
    hide HoldsLease, HasLiveMigration, Restored, Covered, Progressed, Apply;
    var act := MoveOf(w, pid, proc, reply, progress, order).act;
    if act.Some? {
      ClearedByAction(w, act.value);
    }
  }

  lemma ClearedByAction(w: World, act: Action)
    requires TouchesOwnership(act)
    ensures Apply(w, act).own.cleared.Keys
            == if act.Transition? && LatePair(act.expected, act.target) && StateOf(w, act.id) == Some(act.expected)
               then w.own.cleared.Keys + {act.id} else w.own.cleared.Keys
  {
    hide HoldsLease, HasLiveMigration;
  }

  /** No event of the run clears a record late. */
  ghost predicate NeverClearsLate(events: seq<Event>) {
    forall n :: 0 <= n < |events| ==> !ClearsLate(Exec(events[..n]), events[n])
  }

  lemma NeverClearsLateSplit(events: seq<Event>)
    requires events != []
    ensures var n := |events| - 1;
            NeverClearsLate(events) <==> NeverClearsLate(events[..n]) && !ClearsLate(Exec(events[..n]), events[n])
  {
    hide Exec, ClearsLate;
    var n := |events| - 1;
    forall k | 0 <= k < n ensures Exec(events[..n][..k]) == Exec(events[..k]) && events[..n][k] == events[k] {
      assert events[..n][..k] == events[..k];
    }
    if NeverClearsLate(events[..n]) && !ClearsLate(Exec(events[..n]), events[n]) {
      forall k | 0 <= k < |events| ensures !ClearsLate(Exec(events[..k]), events[k]) {
        assert k < n ==> !ClearsLate(Exec(events[..n][..k]), events[..n][k]);
      }
    }
  }

  lemma {:induction false} ClearedIffLate(events: seq<Event>)
    ensures Exec(events).w.own.cleared == map[] <==> NeverClearsLate(events)
    decreases |events|
  {
    hide ClearsLate, Next, Reachable, OwnInv, SystemInv;
    if events != [] {
      var n := |events| - 1;
      var front := events[..n];
      NeverClearsLateSplit(events);
      hide NeverClearsLate;
      ClearedIffLate(front);
      ExecIsReachable(front);
      OwnInvReachable(Exec(front).w);
      TrueFromInv(Exec(front).w);
      ClearedByEvent(Exec(front), events[n]);
      var cleared, cleared' := Exec(front).w.own.cleared, Exec(events).w.own.cleared;
      assert (cleared == map[] <==> cleared.Keys == {}) && (cleared' == map[] <==> cleared'.Keys == {});
    }
  }

  lemma TrueFromInv(w: World)
    requires OwnInv(w)
    ensures TrueOk(w)
  {
  }

  /** Ownership never moved through any ABORTED record. */
  ghost predicate AbortsAreClean(w: World) {
    forall id :: id in w.db.migrations && w.db.migrations[id].state == ABORTED ==>
      id in w.own.moves && w.own.moves[id] == 0
  }

  lemma CleanIff(events: seq<Event>)
    ensures AbortsAreClean(Exec(events).w) <==> Exec(events).w.own.cleared == map[]
  {
    hide Exec, Reachable, Parts;
    ExecIsReachable(events);
    var w := Exec(events).w;
    OwnInvReachable(w);
    forall id | id in w.db.migrations && w.db.migrations[id].state == ABORTED
      ensures id in w.own.moves && (w.own.moves[id] == 0 <==> id !in w.own.cleared)
    {
      AbortedNeverMovedIff(w, id);
    }
    if w.own.cleared != map[] {
      var id :| id in w.own.cleared;
      assert id in w.db.migrations && w.db.migrations[id].state == ABORTED;
    }
  }

  /** Over every run, ABORTED always means that ownership never moved if and only if no reconciliation ever cleared a
      row that it had read after its record left the live states. */
  lemma AbortsAreCleanIff(events: seq<Event>)
    ensures (forall n :: 0 <= n <= |events| ==> AbortsAreClean(Exec(events[..n]).w)) <==> NeverClearsLate(events)
  {
    hide Exec, ClearsLate, AbortsAreClean;
    assert events[..|events|] == events;
    forall n | 0 <= n <= |events|
      ensures AbortsAreClean(Exec(events[..n]).w) <==> NeverClearsLate(events[..n])
    {
      CleanIff(events[..n]);
      ClearedIffLate(events[..n]);
    }
    forall n | 0 <= n <= |events| && NeverClearsLate(events) ensures NeverClearsLate(events[..n]) {
      assert forall k :: 0 <= k < n ==> events[..n][..k] == events[..k] && events[..n][k] == events[k];
    }
  }

  /** In such a run the records' states account for every epoch and every move. */
  lemma CleanRunsAccount(events: seq<Event>, a: AgentId, id: MigrationId)
    requires NeverClearsLate(events)
    ensures var w := Exec(events).w;
            && (id in w.db.migrations ==> id in w.own.moves && w.own.moves[id] == Span(w.db.migrations[id].state))
            && (a in w.db.agents ==>
                  a in w.own.registered
                  && w.db.agents[a].ownerEpoch == w.own.registered[a].ownerEpoch + Accounted(w.db.migrations, a))
  {
    hide Exec, Reachable, ClearsLate, Accounted;
    ExecIsReachable(events);
    ClearedIffLate(events);
    var w := Exec(events).w;
    if id in w.db.migrations {
      MovesMatchState(w, id);
    }
    if a in w.db.agents {
      EpochAccountingIff(w, a);
    }
  }

  // ---- acknowledging and recovering ----

  /** The release of a source shadow is issued only for a record whose ownership has moved, and an acknowledgement that
      succeeds leaves it SOURCE_RELEASED, recovered or cleared late. */
  lemma ReleasesAreAfterTheMove(events: seq<Event>, p: Pid)
    requires p in Exec(events).procs && Exec(events).procs[p].Ack? && !Exec(events).procs[p].acknowledging.ReadingState?
    requires Exec(events).procs[p].acknowledging.AckDone? ==>
               Exec(events).procs[p].acknowledging.ok || Exec(events).procs[p].acknowledging.issued
    ensures var w, a := Exec(events).w, Exec(events).procs[p];
            && a.id in w.db.migrations && a.id in w.own.moves && w.own.moves[a.id] >= 1
            && (a.acknowledging.AckDone? && a.acknowledging.ok && a.id !in w.own.cleared ==>
                  w.db.migrations[a.id].state in {SOURCE_RELEASED, RECOVERED})
  {
    hide Reachable, Exec, Restored, Parts;
    ExecIsReachable(events);
    var s := Exec(events);
    assert ProcOk(s.w, p, s.procs[p]);
    RestoredKeys(s.w.db.migrations, s.w.own.cleared);
    TruthOf(s.w, s.procs[p].id);
    OwnInvReachable(s.w);
    MovesMatchState(s.w, s.procs[p].id);
  }

  /** Once the release has returned, the compare-and-swap goes through exactly while nobody has recovered, released or
      cleared the record meanwhile. */
  lemma AcknowledgeOutcome(events: seq<Event>, p: Pid, progress: Progress, order: seq<MigrationId>)
    requires p in Exec(events).procs && Exec(events).procs[p].Ack? && Exec(events).procs[p].acknowledging.Closing?
    ensures var s := Exec(events);
            var a, after := s.procs[p], Next(s, Advance(p, Done, progress, order));
            && a.id in s.w.db.migrations && p in after.procs
            && after.procs[p] == a.(acknowledging := AckDone(s.w.db.migrations[a.id].state == COMMITTED, true))
            && s.w.db.migrations[a.id].state in {COMMITTED, SOURCE_RELEASED, RECOVERED, ABORTED}
  {
    hide Reachable, Exec, Apply, Restored, Parts;
    ExecIsReachable(events);
    var s := Exec(events);
    assert ProcOk(s.w, p, s.procs[p]);
    RestoredKeys(s.w.db.migrations, s.w.own.cleared);
    TruthOf(s.w, s.procs[p].id);
    OwnInvReachable(s.w);
  }

  /** A recovery's transaction, after whatever happened while the rebind was awaited.  It succeeds unless the record was
      cleared late, or is SOURCE_RELEASED and its agent has moved on.  A record that is already RECOVERED returns the
      agent's lease as it is; otherwise the transaction grants the lease that the shadow was rebound to. */
  lemma RecoveryGrantsIff(events: seq<Event>, p: Pid)
    requires p in Exec(events).procs && Exec(events).procs[p].Recovery? && Exec(events).procs[p].recovering.Planned?
    ensures var w, r := Exec(events).w, Exec(events).procs[p];
            var m, engine, rebind := r.recovering.m, r.recovering.engine, r.recovering.rebind;
            var a, key, tx := m.agentId, RecoveryKey(m), TxRecoverMigration(w.db, r.id, engine);
            && r.id in w.db.migrations && a in w.db.agents
            && var state := w.db.migrations[r.id].state;
               && (rebind.Some? ==> rebind.value == key.epoch && engine == m.sourceEngine)
               && (tx.Ok? <==> && state != ABORTED
                               && (state == SOURCE_RELEASED ==> w.db.agents[a].ownerEpoch == m.sourceEpoch + 1))
               && (state == RECOVERED ==> key in w.own.owners)
               && (tx.Ok? ==> (HoldsLease(tx.value, a, engine, key.epoch) <==>
                                 state != RECOVERED
                                 || (w.own.owners[key] == engine && w.db.agents[a].ownerEpoch == key.epoch)))
  {
    hide Reachable, Exec, Parts, Truth, HoldsLease;
    ExecIsReachable(events);
    var s := Exec(events);
    assert ProcOk(s.w, p, s.procs[p]);
    TruthKeys(s.w);
    TruthOf(s.w, s.procs[p].id);
    OwnInvReachable(s.w);
    GrantedLease(s.w, s.procs[p].id);
    if Truth(s.w)[s.procs[p].id].state == RECOVERED {
      RecoveredLease(s.w, s.procs[p].id);
    }
    GrantsLease(s.w, s.procs[p].id, s.procs[p].recovering.engine);
  }

  /** The lease of a committed or released record, as far as the agent has not moved on. */
  lemma GrantedLease(w: World, id: MigrationId)
    requires OwnInv(w) && id in Truth(w) && Granted(Truth(w)[id].state)
    ensures var m := Truth(w)[id];
            && m.agentId in w.db.agents
            && (m.state == COMMITTED ==> w.db.agents[m.agentId].ownerEpoch == m.sourceEpoch + 1)
            && (HoldsLease(w.db, m.agentId, m.destinationEngine, m.sourceEpoch + 1)
                <==> w.db.agents[m.agentId].ownerEpoch == m.sourceEpoch + 1)
  {
    hide CountsOk, StartsOk, MovesOk, Exclusive, Truth;
    assert RecordOk(w.db.agents, w.own.owners, Truth(w)[id]);
  }

  lemma GrantsLease(w: World, id: MigrationId, engine: EngineId)
    requires id in w.db.migrations && w.db.migrations[id].agentId in w.db.agents
    ensures var m, tx := w.db.migrations[id], TxRecoverMigration(w.db, id, engine);
            && (tx.Ok? <==> && Granted(m.state)
                            && (m.state != RECOVERED ==>
                                  HoldsLease(w.db, m.agentId, m.destinationEngine, m.sourceEpoch + 1)))
            && (tx.Ok? ==> (HoldsLease(tx.value, m.agentId, engine, m.sourceEpoch + 2) <==>
                              m.state != RECOVERED || HoldsLease(w.db, m.agentId, engine, m.sourceEpoch + 2)))
            && (HoldsLease(w.db, m.agentId, engine, m.sourceEpoch + 2) <==>
                  && w.db.agents[m.agentId].ownerEngine == engine
                  && w.db.agents[m.agentId].ownerEpoch == m.sourceEpoch + 2)
  {
  }

  /** The agent is read again for the caller.  What is read is the lease that the shadow was rebound to if and only if
      the recovery was this call's own, or one to the same engine, and nobody has handed the agent on by the time of the
      read. */
  lemma RecoveryReportsIff(events: seq<Event>, p: Pid, progress: Progress, order: seq<MigrationId>)
    requires p in Exec(events).procs && Exec(events).procs[p].Recovery? && Exec(events).procs[p].recovering.Returning?
    ensures var s := Exec(events);
            var r, after := s.procs[p].recovering, Next(s, Advance(p, Done, progress, order)).procs;
            var key := RecoveryKey(r.m);
            && r.m.agentId in s.w.db.agents && key in s.w.own.owners
            && p in after && after[p].Recovery?
            && after[p].recovering == Recovered(r.m, r.engine, r.rebind, r.reused, r.own, s.w.db.agents[r.m.agentId])
            && (HoldsLease(s.w.db, r.m.agentId, r.engine, key.epoch) <==>
                  (r.own || s.w.own.owners[key] == r.engine) && s.w.db.agents[r.m.agentId].ownerEpoch == key.epoch)
  {
    hide Reachable, Exec, Apply, Restored, Parts;
    ExecIsReachable(events);
    var s := Exec(events);
    assert ProcOk(s.w, p, s.procs[p]);
    OwnInvReachable(s.w);
    RecoveredLease(s.w, s.procs[p].id);
  }

  /** The same for whatever a recovery has returned, at any later time. */
  lemma RecoveredMatchesIff(events: seq<Event>, p: Pid)
    requires p in Exec(events).procs && Exec(events).procs[p].Recovery? && Exec(events).procs[p].recovering.Recovered?
    ensures var w, r := Exec(events).w, Exec(events).procs[p].recovering;
            var key := RecoveryKey(r.m);
            && key in w.own.owners && r.lease.ownerEpoch >= key.epoch
            && (r.rebind.Some? ==> r.rebind.value == key.epoch && r.engine == r.m.sourceEngine)
            && (r.lease.ownerEngine == r.engine && r.lease.ownerEpoch == key.epoch <==>
                  (r.own || w.own.owners[key] == r.engine) && r.lease.ownerEpoch == key.epoch)
  {
    hide Reachable, Exec, Restored;
    ExecIsReachable(events);
    var s := Exec(events);
    assert ProcOk(s.w, p, s.procs[p]);
  }

  // ---- runs that show the conditions matter ----

  lemma Extend(events: seq<Event>, s: System, e: Event) returns (events': seq<Event>, s': System)
    requires s == Exec(events)
    ensures events' == events + [e] && s' == Next(s, e) && s' == Exec(events')
  {
    hide Next;
    events', s' := events + [e], Next(s, e);
    assert events'[..|events|] == events;
  }

  function Go(pid: Pid): Event { Advance(pid, Done, NO_PROGRESS, []) }

  /** From s0 a driver has taken its own record to the given state, and nothing else has happened. */
  predicate Driven(s0: System, s: System, p: Pid, a: AgentId, destination: EngineId, id: MigrationId,
                   phase: DriverPhase, state: MigrationState)
    requires a in s0.w.db.agents
  {
    var m, row := Handoff(s0.w, a, destination), s0.w.db.agents[a];
    && Inserted(phase) && phase.m == m && s.procs == s0.procs[p := Driver(a, destination, id, phase)]
    && s.w.db.migrations == s0.w.db.migrations[id := m.(state := state)] && s.w.own.cleared == s0.w.own.cleared
    && s.w.own.registered == s0.w.own.registered
    && s.w.db.agents == s0.w.db.agents[a := if state == COMMITTED
                                            then row.(ownerEngine := destination, ownerEpoch := row.ownerEpoch + 1)
                                            else row]
  }

  lemma DriverStarts(events: seq<Event>, s: System, p: Pid, a: AgentId, destination: EngineId, id: MigrationId)
    returns (events': seq<Event>, s': System)
    requires s == Exec(events) && p !in s.procs && p !in s.w.starts && a in s.w.db.agents
    requires destination != s.w.db.agents[a].ownerEngine
    requires !HasLiveMigration(s.w.db.migrations, a) && id !in s.w.db.migrations
    ensures s' == Exec(events')
    ensures Driven(s, s', p, a, destination, id, Preparing(Handoff(s.w, a, destination)), PREPARING)
  {
    hide Exec, HasLiveMigration;
    var m := Handoff(s.w, a, destination);
    events', s' := Extend(events, s, Spawn(p, Driver(a, destination, id, Reading)));
    events', s' := Extend(events', s', Go(p));
    assert s' == System(s.w, s.procs[p := Driver(a, destination, id, Leasing(m))]);
    events', s' := Extend(events', s', Go(p));
    assert s'.procs == s.procs[p := Driver(a, destination, id, Starting(m))] && s'.w.db == s.w.db;
    assert s'.w.starts == s.w.starts[p := StartCall(id, m)] && s'.w.own == s.w.own;
    events', s' := Extend(events', s', Go(p));
  }

  lemma DriverCopies(s0: System, s: System, p: Pid, a: AgentId, destination: EngineId, id: MigrationId)
    requires a in s0.w.db.agents
    requires Driven(s0, s, p, a, destination, id, Preparing(Handoff(s0.w, a, destination)), PREPARING)
    ensures Driven(s0, Next(s, Go(p)), p, a, destination, id, Copying(Handoff(s0.w, a, destination)), COPYING)
  {
  }

  lemma DriverIsReady(s0: System, s: System, p: Pid, a: AgentId, destination: EngineId, id: MigrationId)
    requires a in s0.w.db.agents
    requires Driven(s0, s, p, a, destination, id, Copying(Handoff(s0.w, a, destination)), COPYING)
    ensures Driven(s0, Next(s, Go(p)), p, a, destination, id, Ready(Handoff(s0.w, a, destination)), DEST_READY)
  {
  }

  lemma DriverMovesLease(s0: System, s: System, p: Pid, a: AgentId, destination: EngineId, id: MigrationId)
    requires a in s0.w.db.agents
    requires Driven(s0, s, p, a, destination, id, Ready(Handoff(s0.w, a, destination)), DEST_READY)
    ensures Driven(s0, Next(s, Go(p)), p, a, destination, id, Committed(Handoff(s0.w, a, destination)), COMMITTED)
  {
    hide ApplyCommitOwnership, TxCommitMigration;
    CommitMoves(s.w, id);
  }

  lemma CommitMoves(w: World, id: MigrationId)
    requires id in w.db.migrations && w.db.migrations[id].state == DEST_READY
    requires var m := w.db.migrations[id]; HoldsLease(w.db, m.agentId, m.sourceEngine, m.sourceEpoch)
    ensures TxCommitMigration(w.db, id).Ok?
    ensures var w', m := ApplyCommitOwnership(w, id), w.db.migrations[id];
            && w'.db.agents == SetLease(w.db.agents, m.agentId, m.destinationEngine, m.sourceEpoch + 1)
            && w'.db.migrations == w.db.migrations[id := m.(state := COMMITTED)]
            && w'.own.cleared == w.own.cleared && w'.own.registered == w.own.registered
  {
  }

  /** A migration that nothing disturbs, after any run. */
  lemma DriverCommits(events: seq<Event>, s: System, p: Pid, a: AgentId, destination: EngineId, id: MigrationId)
    returns (events': seq<Event>, s': System)
    requires s == Exec(events) && p !in s.procs && a in s.w.db.agents && destination != s.w.db.agents[a].ownerEngine
    requires !HasLiveMigration(s.w.db.migrations, a) && id !in s.w.db.migrations
    ensures s' == Exec(events')
    ensures Driven(s, s', p, a, destination, id, Committed(Handoff(s.w, a, destination)), COMMITTED)
  {
    hide Exec, Next, HasLiveMigration, Driven, Reachable;
    ExecIsReachable(events);
    NotStarting(s, p);
    events', s' := DriverStarts(events, s, p, a, destination, id);
    DriverCopies(s, s', p, a, destination, id);
    events', s' := Extend(events', s', Go(p));
    DriverIsReady(s, s', p, a, destination, id);
    events', s' := Extend(events', s', Go(p));
    DriverMovesLease(s, s', p, a, destination, id);
    events', s' := Extend(events', s', Go(p));
  }

  lemma AbortsOne(w: World, id: MigrationId, seen: MigrationState)
    requires id in w.db.migrations && w.db.migrations[id].state == seen && (seen == PREPARING || seen == COPYING)
    ensures var w', m := ApplyTransition(w, id, seen, ABORTED, NO_PROGRESS), w.db.migrations[id];
            && w'.db.agents == w.db.agents
            && w'.db.migrations == w.db.migrations[id := m.(state := ABORTED, error := None)]
  {
  }

  /** A driver whose engine call or commit raises: undisturbed it aborts a record that is not yet DEST_READY, leaves any
      other one alone, and moves no lease. */
  lemma FaultAborts(s: System, p: Pid)
    requires p in s.procs && s.procs[p].Driver? && s.procs[p].id in s.w.db.migrations
    requires s.procs[p].driving.Preparing? || s.procs[p].driving.Copying? || s.procs[p].driving.Ready?
             || s.procs[p].driving.Committed?
    ensures var id, m := s.procs[p].id, s.w.db.migrations[s.procs[p].id];
            var s' := Next(Next(Next(s, Advance(p, Raises, NO_PROGRESS, [])), Go(p)), Go(p));
            && s'.procs == s.procs[p := s.procs[p].(driving := GaveUp(s.procs[p].driving.m))]
            && s'.w.db.agents == s.w.db.agents
            && s'.w.db.migrations == (if m.state == PREPARING || m.state == COPYING
                                      then s.w.db.migrations[id := m.(state := ABORTED, error := None)]
                                      else s.w.db.migrations)
  {
    hide HasLiveMigration, TxCommitMigration, ApplyCommitOwnership, HoldsLease, ApplyTransition, TxTransitionMigration;
    var d, m := s.procs[p], s.procs[p].driving.m;
    var s1 := Next(s, Advance(p, Raises, NO_PROGRESS, []));
    assert s1 == System(s.w, s.procs[p := d.(driving := Handling(m))]);
    var s2 := Next(s1, Go(p));
    var seen := s.w.db.migrations[d.id].state;
    if seen == PREPARING || seen == COPYING {
      assert s2 == System(s.w, s.procs[p := d.(driving := Aborting(m, seen))]);
      AbortsOne(s.w, d.id, seen);
    } else {
      assert s2 == System(s.w, s.procs[p := d.(driving := GaveUp(m))]);
    }
  }

  lemma NotStarting(s: System, p: Pid)
    requires SystemInv(s) && p !in s.procs
    ensures p !in s.w.starts
  {
  }

  /** Agent `a`, registered as `row`, has been handed to the destination by process 0 through record 0. */
  predicate HandedOver(s: System, a: AgentId, row: Agent, destination: EngineId) {
    && s.procs.Keys == {0}
    && s.w.db.agents == map[a := row.(ownerEngine := destination, ownerEpoch := row.ownerEpoch + 1)]
    && s.w.db.migrations
       == map[0 := Migration(a, row.ownerEngine, destination, row.ownerEpoch, COMMITTED, 0, 0, 0.0, None)]
    && s.w.own.cleared == map[] && a in s.w.own.registered && s.w.own.registered[a] == row
  }

  lemma FirstHandoff(a: AgentId, row: Agent, destination: EngineId) returns (events: seq<Event>, s: System)
    requires destination != row.ownerEngine
    ensures s == Exec(events) && HandedOver(s, a, row, destination)
  {
    hide Exec;
    NoEvents();
    events, s := [], System(INITIAL, map[]);
    events, s := Extend(events, s, Work(Register(a, row)));
    assert s.w.db.agents == map[a := row] && s.w.db.migrations == map[] && s.procs == map[];
    hide Next;
    events, s := DriverCommits(events, s, 0, a, destination, 0);
  }

  lemma NoEvents()
    ensures Exec([]) == System(INITIAL, map[])
  {
  }

  // ---- recoveries ----

  /** Process `p` reports what it had planned, but returns a lease of engine `x`. */
  predicate ReturnsInstead(before: map<Pid, Proc>, after: map<Pid, Proc>, p: Pid, x: EngineId) {
    && p in before && before[p].Recovery? && before[p].recovering.Planned?
    && p in after && after[p].Recovery? && after[p].recovering.Recovered?
    && var plan, r := before[p].recovering, after[p].recovering;
       r.reused == plan.reused && r.rebind == plan.rebind && r.engine == plan.engine && r.lease.ownerEngine == x
  }

  /** While a recovery to the source awaits, another one to a different engine can come first: the first call then
      returns the other's lease although it reports the source shadow reused. */
  lemma RivalRecoveryWins(events: seq<Event>, p: Pid, q: Pid, rival: EngineId) returns (events': seq<Event>)
    requires p in Exec(events).procs && q !in Exec(events).procs
    requires Exec(events).procs[p].Recovery? && Exec(events).procs[p].recovering.Planned?
    requires StateOf(Exec(events).w, Exec(events).procs[p].id) == Some(COMMITTED)
    requires rival != Exec(events).procs[p].recovering.m.sourceEngine
    ensures ReturnsInstead(Exec(events).procs, Exec(events').procs, p, rival)
  {
    hide Reachable, Exec, Restored;
    ExecIsReachable(events);
    var s0 := Exec(events);
    assert ProcOk(s0.w, p, s0.procs[p]);
    var id := s0.procs[p].id;
    RestoredKeys(s0.w.db.migrations, s0.w.own.cleared);
    TruthOf(s0.w, id);
    CommittedIsRecoverable(s0.w, id, rival);
    var s := s0;
    events' := events;
    events', s := Extend(events', s, Spawn(q, Recovery(id, Some(rival), ReadingRecord)));
    events', s := Extend(events', s, Go(q));
    assert s.w == s0.w && s.procs[q].recovering == Planned(s0.w.db.migrations[id], rival, None, false);
    assert s.procs[p] == s0.procs[p];
    events', s := Extend(events', s, Go(q));
    assert s.w.db == TxRecoverMigration(s0.w.db, id, rival).value && s.procs[p] == s0.procs[p];
    events', s := Extend(events', s, Go(p));
  }

  lemma NothingLiveAfter(w: World, id: MigrationId, engine: EngineId)
    requires Reachable(w) && StateOf(w, id) == Some(COMMITTED) && TxRecoverMigration(w.db, id, engine).Ok?
    ensures !HasLiveMigration(TxRecoverMigration(w.db, id, engine).value.migrations, w.db.migrations[id].agentId)
  {
    hide Reachable, HoldsLease;
    var ms := TxRecoverMigration(w.db, id, engine).value.migrations;
    forall j | j in ms && ms[j].agentId == w.db.migrations[id].agentId ensures !LiveState(ms[j].state) {
      if j != id && LiveState(ms[j].state) {
        OneLiveMigration(w, id, j);
      }
    }
  }

  /** The call's own transaction granted an epoch, and the one it read is the next. */
  predicate HandedOn(r: RecoveryPhase) {
    r.Recovered? && r.own && r.lease.ownerEpoch == r.m.sourceEpoch + 3
  }

  /** Between its own transaction and the read of the agent for its caller, the agent can be handed on: the call returns
      a lease that is neither of the engine nor of the epoch that it reports the shadow rebound to. */
  lemma HandedOnBeforeReadBack(events: seq<Event>, p: Pid, q: Pid, id: MigrationId, x: EngineId)
    returns (events': seq<Event>)
    requires p in Exec(events).procs && q !in Exec(events).procs && id !in Exec(events).w.db.migrations
    requires Exec(events).procs[p].Recovery? && Exec(events).procs[p].recovering.Planned?
    requires StateOf(Exec(events).w, Exec(events).procs[p].id) == Some(COMMITTED)
    requires x != Exec(events).procs[p].recovering.engine
    ensures ReturnsInstead(Exec(events).procs, Exec(events').procs, p, x)
    ensures HandedOn(Exec(events').procs[p].recovering)
  {
    hide Reachable, Exec, Restored, HasLiveMigration;
    ExecIsReachable(events);
    var s0 := Exec(events);
    assert ProcOk(s0.w, p, s0.procs[p]);
    var plan, rid := s0.procs[p].recovering, s0.procs[p].id;
    RestoredKeys(s0.w.db.migrations, s0.w.own.cleared);
    TruthOf(s0.w, rid);
    CommittedIsRecoverable(s0.w, rid, plan.engine);
    NothingLiveAfter(s0.w, rid, plan.engine);
    var s;
    events', s := Extend(events, s0, Go(p));
    assert s.w.db == TxRecoverMigration(s0.w.db, rid, plan.engine).value;
    var returning := Returning(plan.m, plan.engine, plan.rebind, plan.reused, true);
    assert s.procs == s0.procs[p := s0.procs[p].(recovering := returning)];
    var a, s1 := plan.m.agentId, s;
    hide Next;
    events', s := DriverCommits(events', s, q, a, x, id);
    assert s.procs[p] == s1.procs[p] && s.w.db.agents[a].ownerEngine == x;
    LastRead(s, p);
    events', s := Extend(events', s, Go(p));
  }

  lemma LastRead(s: System, p: Pid)
    requires p in s.procs && s.procs[p].Recovery? && s.procs[p].recovering.Returning?
    requires s.procs[p].recovering.m.agentId in s.w.db.agents
    ensures var r := s.procs[p].recovering;
            p in Next(s, Go(p)).procs
            && Next(s, Go(p)).procs[p] == s.procs[p].(recovering :=
                 Recovered(r.m, r.engine, r.rebind, r.reused, r.own, s.w.db.agents[r.m.agentId]))
  {
  }

  /** A recovery to the source whose rebind came back. */
  lemma RecoveryPlans(events: seq<Event>, s: System, p: Pid) returns (events': seq<Event>, s': System)
    requires s == Exec(events) && p !in s.procs && StateOf(s.w, 0) == Some(COMMITTED)
    ensures var m := s.w.db.migrations[0];
            var plan := Planned(m, m.sourceEngine, Some(m.sourceEpoch + 2), true);
            && s' == Exec(events') && s' == System(s.w, s.procs[p := Recovery(0, None, plan)])
  {
    hide Exec;
    events', s' := Extend(events, s, Spawn(p, Recovery(0, None, ReadingRecord)));
    events', s' := Extend(events', s', Go(p));
    events', s' := Extend(events', s', Go(p));
  }

  /** Process 1 recovered to the source, reports its shadow reused and returns another engine's lease. */
  predicate ReturnsOther(procs: map<Pid, Proc>, source: EngineId, other: EngineId) {
    && 1 in procs && procs[1].Recovery? && procs[1].recovering.Recovered? && procs[1].recovering.reused
    && procs[1].recovering.engine == source && procs[1].recovering.lease.ownerEngine == other
  }

  /** Both are reached from the empty tables: a recovery reports the source shadow reused and returns a lease of another
      engine, because a rival came first or because the agent was handed on. */
  lemma ReusedShadowWithoutLease(a: AgentId, row: Agent, destination: EngineId, other: EngineId)
    returns (overtaken: seq<Event>, handedOn: seq<Event>)
    requires destination != row.ownerEngine && other != row.ownerEngine
    ensures ReturnsOther(Exec(overtaken).procs, row.ownerEngine, other)
    ensures ReturnsOther(Exec(handedOn).procs, row.ownerEngine, other) && Exec(handedOn).procs[1].recovering.own
  {
    hide Exec;
    var events, s := FirstHandoff(a, row, destination);
    events, s := RecoveryPlans(events, s, 1);
    overtaken := RivalRecoveryWins(events, 1, 2, other);
    handedOn := HandedOnBeforeReadBack(events, 1, 2, 1, other);
  }

  /** A release of the source shadow can have been issued and have returned although a recovery then reports the shadow
      reused: both read the record while it was COMMITTED. */
  lemma ReleasedShadowIsReported(a: AgentId, row: Agent, destination: EngineId) returns (events: seq<Event>)
    requires destination != row.ownerEngine
    ensures ReturnsOther(Exec(events).procs, row.ownerEngine, row.ownerEngine)
    ensures 2 in Exec(events).procs && Exec(events).procs[2] == Ack(0, AckDone(false, true))
  {
    hide Exec;
    var s;
    events, s := FirstHandoff(a, row, destination);
    events, s := RecoveryPlans(events, s, 1);
    events, s := Extend(events, s, Spawn(2, Ack(0, ReadingState)));
    events, s := Extend(events, s, Go(2));
    events, s := Extend(events, s, Go(2));
    assert s.procs[2].acknowledging.Closing?;
    ReleaseThenRecover(s);
    hide Next;
    events, s := Extend(events, s, Go(1));
    events, s := Extend(events, s, Go(2));
    events, s := Extend(events, s, Go(1));
  }

  lemma ReleaseThenRecover(s: System)
    requires 1 in s.procs && 2 in s.procs && StateOf(s.w, 0) == Some(COMMITTED)
    requires s.procs[1].Recovery? && s.procs[1].id == 0 && s.procs[1].recovering.Planned?
    requires s.procs[1].recovering.m == s.w.db.migrations[0]
    requires var m := s.w.db.migrations[0]; HoldsLease(s.w.db, m.agentId, m.destinationEngine, m.sourceEpoch + 1)
    requires s.procs[2] == Ack(0, Closing(s.w.db.migrations[0]))
    ensures var s3, plan := Next(Next(Next(s, Go(1)), Go(2)), Go(1)), s.procs[1].recovering;
            && 1 in s3.procs && s3.procs[1].Recovery? && s3.procs[1].recovering.Recovered?
            && s3.procs[1].recovering.reused == plan.reused && s3.procs[1].recovering.lease.ownerEngine == plan.engine
            && 2 in s3.procs && s3.procs[2] == Ack(0, AckDone(false, true))
  {
    var s1 := Next(s, Go(1));
    assert StateOf(s1.w, 0) == Some(RECOVERED) && s1.procs[2] == s.procs[2] && s1.procs[1].recovering.Returning?;
    var s2 := Next(s1, Go(2));
    assert s2.w.db == s1.w.db && s2.procs[1] == s1.procs[1];
  }

  // ---- a reconciliation that reads late ----

  /** Process 1 lists record 0 while it is COMMITTED. */
  lemma ListsEarly(events: seq<Event>, s: System) returns (events': seq<Event>, s': System)
    requires s == Exec(events) && s.procs.Keys == {0} && s.w.db.migrations.Keys == {0}
    requires StateOf(s.w, 0) == Some(COMMITTED)
    ensures s' == Exec(events') && s' == System(s.w, s.procs[1 := Restart(ReadingRows([0], [], {0}))])
  {
    hide Exec;
    events', s' := Extend(events, s, Spawn(1, Restart(Listing)));
    assert ListsLive(s'.w, [0]);
    events', s' := Extend(events', s', Advance(1, Done, NO_PROGRESS, [0]));
  }

  /** Since `s` record 0 has been released, and process 1 is about to clear the row of it that it has read. */
  predicate ReadLate(s: System, s': System)
    requires 0 in s.w.db.migrations
  {
    && s'.w.db.agents == s.w.db.agents && s'.w.own == s.w.own
    && s'.w.db.migrations == map[0 := s.w.db.migrations[0].(state := SOURCE_RELEASED, error := None)]
    && 1 in s'.procs && s'.procs[1] == Restart(Clearing([Listed(0, s'.w.db.migrations[0])], {0}, {}))
  }

  /** Process 2 releases it before process 1 reads its row. */
  lemma ReadsLate(events: seq<Event>, s: System) returns (events': seq<Event>, s': System)
    requires s == Exec(events) && s.procs.Keys == {0} && s.w.db.migrations.Keys == {0}
    requires StateOf(s.w, 0) == Some(COMMITTED)
    ensures s' == Exec(events') && ReadLate(s, s')
  {
    hide Exec, Next;
    var m, released := s.w.db.migrations[0], s.w.db.migrations[0].(state := SOURCE_RELEASED, error := None);
    events', s' := ListsEarly(events, s);
    var s1 := s';
    AckReleases(s1);
    events', s' := Extend(events', s', Spawn(2, Ack(0, ReadingState)));
    events', s' := Extend(events', s', Go(2));
    events', s' := Extend(events', s', Go(2));
    events', s' := Extend(events', s', Go(2));
    RowsToClear(s', released);
    events', s' := Extend(events', s', Go(1));
    events', s' := Extend(events', s', Go(1));
    events', s' := Extend(events', s', Go(1));
  }

  lemma AckReleases(s: System)
    requires s.procs.Keys == {0, 1} && s.w.db.migrations.Keys == {0} && StateOf(s.w, 0) == Some(COMMITTED)
    ensures var s4 := Next(Next(Next(Next(s, Spawn(2, Ack(0, ReadingState))), Go(2)), Go(2)), Go(2));
            && s4.w.db.agents == s.w.db.agents && s4.w.own == s.w.own && 1 in s4.procs && s4.procs[1] == s.procs[1]
            && s4.w.db.migrations == map[0 := s.w.db.migrations[0].(state := SOURCE_RELEASED, error := None)]
  {
    var m := s.w.db.migrations[0];
    var s1 := Next(s, Spawn(2, Ack(0, ReadingState)));
    var s2 := Next(s1, Go(2));
    assert s2 == System(s.w, s.procs[2 := Ack(0, Releasing(m))]);
    var s3 := Next(s2, Go(2));
    assert s3 == System(s.w, s.procs[2 := Ack(0, Closing(m))]);
  }

  lemma RowsToClear(s: System, m: Migration)
    requires 1 in s.procs && s.procs[1] == Restart(ReadingRows([0], [], {0}))
    requires s.w.db.migrations == map[0 := m] && m.state == SOURCE_RELEASED
    ensures var s3 := Next(Next(Next(s, Go(1)), Go(1)), Go(1));
            s3 == System(s.w, s.procs[1 := Restart(Clearing([Listed(0, m)], {0}, {}))])
  {
    var s1 := Next(s, Go(1));
    assert [0][1..] == [] && [] + [Listed(0, m)] == [Listed(0, m)];
    assert s1 == System(s.w, s.procs[1 := Restart(ReadingRows([], [Listed(0, m)], {0}))]);
    var s2 := Next(s1, Go(1));
    assert s2 == System(s.w, s.procs[1 := Restart(Visiting([Listed(0, m)], {0}, {}))]);
  }

  lemma ClearsHead(s: System)
    requires 1 in s.procs && 0 in s.w.db.migrations && s.w.db.migrations[0].state == SOURCE_RELEASED
    requires s.procs[1] == Restart(Clearing([Listed(0, s.w.db.migrations[0])], {0}, {}))
    ensures var w := Next(s, Go(1)).w;
            && w.db.migrations == s.w.db.migrations[0 := s.w.db.migrations[0].(state := ABORTED, error := None)]
            && w.db.agents == s.w.db.agents
            && w.own == s.w.own.(cleared := s.w.own.cleared[0 := SOURCE_RELEASED])
  {
  }

  /** Record 0 is ABORTED although ownership moved through it, and the agent's epoch is one more than its registered one
      although none of its records is COMMITTED, SOURCE_RELEASED or RECOVERED. */
  ghost predicate MovedButAborted(w: World, a: AgentId) {
    && StateOf(w, 0) == Some(ABORTED) && 0 in w.own.moves && w.own.moves[0] == 1
    && a in w.db.agents && a in w.own.registered
    && w.db.agents[a].ownerEpoch == w.own.registered[a].ownerEpoch + 1 && Accounted(w.db.migrations, a) == 0
  }

  /** A run from the empty tables that ends so. */
  lemma LateReadAbortsAMove(a: AgentId, row: Agent, destination: EngineId) returns (events: seq<Event>)
    requires destination != row.ownerEngine
    ensures MovedButAborted(Exec(events).w, a)
    ensures !NeverClearsLate(events) && !AbortsAreClean(Exec(events).w)
  {
    hide Exec, Reachable, Accounted;
    var s;
    events, s := FirstHandoff(a, row, destination);
    events, s := ReadsLate(events, s);
    ClearsHead(s);
    var before := s;
    hide Next;
    events, s := Extend(events, s, Go(1));
    ExecIsReachable(events);
    MovesMatchState(s.w, 0);
    CleanIff(events);
    ClearedIffLate(events);
    OnlyAborted(s.w, a);
  }

  lemma OnlyAborted(w: World, a: AgentId)
    requires w.db.migrations.Keys == {0} && w.db.migrations[0].state == ABORTED
    ensures Accounted(w.db.migrations, a) == 0
  {
    var ms := w.db.migrations;
    assert InState(ms, a, COMMITTED) == {} && InState(ms, a, SOURCE_RELEASED) == {} && InState(ms, a, RECOVERED) == {};
  }
}
