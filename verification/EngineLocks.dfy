/**
The engine locks around _migrate_serial: any number of migrate and progressive calls of
one coordinator, while leases move underneath.  Engines are numbered by their sorted order.
*/
module EngineLocks {
  type Pid = nat
  type AgentId = nat
  type Engine = nat

  datatype Lease = Lease(engine: Engine, epoch: int)

  /** Where a call is in its retry loop; `source` is the owner it read when it entered the loop body.  With both locks
      held the owner is read again (Locked), and the serial migration reads it once more for itself (Checked): `used` is
      what that last read gave. */
  datatype Phase =
    | ReadOwner
    | Acquiring(source: Engine, acquired: nat)
    | Locked(source: Engine)
    | Checked(source: Engine)
    | Serial(source: Engine, used: Engine)
    | Ended

  /** `firstEpoch` and `readEpoch` are the agent's epochs at the first and at the latest owner read of the loop. */
  datatype Call = Call(agent: AgentId, destination: Engine, phase: Phase, firstEpoch: int, readEpoch: int, retries: nat)

  datatype System = System(leases: map<AgentId, Lease>, locks: map<Engine, Pid>, calls: map<Pid, Call>)

  datatype Event =
    | Begin(pid: Pid, agent: AgentId, destination: Engine)
    | Advance(pid: Pid)
    | End(pid: Pid)
    | MoveLease(agent: AgentId, lease: Lease)

  function Min(x: Engine, y: Engine): Engine { if x < y then x else y }

  function Max(x: Engine, y: Engine): Engine { if x < y then y else x }

  /** The locks a call holds: none, the smaller, or both of its pair. */
  function Held(c: Call): set<Engine> {
    match c.phase
    case Acquiring(source, n) => if n == 0 then {} else {Min(source, c.destination)}
    case Locked(source) => {source, c.destination}
    case Checked(source) => {source, c.destination}
    case Serial(source, _) => {source, c.destination}
    case _ => {}
  }

  /** The lock an acquiring call asks for next. */
  function Wanted(c: Call): Engine
    requires c.phase.Acquiring?
  {
    if c.phase.acquired == 0 then Min(c.phase.source, c.destination) else Max(c.phase.source, c.destination)
  }

  function Release(s: System, pid: Pid, c: Call): System {
    s.(locks := map e | e in s.locks && s.locks[e] != pid :: s.locks[e], calls := s.calls[pid := c])
  }

  /** The loop head reads the owner and refuses a move of an agent to where it already is. */
  function ReadOwnerStep(s: System, pid: Pid, c: Call): System {
    if c.agent !in s.leases || s.leases[c.agent].engine == c.destination
    then s.(calls := s.calls[pid := c.(phase := Ended)])
    else
      var lease := s.leases[c.agent];
      s.(calls := s.calls[pid := c.(phase := Acquiring(lease.engine, 0), readEpoch := lease.epoch)])
  }

  function AcquireStep(s: System, pid: Pid, c: Call): System
    requires c.phase.Acquiring?
  {
    if Wanted(c) in s.locks then s
    else s.(locks := s.locks[Wanted(c) := pid],
            calls := s.calls[pid := c.(phase := if c.phase.acquired == 0 then Acquiring(c.phase.source, 1)
                                                else Locked(c.phase.source))])
  }

  /** With both locks held the owner is read again: go on, or release everything and retry. */
  function RecheckStep(s: System, pid: Pid, c: Call): System
    requires c.phase.Locked?
  {
    if c.agent in s.leases && s.leases[c.agent].engine == c.phase.source
    then s.(calls := s.calls[pid := c.(phase := Checked(c.phase.source), readEpoch := s.leases[c.agent].epoch)])
    else Release(s, pid, c.(phase := ReadOwner, retries := c.retries + 1))
  }

  /** The serial migration reads the owner for itself and goes on with that engine, unless it is the destination. */
  function SerialReadStep(s: System, pid: Pid, c: Call): System
    requires c.phase.Checked?
  {
    if c.agent in s.leases && s.leases[c.agent].engine != c.destination
    then s.(calls := s.calls[pid := c.(phase := Serial(c.phase.source, s.leases[c.agent].engine))])
    else Release(s, pid, c.(phase := Ended))
  }

  function ApplyAdvance(s: System, pid: Pid, c: Call): System {
    match c.phase
    case ReadOwner => ReadOwnerStep(s, pid, c)
    case Acquiring(_, _) => AcquireStep(s, pid, c)
    case Locked(_) => RecheckStep(s, pid, c)
    case Checked(_) => SerialReadStep(s, pid, c)
    case _ => s
  }

  function Apply(s: System, event: Event): System {
    match event
    case Begin(pid, a, d) =>
      if pid in s.calls || a !in s.leases then s
      else s.(calls := s.calls[pid := Call(a, d, ReadOwner, s.leases[a].epoch, s.leases[a].epoch, 0)])
    case Advance(pid) => if pid in s.calls then ApplyAdvance(s, pid, s.calls[pid]) else s
    case End(pid) =>
      if pid in s.calls then Release(s, pid, s.calls[pid].(phase := Ended)) else s
    case MoveLease(a, lease) =>
      if a in s.leases && s.leases[a].epoch < lease.epoch then s.(leases := s.leases[a := lease]) else s
  }

  ghost predicate CallOk(s: System, c: Call) {
    && c.agent in s.leases
    && c.firstEpoch + c.retries <= (if c.phase.Acquiring? || c.phase.Locked? then c.readEpoch
                                    else s.leases[c.agent].epoch)
    && c.readEpoch <= s.leases[c.agent].epoch
    && (c.phase.Acquiring? || c.phase.Locked? || c.phase.Checked? ==>
          && c.phase.source != c.destination
          && (c.readEpoch == s.leases[c.agent].epoch ==> s.leases[c.agent].engine == c.phase.source))
    && (c.phase.Serial? ==> c.phase.source != c.destination && c.phase.used != c.destination)
    && (c.phase.Acquiring? ==> c.phase.acquired <= 1)
  }

  ghost predicate Inv(s: System) {
    && (forall p :: p in s.calls ==> CallOk(s, s.calls[p]))
    && (forall e :: e in s.locks ==> s.locks[e] in s.calls && e in Held(s.calls[s.locks[e]]))
    && (forall p, e :: p in s.calls && e in Held(s.calls[p]) ==> e in s.locks && s.locks[e] == p)
  }

  lemma AcquireKeepsInv(s: System, pid: Pid)
    requires Inv(s) && pid in s.calls && s.calls[pid].phase.Acquiring?
    ensures Inv(AcquireStep(s, pid, s.calls[pid]))
  {
    var c := s.calls[pid];
    var s' := AcquireStep(s, pid, c);
    assert CallOk(s, c);
    if Wanted(c) !in s.locks {
      assert Held(s'.calls[pid]) == Held(c) + {Wanted(c)};
    }
  }

  /** A call may give all its locks back at any time. */
  lemma ReleaseKeepsInv(s: System, pid: Pid, c: Call)
    requires Inv(s) && pid in s.calls && Held(c) == {} && CallOk(s, c)
    ensures Inv(Release(s, pid, c))
  {
    hide CallOk;
    var s' := Release(s, pid, c);
    forall p | p in s'.calls ensures CallOk(s', s'.calls[p]) {
      SameLeasesOk(s, s', s'.calls[p]);
    }
  }

  lemma SameLeasesOk(s: System, s': System, c: Call)
    requires CallOk(s, c) && s'.leases == s.leases
    ensures CallOk(s', c)
  {
  }

  lemma RecheckKeepsInv(s: System, pid: Pid)
    requires Inv(s) && pid in s.calls && s.calls[pid].phase.Locked?
    ensures Inv(RecheckStep(s, pid, s.calls[pid]))
  {
    var c := s.calls[pid];
    assert CallOk(s, c);
    if !(c.agent in s.leases && s.leases[c.agent].engine == c.phase.source) {
      ReleaseKeepsInv(s, pid, c.(phase := ReadOwner, retries := c.retries + 1));
    }
    hide Release;
  }

  lemma SerialReadKeepsInv(s: System, pid: Pid)
    requires Inv(s) && pid in s.calls && s.calls[pid].phase.Checked?
    ensures Inv(SerialReadStep(s, pid, s.calls[pid]))
  {
    var c := s.calls[pid];
    assert CallOk(s, c);
    if !(c.agent in s.leases && s.leases[c.agent].engine != c.destination) {
      ReleaseKeepsInv(s, pid, c.(phase := Ended));
    }
    hide Release;
  }

  lemma AdvanceKeepsInv(s: System, pid: Pid)
    requires Inv(s) && pid in s.calls
    ensures Inv(ApplyAdvance(s, pid, s.calls[pid]))
  {
    hide AcquireStep, RecheckStep, SerialReadStep;
    if s.calls[pid].phase.Acquiring? {
      AcquireKeepsInv(s, pid);
    } else if s.calls[pid].phase.Checked? {
      SerialReadKeepsInv(s, pid);
    } else if s.calls[pid].phase.Locked? {
      RecheckKeepsInv(s, pid);
    } else {
      assert CallOk(s, s.calls[pid]);
    }
  }

  lemma ApplyKeepsInv(s: System, event: Event)
    requires Inv(s)
    ensures Inv(Apply(s, event))
  {
    hide ApplyAdvance;
    if event.Advance? && event.pid in s.calls {
      AdvanceKeepsInv(s, event.pid);
    }
  }

  function Exec(s: System, events: seq<Event>): System
    decreases |events|
  {
    if events == [] then s else Apply(Exec(s, events[..|events|-1]), events[|events|-1])
  }

  /** Every sequence of events, starting from no call and no lock, keeps the invariant. */
  lemma {:induction false} InvAlways(leases: map<AgentId, Lease>, events: seq<Event>)
    ensures Inv(Exec(System(leases, map[], map[]), events))
    decreases |events|
  {
    hide Apply;
    if events != [] {
      InvAlways(leases, events[..|events|-1]);
      ApplyKeepsInv(Exec(System(leases, map[], map[]), events[..|events|-1]), events[|events|-1]);
    }
  }

  /** The engines that a serial migration copies between. */
  function Used(c: Call): set<Engine>
    requires c.phase.Serial?
  {
    {c.phase.used, c.destination}
  }

  /** At its own read a serial migration finds the source that it locked if and only if the agent is still there. */
  lemma CheckedReadIff(s: System, p: Pid)
    requires Inv(s) && p in s.calls && s.calls[p].phase.Checked?
    ensures var c, after := s.calls[p], Apply(s, Advance(p)).calls;
            && c.agent in s.leases && p in after
            && (after[p].phase == Serial(c.phase.source, c.phase.source) <==>
                  s.leases[c.agent].engine == c.phase.source)
            && (s.leases[c.agent].epoch == c.readEpoch ==> s.leases[c.agent].engine == c.phase.source)
  {
    assert CallOk(s, s.calls[p]);
  }

  // ---- which engines the serial migrations of a run use ----

  /** Every serial migration copies between the two engines that it locked. */
  ghost predicate UsesLocks(s: System) {
    forall p :: p in s.calls && s.calls[p].phase.Serial? ==> Used(s.calls[p]) == Held(s.calls[p])
  }

  /** The event is the own read of a serial migration whose agent has been moved away from the source that it locked. */
  predicate ReadsMoved(s: System, e: Event) {
    && e.Advance? && e.pid in s.calls && s.calls[e.pid].phase.Checked?
    && var c := s.calls[e.pid];
       c.agent in s.leases && s.leases[c.agent].engine != c.phase.source && s.leases[c.agent].engine != c.destination
  }

  lemma UsesLocksStep(s: System, e: Event)
    requires Inv(s) && UsesLocks(s)
    ensures UsesLocks(Apply(s, e)) <==> !ReadsMoved(s, e)
  {
    var s' := Apply(s, e);
    if e.Advance? && e.pid in s.calls && s.calls[e.pid].phase.Checked? {
      var c := s.calls[e.pid];
      assert CallOk(s, c);
      if s'.calls[e.pid].phase.Serial? {
        assert s'.calls[e.pid].phase.used in Used(s'.calls[e.pid]);
        assert Held(s'.calls[e.pid]) == {c.phase.source, c.destination};
      }
    }
  }

  /** The system after the first `n` events. */
  function At(start: System, events: seq<Event>, n: nat): System
    requires n <= |events|
  {
    Exec(start, events[..n])
  }

  ghost predicate AlwaysUsesLocks(start: System, events: seq<Event>) {
    forall n: nat :: n <= |events| ==> UsesLocks(At(start, events, n))
  }

  ghost predicate NeverReadsMoved(start: System, events: seq<Event>) {
    forall n: nat :: n < |events| ==> !ReadsMoved(At(start, events, n), events[n])
  }

  /** Over a run all serial migrations always copy between the engines they locked if and only if none of them ever
      reads its owner after the agent was moved. */
  lemma {:induction false} AlwaysUsesLocksIff(leases: map<AgentId, Lease>, events: seq<Event>)
    ensures var start := System(leases, map[], map[]);
            AlwaysUsesLocks(start, events) <==> NeverReadsMoved(start, events)
    decreases |events|
  {
    hide Apply, ReadsMoved, Inv;
    var start := System(leases, map[], map[]);
    if events == [] {
      assert forall n: nat :: n <= |events| ==> At(start, events, n) == start;
    } else {
      var k := |events| - 1;
      var front := events[..k];
      AlwaysUsesLocksIff(leases, front);
      InvAlways(leases, front);
      SplitUses(start, events);
      SplitReads(start, events);
      if AlwaysUsesLocks(start, front) {
        AtEnd(start, front);
        assert UsesLocks(At(start, front, k));
        UsesLocksStep(Exec(start, front), events[k]);
      }
    }
  }

  lemma AtFront(start: System, events: seq<Event>, k: nat)
    requires k <= |events|
    ensures forall n: nat :: n <= k ==> At(start, events[..k], n) == At(start, events, n)
    ensures At(start, events[..k], k) == Exec(start, events[..k])
  {
    hide Exec;
    forall n: nat | n <= k ensures At(start, events[..k], n) == At(start, events, n) {
      assert events[..k][..n] == events[..n];
    }
    assert events[..k][..k] == events[..k];
  }

  lemma AtEnd(start: System, events: seq<Event>)
    ensures At(start, events, |events|) == Exec(start, events)
  {
    hide Exec;
    assert events[..|events|] == events;
  }

  lemma SplitUses(start: System, events: seq<Event>)
    requires events != []
    ensures AlwaysUsesLocks(start, events) <==>
              AlwaysUsesLocks(start, events[..|events|-1]) && UsesLocks(Exec(start, events))
  {
    hide Exec, UsesLocks, At;
    AtFront(start, events, |events| - 1);
    AtEnd(start, events);
  }

  lemma SplitReads(start: System, events: seq<Event>)
    requires events != []
    ensures var k := |events| - 1;
            NeverReadsMoved(start, events) <==>
              NeverReadsMoved(start, events[..k]) && !ReadsMoved(Exec(start, events[..k]), events[k])
  {
    hide Exec, ReadsMoved, At;
    AtFront(start, events, |events| - 1);
  }

  /** No lease is moved while a call of its agent stands between its check and its own read. */
  ghost predicate NeverMovesChecked(start: System, events: seq<Event>) {
    forall n: nat, p :: n < |events| && p in At(start, events, n).calls ==>
      !MovesChecked(At(start, events, n), events[n], p)
  }

  predicate MovesChecked(s: System, e: Event, p: Pid) {
    e.MoveLease? && p in s.calls && s.calls[p].phase.Checked? && s.calls[p].agent == e.agent
  }

  ghost predicate CheckedAtSource(s: System) {
    forall p :: p in s.calls && s.calls[p].phase.Checked? ==>
      s.calls[p].agent in s.leases && s.leases[s.calls[p].agent].engine == s.calls[p].phase.source
  }

  lemma CheckedAtSourceStep(s: System, e: Event)
    requires CheckedAtSource(s) && forall p :: p in s.calls ==> !MovesChecked(s, e, p)
    ensures !ReadsMoved(s, e) && CheckedAtSource(Apply(s, e))
  {
    var s' := Apply(s, e);
    forall p | p in s'.calls && s'.calls[p].phase.Checked?
      ensures s'.calls[p].agent in s'.leases && s'.leases[s'.calls[p].agent].engine == s'.calls[p].phase.source
    {
      assert p in s.calls && !MovesChecked(s, e, p);
    }
  }

  /** A run that never moves a checked agent's lease never reads a moved one. */
  lemma {:induction false} UnmovedIsReadUnmoved(leases: map<AgentId, Lease>, events: seq<Event>)
    requires NeverMovesChecked(System(leases, map[], map[]), events)
    ensures NeverReadsMoved(System(leases, map[], map[]), events)
    ensures CheckedAtSource(Exec(System(leases, map[], map[]), events))
    decreases |events|
  {
    hide Apply, ReadsMoved, MovesChecked, AlwaysUsesLocks, At;
    var start := System(leases, map[], map[]);
    if events != [] {
      var k := |events| - 1;
      var front := events[..k];
      AtFront(start, events, k);
      assert NeverMovesChecked(start, front);
      UnmovedIsReadUnmoved(leases, front);
      CheckedAtSourceStep(Exec(start, front), events[k]);
      SplitReads(start, events);
    }
  }

  /** In a run whose serial migrations never read a moved agent, those in flight use pairwise disjoint engines. */
  lemma SerialsUseDisjointEngines(leases: map<AgentId, Lease>, events: seq<Event>, p: Pid, q: Pid)
    requires NeverReadsMoved(System(leases, map[], map[]), events)
    requires var calls := Exec(System(leases, map[], map[]), events).calls;
             p in calls && q in calls && p != q && calls[p].phase.Serial? && calls[q].phase.Serial?
    ensures var calls := Exec(System(leases, map[], map[]), events).calls;
            Used(calls[p]) !! Used(calls[q])
  {
    hide Exec, NeverReadsMoved, At;
    var start := System(leases, map[], map[]);
    var s := Exec(start, events);
    InvAlways(leases, events);
    AlwaysUsesLocksIff(leases, events);
    AtEnd(start, events);
    assert UsesLocks(At(start, events, |events|));
    assert forall e :: e in Held(s.calls[p]) ==> s.locks[e] == p;
    assert forall e :: e in Held(s.calls[q]) ==> s.locks[e] == q;
  }

  /** So do those of a run that never moves a lease between a call's check and its own read. */
  lemma UnmovedSerialsAreDisjoint(leases: map<AgentId, Lease>, events: seq<Event>, p: Pid, q: Pid)
    requires NeverMovesChecked(System(leases, map[], map[]), events)
    requires var calls := Exec(System(leases, map[], map[]), events).calls;
             p in calls && q in calls && p != q && calls[p].phase.Serial? && calls[q].phase.Serial?
    ensures var calls := Exec(System(leases, map[], map[]), events).calls;
            Used(calls[p]) !! Used(calls[q])
  {
    hide Exec, NeverReadsMoved, NeverMovesChecked;
    UnmovedIsReadUnmoved(leases, events);
    SerialsUseDisjointEngines(leases, events, p, q);
  }

  lemma Then(start: System, events: seq<Event>, s: System, event: Event) returns (events': seq<Event>, s': System)
    requires s == Exec(start, events)
    ensures events' == events + [event] && s' == Apply(s, event) && s' == Exec(start, events')
  {
    events', s' := events + [event], Apply(s, event);
    assert events'[..|events|] == events;
  }

  /** Nobody holds the two engines that a fresh call `q` of agent `b` from `x` to `d` needs. */
  predicate CanRun(s: System, q: Pid, b: AgentId, x: Engine, d: Engine) {
    q !in s.calls && b in s.leases && s.leases[b].engine == x && x != d && x !in s.locks && d !in s.locks
  }

  /** A call at the head of its loop goes through to its copy when both its engines are unlocked. */
  lemma GoesThrough(start: System, events: seq<Event>, s: System, q: Pid) returns (events': seq<Event>, s': System)
    requires s == Exec(start, events) && AtHead(s, q)
    ensures events <= events' && s' == Exec(start, events') && WentThrough(s, s', q)
  {
    hide Exec;
    var c := s.calls[q];
    var x, t := s.leases[c.agent].engine, s.leases[c.agent].epoch;
    events', s' := Then(start, events, s, Advance(q));
    assert s'.calls[q] == c.(phase := Acquiring(x, 0), readEpoch := t);
    events', s' := Then(start, events', s', Advance(q));
    assert s'.calls[q] == c.(phase := Acquiring(x, 1), readEpoch := t);
    events', s' := Then(start, events', s', Advance(q));
    assert s'.calls[q] == c.(phase := Locked(x), readEpoch := t);
    events', s' := Then(start, events', s', Advance(q));
    assert s'.calls[q] == c.(phase := Checked(x), readEpoch := t);
    events', s' := Then(start, events', s', Advance(q));
  }

  /** The call reads its owner next, and both engines that it then needs are unlocked. */
  predicate AtHead(s: System, q: Pid) {
    && q in s.calls && s.calls[q].phase.ReadOwner? && s.calls[q].agent in s.leases
    && var x, d := s.leases[s.calls[q].agent].engine, s.calls[q].destination;
       x != d && x !in s.locks && d !in s.locks
  }

  /** It copies from its agent's engine to its destination. */
  predicate WentThrough(s: System, s': System, q: Pid) {
    && q in s.calls && s.calls[q].agent in s.leases
    && var c, lease := s.calls[q], s.leases[s.calls[q].agent];
       s'.calls == s.calls[q := c.(phase := Serial(lease.engine, lease.engine), readEpoch := lease.epoch)]
  }

  /** A call that finds its agent moved when it holds both locks gives them back and starts over, and then copies from
      where the agent is. */
  lemma MovedCallStartsOver(start: System, events: seq<Event>, s: System, p: Pid)
    returns (events': seq<Event>, s': System)
    requires s == Exec(start, events) && Inv(s) && MovedUnderLocks(s, p)
    ensures events <= events' && s' == Exec(start, events') && Moved(s, s', p)
  {
    hide Exec;
    var c := s.calls[p];
    var events1, s1 := Then(start, events, s, Advance(p));
    assert s1.calls == s.calls[p := c.(phase := ReadOwner, retries := c.retries + 1)];
    assert c.destination in Held(c);
    events', s' := GoesThrough(start, events1, s1, p);
  }

  /** The call holds its locks, and its agent has been moved to an engine that nobody else has locked. */
  predicate MovedUnderLocks(s: System, p: Pid) {
    && p in s.calls && s.calls[p].phase.Locked? && s.calls[p].agent in s.leases
    && var x := s.leases[s.calls[p].agent].engine;
       x != s.calls[p].phase.source && x != s.calls[p].destination && x !in s.locks
  }

  predicate Moved(s: System, s': System, p: Pid) {
    && p in s.calls && s.calls[p].agent in s.leases && p in s'.calls
    && s'.calls[p].phase == Serial(s.leases[s.calls[p].agent].engine, s.leases[s.calls[p].agent].engine)
    && s'.calls[p].retries == s.calls[p].retries + 1
  }

  /** A fresh call goes through to its copy when both its engines are unlocked. */
  lemma RunsThrough(start: System, events: seq<Event>, s: System, q: Pid, b: AgentId, x: Engine, d: Engine)
    returns (events': seq<Event>, s': System)
    requires s == Exec(start, events) && CanRun(s, q, b, x, d)
    ensures events <= events' && s' == Exec(start, events')
    ensures s'.calls == s.calls[q := Call(b, d, Serial(x, x), s.leases[b].epoch, s.leases[b].epoch, 0)]
  {
    hide Exec;
    var events1, s1 := Then(start, events, s, Begin(q, b, d));
    events', s' := GoesThrough(start, events1, s1, q);
  }

  /** Between its check and its own read, the call's agent has been moved to an engine that is neither of its own. */
  predicate MovedTo(s: System, p: Pid, x: Engine) {
    && p in s.calls && s.calls[p].phase.Checked?
    && var c := s.calls[p];
       c.agent in s.leases && s.leases[c.agent].engine == x && x != c.phase.source && x != c.destination
  }

  /** The call is copying from engine `x`. */
  predicate CopiesFrom(s: System, p: Pid, x: Engine) {
    p in s.calls && s.calls[p].phase.Serial? && s.calls[p].phase.used == x
  }

  /** Whenever a checked call's agent has been moved to an unlocked engine other than its destination, the run goes on
      to two serial migrations in flight that both copy from that engine. */
  lemma MovedLeaseSharesAnEngine(start: System, events: seq<Event>, p: Pid, x: Engine, q: Pid, b: AgentId, d: Engine)
    returns (events': seq<Event>)
    requires MovedTo(Exec(start, events), p, x) && CanRun(Exec(start, events), q, b, x, d)
    ensures events <= events'
    ensures CopiesFrom(Exec(start, events'), p, x) && CopiesFrom(Exec(start, events'), q, x) && p != q
  {
    hide Exec;
    var s := Exec(start, events);
    var events1, s1 := Then(start, events, s, Advance(p));
    var s2;
    events', s2 := RunsThrough(start, events1, s1, q, b, x, d);
  }

  /** Such a run: agents 0 and 1 start on engines 0 and 2, and agent 0 is moved to engine 2 after its call's check. */
  lemma CheckedCallIsMoved() returns (leases: map<AgentId, Lease>, events: seq<Event>)
    ensures MovedTo(Exec(System(leases, map[], map[]), events), 0, 2)
    ensures CanRun(Exec(System(leases, map[], map[]), events), 1, 1, 2, 3)
  {
    hide Exec;
    leases := map[0 := Lease(0, 0), 1 := Lease(2, 0)];
    var start := System(leases, map[], map[]);
    var s := start;
    events := [];
    Nothing(start);
    events, s := Then(start, events, s, Begin(0, 0, 1));
    assert s.calls[0] == Call(0, 1, ReadOwner, 0, 0, 0);
    events, s := Then(start, events, s, Advance(0));
    assert s.calls[0] == Call(0, 1, Acquiring(0, 0), 0, 0, 0);
    events, s := Then(start, events, s, Advance(0));
    assert s.calls[0] == Call(0, 1, Acquiring(0, 1), 0, 0, 0);
    events, s := Then(start, events, s, Advance(0));
    assert s.calls[0] == Call(0, 1, Locked(0), 0, 0, 0);
    events, s := Then(start, events, s, Advance(0));
    assert s.calls[0] == Call(0, 1, Checked(0), 0, 0, 0);
    events, s := Then(start, events, s, MoveLease(0, Lease(2, 1)));
  }

  lemma Nothing(s: System)
    ensures Exec(s, []) == s
  {
  }

  /** Call `p` waits for a lock that call `q` holds. */
  ghost predicate WaitsFor(s: System, p: Pid, q: Pid) {
    && p in s.calls && s.calls[p].phase.Acquiring?
    && Wanted(s.calls[p]) in s.locks && s.locks[Wanted(s.calls[p])] == q
  }

  /** Locks are taken in sorted order, so along a chain of waiting calls the wanted locks rise. */
  lemma WaitingRises(s: System, p: Pid, q: Pid)
    requires Inv(s) && WaitsFor(s, p, q) && q in s.calls && s.calls[q].phase.Acquiring?
    ensures Wanted(s.calls[p]) < Wanted(s.calls[q])
  {
    assert Wanted(s.calls[p]) in Held(s.calls[q]);
    assert CallOk(s, s.calls[q]);
  }

  /** No chain of calls waiting for one another closes to a cycle. */
  lemma NoWaitCycle(s: System, chain: seq<Pid>)
    requires Inv(s) && |chain| > 0
    requires forall i :: 0 <= i < |chain| - 1 ==> WaitsFor(s, chain[i], chain[i+1])
    ensures !WaitsFor(s, chain[|chain|-1], chain[0])
  {
    var n := |chain|;
    if WaitsFor(s, chain[n-1], chain[0]) {
      if n > 1 {
        RisesAlong(s, chain, n - 1);
      }
      WaitingRises(s, chain[n-1], chain[0]);
      assert false;
    }
  }

  lemma {:induction false} RisesAlong(s: System, chain: seq<Pid>, k: nat)
    requires Inv(s) && 0 < k < |chain|
    requires forall i :: 0 <= i < |chain| - 1 ==> WaitsFor(s, chain[i], chain[i+1])
    requires chain[|chain|-1] in s.calls && s.calls[chain[|chain|-1]].phase.Acquiring?
    ensures forall i :: 0 <= i < |chain| ==> chain[i] in s.calls && s.calls[chain[i]].phase.Acquiring?
    ensures Wanted(s.calls[chain[0]]) < Wanted(s.calls[chain[k]])
  {
    forall i | 0 <= i < |chain| ensures chain[i] in s.calls && s.calls[chain[i]].phase.Acquiring? {
      assert i < |chain| - 1 ==> WaitsFor(s, chain[i], chain[i+1]);
    }
    assert WaitsFor(s, chain[k-1], chain[k]);
    WaitingRises(s, chain[k-1], chain[k]);
    if k > 1 {
      RisesAlong(s, chain, k - 1);
    }
  }

  /** The call is inside its critical section, or the lock it asks for is free. */
  predicate CanProceed(s: System, p: Pid) {
    && p in s.calls
    && var c := s.calls[p];
       c.phase.Locked? || c.phase.Checked? || c.phase.Serial? || (c.phase.Acquiring? && Wanted(c) !in s.locks)
  }

  /** Behind every waiting call there is one that can proceed, so the system never deadlocks. */
  lemma {:induction false} WaitersHaveARunner(s: System, p: Pid, engines: nat) returns (runner: Pid)
    requires Inv(s) && p in s.calls && s.calls[p].phase.Acquiring? && Wanted(s.calls[p]) in s.locks
    requires forall e :: e in s.locks ==> e < engines
    ensures CanProceed(s, runner)
    decreases engines - Wanted(s.calls[p])
  {
    var q := s.locks[Wanted(s.calls[p])];
    assert WaitsFor(s, p, q);
    if s.calls[q].phase.Acquiring? {
      WaitingRises(s, p, q);
      if Wanted(s.calls[q]) in s.locks {
        runner := WaitersHaveARunner(s, q, engines);
      } else {
        runner := q;
      }
    } else {
      runner := q;
    }
  }

  /** A call retries at most as often as its agent's epoch rose since the call began. */
  lemma RetriesAreBounded(leases: map<AgentId, Lease>, events: seq<Event>, p: Pid)
    requires p in Exec(System(leases, map[], map[]), events).calls
    ensures var s := Exec(System(leases, map[], map[]), events);
            && s.calls[p].agent in s.leases
            && s.calls[p].retries <= s.leases[s.calls[p].agent].epoch - s.calls[p].firstEpoch
  {
    hide Exec, Apply;
    InvAlways(leases, events);
    var s := Exec(System(leases, map[], map[]), events);
    assert CallOk(s, s.calls[p]);
  }

  // ---- transfer ports ----

  /** The first port of an ordered pair's block, as _ensure_group numbers the pairs of `engines` engines. */
  function FirstPort(basePort: int, tpSize: nat, engines: nat, source: Engine, destination: Engine): int {
    var slot := if destination < source then destination else destination - 1;
    basePort + (source * (engines - 1) + slot) * tpSize
  }

  /** Different ordered pairs never share a port. */
  lemma PortBlocksAreDisjoint(basePort: int, tpSize: nat, engines: nat, s: Engine, d: Engine, s': Engine, d': Engine,
                              rank: nat, rank': nat)
    requires s < engines && d < engines && s != d && s' < engines && d' < engines && s' != d'
    requires (s, d) != (s', d') && rank < tpSize && rank' < tpSize
    ensures FirstPort(basePort, tpSize, engines, s, d) + rank != FirstPort(basePort, tpSize, engines, s', d') + rank'
  {
    var slot := if d < s then d else d - 1;
    var slot' := if d' < s' then d' else d' - 1;
    BlocksDiffer(s, slot, s', slot', engines - 1);
    BlocksDiffer(s * (engines - 1) + slot, rank, s' * (engines - 1) + slot', rank', tpSize);
  }

  /** A number is written as quotient and remainder in one way only. */
  lemma BlocksDiffer(q: int, r: nat, q': int, r': nat, size: nat)
    requires r < size && r' < size && (q != q' || r != r')
    ensures q * size + r != q' * size + r'
  {
    if q != q' {
      Spread(q, q', size);
    }
  }

  lemma Spread(q: int, q': int, size: nat)
    requires q != q'
    ensures q * size - q' * size >= size || q' * size - q * size >= size
  {
    if q < q' {
      MulAtLeast(q' - q, size);
      assert (q' - q) * size == q' * size - q * size;
    } else {
      MulAtLeast(q - q', size);
      assert (q - q') * size == q * size - q' * size;
    }
  }

  lemma {:induction false} MulAtLeast(n: int, size: nat)
    requires n >= 1
    ensures n * size >= size
  {
    if n > 1 {
      MulAtLeast(n - 1, size);
      assert n * size == (n - 1) * size + size;
    }
  }
}
