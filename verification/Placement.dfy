/**
CostBenefitPlacementPolicy: which blocked agents to hand off, and where.  Seconds, scores
and pressures are exact reals.
*/
module Placement {
  import opened Wrappers
  import opened Sorting

  type AgentId = nat
  type EngineId = nat

  datatype Load = Load(
    engine: EngineId, queueDepth: int, freeKvTokens: int, activeRequests: int, kvPressure: real, freeSnapshots: int)

  /** A state component's footprint; there are no negative ones. */
  datatype Component = Component(tokenSlots: nat, snapshotSlots: nat)

  datatype Candidate = Candidate(
    agent: AgentId, source: EngineId, prefixTokens: int, kvBytes: int, gapSeconds: real, recomputeSeconds: real,
    serviceSeconds: real, unknownEffect: bool, stateBytes: Option<int>, descriptor: Option<seq<Component>>)

  datatype Move = Move(
    agent: AgentId, source: EngineId, destination: EngineId, score: real, copySeconds: real, exposedSeconds: real,
    queueReliefSeconds: real, recomputeSavedSeconds: real, hbmReliefGibSeconds: real, interferenceSeconds: real)

  datatype Policy = Policy(
    bandwidth: real, fixedCopySeconds: real, acceptableExposureSeconds: real, recomputeWeight: real, hbmWeight: real,
    interferenceWeight: real, exposureWeight: real, maxConcurrent: int)
  {
    /** What the constructor accepts. */
    predicate Valid() { bandwidth > 0.0 && maxConcurrent > 0 }
  }

  datatype Verdict = Skip | Scored(move: Move) | MissingSource

  function TokenSlots(d: seq<Component>): nat {
    if d == [] then 0 else d[0].tokenSlots + TokenSlots(d[1..])
  }

  function SnapshotSlots(d: seq<Component>): nat {
    if d == [] then 0 else d[0].snapshotSlots + SnapshotSlots(d[1..])
  }

  function RequiredTokens(c: Candidate): int {
    if c.descriptor.Some? then TokenSlots(c.descriptor.value) else c.prefixTokens
  }

  function RequiredSnapshots(c: Candidate): int {
    if c.descriptor.Some? then SnapshotSlots(c.descriptor.value) else 0
  }

  function PayloadBytes(c: Candidate): int {
    if c.stateBytes.Some? then c.stateBytes.value else c.kvBytes
  }

  function Positive(x: real): real { if x > 0.0 then x else 0.0 }

  function Score(p: Policy, c: Candidate, d: Load, loads: map<EngineId, Load>): Verdict
    requires p.Valid()
  {
    if c.unknownEffect || d.engine == c.source then Skip
    else if d.freeKvTokens < RequiredTokens(c) || d.freeSnapshots < RequiredSnapshots(c) then Skip
    else if c.source !in loads then MissingSource
    else
      var source := loads[c.source];
      var copySeconds := p.fixedCopySeconds + PayloadBytes(c) as real / p.bandwidth;
      var exposed := Positive(copySeconds - c.gapSeconds);
      if exposed > p.acceptableExposureSeconds then Skip
      else
        var queueDelta := if source.queueDepth > d.queueDepth then source.queueDepth - d.queueDepth else 0;
        var queueRelief := queueDelta as real * c.serviceSeconds;
        var hbmRelief :=
          PayloadBytes(c) as real / 1073741824.0 * c.gapSeconds * Positive(source.kvPressure - d.kvPressure);
        if queueRelief == 0.0 && hbmRelief == 0.0 then Skip
        else
          var interference := copySeconds * (1 + source.activeRequests + d.activeRequests) as real;
          Scored(Move(c.agent, c.source, d.engine,
                      queueRelief + p.recomputeWeight * c.recomputeSeconds + p.hbmWeight * hbmRelief
                        - p.interferenceWeight * interference - p.exposureWeight * exposed,
                      copySeconds, exposed, queueRelief, c.recomputeSeconds, hbmRelief, interference))
  }

  /** A dict built from a list: of equal keys the last wins. */
  function LoadMap(loads: seq<Load>): (m: map<EngineId, Load>)
    ensures forall e :: e in m <==> exists l :: l in loads && l.engine == e
  {
    if loads == [] then map[] else LoadMap(loads[..|loads|-1])[loads[|loads|-1].engine := loads[|loads|-1]]
  }

  function CandidateMap(candidates: seq<Candidate>): (m: map<AgentId, Candidate>)
    ensures forall c :: c in candidates ==> c.agent in m
  {
    if candidates == [] then map[]
    else CandidateMap(candidates[..|candidates|-1])[candidates[|candidates|-1].agent := candidates[|candidates|-1]]
  }

  predicate Allowed(d: Load, allowed: Option<set<EngineId>>) {
    allowed.None? || d.engine in allowed.value
  }

  predicate ByScoreDescending(x: Move, y: Move) { x.score >= y.score }

  /** The positively scored moves of one candidate to the first n loads. */
  function MovesOf(p: Policy, c: Candidate, loads: seq<Load>, n: nat, table: map<EngineId, Load>,
                   allowed: Option<set<EngineId>>): Result<seq<Move>, ()>
    requires p.Valid() && n <= |loads|
  {
    if n == 0 then Ok([])
    else
      var before := MovesOf(p, c, loads, n - 1, table, allowed);
      if before.Err? || !Allowed(loads[n-1], allowed) then before
      else match Score(p, c, loads[n-1], table)
           case Skip => before
           case MissingSource => Err(())
           case Scored(move) => if move.score > 0.0 then Ok(before.value + [move]) else before
  }

  function AllMoves(p: Policy, candidates: seq<Candidate>, k: nat, loads: seq<Load>, table: map<EngineId, Load>,
                    allowed: Option<set<EngineId>>): Result<seq<Move>, ()>
    requires p.Valid() && k <= |candidates|
  {
    if k == 0 then Ok([])
    else
      var before := AllMoves(p, candidates, k - 1, loads, table, allowed);
      var more := MovesOf(p, candidates[k-1], loads, |loads|, table, allowed);
      if before.Err? || more.Err? then Err(()) else Ok(before.value + more.value)
  }

  /** What the selection loop carries along. */
  datatype Book = Book(agents: set<AgentId>, engines: set<EngineId>, reserved: map<EngineId, int>)

  predicate Takes(m: Move, book: Book, byId: map<AgentId, Candidate>, table: map<EngineId, Load>)
    requires m.agent in byId && m.destination in table && m.destination in book.reserved
  {
    && m.agent !in book.agents && m.source !in book.engines && m.destination !in book.engines
    && book.reserved[m.destination] + RequiredTokens(byId[m.agent]) <= table[m.destination].freeKvTokens
  }

  function Entered(m: Move, book: Book, byId: map<AgentId, Candidate>): Book
    requires m.agent in byId && m.destination in book.reserved
  {
    Book(book.agents + {m.agent}, book.engines + {m.source, m.destination},
         book.reserved[m.destination := book.reserved[m.destination] + RequiredTokens(byId[m.agent])])
  }

  ghost predicate Known(ranked: seq<Move>, byId: map<AgentId, Candidate>, table: map<EngineId, Load>,
                        reserved: map<EngineId, int>)
  {
    forall m :: m in ranked ==> m.agent in byId && m.destination in table && m.destination in reserved
  }

  /** The moves the loop selects from `ranked` with `room` places left. */
  function Pick(ranked: seq<Move>, room: int, book: Book, byId: map<AgentId, Candidate>,
                table: map<EngineId, Load>): seq<Move>
    requires Known(ranked, byId, table, book.reserved)
  {
    if ranked == [] || room <= 0 then []
    else if Takes(ranked[0], book, byId, table) then
      [ranked[0]] + Pick(ranked[1..], room - 1, Entered(ranked[0], book, byId), byId, table)
    else Pick(ranked[1..], room, book, byId, table)
  }

  function NoReservations(loads: seq<Load>): map<EngineId, int> {
    map l | l in loads :: l.engine := 0
  }

  /** `select`, or None when a candidate to be scored is on an engine without a load. */
  function Selection(p: Policy, candidates: seq<Candidate>, loads: seq<Load>,
                     allowed: Option<set<EngineId>>): Option<seq<Move>>
    requires p.Valid()
  {
    var table := LoadMap(loads);
    var moves := AllMoves(p, candidates, |candidates|, loads, table, allowed);
    if moves.Err? then None
    else
      var ranked := Sort(moves.value, ByScoreDescending);
      RankedIsKnown(p, candidates, loads, allowed);
      Some(Pick(ranked, p.maxConcurrent, Book({}, {}, NoReservations(loads)), CandidateMap(candidates), table))
  }

  method Select(p: Policy, candidates: seq<Candidate>, loads: seq<Load>, allowed: Option<set<EngineId>>)
    returns (selected: Option<seq<Move>>)
    requires p.Valid()
    ensures selected == Selection(p, candidates, loads, allowed)
  {
    var table := LoadMap(loads);
    var ranked := RankMoves(p, candidates, loads, table, allowed);
    if ranked.None? {
      return None;
    }
    RankedIsKnown(p, candidates, loads, allowed);
    var picked := PickMoves(Sort(ranked.value, ByScoreDescending), p.maxConcurrent, CandidateMap(candidates), table,
                            NoReservations(loads));
    selected := Some(picked);
  }

  /** The scoring loops of `select`. */
  method RankMoves(p: Policy, candidates: seq<Candidate>, loads: seq<Load>, table: map<EngineId, Load>,
                   allowed: Option<set<EngineId>>)
    returns (ranked: Option<seq<Move>>)
    requires p.Valid()
    ensures var all := AllMoves(p, candidates, |candidates|, loads, table, allowed);
            if all.Ok? then ranked == Some(all.value) else ranked == None
  {
    var moves: seq<Move> := [];
    for k := 0 to |candidates|
      invariant AllMoves(p, candidates, k, loads, table, allowed) == Ok(moves)
    {
      ghost var before := moves;
      for n := 0 to |loads|
        invariant var more := MovesOf(p, candidates[k], loads, n, table, allowed);
                  more.Ok? && moves == before + more.value
      {
        if Allowed(loads[n], allowed) {
          var verdict := Score(p, candidates[k], loads[n], table);
          if verdict.MissingSource? {
            MissingSourceFails(p, candidates, k, loads, n + 1, table, allowed);
            return None;
          }
          if verdict.Scored? && verdict.move.score > 0.0 {
            moves := moves + [verdict.move];
          }
        }
      }
    }
    ranked := Some(moves);
  }

  /** The selection loop of `select`. */
  method PickMoves(ranked: seq<Move>, room: int, byId: map<AgentId, Candidate>, table: map<EngineId, Load>,
                   reservations: map<EngineId, int>)
    returns (picked: seq<Move>)
    requires Known(ranked, byId, table, reservations)
    ensures picked == Pick(ranked, room, Book({}, {}, reservations), byId, table)
  {
    var book := Book({}, {}, reservations);
    ghost var whole := Pick(ranked, room, book, byId, table);
    picked := [];
    var i := 0;
    while i < |ranked| && |picked| < room
      invariant 0 <= i <= |ranked| && Known(ranked, byId, table, book.reserved)
      invariant whole == picked + Pick(ranked[i..], room - |picked|, book, byId, table)
    {
      var m := ranked[i];
      assert ranked[i..][0] == m && ranked[i..][1..] == ranked[i+1..];
      if Takes(m, book, byId, table) {
        picked := picked + [m];
        book := Entered(m, book, byId);
      }
      i := i + 1;
    }
  }

  lemma {:induction false} ErrorStays(p: Policy, c: Candidate, loads: seq<Load>, n: nat, m: nat,
                                      table: map<EngineId, Load>,
                                      allowed: Option<set<EngineId>>)
    requires p.Valid() && n <= m <= |loads| && MovesOf(p, c, loads, n, table, allowed).Err?
    ensures MovesOf(p, c, loads, m, table, allowed).Err?
    decreases m
  {
    if n < m {
      ErrorStays(p, c, loads, n, m - 1, table, allowed);
    }
  }

  lemma {:induction false} AllErrorStays(p: Policy, candidates: seq<Candidate>, k: nat, j: nat, loads: seq<Load>,
                                         table: map<EngineId, Load>, allowed: Option<set<EngineId>>)
    requires p.Valid() && k <= j <= |candidates| && AllMoves(p, candidates, k, loads, table, allowed).Err?
    ensures AllMoves(p, candidates, j, loads, table, allowed).Err?
    decreases j
  {
    if k < j {
      AllErrorStays(p, candidates, k, j - 1, loads, table, allowed);
    }
  }

  /** A missing source load ends the whole selection. */
  lemma MissingSourceFails(p: Policy, candidates: seq<Candidate>, k: nat, loads: seq<Load>, n: nat,
                           table: map<EngineId, Load>, allowed: Option<set<EngineId>>)
    requires p.Valid() && k < |candidates| && n <= |loads| && MovesOf(p, candidates[k], loads, n, table, allowed).Err?
    ensures AllMoves(p, candidates, |candidates|, loads, table, allowed).Err?
  {
    ErrorStays(p, candidates[k], loads, n, |loads|, table, allowed);
    AllErrorStays(p, candidates, k + 1, |candidates|, loads, table, allowed);
  }

  // ---- which moves are ranked ----

  /** A descriptor needs what its components need together. */
  lemma {:induction false} SlotsAdd(d: seq<Component>, e: seq<Component>)
    ensures TokenSlots(d + e) == TokenSlots(d) + TokenSlots(e)
    ensures SnapshotSlots(d + e) == SnapshotSlots(d) + SnapshotSlots(e)
    ensures |d| == 1 ==> TokenSlots(d) == d[0].tokenSlots && SnapshotSlots(d) == d[0].snapshotSlots
  {
    if d == [] {
      assert d + e == e;
    } else {
      SlotsAdd(d[1..], e);
      assert (d + e)[1..] == d[1..] + e;
    }
  }

  /** The destination has room for the candidate's state. */
  ghost predicate HasRoom(c: Candidate, d: Load) {
    match c.descriptor
    case None => c.prefixTokens <= d.freeKvTokens && 0 <= d.freeSnapshots
    case Some(components) =>
      TokenSlots(components) <= d.freeKvTokens && SnapshotSlots(components) <= d.freeSnapshots
  }

  /** Every figure of the move of candidate `c` from load `s` to load `d`, and that the move pays. */
  ghost predicate Pays(p: Policy, c: Candidate, s: Load, d: Load, m: Move)
    requires p.Valid()
  {
    && m.agent == c.agent && m.source == c.source && m.destination == d.engine
    && d.engine != c.source && !c.unknownEffect && HasRoom(c, d)
    && var bytes := match c.stateBytes case Some(b) => b case None => c.kvBytes;
       && m.copySeconds == p.fixedCopySeconds + bytes as real / p.bandwidth
       && m.exposedSeconds == (if c.gapSeconds < m.copySeconds then m.copySeconds - c.gapSeconds else 0.0)
       && m.exposedSeconds <= p.acceptableExposureSeconds
       && m.queueReliefSeconds
          == (if d.queueDepth < s.queueDepth then s.queueDepth - d.queueDepth else 0) as real * c.serviceSeconds
       && m.hbmReliefGibSeconds == bytes as real / 1073741824.0 * c.gapSeconds
                                   * (if d.kvPressure < s.kvPressure then s.kvPressure - d.kvPressure else 0.0)
       && (m.queueReliefSeconds != 0.0 || m.hbmReliefGibSeconds != 0.0)
       && m.recomputeSavedSeconds == c.recomputeSeconds
       && m.interferenceSeconds == m.copySeconds * (1 + s.activeRequests + d.activeRequests) as real
       && m.score == m.queueReliefSeconds + p.recomputeWeight * m.recomputeSavedSeconds
                     + p.hbmWeight * m.hbmReliefGibSeconds - p.interferenceWeight * m.interferenceSeconds
                     - p.exposureWeight * m.exposedSeconds
       && m.score > 0.0
  }

  /** `score` gives a positive score exactly to the moves that pay, with these figures. */
  lemma ScoredPays(p: Policy, c: Candidate, d: Load, table: map<EngineId, Load>, m: Move)
    requires p.Valid() && c.source in table
    ensures Score(p, c, d, table) == Scored(m) && m.score > 0.0 <==> Pays(p, c, table[c.source], d, m)
  {
    assert HasRoom(c, d) <==> RequiredTokens(c) <= d.freeKvTokens && RequiredSnapshots(c) <= d.freeSnapshots;
  }

  /** The source's load is needed and not there. */
  ghost predicate LacksSource(c: Candidate, d: Load, table: map<EngineId, Load>) {
    d.engine != c.source && !c.unknownEffect && HasRoom(c, d) && c.source !in table
  }

  lemma MissingIsLacking(p: Policy, c: Candidate, d: Load, table: map<EngineId, Load>)
    requires p.Valid()
    ensures Score(p, c, d, table).MissingSource? <==> LacksSource(c, d, table)
    ensures Score(p, c, d, table).Scored? ==> c.source in table
  {
  }

  /** With a shorter queue at the destination, all else equal, a move that pays still does, and at least as well. */
  lemma ShorterQueuePays(p: Policy, c: Candidate, s: Load, d: Load, m: Move, depth: int) returns (better: Move)
    requires p.Valid() && Pays(p, c, s, d, m) && depth <= d.queueDepth && c.serviceSeconds >= 0.0
    ensures Pays(p, c, s, d.(queueDepth := depth), better) && m.score <= better.score
  {
    hide HasRoom;
    RoomStays(c, d, depth);
    var delta := (if d.queueDepth < s.queueDepth then s.queueDepth - d.queueDepth else 0) as real;
    var more := (if depth < s.queueDepth then s.queueDepth - depth else 0) as real;
    MulMonotone(delta, more, c.serviceSeconds);
    var relief := more * c.serviceSeconds;
    assert m.queueReliefSeconds == delta * c.serviceSeconds <= relief;
    assert relief != 0.0 || m.queueReliefSeconds == relief;
    better := m.(queueReliefSeconds := relief, score := m.score + relief - m.queueReliefSeconds);
  }

  lemma RoomStays(c: Candidate, d: Load, depth: int)
    ensures HasRoom(c, d.(queueDepth := depth)) <==> HasRoom(c, d)
  {
  }

  lemma MulMonotone(x: real, y: real, z: real)
    requires x <= y && z >= 0.0
    ensures x * z <= y * z && (x >= 0.0 ==> x * z >= 0.0)
  {
  }

  /** A move that pays, of some candidate to some permitted load. */
  ghost predicate Offered(p: Policy, candidates: seq<Candidate>, loads: seq<Load>, table: map<EngineId, Load>,
                          allowed: Option<set<EngineId>>, m: Move)
    requires p.Valid()
  {
    exists c, d :: && c in candidates && d in loads && (allowed.None? || d.engine in allowed.value)
                   && c.source in table && Pays(p, c, table[c.source], d, m)
  }

  lemma {:induction false} MovesOfPay(p: Policy, c: Candidate, loads: seq<Load>, n: nat, table: map<EngineId, Load>,
                                      allowed: Option<set<EngineId>>, m: Move)
    requires p.Valid() && n <= |loads| && MovesOf(p, c, loads, n, table, allowed).Ok?
    ensures m in MovesOf(p, c, loads, n, table, allowed).value
            <==> exists i :: && 0 <= i < n && Allowed(loads[i], allowed)
                             && c.source in table && Pays(p, c, table[c.source], loads[i], m)
  {
    hide Pays, Score;
    MovesOfMembers(p, c, loads, n, table, allowed, m);
    forall i | 0 <= i < n
      ensures Score(p, c, loads[i], table) == Scored(m) && m.score > 0.0
              <==> c.source in table && Pays(p, c, table[c.source], loads[i], m)
    {
      MissingIsLacking(p, c, loads[i], table);
      if c.source in table {
        ScoredPays(p, c, loads[i], table, m);
      }
    }
  }

  lemma {:induction false} MovesOfMembers(p: Policy, c: Candidate, loads: seq<Load>, n: nat, table: map<EngineId, Load>,
                                          allowed: Option<set<EngineId>>, m: Move)
    requires p.Valid() && n <= |loads| && MovesOf(p, c, loads, n, table, allowed).Ok?
    ensures m in MovesOf(p, c, loads, n, table, allowed).value
            <==> (m.score > 0.0
                  && exists i :: && 0 <= i < n && Allowed(loads[i], allowed)
                                 && Score(p, c, loads[i], table) == Scored(m))
  {
    if n > 0 {
      MovesOfMembers(p, c, loads, n - 1, table, allowed, m);
    }
  }

  lemma {:induction false} AllMovesMembers(p: Policy, candidates: seq<Candidate>, k: nat, loads: seq<Load>,
                                           table: map<EngineId, Load>, allowed: Option<set<EngineId>>, m: Move)
    requires p.Valid() && k <= |candidates| && AllMoves(p, candidates, k, loads, table, allowed).Ok?
    ensures m in AllMoves(p, candidates, k, loads, table, allowed).value
            <==> Offered(p, candidates[..k], loads, table, allowed, m)
  {
    if k > 0 {
      AllMovesMembers(p, candidates, k - 1, loads, table, allowed, m);
      MovesOfPay(p, candidates[k-1], loads, |loads|, table, allowed, m);
      hide Pays;
      assert candidates[..k] == candidates[..k-1] + [candidates[k-1]];
      if Offered(p, candidates[..k], loads, table, allowed, m) {
        var c, d :| && c in candidates[..k] && d in loads && Allowed(d, allowed) && c.source in table
                    && Pays(p, c, table[c.source], d, m);
        var i :| 0 <= i < |loads| && loads[i] == d;
        assert c in candidates[..k-1] || c == candidates[k-1];
        assert c in candidates[..k-1] ==> Offered(p, candidates[..k-1], loads, table, allowed, m);
      }
    }
  }

  /** Ranking loses and invents nothing: exactly the offered moves are ranked. */
  lemma RankedAreOffered(p: Policy, candidates: seq<Candidate>, loads: seq<Load>, allowed: Option<set<EngineId>>,
                         m: Move)
    requires p.Valid() && AllMoves(p, candidates, |candidates|, loads, LoadMap(loads), allowed).Ok?
    ensures m in Sort(AllMoves(p, candidates, |candidates|, loads, LoadMap(loads), allowed).value, ByScoreDescending)
            <==> Offered(p, candidates, loads, LoadMap(loads), allowed, m)
  {
    AllMovesMembers(p, candidates, |candidates|, loads, LoadMap(loads), allowed, m);
    SortMembers(AllMoves(p, candidates, |candidates|, loads, LoadMap(loads), allowed).value, ByScoreDescending, m);
    assert candidates[..|candidates|] == candidates;
  }

  lemma RankedIsKnown(p: Policy, candidates: seq<Candidate>, loads: seq<Load>, allowed: Option<set<EngineId>>)
    requires p.Valid() && AllMoves(p, candidates, |candidates|, loads, LoadMap(loads), allowed).Ok?
    ensures Known(Sort(AllMoves(p, candidates, |candidates|, loads, LoadMap(loads), allowed).value, ByScoreDescending),
                  CandidateMap(candidates), LoadMap(loads), NoReservations(loads))
  {
    var ranked := Sort(AllMoves(p, candidates, |candidates|, loads, LoadMap(loads), allowed).value, ByScoreDescending);
    forall m | m in ranked
      ensures m.agent in CandidateMap(candidates) && m.destination in LoadMap(loads)
              && m.destination in NoReservations(loads)
    {
      RankedAreOffered(p, candidates, loads, allowed, m);
    }
  }

  // ---- greedy selection by engines alone ----

  /** Take the best move whose engines are both free, as long as there is room. */
  function Greedy(ranked: seq<Move>, room: int, used: set<EngineId>): seq<Move> {
    if ranked == [] || room <= 0 then []
    else if ranked[0].source in used || ranked[0].destination in used then Greedy(ranked[1..], room, used)
    else [ranked[0]] + Greedy(ranked[1..], room - 1, used + {ranked[0].source, ranked[0].destination})
  }

  /** The record `m` of a candidate is consistent with the lookup tables, and its destination has room for it. */
  ghost predicate Fits(m: Move, byId: map<AgentId, Candidate>, table: map<EngineId, Load>) {
    && m.agent in byId && byId[m.agent].source == m.source
    && m.destination in table && RequiredTokens(byId[m.agent]) <= table[m.destination].freeKvTokens
  }

  /** Selected agents have used engines, and nothing is reserved on an unused engine. */
  ghost predicate BookOk(book: Book, byId: map<AgentId, Candidate>) {
    && (forall a :: a in book.agents ==> a in byId && byId[a].source in book.engines)
    && (forall e :: e in book.reserved && e !in book.engines ==> book.reserved[e] == 0)
  }

  /** The agent and token tests never reject a move whose engines are free. */
  lemma {:induction false} PickIsGreedy(ranked: seq<Move>, room: int, book: Book, byId: map<AgentId, Candidate>,
                                        table: map<EngineId, Load>)
    requires Known(ranked, byId, table, book.reserved) && BookOk(book, byId)
    requires forall m :: m in ranked ==> Fits(m, byId, table)
    ensures Pick(ranked, room, book, byId, table) == Greedy(ranked, room, book.engines)
  {
    if ranked != [] && room > 0 {
      var m := ranked[0];
      assert Fits(m, byId, table);
      assert Takes(m, book, byId, table) <==> m.source !in book.engines && m.destination !in book.engines;
      if Takes(m, book, byId, table) {
        PickIsGreedy(ranked[1..], room - 1, Entered(m, book, byId), byId, table);
      } else {
        PickIsGreedy(ranked[1..], room, book, byId, table);
      }
    }
  }

  // ---- greedy is at least half of any other choice ----

  function Sum(moves: seq<Move>): real {
    if moves == [] then 0.0 else Sum(moves[..|moves|-1]) + moves[|moves|-1].score
  }

  predicate Touches(m: Move, e: EngineId) { m.source == e || m.destination == e }

  ghost predicate EngineDisjoint(moves: seq<Move>) {
    forall i, j :: 0 <= i < j < |moves| ==>
      !Touches(moves[i], moves[j].source) && !Touches(moves[i], moves[j].destination)
  }

  ghost predicate Avoids(moves: seq<Move>, used: set<EngineId>) {
    forall m :: m in moves ==> m.source !in used && m.destination !in used
  }

  lemma {:induction false} SumWithout(moves: seq<Move>, i: nat)
    requires i < |moves|
    ensures Sum(moves[..i] + moves[i+1..]) == Sum(moves) - moves[i].score
  {
    var n := |moves| - 1;
    if i == n {
      assert moves[..i] + moves[i+1..] == moves[..n];
    } else {
      SumWithout(moves[..n], i);
      var rest := moves[..i] + moves[i+1..];
      assert rest[..|rest|-1] == moves[..n][..i] + moves[..n][i+1..];
    }
  }

  /** Of engine-disjoint moves at most one touches an engine; dropping it costs at most `top`. */
  lemma DropTouching(moves: seq<Move>, e: EngineId, top: real) returns (kept: seq<Move>)
    requires EngineDisjoint(moves) && top >= 0.0 && forall m :: m in moves ==> m.score <= top
    ensures EngineDisjoint(kept) && forall m :: m in kept ==> m in moves && !Touches(m, e)
    ensures |moves| - 1 <= |kept| <= |moves|
    ensures if |kept| == |moves| then kept == moves else Sum(moves) <= Sum(kept) + top
  {
    if i :| 0 <= i < |moves| && Touches(moves[i], e) {
      SumWithout(moves, i);
      kept := moves[..i] + moves[i+1..];
    } else {
      kept := moves;
    }
  }

  lemma DropLast(moves: seq<Move>, top: real)
    requires moves != [] && EngineDisjoint(moves) && forall m :: m in moves ==> m.score <= top
    ensures EngineDisjoint(moves[..|moves|-1]) && Sum(moves) <= Sum(moves[..|moves|-1]) + top
  {
    assert moves[|moves|-1] in moves;
  }

  /** Dropping at most two moves clears both engines of `best` and leaves room for two fewer. */
  lemma MakeWay(moves: seq<Move>, best: Move, room: int) returns (kept: seq<Move>)
    requires EngineDisjoint(moves) && |moves| <= 2 * room && room > 0
    requires best.score >= 0.0 && forall m :: m in moves ==> m.score <= best.score
    ensures EngineDisjoint(kept) && |kept| <= 2 * (room - 1)
    ensures forall m :: m in kept ==> m in moves && !Touches(m, best.source) && !Touches(m, best.destination)
    ensures Sum(moves) <= Sum(kept) + 2.0 * best.score
  {
    var first := DropTouching(moves, best.source, best.score);
    kept := DropTouching(first, best.destination, best.score);
    if |kept| > 2 * (room - 1) {
      DropLast(kept, best.score);
      var shorter := kept[..|kept|-1];
      if |shorter| > 2 * (room - 1) {
        DropLast(shorter, best.score);
        shorter := shorter[..|shorter|-1];
      }
      kept := shorter;
    }
  }

  lemma {:induction false} GreedyIsHalf(ranked: seq<Move>, room: int, used: set<EngineId>, other: seq<Move>)
    requires SortedBy(ranked, ByScoreDescending) && forall m :: m in ranked ==> m.score > 0.0
    requires EngineDisjoint(other) && Avoids(other, used) && |other| <= 2 * room
    requires forall m :: m in other ==> m in ranked
    ensures Sum(other) <= 2.0 * Sum(Greedy(ranked, room, used))
  {
    if ranked == [] || room <= 0 {
      assert forall i :: 0 <= i < |other| ==> other[i] in ranked;
    } else {
      var best, rest := ranked[0], ranked[1..];
      assert best in ranked;
      if best.source in used || best.destination in used {
        GreedyIsHalf(rest, room, used, other);
      } else {
        forall m | m in other ensures m.score <= best.score {
          var i :| 0 <= i < |ranked| && ranked[i] == m;
          assert i > 0 ==> ByScoreDescending(ranked[0], ranked[i]);
        }
        var kept := MakeWay(other, best, room);
        GreedyIsHalf(rest, room - 1, used + {best.source, best.destination}, kept);
        SumCons(best, Greedy(rest, room - 1, used + {best.source, best.destination}));
      }
    }
  }

  lemma {:induction false} SumCons(m: Move, moves: seq<Move>)
    ensures Sum([m] + moves) == m.score + Sum(moves)
  {
    var all := [m] + moves;
    if moves == [] {
      assert all[..|all|-1] == [];
    } else {
      SumCons(m, moves[..|moves|-1]);
      assert all[..|all|-1] == [m] + moves[..|moves|-1];
    }
  }

  /** A move joins engine-disjoint moves that avoid its engines. */
  lemma ConsIsDisjoint(m: Move, moves: seq<Move>, used: set<EngineId>)
    requires EngineDisjoint(moves) && Avoids(moves, used + {m.source, m.destination})
    requires m.source !in used && m.destination !in used
    ensures EngineDisjoint([m] + moves) && Avoids([m] + moves, used)
  {
    forall j | 0 <= j < |moves| ensures !Touches(m, moves[j].source) && !Touches(m, moves[j].destination) {
      assert moves[j] in moves;
    }
  }

  lemma {:induction false} GreedyIsDisjoint(ranked: seq<Move>, room: int, used: set<EngineId>)
    ensures EngineDisjoint(Greedy(ranked, room, used)) && Avoids(Greedy(ranked, room, used), used)
    ensures |Greedy(ranked, room, used)| <= if room < 0 then 0 else room
    ensures forall m :: m in Greedy(ranked, room, used) ==> m in ranked
  {
    if ranked != [] && room > 0 {
      var m, rest := ranked[0], ranked[1..];
      if m.source in used || m.destination in used {
        GreedyIsDisjoint(rest, room, used);
      } else {
        var used' := used + {m.source, m.destination};
        GreedyIsDisjoint(rest, room - 1, used');
        ConsIsDisjoint(m, Greedy(rest, room - 1, used'), used);
        hide EngineDisjoint, Avoids;
      }
    }
  }

  // ---- main results ----

  lemma {:induction false} PickedAreRanked(ranked: seq<Move>, room: int, book: Book, byId: map<AgentId, Candidate>,
                                           table: map<EngineId, Load>, m: Move)
    requires Known(ranked, byId, table, book.reserved) && m in Pick(ranked, room, book, byId, table)
    ensures m in ranked
  {
    if Takes(ranked[0], book, byId, table) {
      if m != ranked[0] {
        PickedAreRanked(ranked[1..], room - 1, Entered(ranked[0], book, byId), byId, table, m);
      }
    } else {
      PickedAreRanked(ranked[1..], room, book, byId, table, m);
    }
  }

  /** Whatever is selected was offered, so it pays; even where ids repeat. */
  lemma SelectedAreOffered(p: Policy, candidates: seq<Candidate>, loads: seq<Load>, allowed: Option<set<EngineId>>,
                           m: Move)
    requires p.Valid() && Selection(p, candidates, loads, allowed).Some?
    requires m in Selection(p, candidates, loads, allowed).value
    ensures Offered(p, candidates, loads, LoadMap(loads), allowed, m)
  {
    hide Offered, Pick;
    var moves := AllMoves(p, candidates, |candidates|, loads, LoadMap(loads), allowed).value;
    RankedIsKnown(p, candidates, loads, allowed);
    PickedAreRanked(Sort(moves, ByScoreDescending), p.maxConcurrent, Book({}, {}, NoReservations(loads)),
                    CandidateMap(candidates), LoadMap(loads), m);
    RankedAreOffered(p, candidates, loads, allowed, m);
  }

  lemma {:induction false} ErrorsLack(p: Policy, c: Candidate, loads: seq<Load>, n: nat, table: map<EngineId, Load>,
                                      allowed: Option<set<EngineId>>)
    requires p.Valid() && n <= |loads|
    ensures MovesOf(p, c, loads, n, table, allowed).Err?
            <==> exists i :: 0 <= i < n && Allowed(loads[i], allowed) && LacksSource(c, loads[i], table)
  {
    hide Score, LacksSource;
    if n > 0 {
      ErrorsLack(p, c, loads, n - 1, table, allowed);
      MissingIsLacking(p, c, loads[n-1], table);
    }
  }

  lemma {:induction false} AnyErrorLacks(p: Policy, candidates: seq<Candidate>, k: nat, loads: seq<Load>,
                                         table: map<EngineId, Load>, allowed: Option<set<EngineId>>)
    requires p.Valid() && k <= |candidates|
    ensures AllMoves(p, candidates, k, loads, table, allowed).Err?
            <==> exists j, i :: && 0 <= j < k && 0 <= i < |loads| && Allowed(loads[i], allowed)
                                && LacksSource(candidates[j], loads[i], table)
  {
    hide LacksSource, MovesOf;
    if k > 0 {
      AnyErrorLacks(p, candidates, k - 1, loads, table, allowed);
      ErrorsLack(p, candidates[k-1], loads, |loads|, table, allowed);
    }
  }

  /** `select` raises if and only if some candidate could go to some permitted load and its source has no load. */
  lemma RaisesIffSourceMissing(p: Policy, candidates: seq<Candidate>, loads: seq<Load>, allowed: Option<set<EngineId>>)
    requires p.Valid()
    ensures Selection(p, candidates, loads, allowed).None?
            <==> exists c, d :: && c in candidates && d in loads && (allowed.None? || d.engine in allowed.value)
                                && LacksSource(c, d, LoadMap(loads))
  {
    hide LacksSource;
    var table := LoadMap(loads);
    AnyErrorLacks(p, candidates, |candidates|, loads, table, allowed);
    if c, d :| && c in candidates && d in loads && (allowed.None? || d.engine in allowed.value)
               && LacksSource(c, d, table) {
      var j :| 0 <= j < |candidates| && candidates[j] == c;
      var i :| 0 <= i < |loads| && loads[i] == d;
      assert Allowed(loads[i], allowed) && LacksSource(candidates[j], loads[i], table);
    }
  }

  ghost predicate UniqueIds(candidates: seq<Candidate>, loads: seq<Load>) {
    && (forall i, j :: 0 <= i < j < |candidates| ==> candidates[i].agent != candidates[j].agent)
    && (forall i, j :: 0 <= i < j < |loads| ==> loads[i].engine != loads[j].engine)
  }

  lemma {:induction false} LoadMapUnique(loads: seq<Load>, l: Load)
    requires l in loads && forall i, j :: 0 <= i < j < |loads| ==> loads[i].engine != loads[j].engine
    ensures LoadMap(loads)[l.engine] == l
  {
    var n := |loads| - 1;
    if loads[n] != l {
      assert l in loads[..n];
      LoadMapUnique(loads[..n], l);
    }
  }

  lemma {:induction false} CandidateMapUnique(candidates: seq<Candidate>, c: Candidate)
    requires c in candidates && forall i, j :: 0 <= i < j < |candidates| ==> candidates[i].agent != candidates[j].agent
    ensures CandidateMap(candidates)[c.agent] == c
  {
    var n := |candidates| - 1;
    if candidates[n] != c {
      assert c in candidates[..n];
      CandidateMapUnique(candidates[..n], c);
    }
  }

  lemma OfferedFits(p: Policy, candidates: seq<Candidate>, loads: seq<Load>, allowed: Option<set<EngineId>>, m: Move)
    requires p.Valid() && UniqueIds(candidates, loads)
    requires Offered(p, candidates, loads, LoadMap(loads), allowed, m)
    ensures Fits(m, CandidateMap(candidates), LoadMap(loads))
  {
    var table := LoadMap(loads);
    var c, d :| && c in candidates && d in loads && (allowed.None? || d.engine in allowed.value) && c.source in table
                && Pays(p, c, table[c.source], d, m);
    LoadMapUnique(loads, d);
    CandidateMapUnique(candidates, c);
    hide LoadMap, CandidateMap;
    assert RequiredTokens(c) <= d.freeKvTokens;
  }

  /** With unique ids the agent and reservation tests are redundant: the selection is the greedy one. */
  lemma ReservationsNeverReject(p: Policy, candidates: seq<Candidate>, loads: seq<Load>, allowed: Option<set<EngineId>>)
    requires p.Valid() && UniqueIds(candidates, loads) && Selection(p, candidates, loads, allowed).Some?
    ensures Selection(p, candidates, loads, allowed).value
            == Greedy(Sort(AllMoves(p, candidates, |candidates|, loads, LoadMap(loads), allowed).value,
                           ByScoreDescending),
                      p.maxConcurrent, {})
  {
    var table, byId := LoadMap(loads), CandidateMap(candidates);
    var ranked := Sort(AllMoves(p, candidates, |candidates|, loads, table, allowed).value, ByScoreDescending);
    RankedIsKnown(p, candidates, loads, allowed);
    forall m | m in ranked ensures Fits(m, byId, table) {
      RankedAreOffered(p, candidates, loads, allowed, m);
      OfferedFits(p, candidates, loads, allowed, m);
    }
    PickIsGreedy(ranked, p.maxConcurrent, Book({}, {}, NoReservations(loads)), byId, table);
  }

  /** The selection stays within the cap, uses every engine at most once, and offers only positively scored moves. */
  lemma SelectionIsBounded(p: Policy, candidates: seq<Candidate>, loads: seq<Load>, allowed: Option<set<EngineId>>)
    requires p.Valid() && UniqueIds(candidates, loads) && Selection(p, candidates, loads, allowed).Some?
    ensures var selected := Selection(p, candidates, loads, allowed).value;
            && |selected| <= p.maxConcurrent && EngineDisjoint(selected)
            && forall m :: m in selected ==> Offered(p, candidates, loads, LoadMap(loads), allowed, m)
  {
    var ranked := Sort(AllMoves(p, candidates, |candidates|, loads, LoadMap(loads), allowed).value, ByScoreDescending);
    ReservationsNeverReject(p, candidates, loads, allowed);
    GreedyIsDisjoint(ranked, p.maxConcurrent, {});
    forall m | m in Selection(p, candidates, loads, allowed).value
      ensures Offered(p, candidates, loads, LoadMap(loads), allowed, m)
    {
      SelectedAreOffered(p, candidates, loads, allowed, m);
    }
  }

  /**
  The selection scores at least half of any engine-disjoint set of offered moves, even of sets up to twice the cap.
  */
  lemma SelectionIsHalfOptimal(p: Policy, candidates: seq<Candidate>, loads: seq<Load>, allowed: Option<set<EngineId>>,
                               other: seq<Move>)
    requires p.Valid() && UniqueIds(candidates, loads) && Selection(p, candidates, loads, allowed).Some?
    requires EngineDisjoint(other) && |other| <= 2 * p.maxConcurrent
    requires forall m :: m in other ==> Offered(p, candidates, loads, LoadMap(loads), allowed, m)
    ensures Sum(other) <= 2.0 * Sum(Selection(p, candidates, loads, allowed).value)
  {
    var moves := AllMoves(p, candidates, |candidates|, loads, LoadMap(loads), allowed).value;
    var ranked := Sort(moves, ByScoreDescending);
    ReservationsNeverReject(p, candidates, loads, allowed);
    SortSorts(moves, ByScoreDescending);
    forall m ensures m in ranked ==> m.score > 0.0 {
      RankedAreOffered(p, candidates, loads, allowed, m);
    }
    forall m | m in other ensures m in ranked {
      RankedAreOffered(p, candidates, loads, allowed, m);
    }
    GreedyIsHalf(ranked, p.maxConcurrent, {}, other);
  }
}
