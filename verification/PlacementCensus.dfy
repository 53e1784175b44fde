/** The placement census: hypothetical sticky homes, their loads and the blocks that completed requests left on them. */
module PlacementCensus {
  import opened Wrappers
  import opened RelocationCensus

  datatype Worker = Worker(model: nat, home: nat)

  datatype Resident = Resident(worker: Worker, block: nat)

  /** `residency` has no entry for a block that no completed request left. */
  datatype Placement = Placement(counts: map<Worker, int>, residency: map<Resident, real>, heap: seq<Completion>)

  function Load(counts: map<Worker, int>, w: Worker): int { if w in counts then counts[w] else 0 }

  function WorkerOf(reqs: seq<Request>, homes: seq<nat>, j: nat): Worker
    requires j < |reqs| == |homes|
  {
    Worker(reqs[j].stream.model, homes[j])
  }

  /** Stamps every block of a completed request with the time of its completion. */
  function Stamp(residency: map<Resident, real>, w: Worker, hashes: seq<nat>, end: real): map<Resident, real> {
    map k | k in residency.Keys + (set b | b in hashes :: Resident(w, b)) ::
      if k.worker == w && k.block in hashes then end else residency[k]
  }

  function Retire(reqs: seq<Request>, homes: seq<nat>, p: Placement): Placement
    requires p.heap != [] && Indexed(reqs, p.heap) && |homes| == |reqs|
  {
    var c := p.heap[0];
    var r, w := reqs[c.index], WorkerOf(reqs, homes, c.index);
    Placement(p.counts[w := Load(p.counts, w) - 1],
              if r.produced > 0 then Stamp(p.residency, w, r.hashes, c.end) else p.residency,
              p.heap[1..])
  }

  function Admit(reqs: seq<Request>, homes: seq<nat>, p: Placement, i: nat): Placement
    requires i < |reqs| == |homes|
  {
    var w := WorkerOf(reqs, homes, i);
    if reqs[i].apiTime > 0.0 then
      Placement(p.counts[w := Load(p.counts, w) + 1], p.residency, Pushed(reqs, p.heap, i))
    else p
  }

  // ---- the recount ----

  function OnWorker(reqs: seq<Request>, homes: seq<nat>, some: set<nat>, w: Worker): set<nat>
    requires |homes| == |reqs|
  {
    set j | j in some && j < |reqs| && WorkerOf(reqs, homes, j) == w
  }

  /** Request j has completed before arrival i with output and left the block on the worker. */
  predicate Left(reqs: seq<Request>, homes: seq<nat>, i: nat, j: nat, k: Resident)
    requires i < |reqs| == |homes|
  {
    && j < i && reqs[j].apiTime > 0.0 && reqs[j].End() <= reqs[i].t && reqs[j].produced > 0
    && WorkerOf(reqs, homes, j) == k.worker && k.block in reqs[j].hashes
  }

  /** Some request that left the block on the worker completed at most ttl ago. */
  ghost predicate Warm(reqs: seq<Request>, homes: seq<nat>, i: nat, k: Resident, ttl: Option<real>)
    requires i < |reqs| == |homes|
  {
    exists j: nat :: Left(reqs, homes, i, j, k) && (ttl.Some? ==> reqs[i].t - reqs[j].End() <= ttl.value)
  }

  /** `n` is the number of leading blocks of request i that are all warm on the worker. */
  ghost predicate IsHit(reqs: seq<Request>, homes: seq<nat>, i: nat, w: Worker, ttl: Option<real>, n: nat)
    requires i < |reqs| == |homes|
  {
    && n <= |reqs[i].hashes|
    && (forall b :: 0 <= b < n ==> Warm(reqs, homes, i, Resident(w, reqs[i].hashes[b]), ttl))
    && (n < |reqs[i].hashes| ==> !Warm(reqs, homes, i, Resident(w, reqs[i].hashes[n]), ttl))
  }

  ghost predicate LeastLoaded(reqs: seq<Request>, homes: seq<nat>, i: nat, workers: nat, target: nat)
    requires i < |reqs| == |homes|
  {
    var m, busy := reqs[i].stream.model, InFlight(reqs, i);
    && target < workers
    && forall w: nat :: w < workers ==>
         var x, y := |OnWorker(reqs, homes, busy, Worker(m, target))|, |OnWorker(reqs, homes, busy, Worker(m, w))|;
         x < y || (x == y && target <= w)
  }

  // ---- what the replay keeps ----

  ghost predicate CountsOk(reqs: seq<Request>, homes: seq<nat>, p: Placement)
    requires |homes| == |reqs|
  {
    forall w :: Load(p.counts, w) == |OnWorker(reqs, homes, Live(p.heap), w)|
  }

  /** Retired request j put the block on the worker. */
  predicate Put(reqs: seq<Request>, homes: seq<nat>, n: nat, heap: seq<Completion>, j: nat, k: Resident)
    requires |homes| == |reqs|
  {
    && Retired(reqs, n, heap, j) && reqs[j].produced > 0
    && WorkerOf(reqs, homes, j) == k.worker && k.block in reqs[j].hashes
  }

  ghost predicate StampOk(reqs: seq<Request>, homes: seq<nat>, n: nat, p: Placement, k: Resident)
    requires |homes| == |reqs|
  {
    if k in p.residency then
      && (exists j: nat :: Put(reqs, homes, n, p.heap, j, k) && p.residency[k] == reqs[j].End())
      && (forall j: nat :: Put(reqs, homes, n, p.heap, j, k) ==> reqs[j].End() <= p.residency[k])
    else forall j: nat :: !Put(reqs, homes, n, p.heap, j, k)
  }

  ghost predicate ResidencyOk(reqs: seq<Request>, homes: seq<nat>, n: nat, p: Placement)
    requires |homes| == |reqs|
  {
    forall k :: StampOk(reqs, homes, n, p, k)
  }

  ghost predicate PlacementOk(reqs: seq<Request>, homes: seq<nat>, n: nat, p: Placement, now: real) {
    && |homes| == |reqs| && HeapOk(reqs, n, p.heap) && RetiredOk(reqs, n, p.heap, now)
    && CountsOk(reqs, homes, p) && ResidencyOk(reqs, homes, n, p)
  }

  lemma OnWorkerMore(reqs: seq<Request>, homes: seq<nat>, some: set<nat>, i: nat, w: Worker)
    requires i < |reqs| == |homes| && i !in some
    ensures |OnWorker(reqs, homes, some + {i}, w)|
            == |OnWorker(reqs, homes, some, w)| + if WorkerOf(reqs, homes, i) == w then 1 else 0
  {
    var before := OnWorker(reqs, homes, some, w);
    assert OnWorker(reqs, homes, some + {i}, w) == if WorkerOf(reqs, homes, i) == w then before + {i} else before;
  }

  lemma RetireCounts(reqs: seq<Request>, homes: seq<nat>, n: nat, p: Placement)
    requires |homes| == |reqs| && HeapOk(reqs, n, p.heap) && p.heap != [] && CountsOk(reqs, homes, p)
    ensures CountsOk(reqs, homes, Retire(reqs, homes, p))
  {
    PopLive(p.heap);
    var j := p.heap[0].index;
    assert j in Live(p.heap);
    hide Live, Stamp, OnWorker;
    var p' := Retire(reqs, homes, p);
    assert Live(p'.heap) + {j} == Live(p.heap);
    forall w ensures Load(p'.counts, w) == |OnWorker(reqs, homes, Live(p'.heap), w)| {
      OnWorkerMore(reqs, homes, Live(p'.heap), j, w);
      assert Load(p.counts, w) == |OnWorker(reqs, homes, Live(p.heap), w)|;
    }
  }

  lemma RetireStamp(reqs: seq<Request>, homes: seq<nat>, n: nat, p: Placement, now: real, k: Resident)
    requires |homes| == |reqs| && HeapOk(reqs, n, p.heap) && p.heap != [] && RetiredOk(reqs, n, p.heap, now)
    requires StampOk(reqs, homes, n, p, k)
    ensures StampOk(reqs, homes, n, Retire(reqs, homes, p), k)
  {
    PopLive(p.heap);
    var j, p' := p.heap[0].index, Retire(reqs, homes, p);
    assert j in Live(p.heap);
    hide Live;
    var put := reqs[j].produced > 0 && WorkerOf(reqs, homes, j) == k.worker && k.block in reqs[j].hashes;
    assert k in p'.residency <==> k in p.residency || put;
    assert k in p'.residency ==> p'.residency[k] == if put then reqs[j].End() else p.residency[k];
    assert put ==> Put(reqs, homes, n, p'.heap, j, k) && p'.residency[k] == reqs[j].End();
    assert forall i: nat :: Put(reqs, homes, n, p'.heap, i, k) <==>
                            (Put(reqs, homes, n, p.heap, i, k) || (i == j && put));
    assert forall i: nat :: Put(reqs, homes, n, p.heap, i, k) ==> Earlier(Completion(reqs[i].End(), i), p.heap[0]);
    hide Put, Retire;
  }

  lemma AdmitCounts(reqs: seq<Request>, homes: seq<nat>, p: Placement, i: nat)
    requires i < |reqs| == |homes| && HeapOk(reqs, i, p.heap) && reqs[i].apiTime > 0.0 && CountsOk(reqs, homes, p)
    ensures CountsOk(reqs, homes, Admit(reqs, homes, p, i))
  {
    PushLive(reqs, p.heap, i);
    hide Live, Pushed, OnWorker;
    var p' := Admit(reqs, homes, p, i);
    forall w ensures Load(p'.counts, w) == |OnWorker(reqs, homes, Live(p'.heap), w)| {
      OnWorkerMore(reqs, homes, Live(p.heap), i, w);
      assert Load(p.counts, w) == |OnWorker(reqs, homes, Live(p.heap), w)|;
    }
  }

  lemma RetireKeepsOk(reqs: seq<Request>, homes: seq<nat>, n: nat, p: Placement, now: real)
    requires PlacementOk(reqs, homes, n, p, now) && p.heap != [] && p.heap[0].end <= now
    ensures PlacementOk(reqs, homes, n, Retire(reqs, homes, p), now) && Retire(reqs, homes, p).heap == p.heap[1..]
  {
    PopOrder(reqs, n, p.heap, now);
    RetireCounts(reqs, homes, n, p);
    hide CountsOk, RetiredOk, StampOk;
    forall k ensures StampOk(reqs, homes, n, Retire(reqs, homes, p), k) {
      RetireStamp(reqs, homes, n, p, now, k);
    }
  }

  lemma AdmitKeepsOk(reqs: seq<Request>, homes: seq<nat>, p: Placement, i: nat)
    requires i < |reqs| && PlacementOk(reqs, homes, i, p, reqs[i].t)
    ensures PlacementOk(reqs, homes, i + 1, Admit(reqs, homes, p, i), reqs[i].t)
  {
    var p' := Admit(reqs, homes, p, i);
    PushRetired(reqs, p.heap, i);
    if reqs[i].apiTime > 0.0 {
      AdmitCounts(reqs, homes, p, i);
    }
    hide CountsOk, RetiredOk, Pushed, StampOk;
    var n := i + 1;
    forall k ensures StampOk(reqs, homes, n, p', k) {
      AdmitStamp(reqs, homes, p, i, k);
    }
  }

  lemma AdmitStamp(reqs: seq<Request>, homes: seq<nat>, p: Placement, i: nat, k: Resident)
    requires i < |reqs| == |homes| && HeapOk(reqs, i, p.heap) && RetiredOk(reqs, i, p.heap, reqs[i].t)
    requires StampOk(reqs, homes, i, p, k)
    ensures StampOk(reqs, homes, i + 1, Admit(reqs, homes, p, i), k)
  {
    var p' := Admit(reqs, homes, p, i);
    PushRetired(reqs, p.heap, i);
    var n := i + 1;
    hide Pushed, Retired;
    assert forall j: nat :: Put(reqs, homes, n, p'.heap, j, k) <==> Put(reqs, homes, i, p.heap, j, k);
    assert p'.residency == p.residency;
    hide Put;
    assert StampOk(reqs, homes, n, p', k);
  }

  // ---- what an arrival reads ----

  /** The block is stamped and, with a limit, no longer ago than that. */
  predicate Fresh(p: Placement, k: Resident, now: real, ttl: Option<real>) {
    k in p.residency && (ttl.Some? ==> now - p.residency[k] <= ttl.value)
  }

  /** The number of leading blocks that are fresh on the worker. */
  method PrefixCount(p: Placement, w: Worker, hashes: seq<nat>, now: real, ttl: Option<real>) returns (n: nat)
    ensures n <= |hashes| && forall b :: 0 <= b < n ==> Fresh(p, Resident(w, hashes[b]), now, ttl)
    ensures n < |hashes| ==> !Fresh(p, Resident(w, hashes[n]), now, ttl)
  {
    n := 0;
    while n < |hashes| && Fresh(p, Resident(w, hashes[n]), now, ttl)
      invariant n <= |hashes| && forall b :: 0 <= b < n ==> Fresh(p, Resident(w, hashes[b]), now, ttl)
    {
      n := n + 1;
    }
  }

  method LeastLoadedWorker(counts: map<Worker, int>, m: nat, workers: nat) returns (target: nat)
    requires workers > 0
    ensures target < workers
    ensures forall w: nat :: w < workers ==>
              Load(counts, Worker(m, target)) < Load(counts, Worker(m, w))
              || (Load(counts, Worker(m, target)) == Load(counts, Worker(m, w)) && target <= w)
  {
    target := 0;
    for w := 1 to workers
      invariant target < w
      invariant forall v: nat :: v < w ==>
                  Load(counts, Worker(m, target)) < Load(counts, Worker(m, v))
                  || (Load(counts, Worker(m, target)) == Load(counts, Worker(m, v)) && target <= v)
    {
      if Load(counts, Worker(m, w)) < Load(counts, Worker(m, target)) {
        target := w;
      }
    }
  }

  lemma FreshIsWarm(reqs: seq<Request>, homes: seq<nat>, i: nat, p: Placement, k: Resident, ttl: Option<real>)
    requires i < |reqs| && PlacementOk(reqs, homes, i, p, reqs[i].t) && (p.heap != [] ==> p.heap[0].end > reqs[i].t)
    ensures Fresh(p, k, reqs[i].t, ttl) <==> Warm(reqs, homes, i, k, ttl)
  {
    RetiredHaveEnded(reqs, i, p.heap);
    assert forall j: nat :: Put(reqs, homes, i, p.heap, j, k) <==> Left(reqs, homes, i, j, k);
    assert StampOk(reqs, homes, i, p, k);
    hide Put, Left, CountsOk, ResidencyOk;
  }

  /** Hits are in blocks of 64 tokens. */
  datatype Choice = Choice(target: nat, sourceLoad: int, targetLoad: int, sourceHit: nat, targetHit: nat)

  /** What the census notes for request i, recounted from the records alone. */
  ghost predicate Chosen(reqs: seq<Request>, homes: seq<nat>, i: nat, workers: nat, ttl: Option<real>, c: Choice)
    requires i < |reqs| == |homes|
  {
    && LeastLoaded(reqs, homes, i, workers, c.target)
    && c.sourceLoad == |OnWorker(reqs, homes, InFlight(reqs, i), WorkerOf(reqs, homes, i))|
    && c.targetLoad == |OnWorker(reqs, homes, InFlight(reqs, i), Worker(reqs[i].stream.model, c.target))|
    && IsHit(reqs, homes, i, WorkerOf(reqs, homes, i), ttl, c.sourceHit)
    && IsHit(reqs, homes, i, Worker(reqs[i].stream.model, c.target), ttl, c.targetHit)
  }

  method Choose(reqs: seq<Request>, homes: seq<nat>, i: nat, p: Placement, workers: nat, ttl: Option<real>)
    returns (c: Choice)
    requires workers > 0 && i < |reqs| == |homes| && PlacementOk(reqs, homes, i, p, reqs[i].t)
    requires p.heap != [] ==> p.heap[0].end > reqs[i].t
    ensures Chosen(reqs, homes, i, workers, ttl, c)
  {
    hide Fresh, Warm;
    var r := reqs[i];
    var target := LeastLoadedWorker(p.counts, r.stream.model, workers);
    var hit := PrefixCount(p, WorkerOf(reqs, homes, i), r.hashes, r.t, ttl);
    var targetHit := PrefixCount(p, Worker(r.stream.model, target), r.hashes, r.t, ttl);
    LoadsAreRecounted(reqs, homes, i, p);
    hide PlacementOk, OnWorker, InFlight, Load;
    forall k ensures Fresh(p, k, r.t, ttl) <==> Warm(reqs, homes, i, k, ttl) {
      FreshIsWarm(reqs, homes, i, p, k, ttl);
    }
    c := Choice(target, Load(p.counts, WorkerOf(reqs, homes, i)), Load(p.counts, Worker(r.stream.model, target)), hit,
                targetHit);
  }

  lemma LoadsAreRecounted(reqs: seq<Request>, homes: seq<nat>, i: nat, p: Placement)
    requires i < |reqs| && PlacementOk(reqs, homes, i, p, reqs[i].t) && (p.heap != [] ==> p.heap[0].end > reqs[i].t)
    ensures forall w :: Load(p.counts, w) == |OnWorker(reqs, homes, InFlight(reqs, i), w)|
  {
    RetiredHaveEnded(reqs, i, p.heap);
    hide Live, InFlight, OnWorker, ResidencyOk, RetiredOk;
  }

  // ---- the counters ----

  /** The prefix lengths in tokens at which a source counts as warm. */
  const THRESHOLDS: seq<nat> := [8192, 32768, 65536]

  /** Arrivals with a warm source, those of them whose less loaded target misses some of it, the tokens missed, and
      those whose target is idle. */
  datatype Totals = Totals(warm: nat, mismatch: nat, missing: nat, idle: nat)

  predicate IsWarm(c: Choice, threshold: nat) { c.sourceHit > 0 && 64 * c.sourceHit >= threshold }

  predicate IsMismatch(c: Choice, home: nat, threshold: nat) {
    IsWarm(c, threshold) && c.target != home && c.sourceLoad > c.targetLoad && c.sourceHit > c.targetHit
  }

  function Missing(choices: seq<Choice>, homes: seq<nat>, threshold: nat): nat
    requires |choices| <= |homes|
  {
    if choices == [] then 0
    else
      var n := |choices| - 1;
      Missing(choices[..n], homes, threshold)
      + if IsMismatch(choices[n], homes[n], threshold) then 64 * (choices[n].sourceHit - choices[n].targetHit) else 0
  }

  datatype Counter = WARM | MISMATCH | IDLE

  predicate Counts(c: Choice, home: nat, threshold: nat, counter: Counter) {
    match counter
    case WARM => IsWarm(c, threshold)
    case MISMATCH => IsMismatch(c, home, threshold)
    case IDLE => IsMismatch(c, home, threshold) && c.targetLoad == 0
  }

  /** The arrivals that a counter counts. */
  function Counted(choices: seq<Choice>, homes: seq<nat>, threshold: nat, counter: Counter): set<nat>
    requires |choices| <= |homes|
  {
    set i | 0 <= i < |choices| && Counts(choices[i], homes[i], threshold, counter)
  }

  ghost predicate TotalsOk(t: Totals, choices: seq<Choice>, homes: seq<nat>, threshold: nat)
    requires |choices| <= |homes|
  {
    && t.warm == |Counted(choices, homes, threshold, WARM)|
    && t.mismatch == |Counted(choices, homes, threshold, MISMATCH)|
    && t.idle == |Counted(choices, homes, threshold, IDLE)|
    && t.missing == Missing(choices, homes, threshold)
  }

  /** The counters of one threshold in tokens: the arrivals whose source still has at least that much of their prefix,
      of these the ones that a less loaded other worker has less of, the tokens it lacks, and those it would take
      idle. */
  ghost predicate CountsArrivals(t: Totals, choices: seq<Choice>, homes: seq<nat>, threshold: nat)
    requires |choices| == |homes|
  {
    var warm := set i | 0 <= i < |choices| && choices[i].sourceHit > 0 && choices[i].sourceHit * 64 >= threshold;
    var lacking := set i | && i in warm && choices[i].target != homes[i]
                           && choices[i].targetLoad < choices[i].sourceLoad
                           && choices[i].targetHit < choices[i].sourceHit;
    && t.warm == |warm| && t.mismatch == |lacking|
    && t.idle == |set i | i in lacking && choices[i].targetLoad == 0|
    && t.missing == Lacked(choices, lacking, |choices|)
  }

  /** The tokens that the targets of the given ones of the first `n` arrivals lack. */
  ghost function Lacked(choices: seq<Choice>, lacking: set<int>, n: nat): int
    requires n <= |choices|
  {
    if n == 0 then 0
    else Lacked(choices, lacking, n - 1)
         + if n - 1 in lacking then (choices[n-1].sourceHit - choices[n-1].targetHit) * 64 else 0
  }

  lemma {:induction false} MissingIsLacked(choices: seq<Choice>, homes: seq<nat>, threshold: nat, lacking: set<int>,
                                           n: nat)
    requires n <= |choices| <= |homes|
    requires forall i :: 0 <= i < n ==> (i in lacking <==> IsMismatch(choices[i], homes[i], threshold))
    ensures Missing(choices[..n], homes, threshold) == Lacked(choices, lacking, n)
  {
    if n > 0 {
      MissingIsLacked(choices, homes, threshold, lacking, n - 1);
      assert choices[..n][..n-1] == choices[..n-1];
    }
  }

  lemma CountedArrivals(t: Totals, choices: seq<Choice>, homes: seq<nat>, threshold: nat)
    requires |choices| == |homes| && TotalsOk(t, choices, homes, threshold)
    ensures CountsArrivals(t, choices, homes, threshold)
  {
    var warm := set i | 0 <= i < |choices| && choices[i].sourceHit > 0 && choices[i].sourceHit * 64 >= threshold;
    var lacking := set i | && i in warm && choices[i].target != homes[i]
                           && choices[i].targetLoad < choices[i].sourceLoad
                           && choices[i].targetHit < choices[i].sourceHit;
    var idle := set i | i in lacking && choices[i].targetLoad == 0;
    SameSize(warm, Counted(choices, homes, threshold, WARM));
    SameSize(lacking, Counted(choices, homes, threshold, MISMATCH));
    SameSize(idle, Counted(choices, homes, threshold, IDLE));
    MissingIsLacked(choices, homes, threshold, lacking, |choices|);
    assert choices[..|choices|] == choices;
  }

  lemma AllCounted(totals: seq<Totals>, choices: seq<Choice>, homes: seq<nat>)
    requires |choices| == |homes| && |totals| == |THRESHOLDS|
    requires forall k :: 0 <= k < |THRESHOLDS| ==> TotalsOk(totals[k], choices, homes, THRESHOLDS[k])
    ensures CountsArrivals(totals[0], choices, homes, 8192)
    ensures CountsArrivals(totals[1], choices, homes, 32768)
    ensures CountsArrivals(totals[2], choices, homes, 65536)
  {
    hide TotalsOk, CountsArrivals;
    CountedArrivals(totals[0], choices, homes, THRESHOLDS[0]);
    CountedArrivals(totals[1], choices, homes, THRESHOLDS[1]);
    CountedArrivals(totals[2], choices, homes, THRESHOLDS[2]);
  }

  lemma {:induction false} SameSize(a: set<int>, b: set<nat>)
    requires forall i: int :: i in a <==> i >= 0 && i in b
    ensures |a| == |b|
  {
    if a != {} {
      var i := Member(a);
      SameSize(a - {i}, b - {i});
    } else {
      assert forall i: nat :: i in b ==> i in a;
      assert b == {};
    }
  }

  lemma Member<T>(s: set<T>) returns (x: T)
    requires s != {}
    ensures x in s
  {
    x :| x in s;
  }

  function Count(t: Totals, c: Choice, home: nat, threshold: nat): Totals {
    if !IsWarm(c, threshold) then t
    else if !IsMismatch(c, home, threshold) then t.(warm := t.warm + 1)
    else Totals(t.warm + 1, t.mismatch + 1, t.missing + 64 * (c.sourceHit - c.targetHit),
                t.idle + if c.targetLoad == 0 then 1 else 0)
  }

  lemma CountedNext(choices: seq<Choice>, c: Choice, homes: seq<nat>, threshold: nat, counter: Counter)
    requires |choices| < |homes|
    ensures |Counted(choices + [c], homes, threshold, counter)|
            == |Counted(choices, homes, threshold, counter)|
               + if Counts(c, homes[|choices|], threshold, counter) then 1 else 0
  {
    hide Counts;
    var before, n := Counted(choices, homes, threshold, counter), |choices|;
    assert Counted(choices + [c], homes, threshold, counter)
           == if Counts(c, homes[n], threshold, counter) then before + {n} else before;
  }

  lemma CountNext(t: Totals, choices: seq<Choice>, c: Choice, homes: seq<nat>, threshold: nat)
    requires |choices| < |homes| && TotalsOk(t, choices, homes, threshold)
    ensures TotalsOk(Count(t, c, homes[|choices|], threshold), choices + [c], homes, threshold)
  {
    assert (choices + [c])[..|choices|] == choices;
    CountedNext(choices, c, homes, threshold, WARM);
    CountedNext(choices, c, homes, threshold, MISMATCH);
    CountedNext(choices, c, homes, threshold, IDLE);
    hide Counted;
  }

  method CountAll(totals: seq<Totals>, choices: seq<Choice>, c: Choice, homes: seq<nat>) returns (more: seq<Totals>)
    requires |choices| < |homes| && |totals| == |THRESHOLDS|
    requires forall k :: 0 <= k < |THRESHOLDS| ==> TotalsOk(totals[k], choices, homes, THRESHOLDS[k])
    ensures |more| == |THRESHOLDS|
    ensures forall k :: 0 <= k < |THRESHOLDS| ==> TotalsOk(more[k], choices + [c], homes, THRESHOLDS[k])
  {
    hide TotalsOk, Count;
    more := [];
    for k := 0 to |THRESHOLDS|
      invariant |more| == k && forall l :: 0 <= l < k ==> TotalsOk(more[l], choices + [c], homes, THRESHOLDS[l])
    {
      CountNext(totals[k], choices, c, homes, THRESHOLDS[k]);
      more := more + [Count(totals[k], c, homes[|choices|], THRESHOLDS[k])];
    }
  }

  lemma NothingCounted(homes: seq<nat>, threshold: nat)
    ensures TotalsOk(Totals(0, 0, 0, 0), [], homes, threshold)
  {
  }

  /** The census of one assignment of homes: loads, source and target hits all agree with a direct recount, and the
      counters count them. */
  method Census(reqs: seq<Request>, homes: seq<nat>, workers: nat, ttl: Option<real>)
    returns (choices: seq<Choice>, totals: seq<Totals>)
    requires ByTime(reqs) && |homes| == |reqs| && workers > 0
    ensures |choices| == |reqs| && forall i :: 0 <= i < |reqs| ==> Chosen(reqs, homes, i, workers, ttl, choices[i])
    ensures |totals| == 3
    ensures CountsArrivals(totals[0], choices, homes, 8192)
    ensures CountsArrivals(totals[1], choices, homes, 32768)
    ensures CountsArrivals(totals[2], choices, homes, 65536)
  {
    hide PlacementOk, Chosen, Retire, Admit, Indexed, ByTime, TotalsOk, CountsArrivals;
    var p := Placement(map[], map[], []);
    choices, totals := [], [Totals(0, 0, 0, 0), Totals(0, 0, 0, 0), Totals(0, 0, 0, 0)];
    ghost var now := if reqs == [] then 0.0 else reqs[0].t;
    EmptyOk(reqs, homes, now);
    forall k | 0 <= k < |THRESHOLDS| ensures TotalsOk(totals[k], choices, homes, THRESHOLDS[k]) {
      NothingCounted(homes, THRESHOLDS[k]);
    }
    for i := 0 to |reqs|
      invariant PlacementOk(reqs, homes, i, p, now)
      invariant now == if i > 0 then reqs[i-1].t else if reqs == [] then 0.0 else reqs[0].t
      invariant |choices| == i && forall k :: 0 <= k < i ==> Chosen(reqs, homes, k, workers, ttl, choices[k])
      invariant |totals| == |THRESHOLDS|
      invariant forall k :: 0 <= k < |THRESHOLDS| ==> TotalsOk(totals[k], choices, homes, THRESHOLDS[k])
    {
      if i > 0 {
        NotBefore(reqs, i);
      }
      Later(reqs, homes, i, p, now, reqs[i].t);
      now := reqs[i].t;
      while p.heap != [] && p.heap[0].end <= reqs[i].t
        invariant PlacementOk(reqs, homes, i, p, now)
        decreases |p.heap|
      {
        HeapIsIndexed(reqs, homes, i, p, now);
        RetireKeepsOk(reqs, homes, i, p, now);
        p := Retire(reqs, homes, p);
      }
      var c := Choose(reqs, homes, i, p, workers, ttl);
      totals := CountAll(totals, choices, c, homes);
      choices := choices + [c];
      AdmitKeepsOk(reqs, homes, p, i);
      p := Admit(reqs, homes, p, i);
    }
    AllCounted(totals, choices, homes);
  }

  lemma EmptyOk(reqs: seq<Request>, homes: seq<nat>, now: real)
    requires |homes| == |reqs|
    ensures PlacementOk(reqs, homes, 0, Placement(map[], map[], []), now)
  {
  }

  lemma Later(reqs: seq<Request>, homes: seq<nat>, n: nat, p: Placement, now: real, later: real)
    requires PlacementOk(reqs, homes, n, p, now) && now <= later
    ensures PlacementOk(reqs, homes, n, p, later)
  {
    hide CountsOk, ResidencyOk;
  }

  lemma HeapIsIndexed(reqs: seq<Request>, homes: seq<nat>, n: nat, p: Placement, now: real)
    requires PlacementOk(reqs, homes, n, p, now)
    ensures Indexed(reqs, p.heap)
  {
  }
}
