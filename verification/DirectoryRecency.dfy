/**
Which engines a bounded directory still knows, over whole runs: the ones that fewer than max_engines others have
displaced since they were used last.
*/
module DirectoryRecency {
  import opened Wrappers
  import opened SnapshotDirectory

  /** The operation makes engine `k` the most recent: a believed inspection of it, or a lookup that finds it known. */
  predicate Uses(d: Directory, op: Operation, k: EngineName) {
    match op
    case Update(key, tokenIds, response) => key == k && key.IsKey() && WellFormed(tokenIds, response)
    case LookUp(key, tokenIds, _) =>
      key == k && key.IsKey() && tokenIds.List? && AllNat(tokenIds.items) && k in d.engines
    case _ => false
  }

  predicate Forgets(op: Operation, k: EngineName) {
    match op
    case Discard(key) => key == k && key.IsKey()
    case Clear => true
    case _ => false
  }

  /** The engines used by the operations after number `j` and not discarded since. */
  function UsedSince(l: Limits, ops: seq<Operation>, j: nat): set<EngineName>
    requires l.Accepted()
  {
    if |ops| <= j + 1 then {}
    else
      var front, op := ops[..|ops|-1], ops[|ops|-1];
      OneMore(RunOf(l, front), op, UsedSince(l, front, j))
  }

  function OneMore(d: Directory, op: Operation, used: set<EngineName>): set<EngineName> {
    match op
    case Update(key, _, _) => if Uses(d, op, key) then used + {key} else used
    case LookUp(key, _, _) => if Uses(d, op, key) then used + {key} else used
    case Discard(key) => if key.IsKey() then used - {key} else used
    case Clear => {}
  }

  /** Operation `j` is the last one of the run that uses engine `k`, and `k` is not discarded after it. */
  ghost predicate LastUse(l: Limits, ops: seq<Operation>, k: EngineName, j: nat)
    requires l.Accepted()
  {
    && j < |ops| && Uses(RunOf(l, ops[..j]), ops[j], k)
    && forall i :: j < i < |ops| ==> !Uses(RunOf(l, ops[..i]), ops[i], k) && !Forgets(ops[i], k)
  }

  /** Since then there was always room for it beside the others. */
  ghost predicate AlwaysRoom(l: Limits, ops: seq<Operation>, j: nat)
    requires l.Accepted()
  {
    forall t :: j < t <= |ops| ==> |UsedSince(l, ops[..t], j)| < l.engines
  }

  ghost predicate Recent(l: Limits, ops: seq<Operation>, k: EngineName, j: nat)
    requires l.Accepted()
  {
    LastUse(l, ops, k, j) && AlwaysRoom(l, ops, j)
  }

  // ---- what is more recent than a key ----

  /** The keys behind `k`. */
  function Behind(order: seq<EngineName>, k: EngineName): set<EngineName> {
    if order == [] then {} else if order[0] == k then Elems(order[1..]) else Behind(order[1..], k)
  }

  lemma {:induction false} BehindAppend(order: seq<EngineName>, x: EngineName, k: EngineName)
    requires k in order
    ensures Behind(order + [x], k) == Behind(order, k) + {x}
  {
    assert (order + [x])[1..] == order[1..] + [x];
    if order[0] != k {
      BehindAppend(order[1..], x, k);
    } else {
      assert Elems(order[1..] + [x]) == Elems(order[1..]) + {x};
    }
  }

  lemma {:induction false} BehindLast(order: seq<EngineName>, k: EngineName)
    requires k !in order
    ensures Behind(order + [k], k) == {}
  {
    if order != [] {
      assert (order + [k])[1..] == order[1..] + [k];
      BehindLast(order[1..], k);
    }
  }

  lemma {:induction false} BehindWithout(order: seq<EngineName>, x: EngineName, k: EngineName)
    requires k in order && x != k
    ensures k in Without(order, {x}) && Behind(Without(order, {x}), k) == Behind(order, k) - {x}
  {
    assert order == [order[0]] + order[1..];
    if order[0] == k {
      var rest := Without(order[1..], {x});
      assert Without(order, {x}) == [k] + rest && ([k] + rest)[1..] == rest;
    } else {
      BehindWithout(order[1..], x, k);
      if order[0] != x {
        var rest := Without(order[1..], {x});
        assert Without(order, {x}) == [order[0]] + rest && ([order[0]] + rest)[1..] == rest;
      }
    }
  }

  lemma {:induction false} DistinctCount(s: seq<EngineName>)
    requires Distinct(s)
    ensures |Elems(s)| == |s|
  {
    if s != [] {
      HeadIsGone(s);
      DistinctCount(s[1..]);
    }
  }

  lemma {:induction false} BehindCount(order: seq<EngineName>, k: EngineName)
    requires Distinct(order) && k in order
    ensures k !in Behind(order, k) && Behind(order, k) <= Elems(order)
    ensures |Behind(order, k)| < |order| && (|Behind(order, k)| == |order| - 1 <==> order[0] == k)
  {
    HeadIsGone(order);
    assert order == [order[0]] + order[1..];
    if order[0] == k {
      DistinctCount(order[1..]);
    } else {
      BehindCount(order[1..], k);
    }
  }

  // ---- one operation ----

  /** A key that moves to the end comes behind all others. */
  lemma MovedBehind(order: seq<EngineName>, key: EngineName, k: EngineName)
    requires Distinct(order) && k in order && key != k
    ensures var moved := Without(order, {key}) + [key];
            k in moved && Distinct(moved) && Behind(moved, k) == Behind(order, k) + {key}
    ensures var moved := Without(order, {key}) + [key];
            && |moved| == |order| + (if key in order then 0 else 1) && |Behind(order, k) + {key}| < |moved|
  {
    MovedToEnd(order, key);
    RemoveKey(order, key);
    BehindWithout(order, key, k);
    BehindAppend(Without(order, {key}), key, k);
    hide Without, Distinct, Behind;
    var moved := Without(order, {key}) + [key];
    assert Behind(order, k) - {key} + {key} == Behind(order, k) + {key};
    BehindCount(moved, k);
  }

  /** After an update of another engine `k` is known if and only if that leaves fewer than the limit behind it. */
  lemma ReorderedBehind(l: Limits, order: seq<EngineName>, key: EngineName, k: EngineName)
    requires l.Accepted() && Distinct(order) && |order| <= l.engines && k in order && key != k
    ensures var after, used := Reordered(l, order, key), Behind(order, k) + {key};
            && (k in after <==> |used| < l.engines)
            && (k in after ==> Behind(after, k) == used)
  {
    hide Without, Distinct, Last;
    MovedBehind(order, key, k);
    var moved := Without(order, {key}) + [key];
    if |moved| <= l.engines {
      LastOfShort(moved, l.engines);
    } else {
      LastOf(moved, l.engines);
      HeadLeaves(order, key, k);
      WithoutMoves(order, key);
    }
  }

  lemma HeadLeaves(order: seq<EngineName>, key: EngineName, k: EngineName)
    requires Distinct(order) && k in order && key !in order
    ensures var after, used := (order + [key])[1..], Behind(order, k) + {key};
            && (k in after <==> |used| < |order|)
            && (k in after ==> Behind(after, k) == used)
  {
    BehindCount(order, k);
    BehindAppend(order, key, k);
    HeadIsGone(order);
    assert (order + [key])[1..] == order[1..] + [key];
    assert |Behind(order, k) + {key}| == |Behind(order, k)| + 1;
    hide Distinct;
  }

  /** An engine that is used becomes the most recent. */
  lemma UsedIsLast(l: Limits, d: Directory, op: Operation, k: EngineName)
    requires l.Accepted() && DirectoryOk(l, d) && Uses(d, op, k)
    ensures var after := Apply(l, d, op);
            k in after.engines && Behind(after.order, k) == {}
  {
    hide Distinct, Without, Last, EngineOk, Observed, EngineOrNew, Longest, Touched, Confirmation, WellFormed, Behind;
    OrderParts(l, d);
    var rest := Without(d.order, {k});
    BehindLast(rest, k);
    if op.Update? {
      MovedToEnd(d.order, k);
      EndSurvives(l, d.order, k);
    }
  }

  lemma EndSurvives(l: Limits, order: seq<EngineName>, k: EngineName)
    requires l.Accepted() && Distinct(order) && |order| <= l.engines
    ensures k in Reordered(l, order, k) && Behind(Reordered(l, order, k), k) == {}
  {
    hide Last, Distinct;
    RemoveKey(order, k);
    var rest := Without(order, {k});
    var moved := rest + [k];
    BehindLast(rest, k);
    if |moved| <= l.engines {
      LastOfShort(moved, l.engines);
    } else {
      LastOf(moved, l.engines);
      assert moved[1..] == rest[1..] + [k];
      BehindLast(rest[1..], k);
    }
  }

  /** What an operation that neither uses nor forgets `k` makes of its place. */
  lemma OtherOperation(l: Limits, d: Directory, op: Operation, k: EngineName)
    requires l.Accepted() && DirectoryOk(l, d) && !Uses(d, op, k) && !Forgets(op, k)
    ensures var after, used := Apply(l, d, op), OneMore(d, op, Behind(d.order, k));
            && (k !in d.engines ==> k !in after.engines)
            && (k in d.engines ==>
                  && (k in after.engines <==> |used| < l.engines)
                  && (k in after.engines ==> Behind(after.order, k) == used))
  {
    hide Distinct, Without, Last, EngineOk, Observed, EngineOrNew, Longest, Touched, Confirmation, WellFormed, Behind;
    OrderParts(l, d);
    if k in d.engines {
      BehindCount(d.order, k);
      match op
      case Update(key, _, _) => if Uses(d, op, key) { ReorderedBehind(l, d.order, key, k); }
      case LookUp(key, _, _) => if Uses(d, op, key) { MovedBehind(d.order, key, k); }
      case Discard(key) =>
        if key.IsKey() {
          BehindWithout(d.order, key, k);
          NotBehind(d, key, k);
        }
    }
  }

  lemma NotBehind(d: Directory, key: EngineName, k: EngineName)
    requires k in d.order && Distinct(d.order) && |Behind(d.order, k)| < |d.order|
    ensures |Behind(d.order, k) - {key}| < |d.order|
    ensures key !in d.order ==> Behind(d.order, k) - {key} == Behind(d.order, k)
  {
    BehindCount(d.order, k);
    assert Behind(d.order, k) - {key} <= Behind(d.order, k);
    SubsetCount(Behind(d.order, k) - {key}, Behind(d.order, k));
  }

  lemma {:induction false} SubsetCount(a: set<EngineName>, b: set<EngineName>)
    requires a <= b
    ensures |a| <= |b|
  {
    assert b == a + (b - a);
  }

  // ---- whole runs ----

  lemma {:induction false} Prefixes(ops: seq<Operation>, t: nat)
    requires ops != [] && t < |ops|
    ensures ops[..|ops|-1][..t] == ops[..t] && (t < |ops| - 1 ==> ops[..|ops|-1][t] == ops[t])
  {
  }

  /** The last use of a run is that of its front, or its last operation. */
  lemma LastUseSplit(l: Limits, ops: seq<Operation>, k: EngineName, j: nat)
    requires l.Accepted() && ops != []
    ensures var n := |ops| - 1;
            var front, op := ops[..n], ops[n];
            && (j < n ==> (LastUse(l, ops, k, j) <==>
                             LastUse(l, front, k, j) && !Uses(RunOf(l, front), op, k) && !Forgets(op, k)))
            && (j == n ==> (LastUse(l, ops, k, j) <==> Uses(RunOf(l, front), op, k)))
  {
    hide RunOf, Uses, Forgets;
    var n := |ops| - 1;
    var front := ops[..n];
    forall i: nat | i < n ensures front[..i] == ops[..i] && front[i] == ops[i] {
      Prefixes(ops, i);
    }
    if j < n && LastUse(l, front, k, j) && !Uses(RunOf(l, front), ops[n], k) && !Forgets(ops[n], k) {
      forall i | j < i < |ops| ensures !Uses(RunOf(l, ops[..i]), ops[i], k) && !Forgets(ops[i], k) {
        assert i < n ==> front[i] == ops[i];
      }
    }
    if j < n && LastUse(l, ops, k, j) {
      assert !Uses(RunOf(l, ops[..n]), ops[n], k);
      forall i | j < i < n ensures !Uses(RunOf(l, front[..i]), front[i], k) && !Forgets(front[i], k) {
        assert !Uses(RunOf(l, ops[..i]), ops[i], k);
      }
    }
  }

  lemma RoomSplit(l: Limits, ops: seq<Operation>, j: nat)
    requires l.Accepted() && ops != []
    ensures j < |ops| - 1 ==>
              (AlwaysRoom(l, ops, j) <==> AlwaysRoom(l, ops[..|ops|-1], j) && |UsedSince(l, ops, j)| < l.engines)
    ensures j == |ops| - 1 ==> AlwaysRoom(l, ops, j)
  {
    hide UsedSince;
    var n := |ops| - 1;
    var front := ops[..n];
    forall t: nat | t <= n ensures front[..t] == ops[..t] {
      assert t < |ops|;
    }
    assert ops[..|ops|] == ops;
    if j == n {
      NothingSince(l, ops, j);
    } else if j < n {
      if AlwaysRoom(l, ops, j) {
        assert |UsedSince(l, ops[..|ops|], j)| < l.engines;
        forall t | j < t <= n ensures |UsedSince(l, front[..t], j)| < l.engines {
          assert |UsedSince(l, ops[..t], j)| < l.engines;
        }
      }
      if AlwaysRoom(l, front, j) && |UsedSince(l, ops, j)| < l.engines {
        forall t | j < t <= |ops| ensures |UsedSince(l, ops[..t], j)| < l.engines {
          assert t <= n ==> |UsedSince(l, front[..t], j)| < l.engines;
        }
      }
    }
  }

  lemma NothingSince(l: Limits, ops: seq<Operation>, j: nat)
    requires l.Accepted() && |ops| <= j + 1
    ensures UsedSince(l, ops, j) == {}
  {
  }

  /** A known engine has a last use; what is behind it is what was used since. */
  lemma {:induction false} KnownIsRecent(l: Limits, ops: seq<Operation>, k: EngineName) returns (j: nat)
    requires l.Accepted() && k in RunOf(l, ops).engines
    ensures Recent(l, ops, k, j) && Behind(RunOf(l, ops).order, k) == UsedSince(l, ops, j)
  {
    hide Apply, Uses, Forgets, LastUse, AlwaysRoom, Behind, DirectoryOk;
    var n := |ops| - 1;
    var front, op := ops[..n], ops[n];
    var d := RunOf(l, front);
    RetainedAreConfirmed(l, front, k);
    if Uses(d, op, k) {
      j := n;
      UsedIsLast(l, d, op, k);
    } else {
      if Forgets(op, k) {
        ForgottenIsGone(l, d, op, k);
      }
      OtherOperation(l, d, op, k);
      j := KnownIsRecent(l, front, k);
    }
    LastUseSplit(l, ops, k, j);
    RoomSplit(l, ops, j);
    LastUseBound(l, front, k, j);
  }

  lemma LastUseBound(l: Limits, ops: seq<Operation>, k: EngineName, j: nat)
    requires l.Accepted()
    ensures LastUse(l, ops, k, j) ==> j < |ops|
  {
  }

  lemma ForgottenIsGone(l: Limits, d: Directory, op: Operation, k: EngineName)
    requires l.Accepted() && DirectoryOk(l, d) && Forgets(op, k)
    ensures k !in Apply(l, d, op).engines
  {
  }

  lemma {:induction false} RecentIsKnown(l: Limits, ops: seq<Operation>, k: EngineName, j: nat)
    requires l.Accepted() && Recent(l, ops, k, j)
    ensures k in RunOf(l, ops).engines && Behind(RunOf(l, ops).order, k) == UsedSince(l, ops, j)
  {
    LastUseBound(l, ops, k, j);
    hide Apply, Uses, Forgets, LastUse, AlwaysRoom, Behind, DirectoryOk;
    var n := |ops| - 1;
    var front, op := ops[..n], ops[n];
    var d := RunOf(l, front);
    RetainedAreConfirmed(l, front, k);
    LastUseSplit(l, ops, k, j);
    RoomSplit(l, ops, j);
    if j == n {
      UsedIsLast(l, d, op, k);
    } else {
      RecentIsKnown(l, front, k, j);
      OtherOperation(l, d, op, k);
    }
  }

  /**
  After any run an engine is known if and only if it was used, was not discarded since its last use, and at every moment
  since then fewer than max_engines others stood behind that use: used after it and not discarded since.
  */
  lemma KnownIffRecent(l: Limits, ops: seq<Operation>, k: EngineName)
    requires l.Accepted()
    ensures k in RunOf(l, ops).engines <==> exists j: nat :: Recent(l, ops, k, j)
  {
    hide RunOf, Recent;
    if k in RunOf(l, ops).engines {
      var j := KnownIsRecent(l, ops, k);
    }
    if j: nat :| Recent(l, ops, k, j) {
      RecentIsKnown(l, ops, k, j);
    }
  }
}
