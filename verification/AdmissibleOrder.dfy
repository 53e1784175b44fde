/**
order_admissible_first and the brute-force oracle it is compared with.  Deadlines and
durations are exact reals.
*/
module AdmissibleOrder {
  import opened Sorting

  datatype Job = Job(id: int, deadline: real, duration: real, size: int)

  datatype Split = Split(admitted: seq<Job>, deferred: seq<Job>)

  predicate ByDeadline(x: Job, y: Job) { x.deadline <= y.deadline }

  predicate ByDeadlineThenDuration(x: Job, y: Job) {
    x.deadline < y.deadline || (x.deadline == y.deadline && x.duration <= y.duration)
  }

  predicate Heavier(x: Job, y: Job) {
    x.duration > y.duration || (x.duration == y.duration && x.size > y.size)
  }

  function Total(jobs: seq<Job>): real {
    if jobs == [] then 0.0 else Total(jobs[..|jobs|-1]) + jobs[|jobs|-1].duration
  }

  /** Where `max` finds the longest job: the first one that no other is heavier than. */
  function LongestIndex(jobs: seq<Job>): (i: nat)
    requires jobs != []
    ensures i < |jobs|
  {
    if |jobs| == 1 then 0
    else
      var i := LongestIndex(jobs[..|jobs|-1]);
      if Heavier(jobs[|jobs|-1], jobs[i]) then |jobs| - 1 else i
  }

  function AdmitOne(p: Split, job: Job): Split {
    var admitted := p.admitted + [job];
    if Total(admitted) > job.deadline then
      var i := LongestIndex(admitted);
      Split(admitted[..i] + admitted[i+1..], p.deferred + [admitted[i]])
    else Split(admitted, p.deferred)
  }

  function Admit(jobs: seq<Job>): Split {
    if jobs == [] then Split([], []) else AdmitOne(Admit(jobs[..|jobs|-1]), jobs[|jobs|-1])
  }

  function AdmissibleFirst(items: seq<Job>): seq<Job> {
    var p := Admit(Sort(items, ByDeadline));
    p.admitted + Sort(p.deferred, ByDeadlineThenDuration)
  }

  lemma {:induction false} AdmitNext(jobs: seq<Job>, n: nat)
    requires n < |jobs|
    ensures Admit(jobs[..n+1]) == AdmitOne(Admit(jobs[..n]), jobs[n])
  {
    assert jobs[..n+1][..n] == jobs[..n];
    hide AdmitOne;
  }

  lemma TotalNext(jobs: seq<Job>, job: Job)
    ensures Total(jobs + [job]) == Total(jobs) + job.duration
  {
    assert (jobs + [job])[..|jobs|] == jobs;
  }

  method OrderAdmissibleFirst(items: seq<Job>) returns (order: seq<Job>)
    ensures order == AdmissibleFirst(items) && FollowsPolicy(items, order)
  {
    var admitted: seq<Job>, deferred: seq<Job> := [], [];
    var elapsed := 0.0;
    var sorted := Sort(items, ByDeadline);
    assert Total([]) == 0.0 && Admit([]) == Split([], []);
    hide Sort, LongestIndex, Total, Admit;
    for n := 0 to |sorted|
      invariant Split(admitted, deferred) == Admit(sorted[..n])
      invariant elapsed == Total(admitted)
    {
      var item := sorted[n];
      AdmitNext(sorted, n);
      TotalNext(admitted, item);
      admitted := admitted + [item];
      elapsed := elapsed + item.duration;
      if elapsed > item.deadline {
        var i := LongestIndex(admitted);
        TotalWithout(admitted, i);
        deferred := deferred + [admitted[i]];
        elapsed := elapsed - admitted[i].duration;
        admitted := admitted[..i] + admitted[i+1..];
      }
    }
    assert sorted[..|sorted|] == sorted;
    order := admitted + Sort(deferred, ByDeadlineThenDuration);
    ResultFollowsPolicy(items);
  }

  lemma {:induction false} TotalWithout(jobs: seq<Job>, i: nat)
    requires i < |jobs|
    ensures Total(jobs[..i] + jobs[i+1..]) == Total(jobs) - jobs[i].duration
  {
    var n := |jobs| - 1;
    if i == n {
      assert jobs[..i] + jobs[i+1..] == jobs[..n];
    } else {
      TotalWithout(jobs[..n], i);
      var rest := jobs[..i] + jobs[i+1..];
      assert rest[..|rest|-1] == jobs[..n][..i] + jobs[..n][i+1..];
    }
  }

  // ---- the cost of an order ----

  /** How many jobs of a serial order finish after their deadline. */
  function LateCount(order: seq<Job>): nat {
    if order == [] then 0
    else LateCount(order[..|order|-1]) + if Total(order) > order[|order|-1].deadline then 1 else 0
  }

  function Exposure(order: seq<Job>): real
    requires order != []
  {
    var late := Total(order) - order[|order|-1].deadline;
    if late > 0.0 then late else 0.0
  }

  function ExposureSum(order: seq<Job>): real {
    if order == [] then 0.0 else ExposureSum(order[..|order|-1]) + Exposure(order)
  }

  function ExposureMax(order: seq<Job>): real {
    if order == [] then 0.0
    else
      var before := ExposureMax(order[..|order|-1]);
      if Exposure(order) > before then Exposure(order) else before
  }

  /** projected_cost: late jobs, total and worst exposure. */
  method ProjectedCost(order: seq<Job>) returns (late: nat, total: real, worst: real)
    ensures late == LateCount(order) && total == ExposureSum(order) && worst == ExposureMax(order)
  {
    var completion := 0.0;
    late, total, worst := 0, 0.0, 0.0;
    for n := 0 to |order|
      invariant completion == Total(order[..n])
      invariant late == LateCount(order[..n]) && total == ExposureSum(order[..n]) && worst == ExposureMax(order[..n])
    {
      assert order[..n+1][..n] == order[..n];
      completion := completion + order[n].duration;
      var exposed := if completion - order[n].deadline > 0.0 then completion - order[n].deadline else 0.0;
      late := late + if exposed > 0.0 then 1 else 0;
      total := total + exposed;
      worst := if exposed > worst then exposed else worst;
    }
    assert order[..|order|] == order;
  }

  // ---- subsets of the deadline-sorted jobs, as sets of positions below n ----

  ghost function Dur(s: seq<Job>, f: set<nat>, n: nat): real
    requires n <= |s|
  {
    if n == 0 then 0.0 else Dur(s, f, n - 1) + if n - 1 in f then s[n-1].duration else 0.0
  }

  ghost function Count(f: set<nat>, n: nat): nat {
    if n == 0 then 0 else Count(f, n - 1) + if n - 1 in f then 1 else 0
  }

  /** Running the subset in deadline order, every job of it is on time. */
  ghost predicate Feasible(s: seq<Job>, f: set<nat>, n: nat)
    requires n <= |s|
  {
    forall i :: i in f ==> i < n && Dur(s, f, i + 1) <= s[i].deadline
  }

  ghost predicate Valid(s: seq<Job>) {
    SortedBy(s, ByDeadline) && forall i :: 0 <= i < |s| ==> s[i].duration >= 0.0
  }

  lemma {:induction false} DurAdd(s: seq<Job>, f: set<nat>, x: nat, n: nat)
    requires n <= |s| && x !in f && x < |s|
    ensures Dur(s, f + {x}, n) == Dur(s, f, n) + if x < n then s[x].duration else 0.0
  {
    if n > 0 {
      DurAdd(s, f, x, n - 1);
    }
  }

  lemma {:induction false} CountAdd(f: set<nat>, x: nat, n: nat)
    requires x !in f
    ensures Count(f + {x}, n) == Count(f, n) + if x < n then 1 else 0
  {
    if n > 0 {
      CountAdd(f, x, n - 1);
    }
  }

  lemma {:induction false} CountSubset(g: set<nat>, f: set<nat>, n: nat)
    requires g <= f
    ensures Count(g, n) <= Count(f, n)
  {
    if n > 0 {
      CountSubset(g, f, n - 1);
    }
  }

  lemma {:induction false} DurSubset(s: seq<Job>, g: set<nat>, f: set<nat>, n: nat)
    requires Valid(s) && n <= |s| && g <= f
    ensures 0.0 <= Dur(s, g, n) <= Dur(s, f, n)
  {
    if n > 0 {
      DurSubset(s, g, f, n - 1);
    }
  }

  /** Past its last member a subset takes no more time. */
  lemma {:induction false} DurPast(s: seq<Job>, f: set<nat>, m: nat, n: nat)
    requires m <= n <= |s| && forall i :: i in f ==> i < m
    ensures Dur(s, f, n) == Dur(s, f, m)
    decreases n
  {
    if m < n {
      DurPast(s, f, m, n - 1);
    }
  }

  // ---- what the algorithm keeps ----

  ghost function Heaviest(s: seq<Job>, f: set<nat>, n: nat): (h: nat)
    requires n <= |s| && exists i :: i in f && i < n
    ensures h in f && h < n && forall i :: i in f && i < n ==> s[i].duration <= s[h].duration
  {
    if n - 1 !in f then Heaviest(s, f, n - 1)
    else if forall i :: i in f ==> i >= n - 1 then n - 1
    else
      var h := Heaviest(s, f, n - 1);
      if Heavier(s[n-1], s[h]) then n - 1 else h
  }

  /** The positions admitted after the first n jobs. */
  ghost function Keep(s: seq<Job>, n: nat): (k: set<nat>)
    requires n <= |s|
    ensures forall i :: i in k ==> i < n
  {
    if n == 0 then {}
    else
      var t := Keep(s, n - 1) + {n - 1};
      assert n - 1 in t;
      if Dur(s, t, n) > s[n-1].deadline then t - {Heaviest(s, t, n)} else t
  }

  ghost function Listed(s: seq<Job>, f: set<nat>, n: nat): seq<Job>
    requires n <= |s|
  {
    if n == 0 then [] else if n - 1 in f then Listed(s, f, n - 1) + [s[n-1]] else Listed(s, f, n - 1)
  }

  lemma {:induction false} ListedMeasures(s: seq<Job>, f: set<nat>, n: nat)
    requires n <= |s|
    ensures Total(Listed(s, f, n)) == Dur(s, f, n) && |Listed(s, f, n)| == Count(f, n)
  {
    if n > 0 {
      ListedMeasures(s, f, n - 1);
      var l := Listed(s, f, n - 1);
      assert (l + [s[n-1]])[..|l|] == l;
    }
  }

  lemma {:induction false} ListedSame(s: seq<Job>, f: set<nat>, g: set<nat>, n: nat)
    requires n <= |s| && forall i :: 0 <= i < n ==> (i in f <==> i in g)
    ensures Listed(s, f, n) == Listed(s, g, n)
  {
    if n > 0 {
      ListedSame(s, f, g, n - 1);
    }
  }

  lemma {:induction false} ListedEmpty(s: seq<Job>, f: set<nat>, n: nat)
    requires n <= |s| && forall i :: i in f ==> i >= n
    ensures Listed(s, f, n) == []
  {
    if n > 0 {
      ListedEmpty(s, f, n - 1);
    }
  }

  lemma CutAppended(front: seq<Job>, x: Job, i: nat)
    requires i < |front|
    ensures var l := front + [x];
            && l[..|front|] + l[|front|+1..] == front
            && l[..i] + l[i+1..] == front[..i] + front[i+1..] + [x]
  {
    var l := front + [x];
    assert l[|front|+1..] == [] && l[..|front|] == front;
    assert l[..i] == front[..i] && l[i+1..] == front[i+1..] + [x];
  }

  /** How appending a job to a list moves its longest job. */
  lemma LongestNext(front: seq<Job>, x: Job)
    requires front != []
    ensures var l, i := front + [x], LongestIndex(front);
            && LongestIndex(l) == (if Heavier(x, front[i]) then |front| else i)
            && (Heavier(x, front[i]) ==> l[..|front|] + l[|front|+1..] == front)
            && (!Heavier(x, front[i]) ==> l[..i] + l[i+1..] == front[..i] + front[i+1..] + [x])
  {
    var l := front + [x];
    assert l[..|l|-1] == front;
    CutAppended(front, x, LongestIndex(front));
  }

  ghost predicate SameLongest(s: seq<Job>, f: set<nat>, n: nat)
    requires n <= |s| && exists i :: i in f && i < n
  {
    var l := Listed(s, f, n);
    && l != []
    && var i, h := LongestIndex(l), Heaviest(s, f, n);
       l[i] == s[h] && l[..i] + l[i+1..] == Listed(s, f - {h}, n)
  }

  lemma SameLongestOne(s: seq<Job>, f: set<nat>, n: nat)
    requires 0 < n <= |s| && n - 1 in f && forall i :: i in f ==> i >= n - 1
    ensures SameLongest(s, f, n)
  {
    ListedEmpty(s, f, n - 1);
    ListedSame(s, f, f - {n - 1}, n - 1);
    assert Listed(s, f, n) == [s[n-1]];
  }

  lemma SameLongestMore(s: seq<Job>, f: set<nat>, n: nat)
    requires 0 < n <= |s| && n - 1 in f && exists i :: i in f && i < n - 1
    requires SameLongest(s, f, n - 1)
    ensures SameLongest(s, f, n)
  {
    var front := Listed(s, f, n - 1);
    var i, h := LongestIndex(front), Heaviest(s, f, n - 1);
    LongestNext(front, s[n-1]);
    assert Listed(s, f, n) == front + [s[n-1]];
    assert Heaviest(s, f, n) == if Heavier(s[n-1], s[h]) then n - 1 else h;
    if Heavier(s[n-1], s[h]) {
      ListedSame(s, f, f - {n - 1}, n - 1);
      assert Listed(s, f - {n - 1}, n) == front;
    } else {
      assert Listed(s, f - {h}, n) == Listed(s, f - {h}, n - 1) + [s[n-1]];
    }
    hide Listed, LongestIndex, Heaviest, Heavier;
  }

  /** The list's longest job is the heaviest position, and removing one removes the other. */
  lemma {:induction false} LongestIsHeaviest(s: seq<Job>, f: set<nat>, n: nat)
    requires n <= |s| && exists i :: i in f && i < n
    ensures SameLongest(s, f, n)
  {
    if n - 1 !in f {
      LongestIsHeaviest(s, f, n - 1);
    } else if forall i :: i in f ==> i >= n - 1 {
      SameLongestOne(s, f, n);
    } else {
      LongestIsHeaviest(s, f, n - 1);
      SameLongestMore(s, f, n);
    }
  }

  /** The admitted list is the kept positions in order. */
  lemma {:induction false} AdmitIsKeep(s: seq<Job>, n: nat)
    requires n <= |s|
    ensures Admit(s[..n]).admitted == Listed(s, Keep(s, n), n)
  {
    if n > 0 {
      AdmitIsKeep(s, n - 1);
      AdmitNext(s, n - 1);
      KeepIsAdmitOne(s, n, Admit(s[..n-1]));
    }
  }

  lemma KeepIsAdmitOne(s: seq<Job>, n: nat, p: Split)
    requires 0 < n <= |s| && p.admitted == Listed(s, Keep(s, n - 1), n - 1)
    ensures AdmitOne(p, s[n-1]).admitted == Listed(s, Keep(s, n), n)
  {
    var k := Keep(s, n - 1);
    var t := k + {n - 1};
    ListedSame(s, k, t, n - 1);
    assert n - 1 in t;
    assert Listed(s, t, n) == p.admitted + [s[n-1]];
    ListedMeasures(s, t, n);
    LongestIsHeaviest(s, t, n);
    assert Keep(s, n) == if Dur(s, t, n) > s[n-1].deadline then t - {Heaviest(s, t, n)} else t;
    hide Listed, LongestIndex, Heaviest, Keep, Dur, Total;
  }

  // ---- the kept set is feasible ----

  /** Dropping the heaviest leaves no more work than before the newest job came. */
  lemma DropHeaviest(s: seq<Job>, k: set<nat>, n: nat)
    requires 0 < n <= |s| && forall i :: i in k ==> i < n - 1
    ensures n - 1 in k + {n - 1}
    ensures Dur(s, k + {n - 1} - {Heaviest(s, k + {n - 1}, n)}, n) <= Dur(s, k, n - 1)
  {
    var t := k + {n - 1};
    assert n - 1 in t;
    var h := Heaviest(s, t, n);
    assert t - {h} + {h} == t;
    DurAdd(s, k, n - 1, n);
    DurAdd(s, t - {h}, h, n);
    DurPast(s, k, n - 1, n);
  }

  /** The whole kept set is done by the newest deadline, if that held one job earlier. */
  lemma KeepMeetsNewest(s: seq<Job>, n: nat)
    requires Valid(s) && 0 < n <= |s|
    requires Keep(s, n - 1) != {} ==> n > 1 && Dur(s, Keep(s, n - 1), n - 1) <= s[n-2].deadline
    ensures Keep(s, n) != {} ==> Dur(s, Keep(s, n), n) <= s[n-1].deadline
  {
    var k := Keep(s, n - 1);
    var t := k + {n - 1};
    assert n - 1 in t;
    if Dur(s, t, n) > s[n-1].deadline {
      DropHeaviest(s, k, n);
      if k == {} {
        assert Heaviest(s, t, n) == n - 1;
        assert Keep(s, n) == {};
      } else {
        assert ByDeadline(s[n-2], s[n-1]);
      }
    }
  }

  /** Dropping members does not make the earlier ones later. */
  lemma EarlierStayOnTime(s: seq<Job>, k: set<nat>, kept: set<nat>, j: nat)
    requires Valid(s) && j < |s| && Feasible(s, k, j) && kept <= k + {j}
    ensures forall i :: i in kept && i < j ==> Dur(s, kept, i + 1) <= s[i].deadline
  {
    forall i | i in kept && i < j ensures Dur(s, kept, i + 1) <= s[i].deadline {
      DurAdd(s, k, j, i + 1);
      DurSubset(s, kept, k + {j}, i + 1);
    }
  }

  lemma {:induction false} KeepIsFeasible(s: seq<Job>, n: nat)
    requires Valid(s) && n <= |s|
    ensures Feasible(s, Keep(s, n), n)
    ensures Keep(s, n) != {} ==> n > 0 && Dur(s, Keep(s, n), n) <= s[n-1].deadline
  {
    if n > 0 {
      KeepIsFeasible(s, n - 1);
      KeepMeetsNewest(s, n);
      EarlierStayOnTime(s, Keep(s, n - 1), Keep(s, n), n - 1);
    }
  }

  // ---- and dominates every other feasible set ----

  /** Without the newest job a feasible subset is feasible among the earlier ones. */
  lemma DropNewest(s: seq<Job>, f: set<nat>, n: nat)
    requires 0 < n <= |s| && Feasible(s, f, n)
    ensures Feasible(s, f - {n - 1}, n - 1)
    ensures n - 1 in f ==>
              && Count(f - {n - 1}, n - 1) + 1 == Count(f, n)
              && Dur(s, f - {n - 1}, n - 1) + s[n-1].duration == Dur(s, f, n)
    ensures n - 1 !in f ==> f - {n - 1} == f
  {
    var j := n - 1;
    var f' := f - {j};
    if j in f {
      assert f' + {j} == f;
      CountAdd(f', j, n);
      DurAdd(s, f', j, n);
      forall i | i in f' ensures Dur(s, f', i + 1) <= s[i].deadline {
        DurAdd(s, f', j, i + 1);
      }
    } else {
      assert f' == f;
    }
  }

  /** When the newest job overruns its deadline, a lighter set can do without the heaviest. */
  lemma AvoidHeaviest(s: seq<Job>, t: set<nat>, g: set<nat>, n: nat) returns (g': set<nat>)
    requires n <= |s| && g <= t && g != t && (forall i :: i in t ==> i < n)
    requires exists i :: i in t && i < n
    ensures g' <= t - {Heaviest(s, t, n)} && Count(g', n) == Count(g, n) && Dur(s, g', n) <= Dur(s, g, n)
  {
    var h := Heaviest(s, t, n);
    g' := g;
    if h in g {
      var x :| x in t && x !in g;
      g' := Exchange(s, g, h, x, n);
    }
  }

  /** For any feasible subset there is one inside the kept set with as many jobs and no more work. */
  lemma {:induction false} KeepDominates(s: seq<Job>, f: set<nat>, n: nat) returns (g: set<nat>)
    requires Valid(s) && n <= |s| && Feasible(s, f, n)
    ensures g <= Keep(s, n) && Count(g, n) == Count(f, n) && Dur(s, g, n) <= Dur(s, f, n)
  {
    if n == 0 {
      return {};
    }
    hide Dur, Count, Heaviest, Feasible;
    var j := n - 1;
    var t := Keep(s, j) + {j};
    DropNewest(s, f, n);
    g := KeepDominates(s, f - {j}, j);
    assert j !in g && j in t;
    if j in f {
      CountAdd(g, j, n);
      DurAdd(s, g, j, n);
      g := g + {j};
    }
    if Dur(s, t, n) > s[j].deadline {
      // A feasible subset that ends in the newest job meets the deadline that all of t overruns.
      assert g != t;
      g := AvoidHeaviest(s, t, g, n);
    }
  }

  /** Trading a member for one that is no heavier keeps the count and does not add work. */
  lemma Exchange(s: seq<Job>, g: set<nat>, h: nat, x: nat, n: nat) returns (g': set<nat>)
    requires n <= |s| && h in g && x !in g && h < n && x < n && s[x].duration <= s[h].duration
    ensures g' == g - {h} + {x} && Count(g', n) == Count(g, n) && Dur(s, g', n) <= Dur(s, g, n)
  {
    g' := g - {h} + {x};
    assert g - {h} + {h} == g;
    CountAdd(g - {h}, h, n);
    CountAdd(g - {h}, x, n);
    DurAdd(s, g - {h}, h, n);
    DurAdd(s, g - {h}, x, n);
  }

  // ---- any order of the same jobs gives a feasible subset ----

  lemma WithoutOne(s: seq<Job>, j: nat)
    requires j < |s|
    ensures multiset(s[..j] + s[j+1..]) + multiset{s[j]} == multiset(s)
  {
    assert s == s[..j] + [s[j]] + s[j+1..];
  }

  lemma CancelOne(order: seq<Job>, n: nat, s: seq<Job>, j: nat)
    requires multiset(order) == multiset(s) && |order| == n + 1 && j < |s| && order[n] == s[j]
    ensures multiset(order[..n]) == multiset(s[..j] + s[j+1..])
  {
    WithoutOne(order, n);
    WithoutOne(s, j);
    assert order[..n] + order[n+1..] == order[..n];
    assert multiset(order[..n]) == multiset(order) - multiset{s[j]};
    assert multiset(s[..j] + s[j+1..]) == multiset(s) - multiset{s[j]};
  }

  /** Positions in `s` of the elements of a rearrangement of `s`. */
  lemma {:induction false} Positions(order: seq<Job>, s: seq<Job>) returns (pi: seq<nat>)
    requires multiset(order) == multiset(s)
    ensures |pi| == |order| && (forall i :: 0 <= i < |pi| ==> pi[i] < |s| && order[i] == s[pi[i]])
    ensures forall i, j :: 0 <= i < j < |pi| ==> pi[i] != pi[j]
  {
    if order == [] {
      return [];
    }
    var n := |order| - 1;
    var last := order[n];
    assert last in multiset(order);
    assert last in s;
    var j :| 0 <= j < |s| && s[j] == last;
    var rest := s[..j] + s[j+1..];
    CancelOne(order, n, s, j);
    var pi' := Positions(order[..n], rest);
    pi := seq(|pi'|, i requires 0 <= i < |pi'| => if pi'[i] < j then pi'[i] else pi'[i] + 1) + [j];
  }

  /** The positions of the jobs that are on time among the first t of the order. */
  ghost function OnTime(order: seq<Job>, pi: seq<nat>, t: nat): set<nat>
    requires t <= |order| == |pi|
  {
    if t == 0 then {}
    else if Total(order[..t]) <= order[t-1].deadline then OnTime(order, pi, t - 1) + {pi[t-1]}
    else OnTime(order, pi, t - 1)
  }

  ghost predicate Arranges(order: seq<Job>, s: seq<Job>, pi: seq<nat>) {
    && |pi| == |order|
    && (forall i :: 0 <= i < |pi| ==> pi[i] < |s| && order[i] == s[pi[i]])
    && (forall i, j :: 0 <= i < j < |pi| ==> pi[i] != pi[j])
  }

  lemma {:induction false} OnTimeMembers(order: seq<Job>, s: seq<Job>, pi: seq<nat>, t: nat)
    requires Arranges(order, s, pi) && t <= |order|
    ensures forall x :: x in OnTime(order, pi, t) ==> x < |s| && exists i :: 0 <= i < t && pi[i] == x
    ensures t < |order| ==> pi[t] !in OnTime(order, pi, t)
  {
    if t > 0 {
      OnTimeMembers(order, s, pi, t - 1);
    }
  }

  lemma {:induction false} OnTimeCount(order: seq<Job>, s: seq<Job>, pi: seq<nat>, t: nat)
    requires Arranges(order, s, pi) && t <= |order|
    ensures Count(OnTime(order, pi, t), |s|) == t - LateCount(order[..t])
  {
    if t == 0 {
      CountEmpty(|s|);
    } else {
      OnTimeCount(order, s, pi, t - 1);
      OnTimeMembers(order, s, pi, t - 1);
      CountAdd(OnTime(order, pi, t - 1), pi[t-1], |s|);
      assert order[..t][..t-1] == order[..t-1] && order[..t][t-1] == order[t-1];
    }
  }

  lemma {:induction false} CountEmpty(n: nat)
    ensures Count({}, n) == 0
  {
    if n > 0 {
      CountEmpty(n - 1);
    }
  }

  lemma {:induction false} OnTimeWork(order: seq<Job>, s: seq<Job>, pi: seq<nat>, t: nat, n: nat)
    requires Valid(s) && Arranges(order, s, pi) && t <= |order| && n <= |s|
    ensures Dur(s, OnTime(order, pi, t), n) <= Total(order[..t])
    decreases t
  {
    if t == 0 {
      DurPast(s, {}, 0, n);
    } else {
      OnTimeWork(order, s, pi, t - 1, n);
      OnTimeMembers(order, s, pi, t - 1);
      DurAdd(s, OnTime(order, pi, t - 1), pi[t-1], n);
      assert order[..t][..t-1] == order[..t-1] && order[..t][t-1] == order[t-1];
    }
  }

  /** The on-time jobs of any order stay on time when run alone in deadline order. */
  lemma {:induction false} OnTimeIsFeasible(order: seq<Job>, s: seq<Job>, pi: seq<nat>, t: nat)
    requires Valid(s) && Arranges(order, s, pi) && t <= |order|
    ensures Feasible(s, OnTime(order, pi, t), |s|)
  {
    if t > 0 {
      OnTimeIsFeasible(order, s, pi, t - 1);
      OnTimeMembers(order, s, pi, t - 1);
      var before, f, q := OnTime(order, pi, t - 1), OnTime(order, pi, t), pi[t-1];
      forall j | j in f ensures j < |s| && Dur(s, f, j + 1) <= s[j].deadline {
        DurAdd(s, before, q, j + 1);
        if f != before && q <= j {
          OnTimeWork(order, s, pi, t, j + 1);
          assert q < j ==> ByDeadline(s[q], s[j]);
        }
      }
    }
  }

  // ---- main results ----

  /** Totals of prefixes of a listed feasible set meet the deadlines. */
  lemma {:induction false} ListedOnTime(s: seq<Job>, f: set<nat>, n: nat, p: nat)
    requires n <= |s| && forall i :: i in f && i < n ==> Dur(s, f, i + 1) <= s[i].deadline
    requires p < |Listed(s, f, n)|
    ensures Total(Listed(s, f, n)[..p+1]) <= Listed(s, f, n)[p].deadline
  {
    var l, front := Listed(s, f, n), Listed(s, f, n - 1);
    if p < |front| {
      ListedOnTime(s, f, n - 1, p);
      assert l[..p+1] == front[..p+1];
    } else {
      ListedMeasures(s, f, n);
      assert l[..p+1] == l;
      assert Dur(s, f, n - 1 + 1) <= s[n-1].deadline;
    }
  }

  lemma SortedJobsAreValid(items: seq<Job>)
    requires forall i :: 0 <= i < |items| ==> items[i].duration >= 0.0
    ensures Valid(Sort(items, ByDeadline)) && multiset(Sort(items, ByDeadline)) == multiset(items)
  {
    SortSorts(items, ByDeadline);
    SortKeepsElements(items, ByDeadline);
    var s := Sort(items, ByDeadline);
    forall i | 0 <= i < |s| ensures s[i].duration >= 0.0 {
      SortMembers(items, ByDeadline, s[i]);
    }
  }

  lemma AdmitOneKeepsElements(p: Split, job: Job)
    ensures var q := AdmitOne(p, job);
            multiset(q.admitted) + multiset(q.deferred) == multiset(p.admitted) + multiset(p.deferred) + multiset{job}
  {
    var admitted, i := p.admitted + [job], LongestIndex(p.admitted + [job]);
    var rest := admitted[..i] + admitted[i+1..];
    WithoutOne(admitted, i);
    MoveOne(multiset(rest), multiset(p.deferred), admitted[i]);
    hide LongestIndex, Total;
    var q := AdmitOne(p, job);
    assert q == Split(rest, p.deferred + [admitted[i]]) || q == Split(admitted, p.deferred);
    MoveOne(multiset(p.admitted), multiset(p.deferred), job);
  }

  lemma MoveOne(a: multiset<Job>, b: multiset<Job>, x: Job)
    ensures a + (b + multiset{x}) == (a + multiset{x}) + b && (a + multiset{x}) + b == a + b + multiset{x}
  {
  }

  lemma {:induction false} AdmitKeepsElements(s: seq<Job>)
    ensures multiset(Admit(s).admitted) + multiset(Admit(s).deferred) == multiset(s)
  {
    if s != [] {
      var n := |s| - 1;
      AdmitKeepsElements(s[..n]);
      AdmitOneKeepsElements(Admit(s[..n]), s[n]);
      WithoutOne(s, n);
      assert s[..n] + s[n+1..] == s[..n];
    }
  }

  /** The result rearranges the items. */
  lemma ResultIsPermutation(items: seq<Job>)
    ensures multiset(AdmissibleFirst(items)) == multiset(items)
  {
    var s := Sort(items, ByDeadline);
    SortKeepsElements(items, ByDeadline);
    AdmitKeepsElements(s);
    SortKeepsElements(Admit(s).deferred, ByDeadlineThenDuration);
  }

  // ---- the policy, rule by rule ----

  /** Where the longest job is: the largest of the longest, and the first of equals. */
  predicate FirstLongest(jobs: seq<Job>, i: nat) {
    && i < |jobs|
    && forall j :: 0 <= j < |jobs| ==>
         || jobs[j].duration < jobs[i].duration
         || (jobs[j].duration == jobs[i].duration && jobs[j].size < jobs[i].size)
         || (jobs[j].duration == jobs[i].duration && jobs[j].size == jobs[i].size && i <= j)
  }

  /** The job is admitted; if that makes the admitted work end after its deadline, the longest one is deferred. */
  ghost predicate Step(p: Split, job: Job, q: Split) {
    var all := p.admitted + [job];
    if Total(all) <= job.deadline then q == Split(all, p.deferred)
    else exists i: nat :: FirstLongest(all, i)
                          && q == Split(all[..i] + all[i+1..], p.deferred + [all[i]])
  }

  /** The jobs in the order in which they are taken. */
  ghost predicate ByRisingDeadline(items: seq<Job>, s: seq<Job>) {
    StableSort(items, s, (x: Job, y: Job) => x.deadline <= y.deadline)
  }

  ghost predicate Trace(s: seq<Job>, trace: seq<Split>) {
    && |trace| == |s| + 1 && trace[0] == Split([], [])
    && forall n :: 0 <= n < |s| ==> Step(trace[n], s[n], trace[n+1])
  }

  /** The jobs are taken by deadline; then come the admitted ones, and the deferred ones by deadline and duration. */
  ghost predicate FollowsPolicy(items: seq<Job>, order: seq<Job>) {
    exists s: seq<Job>, trace: seq<Split> ::
      ByRisingDeadline(items, s) && Trace(s, trace) && EndsWith(trace[|s|], order)
  }

  ghost predicate EndsWith(last: Split, order: seq<Job>) {
    && last.admitted <= order
    && StableSort(last.deferred, order[|last.admitted|..],
                  (x: Job, y: Job) => x.deadline < y.deadline || (x.deadline == y.deadline && x.duration <= y.duration))
  }

  lemma {:induction false} LongestIsFirst(jobs: seq<Job>)
    requires jobs != []
    ensures FirstLongest(jobs, LongestIndex(jobs))
  {
    if |jobs| > 1 {
      LongestIsFirst(jobs[..|jobs|-1]);
      assert forall j :: 0 <= j < |jobs| - 1 ==> jobs[..|jobs|-1][j] == jobs[j];
    }
  }

  lemma AdmitOneIsStep(p: Split, job: Job)
    ensures Step(p, job, AdmitOne(p, job))
  {
    hide FirstLongest, LongestIndex, Total;
    LongestIsFirst(p.admitted + [job]);
  }

  lemma AdmitIsTrace(s: seq<Job>) returns (trace: seq<Split>)
    ensures Trace(s, trace) && trace[|s|] == Admit(s)
  {
    hide Step, Admit;
    trace := seq(|s| + 1, n requires 0 <= n <= |s| => Admit(s[..n]));
    assert s[..|s|] == s;
    forall n | 0 <= n < |s| ensures Step(trace[n], s[n], trace[n+1]) {
      AdmitNext(s, n);
      AdmitOneIsStep(Admit(s[..n]), s[n]);
    }
    AdmitNothing(s[..0]);
  }

  lemma AdmitNothing(s: seq<Job>)
    requires s == []
    ensures Admit(s) == Split([], [])
  {
  }

  lemma ResultFollowsPolicy(items: seq<Job>)
    ensures FollowsPolicy(items, AdmissibleFirst(items))
  {
    hide Trace, EndsWith, StableSort, Admit, Sort;
    var s := Sort(items, ByDeadline);
    SortIsStable(items, ByDeadline);
    SameKeysSortAlike(items, s, ByDeadline, (x: Job, y: Job) => x.deadline <= y.deadline);
    var trace := AdmitIsTrace(s);
    ResultEnds(Admit(s));
    LastOfTrace(s, trace);
    assert ByRisingDeadline(items, s);
  }

  lemma LastOfTrace(s: seq<Job>, trace: seq<Split>)
    requires Trace(s, trace)
    ensures |trace| == |s| + 1
  {
  }

  lemma ResultEnds(p: Split)
    ensures EndsWith(p, p.admitted + Sort(p.deferred, ByDeadlineThenDuration))
  {
    hide StableSort;
    var tail := Sort(p.deferred, ByDeadlineThenDuration);
    SortIsStable(p.deferred, ByDeadlineThenDuration);
    SameKeysSortAlike(p.deferred, tail, ByDeadlineThenDuration,
                      (x: Job, y: Job) =>
                        x.deadline < y.deadline || (x.deadline == y.deadline && x.duration <= y.duration));
    assert (p.admitted + tail)[|p.admitted|..] == tail;
  }

  /** With non-negative durations every admitted job is on time. */
  lemma AdmittedAreOnTime(items: seq<Job>, p: nat)
    requires forall i :: 0 <= i < |items| ==> items[i].duration >= 0.0
    requires p < |Admit(Sort(items, ByDeadline)).admitted|
    ensures p < |AdmissibleFirst(items)|
    ensures Total(AdmissibleFirst(items)[..p+1]) <= AdmissibleFirst(items)[p].deadline
  {
    hide Listed, Keep, Feasible, Valid, Total, Sort, Admit, Count, Dur;
    var s := Sort(items, ByDeadline);
    SortedJobsAreValid(items);
    AdmitIsKeep(s, |s|);
    assert s[..|s|] == s;
    KeepIsFeasible(s, |s|);
    ListedOnTime(s, Keep(s, |s|), |s|, p);
    var l := Admit(s).admitted;
    assert AdmissibleFirst(items)[..p+1] == l[..p+1];
  }

  /** The first `k` jobs rise in deadline and meet it; the others rise in deadline and then in duration. */
  ghost predicate OnTimeThenLate(order: seq<Job>, k: nat) {
    && k <= |order|
    && (forall i :: 0 <= i < k ==> Total(order[..i+1]) <= order[i].deadline)
    && (forall i, j :: 0 <= i < j < k ==> order[i].deadline <= order[j].deadline)
    && (forall i, j :: k <= i < j < |order| ==>
          || order[i].deadline < order[j].deadline
          || (order[i].deadline == order[j].deadline && order[i].duration <= order[j].duration))
  }

  lemma RisesByOne(p: Split, job: Job)
    requires SortedBy(p.admitted, ByDeadline)
    requires forall i :: 0 <= i < |p.admitted| ==> p.admitted[i].deadline <= job.deadline
    ensures var q := AdmitOne(p, job).admitted;
            && SortedBy(q, ByDeadline)
            && forall i :: 0 <= i < |q| ==> q[i].deadline <= job.deadline
  {
    hide LongestIndex, Total;
    var all := p.admitted + [job];
    assert SortedBy(all, ByDeadline);
    assert forall i :: 0 <= i < |all| ==> all[i].deadline <= job.deadline;
  }

  lemma {:induction false} AdmittedRise(s: seq<Job>)
    requires SortedBy(s, ByDeadline)
    ensures SortedBy(Admit(s).admitted, ByDeadline)
    ensures forall i :: 0 <= i < |Admit(s).admitted| ==> Admit(s).admitted[i].deadline <= s[|s|-1].deadline
  {
    if s != [] {
      var n := |s| - 1;
      AdmittedRise(s[..n]);
      assert n > 0 ==> ByDeadline(s[n-1], s[n]);
      RisesByOne(Admit(s[..n]), s[n]);
      hide AdmitOne;
    }
  }

  lemma LateOnesRise(deferred: seq<Job>, i: nat, j: nat)
    requires i < j < |Sort(deferred, ByDeadlineThenDuration)|
    ensures var tail := Sort(deferred, ByDeadlineThenDuration);
            || tail[i].deadline < tail[j].deadline
            || (tail[i].deadline == tail[j].deadline && tail[i].duration <= tail[j].duration)
  {
    SortSorts(deferred, ByDeadlineThenDuration);
    hide Sort;
    var tail := Sort(deferred, ByDeadlineThenDuration);
    assert ByDeadlineThenDuration(tail[i], tail[j]);
  }

  lemma AdmittedAreOnTimeAll(items: seq<Job>)
    requires forall i :: 0 <= i < |items| ==> items[i].duration >= 0.0
    ensures var order, k := AdmissibleFirst(items), |Admit(Sort(items, ByDeadline)).admitted|;
            k <= |order| && forall i :: 0 <= i < k ==> Total(order[..i+1]) <= order[i].deadline
  {
    hide Admit, Sort, Total;
    forall i | 0 <= i < |Admit(Sort(items, ByDeadline)).admitted|
      ensures Total(AdmissibleFirst(items)[..i+1]) <= AdmissibleFirst(items)[i].deadline
    {
      AdmittedAreOnTime(items, i);
    }
  }

  lemma ResultShape(items: seq<Job>)
    requires forall i :: 0 <= i < |items| ==> items[i].duration >= 0.0
    ensures exists k: nat :: OnTimeThenLate(AdmissibleFirst(items), k)
  {
    hide Admit, Sort, Total;
    var s := Sort(items, ByDeadline);
    var p := Admit(s);
    AdmittedAreOnTimeAll(items);
    SortSorts(items, ByDeadline);
    AdmittedRise(s);
    var order, k, tail := AdmissibleFirst(items), |p.admitted|, Sort(p.deferred, ByDeadlineThenDuration);
    assert order == p.admitted + tail;
    assert forall i, j :: 0 <= i < j < k ==> ByDeadline(p.admitted[i], p.admitted[j]);
    forall i, j | k <= i < j < |order|
      ensures || order[i].deadline < order[j].deadline
              || (order[i].deadline == order[j].deadline && order[i].duration <= order[j].duration)
    {
      LateOnesRise(p.deferred, i - k, j - k);
      assert order[i] == tail[i-k] && order[j] == tail[j-k];
    }
    assert OnTimeThenLate(order, k);
  }

  lemma {:induction false} LateCountOfOnTime(order: seq<Job>, k: nat)
    requires k <= |order| && forall p :: 0 <= p < k ==> Total(order[..p+1]) <= order[p].deadline
    ensures LateCount(order) <= |order| - k
  {
    if order != [] {
      var n := |order| - 1;
      if k <= n {
        forall p | 0 <= p < k ensures Total(order[..n][..p+1]) <= order[..n][p].deadline {
          assert order[..n][..p+1] == order[..p+1];
        }
        LateCountOfOnTime(order[..n], k);
      } else {
        forall p | 0 <= p < n ensures Total(order[..n][..p+1]) <= order[..n][p].deadline {
          assert order[..n][..p+1] == order[..p+1];
        }
        LateCountOfOnTime(order[..n], n);
        assert order[..n+1] == order;
      }
    }
  }

  /** No order of the same jobs has fewer late ones: exactly the deferred jobs are late, and that is the minimum. */
  lemma {:induction false} AdmissibleFirstIsOptimal(items: seq<Job>, order: seq<Job>)
    requires forall i :: 0 <= i < |items| ==> items[i].duration >= 0.0
    requires multiset(order) == multiset(items)
    ensures LateCount(AdmissibleFirst(items)) == |Admit(Sort(items, ByDeadline)).deferred|
    ensures LateCount(AdmissibleFirst(items)) <= LateCount(order)
  {
    var s := Sort(items, ByDeadline);
    var result := AdmissibleFirst(items);
    AtLeastDeferred(items, order);
    ResultIsPermutation(items);
    AtLeastDeferred(items, result);
    var k := |Admit(s).admitted|;
    forall p | 0 <= p < k ensures Total(result[..p+1]) <= result[p].deadline {
      AdmittedAreOnTime(items, p);
    }
    LateCountOfOnTime(result, k);
    SortKeepsElements(Admit(s).deferred, ByDeadlineThenDuration);
  }

  lemma AtLeastDeferred(items: seq<Job>, order: seq<Job>)
    requires forall i :: 0 <= i < |items| ==> items[i].duration >= 0.0
    requires multiset(order) == multiset(items)
    ensures |Admit(Sort(items, ByDeadline)).deferred| <= LateCount(order)
  {
    var s := Sort(items, ByDeadline);
    SortedJobsAreValid(items);
    var pi := Positions(order, s);
    var f := OnTime(order, pi, |order|);
    OnTimeIsFeasible(order, s, pi, |order|);
    OnTimeCount(order, s, pi, |order|);
    assert order[..|order|] == order;
    var g := KeepDominates(s, f, |s|);
    CountSubset(g, Keep(s, |s|), |s|);
    AdmitIsKeep(s, |s|);
    assert s[..|s|] == s;
    ListedMeasures(s, Keep(s, |s|), |s|);
    AdmitKeepsElements(s);
    assert |multiset(Admit(s).admitted) + multiset(Admit(s).deferred)| == |multiset(s)|;
    assert |order| == |multiset(order)| == |multiset(s)| == |s|;
  }

  /** Lexicographic comparison of projected costs. */
  ghost predicate CheaperOrEqual(x: seq<Job>, y: seq<Job>) {
    || LateCount(x) < LateCount(y)
    || (LateCount(x) == LateCount(y)
        && (ExposureSum(x) < ExposureSum(y)
            || (ExposureSum(x) == ExposureSum(y) && ExposureMax(x) <= ExposureMax(y))))
  }

  /** What enumerating every permutation and taking the minimum returns. */
  ghost predicate IsOracle(items: seq<Job>, best: seq<Job>) {
    && multiset(best) == multiset(items)
    && forall order: seq<Job> :: multiset(order) == multiset(items) ==> CheaperOrEqual(best, order)
  }

  /** The late count equals the brute-force oracle's. */
  lemma MatchesOracle(items: seq<Job>, best: seq<Job>)
    requires forall i :: 0 <= i < |items| ==> items[i].duration >= 0.0
    requires IsOracle(items, best)
    ensures LateCount(AdmissibleFirst(items)) == LateCount(best)
  {
    AdmissibleFirstIsOptimal(items, best);
    ResultIsPermutation(items);
    assert CheaperOrEqual(best, AdmissibleFirst(items));
  }
}
