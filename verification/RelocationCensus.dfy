/** The incremental relocation census, against a direct recount of the recorded requests. */
module RelocationCensus {
  import opened Wrappers

  // ---- the predecessor check ----

  /** The block before position p; -1 before the first. */
  function Prev(h: seq<nat>, p: nat): int
    requires p < |h|
  {
    if p == 0 then -1 else h[p-1]
  }

  /** The block before the last occurrence of c. */
  function PrevOfLast(h: seq<nat>, c: nat): int
    requires c in h
  {
    if h[|h|-1] == c then Prev(h, |h| - 1) else PrevOfLast(h[..|h|-1], c)
  }

  /** Wherever `later` has a block of `earlier`, it follows the block that its last occurrence in `earlier` follows. */
  predicate Follows(earlier: seq<nat>, later: seq<nat>) {
    forall p :: 0 <= p < |later| && later[p] in earlier ==> Prev(later, p) == PrevOfLast(earlier, later[p])
  }

  ghost predicate AllFollow(hashes: seq<seq<nat>>) {
    forall i, j :: 0 <= i < j < |hashes| ==> Follows(hashes[i], hashes[j])
  }

  predicate Within(h: seq<nat>, size: nat) { forall p :: 0 <= p < |h| ==> h[p] < size }

  const UNSEEN: int := -2

  /** The table knows, for every block seen so far, the block it followed last. */
  ghost predicate Knows(table: seq<int>, hashes: seq<seq<nat>>) {
    && (forall i :: 0 <= i < |hashes| ==> Within(hashes[i], |table|))
    && (forall i, c: nat :: 0 <= i < |hashes| && c in hashes[i] ==> table[c] == PrevOfLast(hashes[i], c))
    && (forall c :: 0 <= c < |table| && table[c] != UNSEEN ==> exists i :: 0 <= i < |hashes| && c in hashes[i])
  }

  lemma {:induction false} PrevOfLastIsSome(h: seq<nat>, c: nat)
    requires c in h
    ensures exists p :: 0 <= p < |h| && h[p] == c && PrevOfLast(h, c) == Prev(h, p) && c !in h[p+1..]
  {
    var n := |h| - 1;
    if h[n] == c {
      assert h[n+1..] == [];
    } else {
      assert h == h[..n] + [h[n]];
      PrevOfLastIsSome(h[..n], c);
      var p :| 0 <= p < n && h[..n][p] == c && PrevOfLast(h[..n], c) == Prev(h[..n], p) && c !in h[..n][p+1..];
      assert h[p+1..] == h[..n][p+1..] + [h[n]];
    }
  }

  /** Compares every block of `h` with the table, and only then writes `h` into it, later positions over earlier
      ones. */
  method Scatter(table: array<int>, h: seq<nat>) returns (conflict: bool)
    requires Within(h, table.Length)
    modifies table
    ensures conflict <==> exists p :: 0 <= p < |h| && old(table[h[p]]) != UNSEEN && old(table[h[p]]) != Prev(h, p)
    ensures conflict ==> table[..] == old(table[..])
    ensures !conflict ==> forall c :: 0 <= c < table.Length ==>
                            table[c] == if c in h then PrevOfLast(h, c) else old(table[c])
  {
    for p := 0 to |h|
      invariant forall q :: 0 <= q < p ==> table[h[q]] == UNSEEN || table[h[q]] == Prev(h, q)
    {
      if table[h[p]] != UNSEEN && table[h[p]] != Prev(h, p) {
        return true;
      }
    }
    for p := 0 to |h|
      invariant forall c :: 0 <= c < table.Length ==>
                  table[c] == if c in h[..p] then PrevOfLast(h[..p], c) else old(table[c])
    {
      assert h[..p+1] == h[..p] + [h[p]] && h[..p+1][..p] == h[..p];
      table[h[p]] := Prev(h, p);
    }
    assert h[..|h|] == h;
    conflict := false;
  }

  lemma FollowsFromTable(table: seq<int>, hashes: seq<seq<nat>>, h: seq<nat>)
    requires Knows(table, hashes) && Within(h, |table|)
    ensures (forall p :: 0 <= p < |h| ==> table[h[p]] == UNSEEN || table[h[p]] == Prev(h, p))
            <==> forall i :: 0 <= i < |hashes| ==> Follows(hashes[i], h)
  {
    forall i, c: nat | 0 <= i < |hashes| && c in hashes[i] ensures table[c] != UNSEEN {
      PrevOfLastIsSome(hashes[i], c);
    }
  }

  lemma KnowsMore(table: seq<int>, table': seq<int>, hashes: seq<seq<nat>>, h: seq<nat>)
    requires Knows(table, hashes) && |table'| == |table| && Within(h, |table|)
    requires forall i :: 0 <= i < |hashes| ==> Follows(hashes[i], h)
    requires forall c :: 0 <= c < |table| ==> table'[c] == if c in h then PrevOfLast(h, c) else table[c]
    ensures Knows(table', hashes + [h])
  {
    var more := hashes + [h];
    assert forall i :: 0 <= i < |more| ==> Within(more[i], |table'|);
    forall i, c: nat | 0 <= i < |more| && c in more[i] ensures table'[c] == PrevOfLast(more[i], c) {
      if i < |hashes| && c in h {
        PrevOfLastIsSome(h, c);
      }
    }
    forall c | 0 <= c < |table'| && table'[c] != UNSEEN ensures exists i :: 0 <= i < |more| && c in more[i] {
      if c in h {
        assert c in more[|hashes|];
      } else {
        var i :| 0 <= i < |hashes| && c in hashes[i];
        assert c in more[i];
      }
    }
  }

  lemma NothingKnown(table: seq<int>)
    requires forall c :: 0 <= c < |table| ==> table[c] == UNSEEN
    ensures Knows(table, [])
  {
  }

  /** Checks one more request against the table of those before it. */
  method CheckNext(table: array<int>, hashes: seq<seq<nat>>, h: seq<nat>) returns (conflict: bool)
    requires Knows(table[..], hashes) && Within(h, table.Length)
    modifies table
    ensures conflict <==> exists i :: 0 <= i < |hashes| && !Follows(hashes[i], h)
    ensures !conflict ==> Knows(table[..], hashes + [h])
  {
    hide Knows, Follows, PrevOfLast;
    ghost var before := table[..];
    FollowsFromTable(before, hashes, h);
    conflict := Scatter(table, h);
    if !conflict {
      KnowsMore(before, table[..], hashes, h);
    }
  }

  /** False for hashes with a predecessor conflict. */
  method CheckPredecessors(hashes: seq<seq<nat>>, size: nat) returns (ok: bool)
    requires forall i :: 0 <= i < |hashes| ==> Within(hashes[i], size)
    ensures ok <==> AllFollow(hashes)
  {
    var table := new int[size](_ => UNSEEN);
    hide Knows, Follows, Within;
    NothingKnown(table[..]);
    for k := 0 to |hashes|
      invariant Knows(table[..], hashes[..k]) && AllFollow(hashes[..k])
    {
      assert hashes[..k+1] == hashes[..k] + [hashes[k]];
      var conflict := CheckNext(table, hashes[..k], hashes[k]);
      if conflict {
        var i :| 0 <= i < k && !Follows(hashes[..k][i], hashes[k]);
        assert !Follows(hashes[i], hashes[k]);
        return false;
      }
    }
    assert hashes[..|hashes|] == hashes;
    ok := true;
  }

  /** Each block of the chain is in h and its last occurrence there follows the previous block of the chain. */
  ghost predicate Chained(h: seq<nat>, chain: seq<nat>) {
    forall k :: 0 <= k < |chain| ==> chain[k] in h && PrevOfLast(h, chain[k]) == Prev(chain, k)
  }

  ghost predicate OnlyAt(h: seq<nat>, c: nat, n: int) { forall p :: 0 <= p < |h| && h[p] == c ==> p == n }

  lemma ChainStep(h: seq<nat>, chain: seq<nat>, p: nat)
    requires |chain| > 1 && Chained(h, chain) && p < |h| && h[p] == chain[|chain|-1]
    requires Prev(h, p) == Prev(chain, |chain| - 1) && forall q :: p < q < |h| ==> h[q] != h[p]
    requires |h| >= |chain| - 1 && h[..|chain|-1] == chain[..|chain|-1] && OnlyAt(h, chain[|chain|-2], |chain| - 2)
    ensures p == |chain| - 1 && OnlyAt(h, chain[|chain|-1], |chain| - 1)
  {
    var n := |chain| - 1;
    assert h[p-1] == chain[n-1];
    forall k | 0 <= k < n ensures h[k] != chain[n] {
      assert h[k] == h[..n][k] == chain[k];
      if k > 0 {
        assert h[k-1] == h[..n][k-1] == chain[k-1];
      }
      assert Prev(chain, k) == Prev(h, k);
    }
  }

  lemma LastOccurrence(h: seq<nat>, c: nat) returns (p: nat)
    requires c in h
    ensures p < |h| && h[p] == c && PrevOfLast(h, c) == Prev(h, p) && forall q :: p < q < |h| ==> h[q] != h[p]
  {
    PrevOfLastIsSome(h, c);
    p :| p < |h| && h[p] == c && PrevOfLast(h, c) == Prev(h, p) && c !in h[p+1..];
    assert forall q :: p < q < |h| ==> h[q] == h[p+1..][q-p-1];
  }

  lemma ChainedFront(h: seq<nat>, chain: seq<nat>)
    requires chain != [] && Chained(h, chain)
    ensures Chained(h, chain[..|chain|-1])
  {
    var n := |chain| - 1;
    assert forall k :: 0 <= k < n ==> Prev(chain[..n], k) == Prev(chain, k);
  }

  /** Such a chain is a prefix of h, and its last block occurs nowhere else in h. */
  lemma {:induction false} ChainIsPrefix(h: seq<nat>, chain: seq<nat>)
    requires chain != [] && Chained(h, chain)
    ensures |chain| <= |h| && h[..|chain|] == chain && OnlyAt(h, chain[|chain|-1], |chain| - 1)
  {
    var n := |chain| - 1;
    var p := LastOccurrence(h, chain[n]);
    if n > 0 {
      ChainedFront(h, chain);
      ChainIsPrefix(h, chain[..n]);
      ChainStep(h, chain, p);
      hide PrevOfLast, Chained;
      assert h[..n+1] == h[..n] + [h[n]];
    }
  }

  /** When `later` follows `earlier`, every block up to a shared one is in `earlier`. */
  lemma {:induction false} SharedIsChained(earlier: seq<nat>, later: seq<nat>, k: nat, p: nat)
    requires Follows(earlier, later) && k <= p < |later| && later[p] in earlier
    ensures later[k] in earlier && PrevOfLast(earlier, later[k]) == Prev(later, k)
    decreases p - k
  {
    if k < p {
      PrevOfLastIsSome(earlier, later[p]);
      SharedIsChained(earlier, later, k, p - 1);
    }
  }

  lemma SharedBlockSharesPrefix(earlier: seq<nat>, later: seq<nat>, p: nat)
    requires Follows(earlier, later) && p < |earlier| && p < |later| && earlier[p] == later[p]
    ensures earlier[..p+1] == later[..p+1]
  {
    var chain := later[..p+1];
    forall k | 0 <= k < |chain| ensures chain[k] in earlier && PrevOfLast(earlier, chain[k]) == Prev(chain, k) {
      SharedIsChained(earlier, later, k, p);
    }
    ChainIsPrefix(earlier, chain);
  }

  /** After a passed check, two requests that agree on the block at an index agree on everything before it. */
  lemma BlockIdentifiesPrefix(hashes: seq<seq<nat>>, i: nat, j: nat, p: nat)
    requires AllFollow(hashes) && i < |hashes| && j < |hashes| && p < |hashes[i]| && p < |hashes[j]|
    ensures hashes[i][p] == hashes[j][p] <==> hashes[i][..p+1] == hashes[j][..p+1]
  {
    if hashes[i][p] == hashes[j][p] {
      if i < j {
        SharedBlockSharesPrefix(hashes[i], hashes[j], p);
      } else if j < i {
        SharedBlockSharesPrefix(hashes[j], hashes[i], p);
      }
    } else {
      assert hashes[i][..p+1][p] != hashes[j][..p+1][p];
    }
  }

  /** The check raises no false alarm: it passes when every block has one predecessor everywhere. */
  lemma UniquePredecessorsPass(hashes: seq<seq<nat>>)
    requires forall i, j, p, q ::
               0 <= i < |hashes| && 0 <= j < |hashes| && 0 <= p < |hashes[i]| && 0 <= q < |hashes[j]| ==>
                 hashes[i][p] == hashes[j][q] ==> Prev(hashes[i], p) == Prev(hashes[j], q)
    ensures AllFollow(hashes)
  {
    forall i, j, p | 0 <= i < j < |hashes| && 0 <= p < |hashes[j]| && hashes[j][p] in hashes[i]
      ensures Prev(hashes[j], p) == PrevOfLast(hashes[i], hashes[j][p])
    {
      PrevOfLastIsSome(hashes[i], hashes[j][p]);
    }
  }

  // ---- the replay ----

  datatype Stream = Stream(agent: nat, model: nat)

  /** A recorded request: it arrives at t and its call lasts apiTime. */
  datatype Request = Request(t: real, apiTime: real, stream: Stream, hashes: seq<nat>, produced: int) {
    function End(): real { t + apiTime }
  }

  datatype Completion = Completion(end: real, index: nat)

  /** The heap's order: earlier end first, then smaller index. */
  predicate Earlier(x: Completion, y: Completion) { x.end < y.end || (x.end == y.end && x.index < y.index) }

  predicate Ordered(heap: seq<Completion>) { forall i, j :: 0 <= i < j < |heap| ==> Earlier(heap[i], heap[j]) }

  function Enqueue(heap: seq<Completion>, c: Completion): seq<Completion> {
    var n := |heap| - 1;
    if heap == [] || Earlier(heap[n], c) then heap + [c] else Enqueue(heap[..n], c) + [heap[n]]
  }

  /** The prefix lengths that are counted, in blocks of 64 tokens: 8192, 32768 and 65536 tokens. */
  const BLOCKS: seq<nat> := [128, 512, 1024]

  datatype Key = Key(model: nat, block: nat, id: nat)

  function At(counts: map<Key, int>, k: Key): int { if k in counts then counts[k] else 0 }

  predicate HasBlock(r: Request, b: nat, id: nat) { 0 < b <= |r.hashes| && r.hashes[b-1] == id }

  /** Adds `delta` to the counter of the request's block at every counted length that it reaches. */
  function Bump(counts: map<Key, int>, r: Request, delta: int, blocks: seq<nat>): map<Key, int> {
    if blocks == [] then counts
    else
      var b := blocks[|blocks|-1];
      var before := Bump(counts, r, delta, blocks[..|blocks|-1]);
      if 0 < b <= |r.hashes| then
        var k := Key(r.stream.model, b, r.hashes[b-1]);
        before[k := At(before, k) + delta]
      else before
  }

  datatype Census = Census(active: map<nat, set<nat>>, counts: map<Key, int>, heap: seq<Completion>,
                           completed: map<Stream, nat>)

  function ActiveOf(c: Census, m: nat): set<nat> { if m in c.active then c.active[m] else {} }

  predicate Indexed(reqs: seq<Request>, heap: seq<Completion>) {
    forall c :: c in heap ==> c.index < |reqs| && c.end == reqs[c.index].End() && reqs[c.index].apiTime > 0.0
  }

  function Live(heap: seq<Completion>): set<nat> { set c | c in heap :: c.index }

  /** Takes the earliest completion off the heap. */
  function Retire(reqs: seq<Request>, c: Census): Census
    requires c.heap != [] && Indexed(reqs, c.heap)
  {
    var j := c.heap[0].index;
    var r := reqs[j];
    Census(c.active[r.stream.model := ActiveOf(c, r.stream.model) - {j}],
           Bump(c.counts, r, -1, BLOCKS),
           c.heap[1..],
           if r.produced > 0 then c.completed[r.stream := j] else c.completed)
  }

  /** The heap with request i's completion, if its recorded call took time. */
  function Pushed(reqs: seq<Request>, heap: seq<Completion>, i: nat): seq<Completion>
    requires i < |reqs|
  {
    if reqs[i].apiTime > 0.0 then Enqueue(heap, Completion(reqs[i].End(), i)) else heap
  }

  /** Puts request i in flight unless its recorded call took no time. */
  function Admit(reqs: seq<Request>, c: Census, i: nat): Census
    requires i < |reqs|
  {
    var r := reqs[i];
    if r.apiTime > 0.0 then
      Census(c.active[r.stream.model := ActiveOf(c, r.stream.model) + {i}],
             Bump(c.counts, r, 1, BLOCKS),
             Pushed(reqs, c.heap, i),
             c.completed)
    else c
  }

  // ---- the recount ----

  /** The earlier requests whose calls are still running when request i arrives. */
  function InFlight(reqs: seq<Request>, i: nat): set<nat>
    requires i < |reqs|
  {
    set j | 0 <= j < i && reqs[j].apiTime > 0.0 && reqs[j].End() > reqs[i].t
  }

  function OfModel(reqs: seq<Request>, some: set<nat>, m: nat): set<nat> {
    set j | j in some && j < |reqs| && reqs[j].stream.model == m
  }

  function Having(reqs: seq<Request>, some: set<nat>, k: Key): set<nat> {
    set j | j in some && j < |reqs| && reqs[j].stream.model == k.model && HasBlock(reqs[j], k.block, k.id)
  }

  /** The requests of a stream that have completed by the time request i arrives, with output. */
  function Finished(reqs: seq<Request>, i: nat, stream: Stream): set<nat>
    requires i < |reqs|
  {
    set j | && 0 <= j < i && reqs[j].apiTime > 0.0 && reqs[j].End() <= reqs[i].t
            && reqs[j].stream == stream && reqs[j].produced > 0
  }

  predicate LatestOf(reqs: seq<Request>, some: set<nat>, j: nat) {
    && j in some && j < |reqs|
    && forall k :: k in some && k < |reqs| && k != j ==>
         Earlier(Completion(reqs[k].End(), k), Completion(reqs[j].End(), j))
  }

  // ---- what the replay keeps ----

  ghost predicate HeapOk(reqs: seq<Request>, n: nat, heap: seq<Completion>) {
    n <= |reqs| && Ordered(heap) && Indexed(reqs, heap) && forall x :: x in heap ==> x.index < n
  }

  ghost predicate ActiveOk(reqs: seq<Request>, c: Census) {
    forall m :: ActiveOf(c, m) == OfModel(reqs, Live(c.heap), m)
  }

  ghost predicate CountsOk(reqs: seq<Request>, c: Census) {
    forall k: Key :: k.block in BLOCKS ==> At(c.counts, k) == |Having(reqs, Live(c.heap), k)|
  }

  predicate Retired(reqs: seq<Request>, n: nat, heap: seq<Completion>, j: nat) {
    j < n <= |reqs| && reqs[j].apiTime > 0.0 && j !in Live(heap)
  }

  /** Completions leave in order and no later than now. */
  ghost predicate RetiredOk(reqs: seq<Request>, n: nat, heap: seq<Completion>, now: real) {
    forall j: nat :: Retired(reqs, n, heap, j) ==>
      reqs[j].End() <= now && forall x :: x in heap ==> Earlier(Completion(reqs[j].End(), j), x)
  }

  function RetiredOf(reqs: seq<Request>, n: nat, c: Census, stream: Stream): set<nat> {
    set j | 0 <= j < n && Retired(reqs, n, c.heap, j) && reqs[j].stream == stream && reqs[j].produced > 0
  }

  ghost predicate CompletedOk(reqs: seq<Request>, n: nat, c: Census) {
    forall s :: if s in c.completed then LatestOf(reqs, RetiredOf(reqs, n, c, s), c.completed[s])
                else RetiredOf(reqs, n, c, s) == {}
  }

  lemma {:induction false} EnqueueOk(heap: seq<Completion>, c: Completion)
    requires Ordered(heap) && forall x :: x in heap ==> x.index != c.index
    ensures Ordered(Enqueue(heap, c))
    ensures forall x :: x in Enqueue(heap, c) <==> x in heap || x == c
  {
    var n := |heap| - 1;
    if heap != [] && !Earlier(heap[n], c) {
      EnqueueOk(heap[..n], c);
      assert heap == heap[..n] + [heap[n]];
      var e := Enqueue(heap[..n], c);
      forall i | 0 <= i < |e| ensures Earlier(e[i], heap[n]) {
        assert e[i] in heap[..n] || e[i] == c;
      }
    }
  }

  lemma {:induction false} BumpAt(counts: map<Key, int>, r: Request, delta: int, blocks: seq<nat>, k: Key)
    requires forall i, j :: 0 <= i < j < |blocks| ==> blocks[i] != blocks[j]
    ensures At(Bump(counts, r, delta, blocks), k)
            == At(counts, k)
               + if k.block in blocks && r.stream.model == k.model && HasBlock(r, k.block, k.id) then delta else 0
  {
    if blocks != [] {
      var n := |blocks| - 1;
      BumpAt(counts, r, delta, blocks[..n], k);
      assert blocks == blocks[..n] + [blocks[n]];
    }
  }

  lemma PopLive(heap: seq<Completion>)
    requires Ordered(heap) && heap != []
    requires forall x, y :: x in heap && y in heap && x.index == y.index ==> x == y
    ensures Live(heap[1..]) == Live(heap) - {heap[0].index}
  {
    assert heap == [heap[0]] + heap[1..];
    assert heap[0] !in heap[1..];
    forall j ensures j in Live(heap[1..]) <==> j in Live(heap) && j != heap[0].index {
      if j in Live(heap) && j != heap[0].index {
        var x :| x in heap && x.index == j;
        assert x in heap[1..];
      }
      if j in Live(heap[1..]) {
        var x :| x in heap[1..] && x.index == j;
        assert x in heap;
      }
    }
  }

  lemma RetireActive(reqs: seq<Request>, n: nat, c: Census)
    requires HeapOk(reqs, n, c.heap) && c.heap != [] && ActiveOk(reqs, c)
    ensures ActiveOk(reqs, Retire(reqs, c))
  {
    PopLive(c.heap);
    hide Live, Bump;
    var c' := Retire(reqs, c);
    forall m ensures ActiveOf(c', m) == OfModel(reqs, Live(c'.heap), m) {
      assert ActiveOf(c, m) == OfModel(reqs, Live(c.heap), m);
    }
  }

  lemma RetireCounts(reqs: seq<Request>, n: nat, c: Census)
    requires HeapOk(reqs, n, c.heap) && c.heap != [] && CountsOk(reqs, c)
    ensures CountsOk(reqs, Retire(reqs, c))
  {
    PopLive(c.heap);
    var j := c.heap[0].index;
    assert j in Live(c.heap);
    hide Live, Bump, Having, HasBlock, HeapOk;
    var c' := Retire(reqs, c);
    forall k: Key | k.block in BLOCKS ensures At(c'.counts, k) == |Having(reqs, Live(c'.heap), k)| {
      BumpAt(c.counts, reqs[j], -1, BLOCKS, k);
      assert Live(c'.heap) + {j} == Live(c.heap);
      HavingMore(reqs, Live(c'.heap), j, k);
    }
  }

  /** Taking the earliest completion off the heap keeps the completions in order. */
  lemma PopOrder(reqs: seq<Request>, n: nat, heap: seq<Completion>, now: real)
    requires HeapOk(reqs, n, heap) && heap != [] && RetiredOk(reqs, n, heap, now) && heap[0].end <= now
    ensures HeapOk(reqs, n, heap[1..]) && RetiredOk(reqs, n, heap[1..], now)
  {
    PopLive(heap);
    var rest := heap[1..];
    assert forall x :: x in rest ==> x in heap;
    hide Live;
    forall j: nat | Retired(reqs, n, rest, j)
      ensures reqs[j].End() <= now && forall x :: x in rest ==> Earlier(Completion(reqs[j].End(), j), x)
    {
      if j != heap[0].index {
        assert Retired(reqs, n, heap, j);
      } else {
        assert forall i :: 0 <= i < |rest| ==> rest[i] == heap[i+1];
      }
    }
  }

  lemma RetireCompleted(reqs: seq<Request>, n: nat, c: Census, now: real)
    requires HeapOk(reqs, n, c.heap) && c.heap != [] && RetiredOk(reqs, n, c.heap, now) && CompletedOk(reqs, n, c)
    ensures CompletedOk(reqs, n, Retire(reqs, c))
  {
    PopLive(c.heap);
    var j := c.heap[0].index;
    assert j in Live(c.heap);
    hide Live, Bump;
    var c' := Retire(reqs, c);
    forall s ensures if s in c'.completed then LatestOf(reqs, RetiredOf(reqs, n, c', s), c'.completed[s])
                     else RetiredOf(reqs, n, c', s) == {}
    {
      var before := RetiredOf(reqs, n, c, s);
      var counted := reqs[j].stream == s && reqs[j].produced > 0;
      assert RetiredOf(reqs, n, c', s) == if counted then before + {j} else before;
      if counted {
        forall k | k in before ensures Earlier(Completion(reqs[k].End(), k), c.heap[0]) {
          assert Retired(reqs, n, c.heap, k);
        }
      }
    }
  }

  ghost predicate CensusOk(reqs: seq<Request>, n: nat, c: Census, now: real) {
    && HeapOk(reqs, n, c.heap) && ActiveOk(reqs, c) && CountsOk(reqs, c)
    && RetiredOk(reqs, n, c.heap, now) && CompletedOk(reqs, n, c)
  }

  lemma RetireHeap(reqs: seq<Request>, c: Census)
    requires c.heap != [] && Indexed(reqs, c.heap)
    ensures Retire(reqs, c).heap == c.heap[1..]
  {
  }

  lemma RetireKeepsOk(reqs: seq<Request>, n: nat, c: Census, now: real)
    requires CensusOk(reqs, n, c, now) && c.heap != [] && c.heap[0].end <= now
    ensures CensusOk(reqs, n, Retire(reqs, c), now)
  {
    hide Retire, ActiveOk, CountsOk, RetiredOk, CompletedOk;
    RetireActive(reqs, n, c);
    RetireCounts(reqs, n, c);
    PopOrder(reqs, n, c.heap, now);
    RetireHeap(reqs, c);
    RetireCompleted(reqs, n, c, now);
  }

  lemma PushLive(reqs: seq<Request>, heap: seq<Completion>, i: nat)
    requires HeapOk(reqs, i, heap) && i < |reqs| && reqs[i].apiTime > 0.0
    ensures HeapOk(reqs, i + 1, Pushed(reqs, heap, i)) && i !in Live(heap)
    ensures Live(Pushed(reqs, heap, i)) == Live(heap) + {i}
    ensures forall x :: x in Pushed(reqs, heap, i) <==> x in heap || x == Completion(reqs[i].End(), i)
  {
    EnqueueOk(heap, Completion(reqs[i].End(), i));
    var heap' := Pushed(reqs, heap, i);
    assert Completion(reqs[i].End(), i) in heap';
    assert forall x :: x in heap ==> x in heap';
  }

  /** An arrival retires nothing. */
  lemma PushRetired(reqs: seq<Request>, heap: seq<Completion>, i: nat)
    requires HeapOk(reqs, i, heap) && i < |reqs| && RetiredOk(reqs, i, heap, reqs[i].t)
    ensures HeapOk(reqs, i + 1, Pushed(reqs, heap, i)) && RetiredOk(reqs, i + 1, Pushed(reqs, heap, i), reqs[i].t)
    ensures forall j: nat :: Retired(reqs, i + 1, Pushed(reqs, heap, i), j) <==> Retired(reqs, i, heap, j)
  {
    var heap' := Pushed(reqs, heap, i);
    if reqs[i].apiTime > 0.0 {
      PushLive(reqs, heap, i);
    }
    hide Live, Enqueue, Pushed;
    assert forall j: nat :: Retired(reqs, i + 1, heap', j) <==> Retired(reqs, i, heap, j);
  }

  lemma AdmitActive(reqs: seq<Request>, c: Census, i: nat)
    requires HeapOk(reqs, i, c.heap) && i < |reqs| && reqs[i].apiTime > 0.0 && ActiveOk(reqs, c)
    ensures ActiveOk(reqs, Admit(reqs, c, i))
  {
    PushLive(reqs, c.heap, i);
    hide Live, Bump, Pushed;
    var c' := Admit(reqs, c, i);
    forall m ensures ActiveOf(c', m) == OfModel(reqs, Live(c'.heap), m) {
      assert ActiveOf(c, m) == OfModel(reqs, Live(c.heap), m);
    }
  }

  lemma AdmitCount(reqs: seq<Request>, c: Census, i: nat, k: Key)
    requires HeapOk(reqs, i, c.heap) && i < |reqs| && reqs[i].apiTime > 0.0 && k.block in BLOCKS
    requires At(c.counts, k) == |Having(reqs, Live(c.heap), k)|
    ensures At(Bump(c.counts, reqs[i], 1, BLOCKS), k) == |Having(reqs, Live(Pushed(reqs, c.heap, i)), k)|
  {
    hide Bump, Having, HasBlock, Live, Pushed;
    PushLive(reqs, c.heap, i);
    BumpAt(c.counts, reqs[i], 1, BLOCKS, k);
    HavingMore(reqs, Live(c.heap), i, k);
  }

  lemma AdmitCounts(reqs: seq<Request>, c: Census, i: nat)
    requires HeapOk(reqs, i, c.heap) && i < |reqs| && reqs[i].apiTime > 0.0 && CountsOk(reqs, c)
    ensures CountsOk(reqs, Admit(reqs, c, i))
  {
    hide Bump, Having, Live, Pushed, HeapOk, At;
    forall k: Key | k.block in BLOCKS
      ensures At(Bump(c.counts, reqs[i], 1, BLOCKS), k) == |Having(reqs, Live(Pushed(reqs, c.heap, i)), k)|
    {
      AdmitCount(reqs, c, i, k);
    }
  }

  lemma HavingMore(reqs: seq<Request>, some: set<nat>, i: nat, k: Key)
    requires i < |reqs| && i !in some
    ensures |Having(reqs, some + {i}, k)|
            == |Having(reqs, some, k)|
               + if reqs[i].stream.model == k.model && HasBlock(reqs[i], k.block, k.id) then 1 else 0
  {
    var before := Having(reqs, some, k);
    var counted := reqs[i].stream.model == k.model && HasBlock(reqs[i], k.block, k.id);
    assert Having(reqs, some + {i}, k) == if counted then before + {i} else before;
  }

  lemma AdmitCompleted(reqs: seq<Request>, c: Census, i: nat)
    requires HeapOk(reqs, i, c.heap) && i < |reqs| && RetiredOk(reqs, i, c.heap, reqs[i].t) && CompletedOk(reqs, i, c)
    ensures CompletedOk(reqs, i + 1, Admit(reqs, c, i))
  {
    var c' := Admit(reqs, c, i);
    PushRetired(reqs, c.heap, i);
    hide Live, Bump, Pushed, Retired;
    forall s ensures RetiredOf(reqs, i + 1, c', s) == RetiredOf(reqs, i, c, s) {
    }
  }

  lemma AdmitKeepsOk(reqs: seq<Request>, c: Census, i: nat)
    requires i < |reqs| && CensusOk(reqs, i, c, reqs[i].t)
    ensures CensusOk(reqs, i + 1, Admit(reqs, c, i), reqs[i].t)
  {
    PushRetired(reqs, c.heap, i);
    AdmitCompleted(reqs, c, i);
    if reqs[i].apiTime > 0.0 {
      AdmitActive(reqs, c, i);
      AdmitCounts(reqs, c, i);
    }
    hide ActiveOk, CountsOk, RetiredOk, CompletedOk, Live, Bump, Enqueue;
  }

  // ---- the replay meets the recount ----

  /** What an arrival finds: the active requests of its model, the latest completion of its stream with the blocks
      shared with that and the time since, and the active requests sharing its prefix. */
  datatype Arrival =
    Arrival(active: set<nat>, prior: Option<nat>, common: nat, gap: Option<real>, sharing: seq<Option<int>>)

  /** The number of leading blocks that two lists share. */
  function CommonBlocks(a: seq<nat>, b: seq<nat>): (n: nat)
    ensures IsCommon(n, a, b)
  {
    if a == [] || b == [] || a[0] != b[0] then 0
    else
      var n := CommonBlocks(a[1..], b[1..]);
      assert a[..n+1] == [a[0]] + a[1..][..n] && b[..n+1] == [b[0]] + b[1..][..n];
      n + 1
  }

  ghost predicate IsCommon(n: nat, a: seq<nat>, b: seq<nat>) {
    n <= |a| && n <= |b| && a[..n] == b[..n] && (n < |a| && n < |b| ==> a[n] != b[n])
  }

  /** How many requests in flight the counters show sharing request i's prefix, at each counted length it reaches. */
  function Sharing(counts: map<Key, int>, r: Request, blocks: seq<nat>): (s: seq<Option<int>>)
    ensures |s| == |blocks|
  {
    seq(|blocks|, k requires 0 <= k < |blocks| =>
      if 0 < blocks[k] <= |r.hashes|
      then Some(At(counts, Key(r.stream.model, blocks[k], r.hashes[blocks[k]-1]))) else None)
  }

  function Observed(reqs: seq<Request>, c: Census, i: nat): Arrival
    requires i < |reqs| && (reqs[i].stream in c.completed ==> c.completed[reqs[i].stream] < |reqs|)
  {
    var r := reqs[i];
    var active, sharing := ActiveOf(c, r.stream.model), Sharing(c.counts, r, BLOCKS);
    if r.stream in c.completed then
      var j := c.completed[r.stream];
      Arrival(active, Some(j), CommonBlocks(r.hashes, reqs[j].hashes), Some(r.t - reqs[j].t - reqs[j].apiTime), sharing)
    else Arrival(active, None, 0, None, sharing)
  }

  predicate ByTime(reqs: seq<Request>) { forall i, j :: 0 <= i < j < |reqs| ==> reqs[i].t <= reqs[j].t }

  /** What request i finds on arrival, recounted from the records alone. */
  ghost predicate Recounted(reqs: seq<Request>, i: nat, a: Arrival)
    requires i < |reqs|
  {
    var r := reqs[i];
    && a.active == OfModel(reqs, InFlight(reqs, i), r.stream.model)
    && (if a.prior.Some? then
          && LatestOf(reqs, Finished(reqs, i, r.stream), a.prior.value)
          && IsCommon(a.common, r.hashes, reqs[a.prior.value].hashes)
          && a.gap == Some(r.t - reqs[a.prior.value].End()) && a.gap.value >= 0.0
        else Finished(reqs, i, r.stream) == {} && a.common == 0 && a.gap == None)
    && |a.sharing| == 3 && a.sharing[0] == SharingOf(reqs, i, 8192 / 64)
    && a.sharing[1] == SharingOf(reqs, i, 32768 / 64) && a.sharing[2] == SharingOf(reqs, i, 65536 / 64)
  }

  /** How many requests of the same model in flight have the same block at that place, if the request is long enough. */
  ghost function SharingOf(reqs: seq<Request>, i: nat, blocks: nat): Option<nat>
    requires i < |reqs| && blocks > 0
  {
    var r := reqs[i];
    if |r.hashes| < blocks then None
    else Some(|Having(reqs, InFlight(reqs, i), Key(r.stream.model, blocks, r.hashes[blocks-1]))|)
  }

  /** When no completion is due, the heap holds exactly the requests in flight. */
  lemma RetiredHaveEnded(reqs: seq<Request>, i: nat, heap: seq<Completion>)
    requires i < |reqs| && HeapOk(reqs, i, heap) && RetiredOk(reqs, i, heap, reqs[i].t)
    requires heap != [] ==> heap[0].end > reqs[i].t
    ensures Live(heap) == InFlight(reqs, i)
    ensures forall j: nat :: Retired(reqs, i, heap, j) <==> j < i && reqs[j].apiTime > 0.0 && reqs[j].End() <= reqs[i].t
  {
    forall x | x in heap ensures x.end > reqs[i].t {
      var k :| 0 <= k < |heap| && heap[k] == x;
      assert k > 0 ==> Earlier(heap[0], x);
    }
    forall j: nat | j < i && reqs[j].apiTime > 0.0 ensures j in Live(heap) <==> reqs[j].End() > reqs[i].t {
      if j !in Live(heap) {
        assert Retired(reqs, i, heap, j);
      }
    }
  }

  lemma LiveIsInFlight(reqs: seq<Request>, i: nat, c: Census)
    requires i < |reqs| && CensusOk(reqs, i, c, reqs[i].t) && (c.heap != [] ==> c.heap[0].end > reqs[i].t)
    ensures Live(c.heap) == InFlight(reqs, i)
    ensures RetiredOf(reqs, i, c, reqs[i].stream) == Finished(reqs, i, reqs[i].stream)
  {
    RetiredHaveEnded(reqs, i, c.heap);
    hide ActiveOk, CountsOk, CompletedOk, RetiredOk, Live, Retired;
  }

  lemma SharingIsRecounted(reqs: seq<Request>, i: nat, c: Census)
    requires i < |reqs| && CensusOk(reqs, i, c, reqs[i].t) && Live(c.heap) == InFlight(reqs, i)
    ensures Sharing(c.counts, reqs[i], BLOCKS)
            == [SharingOf(reqs, i, 8192 / 64), SharingOf(reqs, i, 32768 / 64), SharingOf(reqs, i, 65536 / 64)]
  {
    hide Live, InFlight, Having, ActiveOk, HeapOk, RetiredOk, CompletedOk;
    assert 128 in BLOCKS && 512 in BLOCKS && 1024 in BLOCKS;
  }

  lemma ObservedIsRecounted(reqs: seq<Request>, i: nat, c: Census)
    requires i < |reqs| && CensusOk(reqs, i, c, reqs[i].t) && (c.heap != [] ==> c.heap[0].end > reqs[i].t)
    ensures reqs[i].stream in c.completed ==> c.completed[reqs[i].stream] < |reqs|
    ensures Recounted(reqs, i, Observed(reqs, c, i))
  {
    LiveIsInFlight(reqs, i, c);
    SharingIsRecounted(reqs, i, c);
    hide Live, InFlight, RetiredOf, Having, OfModel, HeapOk, RetiredOk, CommonBlocks, IsCommon, Sharing, SharingOf;
    hide CountsOk;
  }

  /** The most requests ever in flight at once, counting each arrival that takes time. */
  function Peak(reqs: seq<Request>, n: nat): nat
    requires n <= |reqs|
  {
    if n == 0 then 0
    else
      var before, now := Peak(reqs, n - 1), |InFlight(reqs, n - 1)| + 1;
      if reqs[n-1].apiTime > 0.0 && now > before then now else before
  }

  function OfModels(reqs: seq<Request>, some: set<nat>, ms: set<nat>): set<nat> {
    set j | j in some && j < |reqs| && reqs[j].stream.model in ms
  }

  lemma MoreModels(reqs: seq<Request>, some: set<nat>, ms: set<nat>, m: nat)
    requires m !in ms
    ensures |OfModels(reqs, some, ms + {m})| == |OfModels(reqs, some, ms)| + |OfModel(reqs, some, m)|
  {
    assert OfModels(reqs, some, ms + {m}) == OfModels(reqs, some, ms) + OfModel(reqs, some, m);
  }

  /** The sizes of the active sets add up to the number of requests in flight. */
  method CountActive(reqs: seq<Request>, n: nat, c: Census) returns (total: nat)
    requires HeapOk(reqs, n, c.heap) && ActiveOk(reqs, c)
    ensures total == |Live(c.heap)|
  {
    hide HeapOk, Live, OfModels, OfModel;
    total := 0;
    var done: set<nat> := {};
    NoModels(reqs, Live(c.heap));
    while done != c.active.Keys
      invariant done <= c.active.Keys && total == |OfModels(reqs, Live(c.heap), done)|
      decreases |c.active.Keys - done|
    {
      ghost var some := Member(c.active.Keys - done);
      var m :| m in c.active.Keys - done;
      MoreModels(reqs, Live(c.heap), done, m);
      assert ActiveOf(c, m) == OfModel(reqs, Live(c.heap), m);
      assert c.active.Keys - (done + {m}) < c.active.Keys - done;
      total := total + |c.active[m]|;
      done := done + {m};
    }
    AllModels(reqs, n, c);
  }

  lemma NoModels(reqs: seq<Request>, some: set<nat>)
    ensures OfModels(reqs, some, {}) == {}
  {
  }

  lemma Member<T>(s: set<T>) returns (x: T)
    requires s != {}
    ensures x in s
  {
    x :| x in s;
  }

  lemma AllModels(reqs: seq<Request>, n: nat, c: Census)
    requires HeapOk(reqs, n, c.heap) && ActiveOk(reqs, c)
    ensures OfModels(reqs, Live(c.heap), c.active.Keys) == Live(c.heap)
  {
    forall j | j in Live(c.heap) ensures j < |reqs| && reqs[j].stream.model in c.active {
      assert ActiveOf(c, reqs[j].stream.model) == OfModel(reqs, Live(c.heap), reqs[j].stream.model);
      assert j in OfModel(reqs, Live(c.heap), reqs[j].stream.model);
    }
  }

  /** Replays the arrivals in order; every arrival finds exactly what a direct recount finds. */
  method Replay(reqs: seq<Request>) returns (seen: seq<Arrival>, peak: nat)
    requires ByTime(reqs)
    ensures |seen| == |reqs| && forall i :: 0 <= i < |reqs| ==> Recounted(reqs, i, seen[i])
    ensures peak == Peak(reqs, |reqs|)
  {
    hide CensusOk, Recounted, Admit, Retire, Observed, Indexed, InFlight, Live, Peak, HeapOk, ActiveOk, ByTime;
    var c := Census(map[], map[], [], map[]);
    seen, peak := [], 0;
    ghost var now := if reqs == [] then 0.0 else reqs[0].t;
    EmptyOk(reqs, now);
    NoPeak(reqs);
    for i := 0 to |reqs|
      invariant CensusOk(reqs, i, c, now)
      invariant now == if i > 0 then reqs[i-1].t else if reqs == [] then 0.0 else reqs[0].t
      invariant |seen| == i && forall k :: 0 <= k < i ==> Recounted(reqs, k, seen[k])
      invariant peak == Peak(reqs, i)
    {
      var r := reqs[i];
      if i > 0 {
        NotBefore(reqs, i);
      }
      Later(reqs, i, c, now, r.t);
      now := r.t;
      while c.heap != [] && c.heap[0].end <= r.t
        invariant CensusOk(reqs, i, c, now)
        decreases |c.heap|
      {
        RetireKeepsOk(reqs, i, c, r.t);
        RetireShrinks(reqs, i, c, r.t);
        c := Retire(reqs, c);
      }
      ObservedIsRecounted(reqs, i, c);
      seen := seen + [Observed(reqs, c, i)];
      AdmitKeepsOk(reqs, c, i);
      AdmitCountsOneMore(reqs, c, i);
      c := Admit(reqs, c, i);
      PeakNext(reqs, i);
      if r.apiTime > 0.0 {
        OkParts(reqs, i + 1, c, now);
        var total := CountActive(reqs, i + 1, c);
        peak := if total > peak then total else peak;
      }
    }
  }

  lemma NotBefore(reqs: seq<Request>, i: nat)
    requires ByTime(reqs) && 0 < i < |reqs|
    ensures reqs[i-1].t <= reqs[i].t
  {
  }

  lemma NoPeak(reqs: seq<Request>)
    ensures Peak(reqs, 0) == 0
  {
  }

  lemma PeakNext(reqs: seq<Request>, i: nat)
    requires i < |reqs|
    ensures var before, now := Peak(reqs, i), |InFlight(reqs, i)| + 1;
            Peak(reqs, i + 1) == if reqs[i].apiTime > 0.0 && now > before then now else before
  {
  }

  lemma OkParts(reqs: seq<Request>, n: nat, c: Census, now: real)
    requires CensusOk(reqs, n, c, now)
    ensures HeapOk(reqs, n, c.heap) && ActiveOk(reqs, c)
  {
  }

  lemma AdmitCountsOneMore(reqs: seq<Request>, c: Census, i: nat)
    requires i < |reqs| && CensusOk(reqs, i, c, reqs[i].t) && (c.heap != [] ==> c.heap[0].end > reqs[i].t)
    ensures reqs[i].apiTime > 0.0 ==> |Live(Admit(reqs, c, i).heap)| == |InFlight(reqs, i)| + 1
  {
    RetiredHaveEnded(reqs, i, c.heap);
    if reqs[i].apiTime > 0.0 {
      PushLive(reqs, c.heap, i);
    }
    hide Live, InFlight, Pushed, ActiveOk, CountsOk, CompletedOk, RetiredOk;
  }

  lemma EmptyOk(reqs: seq<Request>, now: real)
    ensures CensusOk(reqs, 0, Census(map[], map[], [], map[]), now)
  {
  }

  lemma Later(reqs: seq<Request>, n: nat, c: Census, now: real, later: real)
    requires CensusOk(reqs, n, c, now) && now <= later
    ensures CensusOk(reqs, n, c, later)
  {
    hide ActiveOk, CountsOk, CompletedOk;
  }

  lemma RetireShrinks(reqs: seq<Request>, n: nat, c: Census, now: real)
    requires CensusOk(reqs, n, c, now) && c.heap != []
    ensures |Retire(reqs, c).heap| < |c.heap| && Indexed(reqs, c.heap)
  {
  }

  /** After a passed predecessor check, what is counted are the requests in flight that share the whole prefix. */
  lemma SharingIsWholePrefix(reqs: seq<Request>, i: nat, b: nat)
    requires AllFollow(seq(|reqs|, j requires 0 <= j < |reqs| => reqs[j].hashes))
    requires i < |reqs| && 0 < b <= |reqs[i].hashes|
    ensures Having(reqs, InFlight(reqs, i), Key(reqs[i].stream.model, b, reqs[i].hashes[b-1]))
            == set j | j in OfModel(reqs, InFlight(reqs, i), reqs[i].stream.model)
                       && |reqs[j].hashes| >= b && reqs[j].hashes[..b] == reqs[i].hashes[..b]
  {
    var hashes := seq(|reqs|, j requires 0 <= j < |reqs| => reqs[j].hashes);
    forall j | 0 <= j < |reqs| && |reqs[j].hashes| >= b
      ensures reqs[j].hashes[b-1] == reqs[i].hashes[b-1] <==> reqs[j].hashes[..b] == reqs[i].hashes[..b]
    {
      BlockIdentifiesPrefix(hashes, i, j, b - 1);
    }
  }
}
