/** Anonymous production traces: surrogate prompts, parent-prefix pairs and the parent cohort. */
module Production {
  import opened Wrappers
  import opened Sorting

  /** The tokens that stand for one block hash; which ones is left open. */
  type BlockTokens = s: seq<nat> | |s| == 16 witness seq(16, _ => 0)

  type Expand = int -> BlockTokens

  datatype Row =
    Row(chatId: int, parentId: int, kind: string, inputLength: int, hashes: seq<int>, outputLength: int,
        timestamp: real)

  datatype Pair = Pair(parent: Row, child: Row)

  predicate BlockCountOk(r: Row) { r.inputLength > 0 && |r.hashes| == (r.inputLength + 15) / 16 }

  predicate RowOk(r: Row) { BlockCountOk(r) && r.outputLength >= 0 }

  ghost predicate UniqueIds(rows: seq<Row>) { forall i, j :: 0 <= i < j < |rows| ==> rows[i].chatId != rows[j].chatId }

  // ---- surrogate prompts ----

  function Concat(expand: Expand, hashes: seq<int>): (r: seq<nat>)
    ensures |r| == 16 * |hashes|
  {
    if hashes == [] then [] else Concat(expand, hashes[..|hashes|-1]) + expand(hashes[|hashes|-1])
  }

  /** None for a row whose block count does not match its length. */
  function SurrogateTokens(expand: Expand, r: Row): (tokens: Option<seq<nat>>)
    ensures tokens.Some? <==> BlockCountOk(r)
    ensures tokens.Some? ==> |tokens.value| == r.inputLength
  {
    if BlockCountOk(r) then Some(Concat(expand, r.hashes)[..r.inputLength]) else None
  }

  lemma {:induction false} ConcatPrefix(expand: Expand, hashes: seq<int>, n: nat)
    requires n <= |hashes|
    ensures Concat(expand, hashes)[..16 * n] == Concat(expand, hashes[..n])
  {
    if n < |hashes| {
      var front := hashes[..|hashes|-1];
      ConcatPrefix(expand, front, n);
      assert front[..n] == hashes[..n];
      assert Concat(expand, hashes)[..16 * n] == Concat(expand, front)[..16 * n];
    } else {
      assert hashes[..n] == hashes;
    }
  }

  /** The number of leading blocks that two lists share. */
  function CommonBlocks(a: seq<int>, b: seq<int>): (n: nat)
    ensures IsMatched(n, a, b)
  {
    if a == [] || b == [] || a[0] != b[0] then 0
    else
      var n := CommonBlocks(a[1..], b[1..]);
      assert a[..n+1] == [a[0]] + a[1..][..n] && b[..n+1] == [b[0]] + b[1..][..n];
      n + 1
  }

  ghost predicate IsMatched(n: nat, a: seq<int>, b: seq<int>) {
    && n <= |a| && n <= |b| && a[..n] == b[..n]
    && (n < |a| && n < |b| ==> a[n] != b[n])
  }

  lemma MatchedIsUnique(n: nat, m: nat, a: seq<int>, b: seq<int>)
    requires IsMatched(n, a, b) && IsMatched(m, a, b)
    ensures n == m
  {
    assert forall i :: 0 <= i < m ==> a[i] == a[..m][i] && b[i] == b[..m][i];
    assert forall i :: 0 <= i < n ==> a[i] == a[..n][i] && b[i] == b[..n][i];
  }

  method Matched(a: seq<int>, b: seq<int>) returns (n: nat)
    ensures n == CommonBlocks(a, b)
  {
    n := 0;
    while n < |a| && n < |b| && a[n] == b[n]
      invariant n <= |a| && n <= |b| && a[..n] == b[..n]
    {
      n := n + 1;
    }
    MatchedIsUnique(n, CommonBlocks(a, b), a, b);
  }

  function Min(a: int, b: int): int { if a < b then a else b }

  /** The verified overlap of two prompts in tokens. */
  function Overlap(parent: Row, child: Row): int {
    Min(Min(16 * CommonBlocks(parent.hashes, child.hashes), parent.inputLength), child.inputLength)
  }

  /** The verified overlap really is shared: both surrogate prompts start with the same tokens up to it. */
  lemma OverlapIsShared(expand: Expand, parent: Row, child: Row)
    requires BlockCountOk(parent) && BlockCountOk(child)
    ensures var n := Overlap(parent, child);
            && 0 <= n <= parent.inputLength && n <= child.inputLength
            && SurrogateTokens(expand, parent).value[..n] == SurrogateTokens(expand, child).value[..n]
  {
    var n, matched := Overlap(parent, child), CommonBlocks(parent.hashes, child.hashes);
    ConcatPrefix(expand, parent.hashes, matched);
    ConcatPrefix(expand, child.hashes, matched);
    var p, c := Concat(expand, parent.hashes), Concat(expand, child.hashes);
    assert p[..n] == p[..16 * matched][..n] == c[..16 * matched][..n] == c[..n];
    assert p[..parent.inputLength][..n] == p[..n] && c[..child.inputLength][..n] == c[..n];
  }

  /** The token positions that both prompts have and before which, and in whose own block, all their blocks agree. */
  function SharedPositions(parent: Row, child: Row): set<int> {
    set t | 0 <= t < parent.inputLength && t < child.inputLength && t / 16 < |parent.hashes| && t / 16 < |child.hashes|
            && parent.hashes[..t/16+1] == child.hashes[..t/16+1]
  }

  /** The verified overlap is the number of these positions. */
  lemma OverlapCountsShared(parent: Row, child: Row)
    requires parent.inputLength >= 0 && child.inputLength >= 0
    ensures Overlap(parent, child) == |SharedPositions(parent, child)|
  {
    var n, matched := Overlap(parent, child), CommonBlocks(parent.hashes, child.hashes);
    forall t | 0 <= t ensures t in SharedPositions(parent, child) <==> t < n {
      if t / 16 < matched {
        assert parent.hashes[..matched][..t/16+1] == parent.hashes[..t/16+1];
        assert child.hashes[..matched][..t/16+1] == child.hashes[..t/16+1];
      } else if t / 16 < |parent.hashes| && t / 16 < |child.hashes| {
        assert parent.hashes[..t/16+1][matched] == parent.hashes[matched];
        assert child.hashes[..t/16+1][matched] == child.hashes[matched];
      }
    }
    CountUpTo(SharedPositions(parent, child), n);
  }

  lemma {:induction false} CountUpTo(s: set<int>, n: nat)
    requires forall t :: t in s <==> 0 <= t < n
    ensures |s| == n
  {
    if n > 0 {
      CountUpTo(s - {n - 1}, n - 1);
      assert s == s - {n - 1} + {n - 1};
    } else if s != {} {
      var t := Member(s);
      assert false;
    }
  }

  /** The parent fills its blocks and the child's block list begins with them. */
  predicate ExactParent(parent: Row, child: Row) { parent.inputLength % 16 == 0 && parent.hashes <= child.hashes }

  /** For valid rows the overlap reaches the whole parent exactly when its block list begins the child's, as far as the
      child is long enough. */
  lemma FullOverlapIff(parent: Row, child: Row)
    requires BlockCountOk(parent) && BlockCountOk(child)
    ensures parent.inputLength % 16 == 0 && Overlap(parent, child) == parent.inputLength
            <==> ExactParent(parent, child) && child.inputLength >= parent.inputLength
  {
    if parent.inputLength % 16 != 0 {
      return;
    }
    var matched := CommonBlocks(parent.hashes, child.hashes);
    assert 16 * |parent.hashes| == parent.inputLength;
    if matched == |parent.hashes| {
      assert parent.hashes[..matched] == parent.hashes;
    } else {
      assert matched < |child.hashes| ==> parent.hashes[matched] != child.hashes[matched];
    }
  }

  /** A longer child of an exact parent extends the parent's surrogate prompt. */
  lemma ExactParentIsPrefix(expand: Expand, parent: Row, child: Row)
    requires BlockCountOk(parent) && BlockCountOk(child)
    requires ExactParent(parent, child) && child.inputLength > parent.inputLength
    ensures SurrogateTokens(expand, parent).value < SurrogateTokens(expand, child).value
  {
    var n := |parent.hashes|;
    ConcatPrefix(expand, child.hashes, n);
    assert parent.hashes == child.hashes[..n];
    var p, c := Concat(expand, parent.hashes), Concat(expand, child.hashes);
    assert parent.inputLength == 16 * n;
    assert p[..parent.inputLength] == p;
    assert c[..child.inputLength][..16 * n] == c[..16 * n];
  }

  // ---- looking rows up ----

  function ById(rows: seq<Row>): (m: map<int, Row>)
    ensures forall k :: k in m ==> m[k] in rows && m[k].chatId == k
    ensures forall r :: r in rows ==> r.chatId in m
  {
    if rows == [] then map[]
    else
      var n := |rows| - 1;
      assert rows == rows[..n] + [rows[n]];
      ById(rows[..n])[rows[n].chatId := rows[n]]
  }

  /** With unique ids the table gives every row back. */
  lemma UniqueLookup(rows: seq<Row>, r: Row)
    requires UniqueIds(rows) && r in rows
    ensures ById(rows)[r.chatId] == r
  {
    var found := ById(rows)[r.chatId];
    var i :| 0 <= i < |rows| && rows[i] == r;
    var j :| 0 <= j < |rows| && rows[j] == found;
  }

  // ---- the parent pairs ----

  datatype Counts = Counts(roots: nat, missing: nat, linked: nat, overlap: int, childTokens: int, partial: nat,
                           notFull: nat, exact: nat)

  predicate Linked(byId: map<int, Row>, child: Row) { child.parentId >= 0 && child.parentId in byId }

  /** A child may not be as early as its parent. */
  predicate OrderOk(byId: map<int, Row>, child: Row) {
    Linked(byId, child) ==> byId[child.parentId].timestamp < child.timestamp
  }

  predicate Eligible(parent: Row, child: Row, maxPairTokens: int) {
    ExactParent(parent, child) && child.inputLength > parent.inputLength && child.inputLength <= maxPairTokens
  }

  /** The eligible pairs in row order. */
  function EligiblePairs(byId: map<int, Row>, rows: seq<Row>, maxPairTokens: int): seq<Pair> {
    if rows == [] then []
    else
      var n := |rows| - 1;
      var before := EligiblePairs(byId, rows[..n], maxPairTokens);
      if Linked(byId, rows[n]) && Eligible(byId[rows[n].parentId], rows[n], maxPairTokens)
      then before + [Pair(byId[rows[n].parentId], rows[n])] else before
  }

  predicate ByChildArrival(x: Pair, y: Pair) { Arrival(x.child, y.child) }

  predicate Arrival(x: Row, y: Row) {
    x.timestamp < y.timestamp || (x.timestamp == y.timestamp && x.chatId <= y.chatId)
  }

  ghost predicate Indexed(rows: seq<Row>) { UniqueIds(rows) && forall r :: r in rows ==> RowOk(r) }

  lemma UniqueNext(before: seq<Row>, r: Row)
    ensures UniqueIds(before + [r]) <==> UniqueIds(before) && forall x :: x in before ==> x.chatId != r.chatId
  {
    var after := before + [r];
    assert after[|before|] == r && forall k :: 0 <= k < |before| ==> after[k] == before[k];
    if UniqueIds(after) {
      forall x | x in before ensures x.chatId != r.chatId {
        var k :| 0 <= k < |before| && before[k] == x;
        assert after[k].chatId != after[|before|].chatId;
      }
    }
    if forall x :: x in before ==> x.chatId != r.chatId {
      assert forall k :: 0 <= k < |before| ==> before[k] in before;
    }
  }

  lemma IdsKnown(rows: seq<Row>, k: int)
    ensures k in ById(rows) <==> exists r :: r in rows && r.chatId == k
  {
    hide ById;
    assert k in ById(rows) ==> ById(rows)[k] in rows;
  }

  lemma ByIdNext(rows: seq<Row>, i: nat)
    requires i < |rows|
    ensures ById(rows[..i+1]) == ById(rows[..i])[rows[i].chatId := rows[i]]
  {
    assert rows[..i+1][..i] == rows[..i];
  }

  lemma IndexedMore(before: seq<Row>, r: Row)
    ensures Indexed(before + [r]) <==> Indexed(before) && RowOk(r) && forall x :: x in before ==> x.chatId != r.chatId
  {
    hide UniqueIds, RowOk;
    UniqueNext(before, r);
    assert forall x :: x in before + [r] <==> x in before || x == r;
  }

  lemma IndexedNext(rows: seq<Row>, i: nat)
    requires i < |rows|
    ensures Indexed(rows[..i+1]) <==> Indexed(rows[..i]) && rows[i].chatId !in ById(rows[..i]) && RowOk(rows[i])
    ensures ById(rows[..i+1]) == ById(rows[..i])[rows[i].chatId := rows[i]]
  {
    hide Indexed, ById, RowOk;
    ByIdNext(rows, i);
    IndexedMore(rows[..i], rows[i]);
    IdsKnown(rows[..i], rows[i].chatId);
    assert rows[..i+1] == rows[..i] + [rows[i]];
  }

  lemma {:induction false} IndexedPrefix(rows: seq<Row>, i: nat)
    requires i <= |rows| && Indexed(rows)
    ensures Indexed(rows[..i])
    decreases |rows| - i
  {
    if i < |rows| {
      IndexedPrefix(rows, i + 1);
      IndexedNext(rows, i);
    } else {
      assert rows[..i] == rows;
    }
  }

  /** None for a repeated id or an invalid row. */
  method Index(rows: seq<Row>) returns (r: Option<map<int, Row>>)
    ensures r == if Indexed(rows) then Some(ById(rows)) else None
  {
    var byId: map<int, Row> := map[];
    for i := 0 to |rows|
      invariant byId == ById(rows[..i]) && Indexed(rows[..i])
    {
      IndexedNext(rows, i);
      if rows[i].chatId in byId || !RowOk(rows[i]) {
        if Indexed(rows) {
          IndexedPrefix(rows, i + 1);
        }
        return None;
      }
      byId := byId[rows[i].chatId := rows[i]];
    }
    assert rows[..|rows|] == rows;
    r := Some(byId);
  }

  /** What one row with a known parent adds to the counts. */
  function CountLink(c: Counts, parent: Row, child: Row): Counts {
    Counts(c.roots, c.missing, c.linked + 1, c.overlap + Overlap(parent, child), c.childTokens + child.inputLength,
           c.partial + (if parent.inputLength % 16 != 0 then 1 else 0),
           c.notFull + (if Overlap(parent, child) != parent.inputLength then 1 else 0),
           c.exact + (if ExactParent(parent, child) && child.inputLength >= parent.inputLength then 1 else 0))
  }

  function Tally(byId: map<int, Row>, rows: seq<Row>): Counts {
    if rows == [] then Counts(0, 0, 0, 0, 0, 0, 0, 0)
    else
      var child, c := rows[|rows|-1], Tally(byId, rows[..|rows|-1]);
      if child.parentId < 0 then c.(roots := c.roots + 1)
      else if child.parentId !in byId then c.(missing := c.missing + 1)
      else CountLink(c, byId[child.parentId], child)
  }

  method Link(c: Counts, parent: Row, child: Row, maxPairTokens: int) returns (c': Counts, eligible: bool)
    requires BlockCountOk(parent) && BlockCountOk(child)
    ensures c' == CountLink(c, parent, child) && eligible == Eligible(parent, child, maxPairTokens)
  {
    var matched := Matched(parent.hashes, child.hashes);
    var overlap := Min(Min(16 * matched, parent.inputLength), child.inputLength);
    FullOverlapIff(parent, child);
    c' := c.(linked := c.linked + 1, overlap := c.overlap + overlap, childTokens := c.childTokens + child.inputLength);
    if parent.inputLength % 16 != 0 {
      c' := c'.(partial := c'.partial + 1);
    }
    if overlap != parent.inputLength {
      c' := c'.(notFull := c'.notFull + 1);
    }
    eligible := false;
    if parent.inputLength % 16 == 0 && overlap == parent.inputLength {
      c' := c'.(exact := c'.exact + 1);
      eligible := parent.inputLength <= maxPairTokens && child.inputLength <= maxPairTokens
                  && child.inputLength > parent.inputLength;
    }
  }

  // ---- the other figures of the audit ----

  datatype Audit =
    Audit(counts: Counts, types: map<string, nat>, maxChildren: nat, inputTokens: int, outputTokens: int, span: real)

  function OfKind(rows: seq<Row>, kind: string): set<nat> { set i | 0 <= i < |rows| && rows[i].kind == kind }

  function ChildrenOf(byId: map<int, Row>, rows: seq<Row>, parentId: int): set<nat> {
    set i | 0 <= i < |rows| && Linked(byId, rows[i]) && rows[i].parentId == parentId
  }

  function Tallied<K>(m: map<K, nat>, k: K): nat { if k in m then m[k] else 0 }

  ghost predicate TypesOk(types: map<string, nat>, rows: seq<Row>) {
    forall kind :: Tallied(types, kind) == |OfKind(rows, kind)|
  }

  ghost predicate ChildrenOk(children: map<int, nat>, byId: map<int, Row>, rows: seq<Row>) {
    forall p :: Tallied(children, p) == |ChildrenOf(byId, rows, p)|
  }

  /** The largest family, 0 when no row is linked. */
  ghost predicate IsMaxChildren(n: nat, byId: map<int, Row>, rows: seq<Row>) {
    && (forall p :: |ChildrenOf(byId, rows, p)| <= n)
    && (n > 0 ==> exists p :: |ChildrenOf(byId, rows, p)| == n)
  }

  /** From the first to the last arrival, 0 without rows. */
  ghost predicate IsSpan(x: real, rows: seq<Row>) {
    if rows == [] then x == 0.0
    else exists i, j :: 0 <= i < |rows| && 0 <= j < |rows| && x == rows[j].timestamp - rows[i].timestamp
                        && forall r :: r in rows ==> rows[i].timestamp <= r.timestamp <= rows[j].timestamp
  }

  function InputTokens(rows: seq<Row>): int {
    if rows == [] then 0 else InputTokens(rows[..|rows|-1]) + rows[|rows|-1].inputLength
  }

  function OutputTokens(rows: seq<Row>): int {
    if rows == [] then 0 else OutputTokens(rows[..|rows|-1]) + rows[|rows|-1].outputLength
  }

  ghost predicate AuditOk(a: Audit, byId: map<int, Row>, rows: seq<Row>) {
    && a.counts == Tally(byId, rows) && TypesOk(a.types, rows) && IsMaxChildren(a.maxChildren, byId, rows)
    && a.inputTokens == InputTokens(rows) && a.outputTokens == OutputTokens(rows) && IsSpan(a.span, rows)
  }

  lemma OfKindNext(rows: seq<Row>, i: nat, kind: string)
    requires i < |rows|
    ensures |OfKind(rows[..i+1], kind)| == |OfKind(rows[..i], kind)| + if rows[i].kind == kind then 1 else 0
  {
    var before := OfKind(rows[..i], kind);
    assert OfKind(rows[..i+1], kind) == if rows[i].kind == kind then before + {i} else before;
  }

  lemma TypesNext(types: map<string, nat>, rows: seq<Row>, i: nat)
    requires i < |rows| && TypesOk(types, rows[..i])
    ensures TypesOk(types[rows[i].kind := Tallied(types, rows[i].kind) + 1], rows[..i+1])
  {
    hide OfKind;
    var types' := types[rows[i].kind := Tallied(types, rows[i].kind) + 1];
    forall kind ensures Tallied(types', kind) == |OfKind(rows[..i+1], kind)| {
      assert Tallied(types, kind) == |OfKind(rows[..i], kind)|;
      OfKindNext(rows, i, kind);
    }
  }

  lemma ChildrenOfNext(byId: map<int, Row>, rows: seq<Row>, i: nat, p: int)
    requires i < |rows|
    ensures |ChildrenOf(byId, rows[..i+1], p)|
            == |ChildrenOf(byId, rows[..i], p)| + if Linked(byId, rows[i]) && rows[i].parentId == p then 1 else 0
  {
    hide Linked;
    var before := ChildrenOf(byId, rows[..i], p);
    assert ChildrenOf(byId, rows[..i+1], p)
           == if Linked(byId, rows[i]) && rows[i].parentId == p then before + {i} else before;
  }

  lemma ChildrenNext(children: map<int, nat>, byId: map<int, Row>, rows: seq<Row>, i: nat)
    requires i < |rows| && ChildrenOk(children, byId, rows[..i])
    ensures ChildrenOk(if Linked(byId, rows[i])
                       then children[rows[i].parentId := Tallied(children, rows[i].parentId) + 1]
                       else children, byId, rows[..i+1])
  {
    hide ChildrenOf, Linked;
    var more := children[rows[i].parentId := Tallied(children, rows[i].parentId) + 1];
    var children' := if Linked(byId, rows[i]) then more else children;
    forall p ensures Tallied(children', p) == |ChildrenOf(byId, rows[..i+1], p)| {
      assert Tallied(children, p) == |ChildrenOf(byId, rows[..i], p)|;
      ChildrenOfNext(byId, rows, i, p);
    }
  }

  lemma Member<T>(s: set<T>) returns (k: T)
    requires s != {}
    ensures k in s
  {
    k :| k in s;
  }

  lemma NoRowsYet(byId: map<int, Row>)
    ensures TypesOk(map[], []) && ChildrenOk(map[], byId, [])
  {
  }

  method MaxChildren(children: map<int, nat>, byId: map<int, Row>, rows: seq<Row>) returns (n: nat)
    requires ChildrenOk(children, byId, rows)
    ensures IsMaxChildren(n, byId, rows)
  {
    hide ChildrenOf;
    n := 0;
    var done: set<int> := {};
    while done != children.Keys
      invariant done <= children.Keys && forall p :: p in done ==> children[p] <= n
      invariant n > 0 ==> exists p :: p in done && children[p] == n
      decreases |children.Keys - done|
    {
      ghost var some := Member(children.Keys - done);
      var p :| p in children.Keys - done;
      assert children.Keys - (done + {p}) < children.Keys - done;
      if children[p] > n {
        n := children[p];
      }
      done := done + {p};
    }
    forall p ensures |ChildrenOf(byId, rows, p)| <= n {
      assert Tallied(children, p) == |ChildrenOf(byId, rows, p)|;
    }
    if n > 0 {
      var p :| p in done && children[p] == n;
      assert Tallied(children, p) == |ChildrenOf(byId, rows, p)|;
    }
  }

  method Span(rows: seq<Row>) returns (x: real)
    ensures IsSpan(x, rows)
  {
    if rows == [] {
      return 0.0;
    }
    var first, last := 0, 0;
    for k := 1 to |rows|
      invariant first < |rows| && last < |rows|
      invariant forall l :: 0 <= l < k ==> rows[first].timestamp <= rows[l].timestamp <= rows[last].timestamp
    {
      if rows[k].timestamp < rows[first].timestamp {
        first := k;
      }
      if rows[k].timestamp > rows[last].timestamp {
        last := k;
      }
    }
    x := rows[last].timestamp - rows[first].timestamp;
    assert forall r :: r in rows ==> rows[first].timestamp <= r.timestamp <= rows[last].timestamp;
  }

  method TokenSums(rows: seq<Row>) returns (input: int, output: int)
    ensures input == InputTokens(rows) && output == OutputTokens(rows)
  {
    input, output := 0, 0;
    for i := 0 to |rows|
      invariant input == InputTokens(rows[..i]) && output == OutputTokens(rows[..i])
    {
      assert rows[..i+1][..i] == rows[..i];
      input, output := input + rows[i].inputLength, output + rows[i].outputLength;
    }
    assert rows[..|rows|] == rows;
  }

  ghost predicate Ordered(byId: map<int, Row>, rows: seq<Row>) { forall r :: r in rows ==> OrderOk(byId, r) }

  lemma RowsAreOk(rows: seq<Row>)
    requires Indexed(rows)
    ensures forall r :: r in rows ==> BlockCountOk(r)
  {
  }

  lemma InspectNone(byId: map<int, Row>, maxPairTokens: int)
    ensures Ordered(byId, []) && Tally(byId, []) == Counts(0, 0, 0, 0, 0, 0, 0, 0)
    ensures EligiblePairs(byId, [], maxPairTokens) == []
  {
  }

  lemma NotOrdered(byId: map<int, Row>, rows: seq<Row>, r: Row)
    requires r in rows && !OrderOk(byId, r)
    ensures !Ordered(byId, rows)
  {
  }

  lemma InspectNext(byId: map<int, Row>, rows: seq<Row>, i: nat, maxPairTokens: int)
    requires i < |rows|
    ensures var child, c, pairs := rows[i], Tally(byId, rows[..i]), EligiblePairs(byId, rows[..i], maxPairTokens);
            && (Ordered(byId, rows[..i+1]) <==> Ordered(byId, rows[..i]) && OrderOk(byId, child))
            && Tally(byId, rows[..i+1]) == (if child.parentId < 0 then c.(roots := c.roots + 1)
                                            else if child.parentId !in byId then c.(missing := c.missing + 1)
                                            else CountLink(c, byId[child.parentId], child))
            && EligiblePairs(byId, rows[..i+1], maxPairTokens)
               == (if Linked(byId, child) && Eligible(byId[child.parentId], child, maxPairTokens)
                   then pairs + [Pair(byId[child.parentId], child)] else pairs)
  {
    assert rows[..i+1][..i] == rows[..i] && rows[..i+1] == rows[..i] + [rows[i]];
    hide CountLink, Eligible;
  }

  /** None for repeated ids, an invalid row or a child no later than its parent. */
  method InspectRows(rows: seq<Row>, maxPairTokens: int) returns (r: Option<(Audit, seq<Pair>)>)
    ensures r.Some? <==> Indexed(rows) && Ordered(ById(rows), rows)
    ensures r.Some? ==> AuditOk(r.value.0, ById(rows), rows)
    ensures r.Some? ==> r.value.1 == Sort(EligiblePairs(ById(rows), rows, maxPairTokens), ByChildArrival)
  {
    var index := Index(rows);
    if index.None? {
      return None;
    }
    var byId := index.value;
    var c := Counts(0, 0, 0, 0, 0, 0, 0, 0);
    var types: map<string, nat>, children: map<int, nat> := map[], map[];
    var pairs: seq<Pair> := [];
    hide Eligible, CountLink, Indexed, Ordered, Tally, EligiblePairs, BlockCountOk, TypesOk, ChildrenOk, IsMaxChildren;
    hide IsSpan;
    RowsAreOk(rows);
    InspectNone(byId, maxPairTokens);
    NoRowsYet(byId);
    for i := 0 to |rows|
      invariant Ordered(byId, rows[..i])
      invariant c == Tally(byId, rows[..i]) && pairs == EligiblePairs(byId, rows[..i], maxPairTokens)
      invariant TypesOk(types, rows[..i]) && ChildrenOk(children, byId, rows[..i])
    {
      var child := rows[i];
      InspectNext(byId, rows, i, maxPairTokens);
      TypesNext(types, rows, i);
      ChildrenNext(children, byId, rows, i);
      types := types[child.kind := Tallied(types, child.kind) + 1];
      if child.parentId < 0 {
        c := c.(roots := c.roots + 1);
        continue;
      }
      if child.parentId !in byId {
        c := c.(missing := c.missing + 1);
        continue;
      }
      var parent := byId[child.parentId];
      if parent.timestamp >= child.timestamp {
        assert !OrderOk(byId, child);
        NotOrdered(byId, rows, child);
        return None;
      }
      children := children[child.parentId := Tallied(children, child.parentId) + 1];
      var eligible;
      c, eligible := Link(c, parent, child, maxPairTokens);
      if eligible {
        pairs := pairs + [Pair(parent, child)];
      }
    }
    assert rows[..|rows|] == rows;
    var maxChildren := MaxChildren(children, byId, rows);
    var input, output := TokenSums(rows);
    var span := Span(rows);
    r := Some((Audit(c, types, maxChildren, input, output, span), Sort(pairs, ByChildArrival)));
  }

  /** What one more row adds to each count. */
  lemma TallyNext(byId: map<int, Row>, rows: seq<Row>, child: Row)
    requires RowOk(child) && forall r :: r in byId.Values ==> RowOk(r)
    ensures Tally(byId, []) == Counts(0, 0, 0, 0, 0, 0, 0, 0)
    ensures var c, d := Tally(byId, rows), Tally(byId, rows + [child]);
            if child.parentId < 0 then d == c.(roots := c.roots + 1)
            else if child.parentId !in byId then d == c.(missing := c.missing + 1)
            else
              var parent := byId[child.parentId];
              var shared := |SharedPositions(parent, child)|;
              && d.roots == c.roots && d.missing == c.missing && d.linked == c.linked + 1
              && d.overlap == c.overlap + shared && d.childTokens == c.childTokens + child.inputLength
              && d.partial == c.partial + (if parent.inputLength % 16 == 0 then 0 else 1)
              && d.notFull == c.notFull + (if shared == parent.inputLength then 0 else 1)
              && d.exact == c.exact + (if parent.inputLength % 16 == 0 && shared == parent.inputLength then 1 else 0)
  {
    assert (rows + [child])[..|rows|] == rows;
    if child.parentId in byId {
      assert byId[child.parentId] in byId.Values;
      OverlapCountsShared(byId[child.parentId], child);
      FullOverlapIff(byId[child.parentId], child);
    }
    hide Overlap, SharedPositions;
  }

  /** Token sums are additive. */
  lemma {:induction false} TokensAdd(a: seq<Row>, b: seq<Row>)
    ensures InputTokens(a + b) == InputTokens(a) + InputTokens(b)
    ensures OutputTokens(a + b) == OutputTokens(a) + OutputTokens(b)
    ensures |a| == 1 ==> InputTokens(a) == a[0].inputLength && OutputTokens(a) == a[0].outputLength
  {
    if b == [] {
      assert a + b == a;
    } else {
      TokensAdd(a, b[..|b|-1]);
      assert (a + b)[..|a+b|-1] == a + b[..|b|-1];
    }
  }

  /** Every row is a root, an orphan or linked; every link is exact, ends in a partial block or is not fully matched. */
  lemma {:induction false} TallyIsAPartition(byId: map<int, Row>, rows: seq<Row>, maxPairTokens: int)
    requires forall r :: r in rows || r in byId.Values ==> BlockCountOk(r)
    ensures var c := Tally(byId, rows);
            && c.roots + c.missing + c.linked == |rows|
            && c.exact <= c.linked <= c.exact + c.partial + c.notFull
            && |EligiblePairs(byId, rows, maxPairTokens)| <= c.exact
            && 0 <= c.overlap <= c.childTokens
  {
    if rows != [] {
      var n := |rows| - 1;
      TallyIsAPartition(byId, rows[..n], maxPairTokens);
      var child := rows[n];
      if Linked(byId, child) {
        FullOverlapIff(byId[child.parentId], child);
        assert 0 <= Overlap(byId[child.parentId], child) <= child.inputLength;
      }
    }
  }

  lemma {:induction false} EligiblePairsAre(byId: map<int, Row>, rows: seq<Row>, maxPairTokens: int, x: Pair)
    ensures x in EligiblePairs(byId, rows, maxPairTokens)
            <==> x.child in rows && Linked(byId, x.child) && x.parent == byId[x.child.parentId]
                 && Eligible(x.parent, x.child, maxPairTokens)
  {
    if rows != [] {
      var n := |rows| - 1;
      EligiblePairsAre(byId, rows[..n], maxPairTokens, x);
      assert rows == rows[..n] + [rows[n]];
    }
  }

  /** A reported pair is a row and its named parent, the parent earlier and its surrogate prompt a proper prefix of the
      child's, which stays within the limit. */
  lemma PairsAreExactPrefixes(expand: Expand, rows: seq<Row>, maxPairTokens: int, x: Pair)
    requires Indexed(rows) && Ordered(ById(rows), rows)
    requires x in Sort(EligiblePairs(ById(rows), rows, maxPairTokens), ByChildArrival)
    ensures x.parent in rows && x.child in rows && x.child.parentId == x.parent.chatId
    ensures x.parent.timestamp < x.child.timestamp && x.child.inputLength <= maxPairTokens
    ensures RowOk(x.parent) && RowOk(x.child)
    ensures SurrogateTokens(expand, x.parent).value < SurrogateTokens(expand, x.child).value
  {
    SortMembers(EligiblePairs(ById(rows), rows, maxPairTokens), ByChildArrival, x);
    EligiblePairsAre(ById(rows), rows, maxPairTokens, x);
    ExactParentIsPrefix(expand, x.parent, x.child);
  }

  /** The reported pairs are exactly the rows whose named parent fills its blocks, begins the longer row's blocks and is
      within the limit with it, by arrival of the child and then by its id. */
  lemma ReportedPairs(rows: seq<Row>, maxPairTokens: int)
    requires Indexed(rows) && Ordered(ById(rows), rows)
    ensures var pairs := Sort(EligiblePairs(ById(rows), rows, maxPairTokens), ByChildArrival);
            && (forall x: Pair :: x in pairs <==>
                  && x.parent in rows && x.child in rows && x.child.parentId == x.parent.chatId >= 0
                  && x.parent.inputLength % 16 == 0 && x.parent.hashes <= x.child.hashes
                  && x.parent.inputLength < x.child.inputLength <= maxPairTokens)
            && (forall i, j :: 0 <= i < j < |pairs| ==>
                  || pairs[i].child.timestamp < pairs[j].child.timestamp
                  || (pairs[i].child.timestamp == pairs[j].child.timestamp
                      && pairs[i].child.chatId <= pairs[j].child.chatId))
  {
    var eligible := EligiblePairs(ById(rows), rows, maxPairTokens);
    var pairs := Sort(eligible, ByChildArrival);
    SortSorts(eligible, ByChildArrival);
    forall x: Pair ensures x in pairs <==> x in eligible {
      SortMembers(eligible, ByChildArrival, x);
    }
    hide Sort, Ordered, EligiblePairs;
    forall x: Pair
      ensures x in eligible <==>
                && x.parent in rows && x.child in rows && x.child.parentId == x.parent.chatId >= 0
                && x.parent.inputLength % 16 == 0 && x.parent.hashes <= x.child.hashes
                && x.parent.inputLength < x.child.inputLength <= maxPairTokens
    {
      EligiblePairsAre(ById(rows), rows, maxPairTokens, x);
      if x.parent in rows {
        UniqueLookup(rows, x.parent);
      }
    }
    forall i, j | 0 <= i < j < |pairs|
      ensures || pairs[i].child.timestamp < pairs[j].child.timestamp
              || (pairs[i].child.timestamp == pairs[j].child.timestamp
                  && pairs[i].child.chatId <= pairs[j].child.chatId)
    {
      assert ByChildArrival(pairs[i], pairs[j]);
    }
  }

  // ---- the parent cohort ----

  /** `child` names `parent`, whose block list begins the longer child's. */
  predicate Candidate(byId: map<int, Row>, child: Row) {
    && child.parentId in byId
    && var parent := byId[child.parentId];
       ExactParent(parent, child) && child.inputLength > parent.inputLength
  }

  function Additions(selected: set<int>, child: Row): set<int> { {child.parentId, child.chatId} - selected }

  ghost predicate Partnered(byId: map<int, Row>, looked: seq<Row>, selected: set<int>, k: int) {
    exists child :: child in looked && Candidate(byId, child) && (k == child.chatId || k == child.parentId)
                    && child.chatId in selected && child.parentId in selected
  }

  /** Selected ids come with a partner, are few enough, and no candidate looked at was left out that still fits. */
  ghost predicate Selecting(byId: map<int, Row>, looked: seq<Row>, limit: int, selected: set<int>) {
    && (|selected| <= limit || selected == {})
    && (forall k :: k in selected ==> Partnered(byId, looked, selected, k))
    && (forall child :: child in looked && Candidate(byId, child) ==> LeftOut(selected, limit, child))
  }

  predicate LeftOut(selected: set<int>, limit: int, child: Row) {
    Additions(selected, child) == {} || |selected| + |Additions(selected, child)| > limit
  }

  lemma {:induction false} Subset(a: set<int>, b: set<int>)
    requires a <= b
    ensures |a| <= |b|
  {
    assert b == a + (b - a);
  }

  lemma MoreIsMore(selected: set<int>, more: set<int>, both: set<int>)
    requires selected <= more
    ensures |more| + |both - more| >= |selected| + |both - selected|
    ensures both - selected == {} ==> both - more == {}
  {
    assert selected + (both - selected) == selected + both;
    assert more + (both - more) == more + both;
    Subset(selected + both, more + both);
  }

  /** A candidate that does not fit will not fit when more has been selected. */
  lemma StillLeftOut(selected: set<int>, more: set<int>, limit: int, child: Row)
    requires selected <= more && LeftOut(selected, limit, child)
    ensures LeftOut(more, limit, child)
  {
    MoreIsMore(selected, more, {child.parentId, child.chatId});
  }

  lemma StillPartnered(byId: map<int, Row>, looked: seq<Row>, more: seq<Row>, selected: set<int>, all: set<int>, k: int)
    requires Partnered(byId, looked, selected, k) && selected <= all && forall r :: r in looked ==> r in more
    ensures Partnered(byId, more, all, k)
  {
  }

  lemma PairedUp(byId: map<int, Row>, looked: seq<Row>, selected: set<int>, child: Row)
    requires child in looked && Candidate(byId, child)
    ensures child.chatId in selected && child.parentId in selected ==>
              Partnered(byId, looked, selected, child.chatId) && Partnered(byId, looked, selected, child.parentId)
  {
  }

  lemma NewIds(selected: set<int>, child: Row, k: int)
    requires k in Additions(selected, child)
    ensures k == child.parentId || k == child.chatId
  {
  }

  lemma Added(selected: set<int>, limit: int, child: Row)
    ensures var all := selected + Additions(selected, child);
            && |all| == |selected| + |Additions(selected, child)|
            && child.chatId in all && child.parentId in all && LeftOut(all, limit, child)
  {
    var all := selected + Additions(selected, child);
    assert Additions(all, child) == {};
  }

  lemma AddPair(byId: map<int, Row>, looked: seq<Row>, limit: int, selected: set<int>, child: Row)
    requires Selecting(byId, looked, limit, selected) && Candidate(byId, child)
    requires |selected| + |Additions(selected, child)| <= limit
    ensures Selecting(byId, looked + [child], limit, selected + Additions(selected, child))
  {
    var all, looked' := selected + Additions(selected, child), looked + [child];
    hide Partnered, Candidate, Additions, LeftOut;
    Added(selected, limit, child);
    PairedUp(byId, looked', all, child);
    forall c | c in looked' && Candidate(byId, c) ensures LeftOut(all, limit, c) {
      if c in looked {
        StillLeftOut(selected, all, limit, c);
      }
    }
    forall k | k in all ensures Partnered(byId, looked', all, k) {
      if k in selected {
        StillPartnered(byId, looked, looked', selected, all, k);
      } else {
        NewIds(selected, child, k);
      }
    }
  }

  lemma SkipRow(byId: map<int, Row>, looked: seq<Row>, limit: int, selected: set<int>, child: Row)
    requires Selecting(byId, looked, limit, selected)
    requires Candidate(byId, child) ==> LeftOut(selected, limit, child)
    ensures Selecting(byId, looked + [child], limit, selected)
  {
    hide Partnered, Candidate, LeftOut;
    forall k | k in selected ensures Partnered(byId, looked + [child], selected, k) {
      StillPartnered(byId, looked, looked + [child], selected, selected, k);
    }
  }

  lemma Nothing(byId: map<int, Row>, limit: int)
    ensures Selecting(byId, [], limit, {})
  {
  }

  lemma DoesNotFit(selected: set<int>, limit: int, child: Row)
    requires |selected| + |Additions(selected, child)| > limit
    ensures LeftOut(selected, limit, child)
  {
  }

  /** Earliest children first, each with its parent, as long as both still fit. */
  function Greedy(byId: map<int, Row>, looked: seq<Row>, limit: int): set<int> {
    if looked == [] then {}
    else
      var child, before := looked[|looked|-1], Greedy(byId, looked[..|looked|-1], limit);
      if Candidate(byId, child) && |before| + |Additions(before, child)| <= limit then before + Additions(before, child)
      else before
  }

  lemma {:induction false} GreedySelects(byId: map<int, Row>, looked: seq<Row>, limit: int)
    ensures Selecting(byId, looked, limit, Greedy(byId, looked, limit))
  {
    hide Selecting, Candidate, Additions;
    if looked == [] {
      Nothing(byId, limit);
    } else {
      var front, child := looked[..|looked|-1], looked[|looked|-1];
      var before := Greedy(byId, front, limit);
      GreedySelects(byId, front, limit);
      assert looked == front + [child];
      if Candidate(byId, child) && |before| + |Additions(before, child)| <= limit {
        AddPair(byId, front, limit, before, child);
      } else {
        if Candidate(byId, child) {
          DoesNotFit(before, limit, child);
        }
        SkipRow(byId, front, limit, before, child);
      }
    }
  }

  /** Once the limit is reached nothing more is selected. */
  lemma {:induction false} FullStays(byId: map<int, Row>, sorted: seq<Row>, i: nat, n: nat, limit: int)
    requires i <= n <= |sorted| && |Greedy(byId, sorted[..i], limit)| == limit
    ensures Greedy(byId, sorted[..n], limit) == Greedy(byId, sorted[..i], limit)
  {
    if i < n {
      FullStays(byId, sorted, i, n - 1, limit);
      assert sorted[..n][..n-1] == sorted[..n-1];
      var selected := Greedy(byId, sorted[..i], limit);
      assert |selected| + |Additions(selected, sorted[n-1])| <= limit ==> Additions(selected, sorted[n-1]) == {};
    }
  }

  method SelectIds(byId: map<int, Row>, sorted: seq<Row>, limit: int) returns (selected: set<int>)
    ensures selected == Greedy(byId, sorted, limit)
  {
    selected := {};
    hide Candidate, Additions;
    assert sorted[..|sorted|] == sorted;
    for i := 0 to |sorted|
      invariant selected == Greedy(byId, sorted[..i], limit)
    {
      var child := sorted[i];
      assert sorted[..i+1][..i] == sorted[..i];
      if !Candidate(byId, child) {
        continue;
      }
      var additions := Additions(selected, child);
      if |selected| + |additions| > limit {
        continue;
      }
      selected := selected + additions;
      if |selected| == limit {
        FullStays(byId, sorted, i + 1, |sorted|, limit);
        return;
      }
    }
  }

  function Ids(rows: seq<Row>): set<int> { set r | r in rows :: r.chatId }

  /** The rows of a set of ids, in some order. */
  method Lookup(byId: map<int, Row>, ids: set<int>) returns (found: seq<Row>)
    requires ids <= byId.Keys && forall k :: k in byId ==> byId[k].chatId == k
    ensures |found| == |ids| && Ids(found) == ids && forall r :: r in found ==> r == byId[r.chatId]
  {
    found := [];
    var todo := ids;
    while todo != {}
      invariant todo <= ids && |found| + |todo| == |ids| && Ids(found) == ids - todo
      invariant forall r :: r in found ==> r.chatId in byId && r == byId[r.chatId]
    {
      ghost var some := Member(todo);
      var k :| k in todo;
      assert Ids(found + [byId[k]]) == Ids(found) + {k};
      found := found + [byId[k]];
      todo := todo - {k};
    }
  }

  lemma SelectedIsPartnered(byId: map<int, Row>, looked: seq<Row>, limit: int, selected: set<int>, k: int)
    requires Selecting(byId, looked, limit, selected) && k in selected
    ensures Partnered(byId, looked, selected, k)
  {
    hide Partnered, LeftOut, Candidate;
  }

  lemma PartnerOf(byId: map<int, Row>, looked: seq<Row>, limit: int, selected: set<int>, k: int) returns (child: Row)
    requires Selecting(byId, looked, limit, selected) && k in selected
    ensures child in looked && Candidate(byId, child) && (k == child.chatId || k == child.parentId)
    ensures child.chatId in selected && child.parentId in selected && child.parentId in byId
  {
    hide Selecting;
    SelectedIsPartnered(byId, looked, limit, selected, k);
    child :| child in looked && Candidate(byId, child) && (k == child.chatId || k == child.parentId)
             && child.chatId in selected && child.parentId in selected;
  }

  lemma SelectedAreKnown(rows: seq<Row>, limit: int)
    ensures Greedy(ById(rows), Sort(rows, Arrival), limit) <= ById(rows).Keys
  {
    var byId, sorted := ById(rows), Sort(rows, Arrival);
    GreedySelects(byId, sorted, limit);
    var selected := Greedy(byId, sorted, limit);
    hide Greedy, Selecting, Candidate;
    forall k | k in selected ensures k in byId {
      var child := PartnerOf(byId, sorted, limit, selected, k);
      SortMembers(rows, Arrival, child);
    }
  }

  lemma ArrivalIsTotal()
    ensures TotalPreorder(Arrival)
  {
  }

  /** The selected ids' rows by arrival. */
  ghost predicate IsCohort(rows: seq<Row>, limit: int, cohort: seq<Row>) {
    && Ids(cohort) == Greedy(ById(rows), Sort(rows, Arrival), limit)
    && |cohort| == |Ids(cohort)|
    && (forall r :: r in cohort ==> r.chatId in ById(rows) && r == ById(rows)[r.chatId])
    && SortedBy(cohort, Arrival)
  }

  /** One row looked at: it and its parent are taken if they are an exact pair and there is room for both. */
  ghost predicate Takes(byId: map<int, Row>, before: set<int>, child: Row, limit: int, after: set<int>) {
    var both := before + {child.parentId, child.chatId};
    if && child.parentId in byId && byId[child.parentId].inputLength % 16 == 0
       && byId[child.parentId].inputLength < child.inputLength && byId[child.parentId].hashes <= child.hashes
       && |both| <= limit
    then after == both else after == before
  }

  /** From the earliest arrival on, equal arrivals by id. */
  ghost predicate ByArrival(s: seq<Row>) {
    forall i, j :: 0 <= i < j < |s| ==>
      s[i].timestamp < s[j].timestamp || (s[i].timestamp == s[j].timestamp && s[i].chatId <= s[j].chatId)
  }

  ghost predicate TakingTrace(byId: map<int, Row>, s: seq<Row>, limit: int, trace: seq<set<int>>) {
    && |trace| == |s| + 1 && trace[0] == {}
    && forall n :: 0 <= n < |s| ==> Takes(byId, trace[n], s[n], limit, trace[n+1])
  }

  /** The rows are looked at by arrival, and `selected` is what is taken in the end. */
  ghost predicate FirstComeFirstTaken(rows: seq<Row>, limit: int, selected: set<int>) {
    exists s: seq<Row>, trace: seq<set<int>> ::
      && multiset(s) == multiset(rows) && ByArrival(s)
      && TakingTrace(ById(rows), s, limit, trace) && trace[|s|] == selected
  }

  lemma GreedyTakes(byId: map<int, Row>, looked: seq<Row>, limit: int, n: nat)
    requires n < |looked|
    ensures Takes(byId, Greedy(byId, looked[..n], limit), looked[n], limit, Greedy(byId, looked[..n+1], limit))
  {
    var before, child := Greedy(byId, looked[..n], limit), looked[n];
    assert looked[..n+1][..n] == looked[..n];
    assert before + Additions(before, child) == before + {child.parentId, child.chatId};
    assert |before + Additions(before, child)| == |before| + |Additions(before, child)|;
  }

  lemma GreedyIsTrace(byId: map<int, Row>, s: seq<Row>, limit: int) returns (trace: seq<set<int>>)
    ensures TakingTrace(byId, s, limit, trace) && trace[|s|] == Greedy(byId, s, limit)
  {
    hide Takes;
    trace := seq(|s| + 1, n requires 0 <= n <= |s| => Greedy(byId, s[..n], limit));
    assert s[..|s|] == s && s[..0] == [];
    forall n | 0 <= n < |s| ensures Takes(byId, trace[n], s[n], limit, trace[n+1]) {
      GreedyTakes(byId, s, limit, n);
    }
  }

  lemma CohortComesFirst(rows: seq<Row>, limit: int)
    ensures FirstComeFirstTaken(rows, limit, Greedy(ById(rows), Sort(rows, Arrival), limit))
  {
    var s := Sort(rows, Arrival);
    ArrivalIsTotal();
    SortSorts(rows, Arrival);
    SortKeepsElements(rows, Arrival);
    hide Sort, Greedy, ById, Takes;
    var trace := GreedyIsTrace(ById(rows), s, limit);
    InArrivalOrder(s);
  }

  lemma InArrivalOrder(s: seq<Row>)
    requires SortedBy(s, Arrival)
    ensures ByArrival(s)
  {
  }

  method SelectExactParentCohort(rows: seq<Row>, limit: int) returns (cohort: seq<Row>)
    ensures IsCohort(rows, limit, cohort)
    ensures FirstComeFirstTaken(rows, limit, Ids(cohort)) && ByArrival(cohort)
  {
    CohortComesFirst(rows, limit);
    hide FirstComeFirstTaken, ByArrival;
    var byId := ById(rows);
    var sorted := Sort(rows, Arrival);
    var selected := SelectIds(byId, sorted, limit);
    SelectedAreKnown(rows, limit);
    hide Greedy, ById;
    var found := Lookup(byId, selected);
    cohort := Sort(found, Arrival);
    ArrivalIsTotal();
    SortSorts(found, Arrival);
    InArrivalOrder(cohort);
    SortKeepsElements(found, Arrival);
    forall r ensures r in cohort <==> r in found {
      SortMembers(found, Arrival, r);
    }
    assert Ids(cohort) == Ids(found);
  }

  ghost predicate HasPartner(expand: Expand, cohort: seq<Row>, r: Row)
    requires forall x :: x in cohort ==> BlockCountOk(x)
  {
    exists p, c :: p in cohort && c in cohort && c.parentId == p.chatId && (r == p || r == c)
                   && SurrogateTokens(expand, p).value < SurrogateTokens(expand, c).value
  }

  /** Of valid rows the cohort is small enough, every row in it is the parent or the child of an exact-prefix pair in
      it, and no candidate pair that still fits was left out. */
  lemma CohortIsExact(expand: Expand, rows: seq<Row>, limit: int, cohort: seq<Row>)
    requires UniqueIds(rows) && (forall r :: r in rows ==> BlockCountOk(r)) && IsCohort(rows, limit, cohort)
    ensures |cohort| <= limit || cohort == []
    ensures forall r :: r in cohort ==> r in rows
    ensures forall r :: r in cohort ==> HasPartner(expand, cohort, r)
    ensures forall child :: child in rows && child.parentId in ById(rows) && Candidate(ById(rows), child) ==>
              (child in cohort && ById(rows)[child.parentId] in cohort)
              || |cohort| + |Additions(Ids(cohort), child)| > limit
  {
    var byId, sorted := ById(rows), Sort(rows, Arrival);
    GreedySelects(byId, sorted, limit);
    hide Greedy, SortedBy, UniqueIds, HasPartner, Partnered, BlockCountOk, Candidate, Additions;
    assert forall r :: r in cohort ==> r in rows;
    forall r | r in cohort ensures HasPartner(expand, cohort, r) {
      CohortPartner(expand, rows, limit, cohort, r);
    }
    forall child | child in rows && child.parentId in byId && Candidate(byId, child)
      ensures (child in cohort && byId[child.parentId] in cohort) || |cohort| + |Additions(Ids(cohort), child)| > limit
    {
      SortMembers(rows, Arrival, child);
      UniqueLookup(rows, child);
      assert LeftOut(Ids(cohort), limit, child);
      if Additions(Ids(cohort), child) == {} {
        NothingToAdd(Ids(cohort), child);
        InCohort(rows, limit, cohort, child.chatId);
        InCohort(rows, limit, cohort, child.parentId);
      }
    }
    if cohort != [] {
      assert cohort[0].chatId in Ids(cohort);
    }
  }

  lemma NothingToAdd(selected: set<int>, child: Row)
    requires Additions(selected, child) == {}
    ensures child.chatId in selected && child.parentId in selected
  {
    assert child.chatId in selected || child.chatId in Additions(selected, child);
    assert child.parentId in selected || child.parentId in Additions(selected, child);
  }

  lemma InCohort(rows: seq<Row>, limit: int, cohort: seq<Row>, k: int)
    requires IsCohort(rows, limit, cohort) && k in Ids(cohort)
    ensures k in ById(rows) && ById(rows)[k] in cohort
  {
  }

  lemma CohortPartner(expand: Expand, rows: seq<Row>, limit: int, cohort: seq<Row>, r: Row)
    requires UniqueIds(rows) && (forall x :: x in rows ==> BlockCountOk(x)) && IsCohort(rows, limit, cohort)
    requires (forall x :: x in cohort ==> BlockCountOk(x)) && r in cohort
    ensures HasPartner(expand, cohort, r)
  {
    var byId, sorted := ById(rows), Sort(rows, Arrival);
    var selected := Ids(cohort);
    GreedySelects(byId, sorted, limit);
    hide Greedy, Selecting, SortedBy, UniqueIds, HasPartner, Candidate, SurrogateTokens;
    var child := PartnerOf(byId, sorted, limit, selected, r.chatId);
    SortMembers(rows, Arrival, child);
    UniqueLookup(rows, child);
    InCohort(rows, limit, cohort, child.chatId);
    InCohort(rows, limit, cohort, child.parentId);
    var parent := byId[child.parentId];
    assert child in cohort && parent in cohort && (r == parent || r == child);
    CandidateIsExact(expand, byId, child);
    PartnerFound(expand, cohort, r, parent, child);
  }

  lemma CandidateIsExact(expand: Expand, byId: map<int, Row>, child: Row)
    requires Candidate(byId, child) && BlockCountOk(child) && BlockCountOk(byId[child.parentId])
    ensures SurrogateTokens(expand, byId[child.parentId]).value < SurrogateTokens(expand, child).value
  {
    ExactParentIsPrefix(expand, byId[child.parentId], child);
  }

  lemma PartnerFound(expand: Expand, cohort: seq<Row>, r: Row, p: Row, c: Row)
    requires forall x :: x in cohort ==> BlockCountOk(x)
    requires p in cohort && c in cohort && c.parentId == p.chatId && (r == p || r == c)
    requires SurrogateTokens(expand, p).value < SurrogateTokens(expand, c).value
    ensures HasPartner(expand, cohort, r)
  {
  }
}
