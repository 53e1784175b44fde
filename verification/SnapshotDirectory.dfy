/** The bounded directory of engine-confirmed snapshot boundaries, against an unbounded reference. */
module SnapshotDirectory {
  import opened Wrappers

  type Prefix = seq<nat>

  /** A value of the inspection response or of a token list; only non-negative integers are accepted. */
  datatype Field = Absent | Malformed | Int(n: int) {
    predicate IsNat() { Int? && n >= 0 }
  }

  datatype FieldList = NotAList | List(items: seq<Field>)

  datatype Capacity<T> = Capacity(availableTokens: T, evictableTokens: T, availableSnapshots: T, evictableSnapshots: T)

  datatype Response =
    | NotAMapping
    | Mapping(queryTokens: Field, matchedTokens: Field, boundaries: FieldList, capacity: Capacity<Field>)

  datatype Parsed = Parsed(tokens: Prefix, confirmed: seq<Prefix>, capacity: Capacity<nat>)

  // ---- reading a response ----

  predicate AllNat(items: seq<Field>) { forall i :: 0 <= i < |items| ==> items[i].IsNat() }

  function Values(items: seq<Field>): (r: seq<nat>)
    requires AllNat(items)
  {
    seq(|items|, i requires 0 <= i < |items| => items[i].n)
  }

  predicate CapacityOk(c: Capacity<Field>) {
    && c.availableTokens.IsNat() && c.evictableTokens.IsNat()
    && c.availableSnapshots.IsNat() && c.evictableSnapshots.IsNat()
  }

  /** What an inspection must look like to be believed. */
  predicate WellFormed(tokens: FieldList, response: Response) {
    && tokens.List? && AllNat(tokens.items)
    && response.Mapping? && CapacityOk(response.capacity)
    && response.queryTokens == Int(|tokens.items|)
    && response.matchedTokens.IsNat() && response.matchedTokens.n <= |tokens.items|
    && response.boundaries.List? && Boundaries(response.boundaries.items, response.matchedTokens.n)
  }

  /** Positive, strictly increasing and within the matched part. */
  predicate Boundaries(bs: seq<Field>, matched: int) {
    && (forall i :: 0 <= i < |bs| ==> bs[i].IsNat() && 0 < bs[i].n <= matched)
    && (forall i, j :: 0 <= i < j < |bs| ==> bs[i].n < bs[j].n)
  }

  /** The prefixes that the boundaries name. */
  function Cut(tokens: Prefix, bs: seq<Field>): seq<Prefix>
    requires Boundaries(bs, |tokens|)
  {
    seq(|bs|, i requires 0 <= i < |bs| => tokens[..bs[i].n])
  }

  /** What a well-formed inspection establishes. */
  function Confirmation(tokenIds: FieldList, response: Response): Parsed
    requires WellFormed(tokenIds, response)
  {
    var tokens, c := Values(tokenIds.items), response.capacity;
    Parsed(tokens, Cut(tokens, response.boundaries.items),
           Capacity(c.availableTokens.n, c.evictableTokens.n, c.availableSnapshots.n, c.evictableSnapshots.n))
  }

  method ConfirmedPrefixes(tokens: Prefix, items: seq<Field>, matched: nat) returns (r: Option<seq<Prefix>>)
    requires matched <= |tokens|
    ensures r.Some? <==> Boundaries(items, matched)
    ensures r.Some? ==> r.value == Cut(tokens, items)
  {
    var previous: nat := 0;
    var prefixes: seq<Prefix> := [];
    for i := 0 to |items|
      invariant Boundaries(items[..i], matched)
      invariant previous == if i == 0 then 0 else items[i-1].n
      invariant prefixes == Cut(tokens, items[..i])
    {
      if !items[i].IsNat() || items[i].n <= previous || items[i].n > matched {
        return None;
      }
      assert i > 0 ==> items[..i][i-1].n == previous;
      prefixes := prefixes + [tokens[..items[i].n]];
      previous := items[i].n;
    }
    assert items[..|items|] == items;
    r := Some(prefixes);
  }

  /** Exactly the well-formed inspections are accepted, and each confirms exactly the listed prefixes. */
  method Parse(tokenIds: FieldList, response: Response) returns (r: Option<Parsed>)
    ensures r == if WellFormed(tokenIds, response) then Some(Confirmation(tokenIds, response)) else None
  {
    if tokenIds.NotAList? || !AllNat(tokenIds.items) || response.NotAMapping? {
      return None;
    }
    var tokens := Values(tokenIds.items);
    if !response.queryTokens.IsNat() || !response.matchedTokens.IsNat() || !CapacityOk(response.capacity) {
      return None;
    }
    if response.queryTokens.n != |tokens| || response.matchedTokens.n > response.queryTokens.n {
      return None;
    }
    if response.boundaries.NotAList? {
      return None;
    }
    var prefixes := ConfirmedPrefixes(tokens, response.boundaries.items, response.matchedTokens.n);
    if prefixes.None? {
      return None;
    }
    var c := response.capacity;
    r := Some(Parsed(tokens, prefixes.value, Capacity(c.availableTokens.n, c.evictableTokens.n,
                                                      c.availableSnapshots.n, c.evictableSnapshots.n)));
  }

  // ---- looking up the longest usable boundary ----

  function Maximum(tokens: Prefix, requireSuffix: bool): int { |tokens| - if requireSuffix then 1 else 0 }

  predicate Usable(p: Prefix, tokens: Prefix, maximum: int) { |p| <= maximum && p <= tokens }

  /** `n` is the length of the longest usable prefix among `known`, or 0. */
  ghost predicate IsLongest(n: nat, known: set<Prefix>, tokens: Prefix, maximum: int) {
    && (n > 0 ==> n <= |tokens| && tokens[..n] in known && n <= maximum)
    && (forall p :: p in known && Usable(p, tokens, maximum) ==> |p| <= n)
  }

  function Elems<T>(s: seq<T>): set<T> { set x | x in s }

  method BestReusablePrefix(tokens: Prefix, observed: seq<Prefix>, requireSuffix: bool) returns (longest: nat)
    ensures IsLongest(longest, Elems(observed), tokens, Maximum(tokens, requireSuffix))
  {
    var maximum := Maximum(tokens, requireSuffix);
    longest := 0;
    for i := 0 to |observed|
      invariant longest > 0 ==> longest <= |tokens| && tokens[..longest] in observed && longest <= maximum
      invariant forall k :: 0 <= k < i && Usable(observed[k], tokens, maximum) ==> |observed[k]| <= longest
    {
      var prefix := observed[i];
      if longest < |prefix| <= maximum && tokens[..|prefix|] == prefix {
        longest := |prefix|;
      }
    }
  }

  /** More knowledge never shortens the answer. */
  lemma LookupsNeverOverclaim(n: nat, m: nat, some: set<Prefix>, more: set<Prefix>, tokens: Prefix, maximum: int)
    requires some <= more && IsLongest(n, some, tokens, maximum) && IsLongest(m, more, tokens, maximum)
    ensures n <= m
  {
    if n > 0 {
      assert Usable(tokens[..n], tokens, maximum);
    }
  }

  // ---- what an engine retains ----

  datatype Limits = Limits(snapshots: int, tokens: int, engines: int) {
    predicate Accepted() { snapshots > 0 && tokens > 0 && engines > 0 }
  }

  predicate Distinct<T(==)>(s: seq<T>) { forall i, j :: 0 <= i < j < |s| ==> s[i] != s[j] }

  function Total(s: seq<Prefix>): nat { if s == [] then 0 else |s[0]| + Total(s[1..]) }

  function Without<T(==,!new)>(s: seq<T>, drop: set<T>): (r: seq<T>)
    ensures forall x :: x in r <==> x in s && x !in drop
    ensures |r| <= |s|
  {
    if s == [] then [] else if s[0] in drop then Without(s[1..], drop) else [s[0]] + Without(s[1..], drop)
  }

  predicate Fits(l: Limits, s: seq<Prefix>) { |s| <= l.snapshots && Total(s) <= l.tokens }

  /** Forget the least recently used entries until the rest fits. */
  function Trim(l: Limits, s: seq<Prefix>): (r: seq<Prefix>)
    requires l.Accepted()
    ensures Fits(l, r)
  {
    if Fits(l, s) then s else Trim(l, s[1..])
  }

  /** It is the longest suffix that fits. */
  lemma {:induction false} TrimIsLongestSuffix(l: Limits, s: seq<Prefix>)
    requires l.Accepted()
    ensures var n := |Trim(l, s)|; n <= |s| && Trim(l, s) == s[|s|-n..]
    ensures forall k :: 0 <= k < |s| - |Trim(l, s)| ==> !Fits(l, s[k..])
  {
    assert s[0..] == s;
    if !Fits(l, s) {
      TrimIsLongestSuffix(l, s[1..]);
      forall k | 0 <= k < |s| - |Trim(l, s)| ensures !Fits(l, s[k..]) {
        assert k > 0 ==> s[k..] == s[1..][k-1..];
      }
    }
  }

  lemma {:induction false} WithoutDistinct<T(!new)>(s: seq<T>, drop: set<T>)
    requires Distinct(s)
    ensures Distinct(Without(s, drop))
  {
    if s != [] {
      WithoutDistinct(s[1..], drop);
    }
  }

  lemma {:induction false} WithoutTwice<T(!new)>(s: seq<T>, a: set<T>, b: set<T>)
    ensures Without(Without(s, a), b) == Without(s, a + b)
  {
    if s != [] {
      WithoutTwice(s[1..], a, b);
    }
  }

  /** Only the entries of `s` decide what is dropped from it. */
  lemma {:induction false} WithoutSame<T(!new)>(s: seq<T>, a: set<T>, b: set<T>)
    requires forall x :: x in s ==> (x in a <==> x in b)
    ensures Without(s, a) == Without(s, b)
  {
    if s != [] {
      WithoutSame(s[1..], a, b);
    }
  }

  lemma {:induction false} WithoutNothing<T(!new)>(s: seq<T>, a: set<T>)
    requires forall x :: x in s ==> x !in a
    ensures Without(s, a) == s
  {
    if s != [] {
      WithoutNothing(s[1..], a);
    }
  }

  lemma {:induction false} WithoutAppend<T(!new)>(s: seq<T>, t: seq<T>, a: set<T>)
    ensures Without(s + t, a) == Without(s, a) + Without(t, a)
  {
    if s == [] {
      assert s + t == t;
    } else {
      assert (s + t)[0] == s[0] && (s + t)[1..] == s[1..] + t;
      WithoutAppend(s[1..], t, a);
    }
  }

  lemma {:induction false} TotalAppend(s: seq<Prefix>, t: seq<Prefix>)
    ensures Total(s + t) == Total(s) + Total(t)
  {
    if s == [] {
      assert s + t == t;
    } else {
      assert (s + t)[0] == s[0] && (s + t)[1..] == s[1..] + t;
      TotalAppend(s[1..], t);
    }
  }

  lemma {:induction false} RemoveOne(s: seq<Prefix>, p: Prefix)
    requires Distinct(s)
    ensures Total(Without(s, {p})) == Total(s) - (if p in s then |p| else 0)
    ensures |Without(s, {p})| == |s| - (if p in s then 1 else 0)
  {
    if s != [] {
      RemoveOne(s[1..], p);
    }
  }

  lemma {:induction false} EntryWithinTotal(s: seq<Prefix>, p: Prefix)
    requires p in s
    ensures |p| <= Total(s)
  {
    if s[0] != p {
      EntryWithinTotal(s[1..], p);
    }
  }

  lemma Overfull(l: Limits, s: seq<Prefix>, p: Prefix)
    requires Distinct(s) && !Fits(l, s)
    ensures !Fits(l, Without(s, {p}) + [p])
  {
    RemoveOne(s, p);
    TotalAppend(Without(s, {p}), [p]);
  }

  /** Confirming an entry and trimming forgets the same whether or not trimming was done before. */
  lemma {:induction false} TrimStep(l: Limits, s: seq<Prefix>, p: Prefix)
    requires l.Accepted() && Distinct(s)
    ensures Trim(l, Without(Trim(l, s), {p}) + [p]) == Trim(l, Without(s, {p}) + [p])
  {
    if !Fits(l, s) {
      TrimStep(l, s[1..], p);
      Overfull(l, s, p);
      hide Fits, Distinct;
      if s[0] != p {
        assert (Without(s, {p}) + [p])[1..] == Without(s[1..], {p}) + [p];
      }
    }
  }

  lemma DistinctAppend<T>(s: seq<T>, t: seq<T>)
    requires Distinct(s) && Distinct(t) && forall x :: x in t ==> x !in s
    ensures Distinct(s + t)
  {
    forall i, j | 0 <= i < j < |s + t| ensures (s + t)[i] != (s + t)[j] {
      assert i < |s| <= j ==> t[j-|s|] !in s;
    }
  }

  lemma SetTwice<K, V>(m: map<K, V>, k: K, x: V, y: V)
    ensures m[k := x][k := y] == m[k := y]
  {
  }

  lemma MovedToEnd<T(!new)>(order: seq<T>, key: T)
    requires Distinct(order)
    ensures Distinct(Without(order, {key}) + [key])
    ensures Elems(Without(order, {key}) + [key]) == Elems(order) + {key}
    ensures Without(order + [key], {key}) == Without(order, {key})
  {
    WithoutDistinct(order, {key});
    WithoutAppend(order, [key], {key});
    var rest := Without(order, {key});
    assert Without([key], {key}) == [];
    assert rest + [] == rest;
    DistinctAppend(rest, [key]);
    assert Elems(rest + [key]) == Elems(rest) + {key};
  }

  // ---- one engine ----

  datatype Engine = Engine(prefixes: seq<Prefix>, capacity: Capacity<nat>, tokenCount: int)

  ghost predicate EngineOk(l: Limits, e: Engine) {
    Distinct(e.prefixes) && Fits(l, e.prefixes) && e.tokenCount == Total(e.prefixes)
  }

  /** The confirmed prefixes short enough to be retained at all. */
  function Kept(l: Limits, confirmed: seq<Prefix>): (r: seq<Prefix>)
    ensures forall p :: p in r <==> p in confirmed && |p| <= l.tokens
  {
    if confirmed == [] then []
    else
      var n := |confirmed| - 1;
      assert confirmed == confirmed[..n] + [confirmed[n]];
      if |confirmed[n]| <= l.tokens then Kept(l, confirmed[..n]) + [confirmed[n]] else Kept(l, confirmed[..n])
  }

  function OnPath(s: seq<Prefix>, tokens: Prefix): set<Prefix> { set p | p in s && p <= tokens }

  /** What is retained after an inspection: everything off the inspected path in its old order, then what was confirmed
      on it, less the oldest entries that do not fit. */
  function Observed(l: Limits, e: Engine, tokens: Prefix, confirmed: seq<Prefix>, capacity: Capacity<nat>): Engine
    requires l.Accepted()
  {
    var prefixes := Trim(l, Without(e.prefixes, OnPath(e.prefixes, tokens)) + Kept(l, confirmed));
    Engine(prefixes, capacity, Total(prefixes))
  }

  /** The entries on the inspected path that were not confirmed. */
  function Stale(s: seq<Prefix>, tokens: Prefix, confirmed: set<Prefix>): (r: seq<Prefix>)
    ensures forall p :: p in r <==> p in s && p <= tokens && p !in confirmed
  {
    Without(s, set p | p in s && !(p <= tokens && p !in confirmed))
  }

  lemma StaleIsDistinct(s: seq<Prefix>, tokens: Prefix, confirmed: set<Prefix>)
    requires Distinct(s)
    ensures Distinct(Stale(s, tokens, confirmed))
  {
    WithoutDistinct(s, set p | p in s && !(p <= tokens && p !in confirmed));
  }

  lemma {:induction false} KeptDistinct(l: Limits, confirmed: seq<Prefix>)
    requires Distinct(confirmed)
    ensures Distinct(Kept(l, confirmed))
  {
    if confirmed != [] {
      KeptDistinct(l, confirmed[..|confirmed|-1]);
    }
  }

  lemma {:induction false} TotalWithout(s: seq<Prefix>, drop: set<Prefix>)
    ensures Total(Without(s, drop)) <= Total(s)
  {
    if s != [] {
      TotalWithout(s[1..], drop);
    }
  }

  lemma NothingKept(l: Limits, before: seq<Prefix>, survivors: seq<Prefix>, stale: set<Prefix>)
    requires l.Accepted() && Fits(l, before) && survivors == Without(before, stale)
    ensures Trim(l, Without(survivors, Elems(Kept(l, []))) + Kept(l, [])) == survivors
  {
    TotalWithout(before, stale);
    WithoutNothing(survivors, {});
    assert Elems(Kept(l, [])) == {};
    assert survivors + [] == survivors;
  }

  lemma TrimDistinct(l: Limits, s: seq<Prefix>)
    requires l.Accepted() && Distinct(s)
    ensures Distinct(Trim(l, s))
  {
    TrimIsLongestSuffix(l, s);
  }

  /** The retained list one confirmed prefix further on. */
  lemma ConfirmNext(l: Limits, survivors: seq<Prefix>, confirmed: seq<Prefix>, i: nat)
    requires l.Accepted() && Distinct(survivors) && Distinct(confirmed) && i < |confirmed|
    ensures var kept, kept' := Kept(l, confirmed[..i]), Kept(l, confirmed[..i+1]);
            var now, p := Trim(l, Without(survivors, Elems(kept)) + kept), confirmed[i];
            && (|p| > l.tokens ==> kept' == kept)
            && (|p| <= l.tokens ==>
                  Trim(l, Without(now, {p}) + [p]) == Trim(l, Without(survivors, Elems(kept')) + kept'))
            && Distinct(Trim(l, Without(survivors, Elems(kept')) + kept'))
  {
    var kept, p := Kept(l, confirmed[..i]), confirmed[i];
    var kept' := Kept(l, confirmed[..i+1]);
    assert confirmed[..i+1][..i] == confirmed[..i];
    assert kept' == if |p| <= l.tokens then kept + [p] else kept;
    KeptDistinct(l, confirmed[..i]);
    KeptDistinct(l, confirmed[..i+1]);
    hide Kept, Trim, Without, Distinct;
    RetainedDistinct(l, survivors, kept);
    RetainedDistinct(l, survivors, kept');
    if |p| <= l.tokens {
      assert p !in kept by { assert Distinct(confirmed); NotAmongEarlier(confirmed, i); }
      TrimStep(l, Without(survivors, Elems(kept)) + kept, p);
      AppendOne(survivors, kept, p);
    }
  }

  lemma RetainedDistinct(l: Limits, survivors: seq<Prefix>, kept: seq<Prefix>)
    requires l.Accepted() && Distinct(survivors) && Distinct(kept)
    ensures Distinct(Without(survivors, Elems(kept)) + kept)
    ensures Distinct(Trim(l, Without(survivors, Elems(kept)) + kept))
  {
    WithoutDistinct(survivors, Elems(kept));
    DistinctAppend(Without(survivors, Elems(kept)), kept);
    TrimDistinct(l, Without(survivors, Elems(kept)) + kept);
  }

  lemma NotAmongEarlier(s: seq<Prefix>, i: nat)
    requires Distinct(s) && i < |s|
    ensures s[i] !in s[..i]
  {
  }

  lemma AppendOne(s: seq<Prefix>, kept: seq<Prefix>, p: Prefix)
    requires p !in kept
    ensures Without(Without(s, Elems(kept)) + kept, {p}) + [p] == Without(s, Elems(kept + [p])) + (kept + [p])
  {
    WithoutAppend(Without(s, Elems(kept)), kept, {p});
    WithoutTwice(s, Elems(kept), {p});
    WithoutNothing(kept, {p});
    assert Elems(kept + [p]) == Elems(kept) + {p};
  }

  /** Dropping the stale entries and then re-appending the kept ones removes the whole inspected path. */
  lemma SurvivorsThenKept(l: Limits, s: seq<Prefix>, tokens: Prefix, confirmed: seq<Prefix>)
    requires Fits(l, s) && forall p :: p in confirmed ==> p <= tokens
    ensures Without(Without(s, Elems(Stale(s, tokens, Elems(confirmed)))), Elems(Kept(l, confirmed)))
            == Without(s, OnPath(s, tokens))
  {
    var stale, kept := Elems(Stale(s, tokens, Elems(confirmed))), Elems(Kept(l, confirmed));
    WithoutTwice(s, stale, kept);
    forall p | p in s ensures p in stale + kept <==> p in OnPath(s, tokens) {
      EntryWithinTotal(s, p);
    }
    WithoutSame(s, stale + kept, OnPath(s, tokens));
  }

  class EngineObservations {
    var prefixes: seq<Prefix>
    var capacity: Capacity<nat>
    var tokenCount: int

    function View(): Engine
      reads this
    {
      Engine(prefixes, capacity, tokenCount)
    }

    constructor (capacity: Capacity<nat>)
      ensures View() == Engine([], capacity, 0)
    {
      prefixes, this.capacity, tokenCount := [], capacity, 0;
    }

    /** Forgets the listed entries. */
    method Drop(stale: seq<Prefix>)
      requires Distinct(prefixes) && tokenCount == Total(prefixes)
      requires Distinct(stale) && Elems(stale) <= Elems(prefixes)
      modifies this`prefixes, this`tokenCount
      ensures prefixes == Without(old(prefixes), Elems(stale)) && tokenCount == Total(prefixes)
    {
      WithoutNothing(prefixes, Elems(stale[..0]));
      for i := 0 to |stale|
        invariant prefixes == Without(old(prefixes), Elems(stale[..i])) && tokenCount == Total(prefixes)
      {
        var prefix := stale[i];
        WithoutDistinct(old(prefixes), Elems(stale[..i]));
        RemoveOne(prefixes, prefix);
        WithoutTwice(old(prefixes), Elems(stale[..i]), {prefix});
        assert Elems(stale[..i+1]) == Elems(stale[..i]) + {prefix};
        assert prefix in Elems(stale);
        tokenCount := tokenCount - |prefix|;
        prefixes := Without(prefixes, {prefix});
      }
      assert stale[..|stale|] == stale;
    }

    /** Makes one confirmed prefix the most recent entry and forgets the oldest ones that no longer fit. */
    method Confirm(l: Limits, prefix: Prefix)
      requires l.Accepted() && Distinct(prefixes) && tokenCount == Total(prefixes)
      modifies this`prefixes, this`tokenCount
      ensures prefixes == Trim(l, Without(old(prefixes), {prefix}) + [prefix]) && tokenCount == Total(prefixes)
    {
      RemoveOne(prefixes, prefix);
      TotalAppend(Without(prefixes, {prefix}), [prefix]);
      MovedToEnd(prefixes, prefix);
      hide Without;
      if prefix !in prefixes {
        prefixes := prefixes + [prefix];
        tokenCount := tokenCount + |prefix|;
      }
      MoveToEnd(prefix);
      while |prefixes| > l.snapshots || tokenCount > l.tokens
        invariant tokenCount == Total(prefixes)
        invariant Trim(l, prefixes) == Trim(l, Without(old(prefixes), {prefix}) + [prefix])
        decreases |prefixes|
      {
        tokenCount := tokenCount - |prefixes[0]|;
        prefixes := prefixes[1..];
      }
    }

    method MoveToEnd(prefix: Prefix)
      requires prefix in prefixes
      modifies this`prefixes
      ensures prefixes == Without(old(prefixes), {prefix}) + [prefix]
    {
      prefixes := Without(prefixes, {prefix}) + [prefix];
    }

    method Observe(l: Limits, tokens: Prefix, confirmed: seq<Prefix>, capacity: Capacity<nat>)
      requires l.Accepted() && EngineOk(l, View())
      requires Distinct(confirmed) && forall p :: p in confirmed ==> p <= tokens
      modifies this
      ensures View() == Observed(l, old(View()), tokens, confirmed, capacity)
    {
      hide Trim, Total, Without, Kept;
      ghost var before := prefixes;
      var stale := Stale(prefixes, tokens, Elems(confirmed));
      StaleIsDistinct(prefixes, tokens, Elems(confirmed));
      Drop(stale);
      ghost var survivors := prefixes;
      WithoutDistinct(before, Elems(stale));
      NothingKept(l, before, survivors, Elems(stale));
      for i := 0 to |confirmed|
        invariant prefixes == Trim(l, Without(survivors, Elems(Kept(l, confirmed[..i]))) + Kept(l, confirmed[..i]))
        invariant tokenCount == Total(prefixes) && Distinct(prefixes)
      {
        ConfirmNext(l, survivors, confirmed, i);
        if |confirmed[i]| <= l.tokens {
          Confirm(l, confirmed[i]);
        }
      }
      assert confirmed[..|confirmed|] == confirmed;
      this.capacity := capacity;
      SurvivorsThenKept(l, before, tokens, confirmed);
    }
  }

  lemma ConfirmedAreOnPath(tokenIds: FieldList, response: Response)
    requires WellFormed(tokenIds, response)
    ensures var c := Confirmation(tokenIds, response);
            Distinct(c.confirmed) && forall p :: p in c.confirmed ==> p <= c.tokens && p != []
  {
    var c := Confirmation(tokenIds, response);
    forall i, j | 0 <= i < j < |c.confirmed| ensures c.confirmed[i] != c.confirmed[j] {
      assert |c.confirmed[i]| < |c.confirmed[j]|;
    }
  }

  // ---- the directory ----

  datatype EngineName = Number(n: int) | Name(s: string) | OtherName {
    predicate IsKey() { (Number? && n >= 0) || (Name? && s != "") }
  }

  /** Engines from least to most recently used. */
  datatype Directory = Directory(order: seq<EngineName>, engines: map<EngineName, Engine>)

  ghost predicate DirectoryOk(l: Limits, d: Directory) {
    && Distinct(d.order) && |d.order| <= l.engines && Elems(d.order) == d.engines.Keys
    && forall k :: k in d.engines ==> EngineOk(l, d.engines[k])
  }

  function Last<T>(s: seq<T>, n: nat): seq<T> { if |s| <= n then s else Last(s[1..], n) }

  function EngineOrNew(d: Directory, key: EngineName, capacity: Capacity<nat>): Engine {
    if key in d.engines then d.engines[key] else Engine([], capacity, 0)
  }

  function Only(m: map<EngineName, Engine>, order: seq<EngineName>): map<EngineName, Engine> {
    map k | k in m && k in order :: m[k]
  }

  /** The directory after a believed inspection of one engine. */
  function Updated(l: Limits, d: Directory, key: EngineName, c: Parsed): Directory
    requires l.Accepted()
  {
    var e := Observed(l, EngineOrNew(d, key, c.capacity), c.tokens, c.confirmed, c.capacity);
    var order := Last(Without(d.order, {key}) + [key], l.engines);
    Directory(order, Only(d.engines[key := e], order))
  }

  function Longest(known: seq<Prefix>, tokens: Prefix, maximum: int): (n: nat)
    ensures IsLongest(n, Elems(known), tokens, maximum)
  {
    if known == [] then 0
    else
      var n := Longest(known[1..], tokens, maximum);
      assert known == [known[0]] + known[1..];
      assert Usable(known[0], tokens, maximum) ==> tokens[..|known[0]|] == known[0];
      if Usable(known[0], tokens, maximum) && |known[0]| > n then |known[0]| else n
  }

  function Touched(e: Engine, p: Prefix): Engine {
    if p == [] then e else e.(prefixes := Without(e.prefixes, {p}) + [p])
  }

  /** The directory after a lookup, which makes what it used most recent. */
  function LookedUp(d: Directory, key: EngineName, tokens: Prefix, maximum: int): Directory {
    if key !in d.engines then d
    else
      var n := Longest(d.engines[key].prefixes, tokens, maximum);
      Directory(Without(d.order, {key}) + [key], d.engines[key := Touched(d.engines[key], tokens[..n])])
  }

  function Discarded(d: Directory, key: EngineName): Directory {
    if key in d.engines then Directory(Without(d.order, {key}), d.engines - {key}) else d
  }

  // ---- what every operation keeps ----

  lemma ObservedOk(l: Limits, e: Engine, c: Parsed)
    requires l.Accepted() && EngineOk(l, e) && Distinct(c.confirmed) && forall p :: p in c.confirmed ==> p <= c.tokens
    ensures EngineOk(l, Observed(l, e, c.tokens, c.confirmed, c.capacity))
  {
    var off, kept := Without(e.prefixes, OnPath(e.prefixes, c.tokens)), Kept(l, c.confirmed);
    KeptDistinct(l, c.confirmed);
    WithoutDistinct(e.prefixes, OnPath(e.prefixes, c.tokens));
    hide Kept, Without, Trim, Distinct;
    DistinctAppend(off, kept);
    TrimDistinct(l, off + kept);
  }

  lemma HeadIsGone(s: seq<EngineName>)
    requires Distinct(s) && s != []
    ensures s[0] !in s[1..] && Distinct(s[1..]) && Elems(s[1..]) == Elems(s) - {s[0]}
  {
    assert s == [s[0]] + s[1..];
  }

  lemma {:induction false} LastKeeps(s: seq<EngineName>, n: nat)
    requires n > 0 && Distinct(s)
    ensures Distinct(Last(s, n)) && |Last(s, n)| <= n && Elems(Last(s, n)) <= Elems(s)
    ensures s != [] ==> s[|s|-1] in Last(s, n)
  {
    if |s| > n {
      LastKeeps(s[1..], n);
    }
  }

  lemma NewEngineOk(l: Limits, capacity: Capacity<nat>)
    requires l.Accepted()
    ensures EngineOk(l, Engine([], capacity, 0))
  {
  }

  lemma UpdatedOk(l: Limits, d: Directory, key: EngineName, c: Parsed)
    requires l.Accepted() && DirectoryOk(l, d) && Distinct(c.confirmed)
             && forall p :: p in c.confirmed ==> p <= c.tokens
    ensures DirectoryOk(l, Updated(l, d, key, c)) && key in Updated(l, d, key, c).engines
  {
    hide Observed, Without, EngineOk, Distinct, Last;
    NewEngineOk(l, c.capacity);
    ObservedOk(l, EngineOrNew(d, key, c.capacity), c);
    var moved := Without(d.order, {key}) + [key];
    MovedToEnd(d.order, key);
    LastKeeps(moved, l.engines);
    assert moved[|moved|-1] == key;
  }

  lemma OkParts(l: Limits, d: Directory, key: EngineName, capacity: Capacity<nat>)
    requires l.Accepted() && DirectoryOk(l, d)
    ensures Distinct(d.order) && Elems(d.order) == d.engines.Keys && EngineOk(l, EngineOrNew(d, key, capacity))
  {
  }

  lemma TouchedOk(l: Limits, e: Engine, p: Prefix)
    requires l.Accepted() && EngineOk(l, e) && (p != [] ==> p in e.prefixes)
    ensures EngineOk(l, Touched(e, p)) && Elems(Touched(e, p).prefixes) == Elems(e.prefixes)
  {
    if p != [] {
      WithoutDistinct(e.prefixes, {p});
      RemoveOne(e.prefixes, p);
      TotalAppend(Without(e.prefixes, {p}), [p]);
      DistinctAppend(Without(e.prefixes, {p}), [p]);
    }
  }

  lemma LookedUpOk(l: Limits, d: Directory, key: EngineName, tokens: Prefix, maximum: int)
    requires l.Accepted() && DirectoryOk(l, d) && maximum <= |tokens|
    ensures DirectoryOk(l, LookedUp(d, key, tokens, maximum))
  {
    if key in d.engines {
      var n := Longest(d.engines[key].prefixes, tokens, maximum);
      TouchedOk(l, d.engines[key], tokens[..n]);
      MovedToEnd(d.order, key);
      RemoveKey(d.order, key);
      hide EngineOk, Without, Longest, Touched, Distinct;
    }
  }

  lemma {:induction false} RemoveKey(order: seq<EngineName>, key: EngineName)
    requires Distinct(order)
    ensures |Without(order, {key})| == |order| - if key in order then 1 else 0
  {
    if order != [] {
      RemoveKey(order[1..], key);
      assert order == [order[0]] + order[1..];
      if order[0] == key {
        WithoutNothing(order[1..], {key});
      }
    }
  }

  lemma DiscardedOk(l: Limits, d: Directory, key: EngineName)
    requires l.Accepted() && DirectoryOk(l, d)
    ensures DirectoryOk(l, Discarded(d, key))
  {
    WithoutDistinct(d.order, {key});
    RemoveKey(d.order, key);
    hide Without, EngineOk;
  }

  /** `x` is moved to the end and nothing else moves. */
  ghost predicate MovedLast<T>(s: seq<T>, t: seq<T>, x: T) {
    exists i :: 0 <= i < |s| && s[i] == x && t == s[..i] + s[i+1..] + [x]
  }

  /** The engine becomes the most recent; a new one takes the place of the least recent one if there is no other.  All
      others stay as they are. */
  ghost predicate OthersKept(l: Limits, d: Directory, after: Directory, key: EngineName) {
    && (key in d.engines ==> MovedLast(d.order, after.order, key) && after.engines.Keys == d.engines.Keys)
    && (key !in d.engines && |d.order| < l.engines ==>
          after.order == d.order + [key] && after.engines.Keys == d.engines.Keys + {key})
    && (key !in d.engines && |d.order| >= l.engines ==>
          && d.order != [] && after.order == d.order[1..] + [key]
          && after.engines.Keys == d.engines.Keys - {d.order[0]} + {key})
    && forall k :: k in after.engines && k != key ==> k in d.engines && after.engines[k] == d.engines[k]
  }

  lemma {:induction false} WithoutAt<T(!new)>(s: seq<T>, x: T) returns (i: nat)
    requires Distinct(s) && x in s
    ensures i < |s| && s[i] == x && Without(s, {x}) == s[..i] + s[i+1..]
  {
    if s[0] == x {
      i := 0;
      WithoutNothing(s[1..], {x});
      assert s == [s[0]] + s[1..];
    } else {
      assert s == [s[0]] + s[1..];
      var j := WithoutAt(s[1..], x);
      i := j + 1;
      assert s[..i] == [s[0]] + s[1..][..j] && s[i+1..] == s[1..][j+1..];
    }
  }

  lemma WithoutMoves<T(!new)>(s: seq<T>, x: T)
    requires Distinct(s)
    ensures x in s ==> MovedLast(s, Without(s, {x}) + [x], x)
    ensures x !in s ==> Without(s, {x}) == s
  {
    hide Without, Distinct;
    if x in s {
      var i := WithoutAt(s, x);
    } else {
      WithoutNothing(s, {x});
    }
  }

  lemma LastOf<T>(s: seq<T>, n: nat)
    requires n <= |s| <= n + 1 && s != []
    ensures Last(s, n) == if |s| <= n then s else s[1..]
  {
  }

  lemma LastOfShort<T>(s: seq<T>, n: nat)
    requires |s| <= n
    ensures Last(s, n) == s
  {
  }

  /** The order after an update. */
  function Reordered(l: Limits, order: seq<EngineName>, key: EngineName): seq<EngineName>
    requires l.Accepted()
  {
    Last(Without(order, {key}) + [key], l.engines)
  }

  lemma OldKeyMoves(l: Limits, order: seq<EngineName>, key: EngineName)
    requires l.Accepted() && Distinct(order) && |order| <= l.engines && key in order
    ensures MovedLast(order, Reordered(l, order, key), key) && Elems(Reordered(l, order, key)) == Elems(order)
  {
    WithoutMoves(order, key);
    RemoveKey(order, key);
    MovedToEnd(order, key);
    hide Without, Distinct, MovedLast, Last;
    LastOfShort(Without(order, {key}) + [key], l.engines);
  }

  lemma NewKeyEnters(l: Limits, order: seq<EngineName>, key: EngineName)
    requires l.Accepted() && Distinct(order) && |order| <= l.engines && key !in order
    ensures |order| < l.engines ==>
              Reordered(l, order, key) == order + [key] && Elems(Reordered(l, order, key)) == Elems(order) + {key}
    ensures |order| >= l.engines ==>
              && order != [] && Reordered(l, order, key) == order[1..] + [key]
              && Elems(Reordered(l, order, key)) == Elems(order) - {order[0]} + {key}
  {
    WithoutMoves(order, key);
    hide Without, MovedLast, Last, Distinct;
    var moved := order + [key];
    if |order| < l.engines {
      LastOfShort(moved, l.engines);
    } else {
      LastOf(moved, l.engines);
      assert moved[1..] == order[1..] + [key];
      HeadIsGone(order);
    }
  }

  lemma EnginesOfOrder(m: map<EngineName, Engine>, key: EngineName, e: Engine, order: seq<EngineName>)
    requires Elems(order) <= m.Keys + {key}
    ensures Only(m[key := e], order).Keys == Elems(order)
    ensures forall k :: k in Only(m[key := e], order) && k != key ==> k in m && Only(m[key := e], order)[k] == m[k]
  {
  }

  lemma OrderParts(l: Limits, d: Directory)
    requires DirectoryOk(l, d)
    ensures Distinct(d.order) && |d.order| <= l.engines && Elems(d.order) == d.engines.Keys
    ensures forall k :: k in d.order <==> k in d.engines
  {
    hide EngineOk, Distinct;
    assert forall k :: k in d.order <==> k in Elems(d.order);
  }

  lemma UpdateKeepsOthers(l: Limits, d: Directory, key: EngineName, c: Parsed)
    requires l.Accepted() && DirectoryOk(l, d)
    ensures OthersKept(l, d, Updated(l, d, key, c), key)
  {
    hide Observed, Without, Distinct, Last, MovedLast, EngineOrNew, DirectoryOk, Only, Elems;
    OrderParts(l, d);
    if key in d.engines {
      OldKeyMoves(l, d.order, key);
    } else {
      NewKeyEnters(l, d.order, key);
    }
    EnginesOfOrder(d.engines, key, Observed(l, EngineOrNew(d, key, c.capacity), c.tokens, c.confirmed, c.capacity),
                   Reordered(l, d.order, key));
  }

  /** What is retained of an engine. */
  function Known(d: Directory, key: EngineName): set<Prefix> {
    if key in d.engines then Elems(d.engines[key].prefixes) else {}
  }

  lemma NothingKnown(tokens: Prefix, maximum: int)
    ensures IsLongest(0, {}, tokens, maximum)
  {
  }

  lemma LongestIsKnown(n: nat, known: seq<Prefix>, tokens: Prefix, maximum: int)
    requires IsLongest(n, Elems(known), tokens, maximum)
    ensures n <= |tokens| && (n > 0 ==> tokens[..n] in known)
  {
  }

  lemma LongestIsUnique(n: nat, known: seq<Prefix>, tokens: Prefix, maximum: int)
    requires IsLongest(n, Elems(known), tokens, maximum)
    ensures n == Longest(known, tokens, maximum)
  {
    var m := Longest(known, tokens, maximum);
    LookupsNeverOverclaim(n, m, Elems(known), Elems(known), tokens, maximum);
    LookupsNeverOverclaim(m, n, Elems(known), Elems(known), tokens, maximum);
  }

  /** The prefix that was found, if any, and its engine become the most recent; nothing else changes. */
  ghost predicate OnlyMoved(d: Directory, after: Directory, key: EngineName, found: Prefix) {
    if key !in d.engines then after == d
    else
      && MovedLast(d.order, after.order, key) && after.engines.Keys == d.engines.Keys
      && (forall k :: k in d.engines && k != key ==> after.engines[k] == d.engines[k])
      && var e, f := d.engines[key], after.engines[key];
         && f.capacity == e.capacity && f.tokenCount == e.tokenCount
         && (if found == [] then f.prefixes == e.prefixes else MovedLast(e.prefixes, f.prefixes, found))
  }

  lemma LookUpOnlyMoves(l: Limits, d: Directory, key: EngineName, tokens: Prefix, maximum: int, n: nat)
    requires l.Accepted() && DirectoryOk(l, d) && maximum <= |tokens|
    requires IsLongest(n, Known(d, key), tokens, maximum)
    ensures n <= |tokens| && OnlyMoved(d, LookedUp(d, key, tokens, maximum), key, tokens[..n])
  {
    hide Without, Distinct, MovedLast, Longest, IsLongest, DirectoryOk, EngineOk, Elems;
    OrderParts(l, d);
    if key in d.engines {
      var known := d.engines[key].prefixes;
      LongestIsUnique(n, known, tokens, maximum);
      LongestIsKnown(n, known, tokens, maximum);
      EntriesDistinct(l, d, key);
      WithoutMoves(d.order, key);
      if n > 0 {
        WithoutMoves(known, tokens[..n]);
      }
    } else {
      NothingFound(n, tokens, maximum);
    }
  }

  lemma NothingFound(n: nat, tokens: Prefix, maximum: int)
    requires IsLongest(n, {}, tokens, maximum)
    ensures n == 0
  {
  }

  lemma EntriesDistinct(l: Limits, d: Directory, key: EngineName)
    requires DirectoryOk(l, d) && key in d.engines
    ensures Distinct(d.engines[key].prefixes)
  {
  }

  class SnapshotDirectory {
    const limits: Limits
    var order: seq<EngineName>
    var table: map<EngineName, EngineObservations>

    ghost predicate Valid()
      reads this, table.Values
    {
      && limits.Accepted()
      && Separate()
      && DirectoryOk(limits, View())
    }

    ghost function View(): Directory
      reads this, table.Values
    {
      Directory(order, map k | k in table :: table[k].View())
    }

    constructor (limits: Limits)
      ensures this.limits == limits && table == map[] && View() == Directory([], map[])
    {
      this.limits := limits;
      order, table := [], map[];
    }

    /** None unless every limit is positive. */
    static method Create(limits: Limits) returns (r: Option<SnapshotDirectory>)
      ensures r.Some? <==> limits.Accepted()
      ensures r.Some? ==> fresh(r.value) && r.value.Valid() && r.value.limits == limits
                          && r.value.View() == Directory([], map[])
    {
      if limits.Accepted() {
        var d := new SnapshotDirectory(limits);
        return Some(d);
      }
      r := None;
    }

    /** Forgets the least recently used engines beyond the limit. */
    method Evict()
      requires limits.Accepted() && Separate() && Distinct(order) && Elems(order) == table.Keys
      modifies this`order, this`table
      ensures Separate() && table.Values <= old(table.Values)
      ensures View() == Directory(Last(old(order), limits.engines),
                                  Only(old(View()).engines, Last(old(order), limits.engines)))
    {
      EvictOldest();
      assert forall k :: k in table ==> table[k] == old(table)[k];
    }

    method EvictOldest()
      requires limits.Accepted() && Distinct(order) && Elems(order) == table.Keys
      modifies this`order, this`table
      ensures order == Last(old(order), limits.engines)
      ensures table == map k | k in old(table) && k in order :: old(table)[k]
    {
      hide Distinct;
      while |order| > limits.engines
        invariant Distinct(order) && Last(order, limits.engines) == Last(old(order), limits.engines)
        invariant Elems(order) == table.Keys
        invariant table == map k | k in old(table) && k in order :: old(table)[k]
        decreases |order|
      {
        HeadIsGone(order);
        table := table - {order[0]};
        order := order[1..];
      }
    }

    ghost predicate Separate()
      reads this
    {
      forall j, k :: j in table && k in table && j != k ==> table[j] != table[k]
    }

    /** The engine's entry, created at the recent end when there is none. */
    method EntryFor(key: EngineName, capacity: Capacity<nat>) returns (e: EngineObservations)
      requires Separate()
      modifies this`order, this`table
      ensures Separate() && key in table && e == table[key] && fresh(table.Values - old(table.Values))
      ensures table.Keys == old(table).Keys + {key}
      ensures View() == Directory(if key in old(table) then old(order) else old(order) + [key],
                                  old(View()).engines[key := EngineOrNew(old(View()), key, capacity)])
    {
      if key !in table {
        e := new EngineObservations(capacity);
        table := table[key := e];
        order := order + [key];
      } else {
        e := table[key];
      }
    }

    method Update(key: EngineName, tokenIds: FieldList, response: Response) returns (r: Option<seq<Prefix>>)
      requires Valid()
      modifies this, table.Values
      ensures Valid() && fresh(table.Values - old(table.Values))
      ensures r == if key.IsKey() && WellFormed(tokenIds, response)
                   then Some(Confirmation(tokenIds, response).confirmed) else None
      ensures View() == if r.Some? then Updated(limits, old(View()), key, Confirmation(tokenIds, response))
                        else old(View())
      ensures r.Some? ==> OthersKept(limits, old(View()), View(), key)
    {
      hide Observed, EngineOk, Distinct, Without, Last, Confirmation, WellFormed, OthersKept, DirectoryOk, Updated;
      ghost var d := View();
      if !key.IsKey() {
        return None;
      }
      var parsed := Parse(tokenIds, response);
      if parsed.None? {
        return None;
      }
      ConfirmedAreOnPath(tokenIds, response);
      Record(key, parsed.value);
      UpdateKeepsOthers(limits, d, key, parsed.value);
      r := Some(parsed.value.confirmed);
    }

    /** Replaces the engine's observations and makes it the most recent engine. */
    method Refresh(key: EngineName, c: Parsed)
      requires limits.Accepted() && Separate() && key in table && EngineOk(limits, table[key].View())
      requires Distinct(c.confirmed) && forall p :: p in c.confirmed ==> p <= c.tokens
      modifies this`order, table[key]
      ensures Separate()
      ensures View() == Directory(Without(old(order), {key}) + [key],
                                  old(View()).engines[key := Observed(limits, old(table[key].View()), c.tokens,
                                                                      c.confirmed,
                                                                      c.capacity)])
    {
      hide Observed, EngineOk, Distinct, Without;
      ghost var d := View();
      table[key].Observe(limits, c.tokens, c.confirmed, c.capacity);
      order := Without(order, {key}) + [key];
      assert forall k :: k in table && k != key ==> table[k].View() == d.engines[k];
    }

    method Replace(key: EngineName, c: Parsed)
      requires limits.Accepted() && Separate() && Distinct(order)
      requires EngineOk(limits, EngineOrNew(View(), key, c.capacity))
      requires Distinct(c.confirmed) && forall p :: p in c.confirmed ==> p <= c.tokens
      modifies this, table.Values
      ensures Separate() && fresh(table.Values - old(table.Values)) && table.Keys == old(table).Keys + {key}
      ensures View() == Directory(Without(old(order), {key}) + [key], old(View()).engines[key :=
                          Observed(limits, EngineOrNew(old(View()), key, c.capacity), c.tokens, c.confirmed,
                                   c.capacity)])
    {
      hide Observed, EngineOk, Distinct, Without, EngineOrNew, Separate;
      ghost var d := View();
      MovedToEnd(order, key);
      var e := EntryFor(key, c.capacity);
      ghost var entry, seen := EngineOrNew(d, key, c.capacity), e.View();
      assert seen == View().engines[key] == entry;
      Refresh(key, c);
      SetTwice(d.engines, key, entry, Observed(limits, seen, c.tokens, c.confirmed, c.capacity));
    }

    method Record(key: EngineName, c: Parsed)
      requires Valid() && Distinct(c.confirmed) && forall p :: p in c.confirmed ==> p <= c.tokens
      modifies this, table.Values
      ensures Valid() && fresh(table.Values - old(table.Values))
      ensures View() == Updated(limits, old(View()), key, c)
    {
      hide Observed, EngineOk, Distinct, Without, Last, DirectoryOk, Separate, Only, EngineOrNew;
      ghost var d := View();
      OkParts(limits, d, key, c.capacity);
      UpdatedOk(limits, d, key, c);
      MovedToEnd(order, key);
      Replace(key, c);
      Evict();
    }

    /** None for a malformed engine name or token list. */
    method LookUp(key: EngineName, tokenIds: FieldList, requireSuffix: bool) returns (r: Option<nat>)
      requires Valid()
      modifies this, table.Values
      ensures Valid() && table == old(table)
      ensures r.Some? <==> key.IsKey() && tokenIds.List? && AllNat(tokenIds.items)
      ensures r.None? ==> View() == old(View())
      ensures r.Some? ==> var tokens := Values(tokenIds.items);
                          var maximum := Maximum(tokens, requireSuffix);
                          && IsLongest(r.value, Known(old(View()), key), tokens, maximum)
                          && View() == LookedUp(old(View()), key, tokens, maximum)
      ensures r.Some? ==> var tokens := Values(tokenIds.items);
                          && (r.value > 0 ==> r.value <= if requireSuffix then |tokens| - 1 else |tokens|)
                          && (forall p :: p in Known(old(View()), key) && p <= tokens && |p| > r.value ==>
                                requireSuffix && p == tokens)
                          && r.value <= |tokens| && OnlyMoved(old(View()), View(), key, tokens[..r.value])
    {
      hide EngineOk, Distinct, Without, Longest, DirectoryOk, OnlyMoved, LookedUp;
      ghost var d := View();
      if !key.IsKey() || tokenIds.NotAList? || !AllNat(tokenIds.items) {
        return None;
      }
      var longest := Find(key, Values(tokenIds.items), requireSuffix);
      r := Some(longest);
      LookUpOnlyMoves(limits, d, key, Values(tokenIds.items), Maximum(Values(tokenIds.items), requireSuffix), longest);
    }

    method Find(key: EngineName, tokens: Prefix, requireSuffix: bool) returns (longest: nat)
      requires Valid()
      modifies this, table.Values
      ensures Valid() && table == old(table)
      ensures IsLongest(longest, Known(old(View()), key), tokens, Maximum(tokens, requireSuffix))
      ensures View() == LookedUp(old(View()), key, tokens, Maximum(tokens, requireSuffix))
    {
      hide EngineOk, Distinct, Without, Longest, IsLongest, DirectoryOk, Separate;
      ghost var d, maximum := View(), Maximum(tokens, requireSuffix);
      LookedUpOk(limits, d, key, tokens, maximum);
      if key !in table {
        NothingKnown(tokens, maximum);
        return 0;
      }
      var state := table[key];
      longest := BestReusablePrefix(tokens, state.prefixes, requireSuffix);
      LongestIsUnique(longest, state.prefixes, tokens, maximum);
      LongestIsKnown(longest, state.prefixes, tokens, maximum);
      Use(key, tokens[..longest]);
    }

    /** Makes the entry that was found, if any, and its engine the most recent. */
    method Use(key: EngineName, found: Prefix)
      requires Separate() && key in table && (found != [] ==> found in table[key].prefixes)
      modifies this`order, table[key]
      ensures Separate()
      ensures View() == Directory(Without(old(order), {key}) + [key],
                                  old(View()).engines[key := Touched(old(View()).engines[key], found)])
    {
      hide Without;
      ghost var d := View();
      if found != [] {
        table[key].MoveToEnd(found);
      }
      order := Without(order, {key}) + [key];
      assert forall k :: k in table && k != key ==> table[k].View() == d.engines[k];
    }

    method Remove(key: EngineName)
      requires Separate()
      modifies this`order, this`table
      ensures Separate() && View() == Discarded(old(View()), key)
    {
      if key in table {
        table := table - {key};
        order := Without(order, {key});
      }
    }

    method DiscardEngine(key: EngineName) returns (ok: bool)
      requires Valid()
      modifies this
      ensures Valid() && ok == key.IsKey()
      ensures View() == if ok then Discarded(old(View()), key) else old(View())
    {
      hide Without, EngineOk, Distinct, DirectoryOk, Discarded, Separate;
      if !key.IsKey() {
        return false;
      }
      DiscardedOk(limits, View(), key);
      Remove(key);
      ok := true;
    }

    method Clear()
      requires Valid()
      modifies this
      ensures Valid() && View() == Directory([], map[])
    {
      order, table := [], map[];
    }
  }

  // ---- runs, against an unbounded reference ----

  datatype Operation =
    | Update(key: EngineName, tokenIds: FieldList, response: Response)
    | LookUp(key: EngineName, tokenIds: FieldList, requireSuffix: bool)
    | Discard(key: EngineName)
    | Clear

  /** What the directory's methods make of each operation; one that raises changes nothing. */
  function Apply(l: Limits, d: Directory, op: Operation): Directory
    requires l.Accepted()
  {
    match op
    case Update(key, tokenIds, response) =>
      if key.IsKey() && WellFormed(tokenIds, response) then Updated(l, d, key, Confirmation(tokenIds, response)) else d
    case LookUp(key, tokenIds, requireSuffix) =>
      if key.IsKey() && tokenIds.List? && AllNat(tokenIds.items) then
        var tokens := Values(tokenIds.items);
        LookedUp(d, key, tokens, Maximum(tokens, requireSuffix))
      else d
    case Discard(key) => if key.IsKey() then Discarded(d, key) else d
    case Clear => Directory([], map[])
  }

  function RunOf(l: Limits, ops: seq<Operation>): Directory
    requires l.Accepted()
  {
    if ops == [] then Directory([], map[]) else Apply(l, RunOf(l, ops[..|ops|-1]), ops[|ops|-1])
  }

  /** Everything the inspections of an engine have confirmed and not since denied: an inspection speaks for every prefix
      of the inspected tokens and for nothing else. */
  function Reference(ops: seq<Operation>, engine: EngineName): set<Prefix> {
    if ops == [] then {}
    else
      var before := Reference(ops[..|ops|-1], engine);
      match ops[|ops|-1]
      case Update(key, tokenIds, response) =>
        if key == engine && key.IsKey() && WellFormed(tokenIds, response) then
          var c := Confirmation(tokenIds, response);
          (set p | p in before && !(p <= c.tokens)) + Elems(c.confirmed)
        else before
      case LookUp(_, _, _) => before
      case Discard(key) => if key == engine && key.IsKey() then {} else before
      case Clear => {}
  }

  lemma {:induction false} TrimKeepsOnly(l: Limits, s: seq<Prefix>)
    requires l.Accepted()
    ensures forall p :: p in Trim(l, s) ==> p in s
  {
    if !Fits(l, s) {
      TrimKeepsOnly(l, s[1..]);
    }
  }

  /** An update can only add what it confirmed, and drops the whole inspected path. */
  lemma UpdatedKnows(l: Limits, d: Directory, key: EngineName, c: Parsed, engine: EngineName)
    requires l.Accepted()
    ensures engine != key ==> Known(Updated(l, d, key, c), engine) <= Known(d, engine)
    ensures Known(Updated(l, d, key, c), key) <= (set p | p in Known(d, key) && !(p <= c.tokens)) + Elems(c.confirmed)
  {
    hide Last, Trim, Without;
    var e := EngineOrNew(d, key, c.capacity);
    TrimKeepsOnly(l, Without(e.prefixes, OnPath(e.prefixes, c.tokens)) + Kept(l, c.confirmed));
  }

  lemma LookedUpKnows(l: Limits, d: Directory, key: EngineName, tokens: Prefix, maximum: int, engine: EngineName)
    requires l.Accepted() && DirectoryOk(l, d) && maximum <= |tokens|
    ensures Known(LookedUp(d, key, tokens, maximum), engine) == Known(d, engine)
  {
    if key in d.engines {
      var n := Longest(d.engines[key].prefixes, tokens, maximum);
      TouchedOk(l, d.engines[key], tokens[..n]);
      hide EngineOk, Longest, Touched;
    }
  }

  lemma ApplyKeepsOk(l: Limits, d: Directory, op: Operation)
    requires l.Accepted() && DirectoryOk(l, d)
    ensures DirectoryOk(l, Apply(l, d, op))
  {
    hide DirectoryOk, Updated, LookedUp, Discarded, WellFormed, Confirmation;
    match op
    case Update(key, tokenIds, response) =>
      if key.IsKey() && WellFormed(tokenIds, response) {
        ConfirmedAreOnPath(tokenIds, response);
        UpdatedOk(l, d, key, Confirmation(tokenIds, response));
      }
    case LookUp(key, tokenIds, requireSuffix) =>
      if key.IsKey() && tokenIds.List? && AllNat(tokenIds.items) {
        var tokens := Values(tokenIds.items);
        LookedUpOk(l, d, key, tokens, Maximum(tokens, requireSuffix));
      }
    case Discard(key) => DiscardedOk(l, d, key);
    case Clear => EmptyOk(l);
  }

  lemma EmptyOk(l: Limits)
    requires l.Accepted()
    ensures DirectoryOk(l, Directory([], map[]))
  {
  }

  /** In every run the counts are exact, all three limits hold, and only reference entries are retained. */
  lemma {:induction false} RetainedAreConfirmed(l: Limits, ops: seq<Operation>, engine: EngineName)
    requires l.Accepted()
    ensures DirectoryOk(l, RunOf(l, ops))
    ensures Known(RunOf(l, ops), engine) <= Reference(ops, engine)
  {
    if ops == [] {
      EmptyOk(l);
    } else {
      var before, op := ops[..|ops|-1], ops[|ops|-1];
      var d := RunOf(l, before);
      RetainedAreConfirmed(l, before, engine);
      ApplyKeepsOk(l, d, op);
      hide DirectoryOk, Updated, LookedUp, WellFormed, Confirmation;
      match op
      case Update(key, tokenIds, response) =>
        if key.IsKey() && WellFormed(tokenIds, response) {
          UpdatedKnows(l, d, key, Confirmation(tokenIds, response), engine);
        }
      case LookUp(key, tokenIds, requireSuffix) =>
        if key.IsKey() && tokenIds.List? && AllNat(tokenIds.items) {
          var tokens := Values(tokenIds.items);
          LookedUpKnows(l, d, key, tokens, Maximum(tokens, requireSuffix), engine);
        }
      case Discard(_) =>
      case Clear =>
    }
  }

  /** A lookup never answers more than the unbounded reference would. */
  lemma LookupWithinReference(l: Limits, ops: seq<Operation>, engine: EngineName, tokens: Prefix, maximum: int,
                              n: nat, m: nat)
    requires l.Accepted()
    requires IsLongest(n, Known(RunOf(l, ops), engine), tokens, maximum)
    requires IsLongest(m, Reference(ops, engine), tokens, maximum)
    ensures n <= m && (n > 0 ==> tokens[..n] in Reference(ops, engine))
  {
    RetainedAreConfirmed(l, ops, engine);
    LookupsNeverOverclaim(n, m, Known(RunOf(l, ops), engine), Reference(ops, engine), tokens, maximum);
  }

  /** The longest confirmed prefix that the token limit lets an engine retain at all. */
  predicate LongestConfirmed(l: Limits, confirmed: seq<Prefix>, p: Prefix) {
    p in confirmed && |p| <= l.tokens && forall q :: q in confirmed && |q| <= l.tokens ==> |q| <= |p|
  }

  /** Right after an inspection its longest confirmed boundary within the token limit is retained, so every prompt that
      continues it, the inspected one or a branch of it, is answered at least that much. */
  lemma ConfirmedIsFound(l: Limits, d: Directory, key: EngineName, tokenIds: FieldList, response: Response, p: Prefix)
    requires l.Accepted() && DirectoryOk(l, d) && WellFormed(tokenIds, response)
    requires LongestConfirmed(l, Confirmation(tokenIds, response).confirmed, p)
    ensures var after := Updated(l, d, key, Confirmation(tokenIds, response));
            && p in Known(after, key)
            && forall prompt, maximum, n ::
                 p <= prompt && |p| <= maximum && IsLongest(n, Known(after, key), prompt, maximum) ==> |p| <= n
  {
    var c := Confirmation(tokenIds, response);
    ConfirmedAreOnPath(tokenIds, response);
    ConfirmedRise(tokenIds, response);
    hide DirectoryOk, WellFormed, Confirmation;
    LongestIsRetained(l, d, key, c, p);
    hide Updated;
    forall prompt, maximum, n
      | p <= prompt && |p| <= maximum && IsLongest(n, Known(Updated(l, d, key, c), key), prompt, maximum)
      ensures |p| <= n
    {
      assert Usable(p, prompt, maximum);
    }
  }

  lemma ConfirmedRise(tokenIds: FieldList, response: Response)
    requires WellFormed(tokenIds, response)
    ensures var c := Confirmation(tokenIds, response).confirmed;
            forall i, j :: 0 <= i < j < |c| ==> |c[i]| < |c[j]|
  {
  }

  lemma LongestIsRetained(l: Limits, d: Directory, key: EngineName, c: Parsed, p: Prefix)
    requires l.Accepted() && DirectoryOk(l, d)
    requires Distinct(c.confirmed) && forall q :: q in c.confirmed ==> q <= c.tokens
    requires forall i, j :: 0 <= i < j < |c.confirmed| ==> |c.confirmed[i]| < |c.confirmed[j]|
    requires LongestConfirmed(l, c.confirmed, p)
    ensures p in Known(Updated(l, d, key, c), key)
  {
    hide Distinct, Without, DirectoryOk, Last, Kept, Trim;
    UpdatedOk(l, d, key, c);
    var i :| 0 <= i < |c.confirmed| && c.confirmed[i] == p;
    forall j | i < j < |c.confirmed| ensures |c.confirmed[j]| > l.tokens {
      assert c.confirmed[j] in c.confirmed;
    }
    LastShortIsLastKept(l, c.confirmed, i);
    var e, kept := EngineOrNew(d, key, c.capacity), Kept(l, c.confirmed);
    hide LongestConfirmed;
    var all := Without(e.prefixes, OnPath(e.prefixes, c.tokens)) + kept;
    assert p == all[|all|-1];
    LastSurvivesTrim(l, all);
  }

  /** The last entry that is short enough is the last one kept. */
  lemma {:induction false} LastShortIsLastKept(l: Limits, confirmed: seq<Prefix>, i: nat)
    requires i < |confirmed| && |confirmed[i]| <= l.tokens
    requires forall j :: i < j < |confirmed| ==> |confirmed[j]| > l.tokens
    ensures Kept(l, confirmed) != [] && Kept(l, confirmed)[|Kept(l, confirmed)|-1] == confirmed[i]
  {
    if i < |confirmed| - 1 {
      LastShortIsLastKept(l, confirmed[..|confirmed|-1], i);
    }
  }

  lemma LastSurvivesTrim(l: Limits, s: seq<Prefix>)
    requires l.Accepted() && s != [] && |s[|s|-1]| <= l.tokens
    ensures s[|s|-1] in Trim(l, s)
  {
    TrimIsLongestSuffix(l, s);
    assert s[|s|-1..] == [s[|s|-1]];
    assert Total([s[|s|-1]]) == |s[|s|-1]| + Total([]);
    assert Fits(l, s[|s|-1..]);
    assert |Trim(l, s)| > 0;
  }

  lemma TrimKeepsAllIff(l: Limits, s: seq<Prefix>)
    requires l.Accepted() && Distinct(s)
    ensures Elems(Trim(l, s)) == Elems(s) <==> Fits(l, s)
  {
    if !Fits(l, s) {
      TrimKeepsOnly(l, s[1..]);
      assert s[0] !in s[1..];
      assert s[0] in Elems(s);
    }
  }

  /** Nothing but the limits makes the directory forget: an update retains exactly the off-path entries and the
      confirmed ones if and only if together they fit. */
  lemma ForgetsOnlyForSpace(l: Limits, e: Engine, c: Parsed)
    requires l.Accepted() && EngineOk(l, e) && Distinct(c.confirmed) && forall p :: p in c.confirmed ==> p <= c.tokens
    ensures var off := Without(e.prefixes, OnPath(e.prefixes, c.tokens));
            Elems(Observed(l, e, c.tokens, c.confirmed, c.capacity).prefixes) == Elems(off) + Elems(c.confirmed)
            <==> Fits(l, off + c.confirmed)
  {
    var off, kept := Without(e.prefixes, OnPath(e.prefixes, c.tokens)), Kept(l, c.confirmed);
    WithoutDistinct(e.prefixes, OnPath(e.prefixes, c.tokens));
    KeptDistinct(l, c.confirmed);
    DistinctAppend(off, kept);
    TotalAppend(off, c.confirmed);
    KeptAll(l, c.confirmed);
    hide Without, Trim, Distinct, Kept, Total;
    TrimKeepsAllIff(l, off + kept);
    TrimKeepsOnly(l, off + kept);
    assert Elems(off + kept) == Elems(off) + Elems(kept);
    if kept != c.confirmed {
      var p :| p in c.confirmed && |p| > l.tokens;
      EntryWithinTotal(c.confirmed, p);
      assert p !in off + kept by { LongIsNotRetained(l, e, off, p); }
      assert p in Elems(c.confirmed) && p !in Elems(Trim(l, off + kept));
    } else {
      assert off + kept == off + c.confirmed;
      assert Observed(l, e, c.tokens, c.confirmed, c.capacity).prefixes == Trim(l, off + kept);
    }
  }

  lemma LongIsNotRetained(l: Limits, e: Engine, some: seq<Prefix>, p: Prefix)
    requires EngineOk(l, e) && |p| > l.tokens && forall q :: q in some ==> q in e.prefixes
    ensures p !in some
  {
    if p in some {
      EntryWithinTotal(e.prefixes, p);
    }
  }

  lemma {:induction false} KeptAll(l: Limits, confirmed: seq<Prefix>)
    ensures Kept(l, confirmed) == confirmed || exists p :: p in confirmed && |p| > l.tokens
  {
    if confirmed != [] {
      var n := |confirmed| - 1;
      KeptAll(l, confirmed[..n]);
      assert confirmed == confirmed[..n] + [confirmed[n]];
      if |confirmed[n]| > l.tokens {
        assert confirmed[n] in confirmed;
      }
    }
  }
}
