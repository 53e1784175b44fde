/** calibrate_ttl: an optimum over all real TTLs found by trying finitely many. */
module Retention {
  import opened Wrappers

  datatype Calibration = Calibration(ttlSeconds: real, expectedCostSeconds: real)

  function Clamp(x: real): real { if x > 0.0 then x else 0.0 }

  function Clamped(gaps: seq<real>): seq<real> {
    seq(|gaps|, i requires 0 <= i < |gaps| => Clamp(gaps[i]))
  }

  /** What one gap costs: residency until return or eviction, and recomputation when it outlives the TTL. */
  function GapCost(gap: real, ttl: real, recompute: real, kvGib: real, hbm: real): real {
    (if gap < ttl then gap else ttl) * kvGib * hbm + if gap > ttl then recompute else 0.0
  }

  function TotalCost(samples: seq<real>, ttl: real, recompute: real, kvGib: real, hbm: real): real {
    if samples == [] then 0.0
    else TotalCost(samples[..|samples|-1], ttl, recompute, kvGib, hbm)
         + GapCost(samples[|samples|-1], ttl, recompute, kvGib, hbm)
  }

  function ExpectedCost(samples: seq<real>, ttl: real, recompute: real, kvGib: real, hbm: real): real
    requires samples != []
  {
    TotalCost(samples, ttl, recompute, kvGib, hbm) / |samples| as real
  }

  /** Strictly increasing: a sorted set. */
  ghost predicate Ascending(s: seq<real>) {
    forall i, j :: 0 <= i < j < |s| ==> s[i] < s[j]
  }

  function InsertDistinct(x: real, s: seq<real>): seq<real> {
    if s == [] || s[|s|-1] < x then s + [x]
    else if s[|s|-1] == x then s
    else InsertDistinct(x, s[..|s|-1]) + [s[|s|-1]]
  }

  /** sorted({0.0, *samples}). */
  function Candidates(samples: seq<real>): seq<real> {
    if samples == [] then [0.0] else InsertDistinct(samples[|samples|-1], Candidates(samples[..|samples|-1]))
  }

  lemma {:induction false} InsertDistinctOk(x: real, s: seq<real>)
    requires Ascending(s)
    ensures Ascending(InsertDistinct(x, s))
    ensures forall y :: y in InsertDistinct(x, s) <==> y == x || y in s
  {
    if s != [] && x < s[|s|-1] {
      var front := s[..|s|-1];
      InsertDistinctOk(x, front);
      var r := InsertDistinct(x, front);
      assert s == front + [s[|s|-1]];
      forall i | 0 <= i < |r| ensures r[i] < s[|s|-1] {
        assert r[i] in r;
      }
    }
  }

  lemma {:induction false} CandidatesOk(samples: seq<real>)
    ensures Ascending(Candidates(samples))
    ensures forall y :: y in Candidates(samples) <==> y == 0.0 || y in samples
  {
    if samples != [] {
      var n := |samples| - 1;
      CandidatesOk(samples[..n]);
      InsertDistinctOk(samples[n], Candidates(samples[..n]));
      assert samples == samples[..n] + [samples[n]];
    }
  }

  /** A gap that returns within the TTL costs its residency; a longer one the TTL's and the recomputation. */
  lemma GapCosts(gap: real, ttl: real, recompute: real, kvGib: real, hbm: real)
    ensures gap <= ttl ==> GapCost(gap, ttl, recompute, kvGib, hbm) == gap * kvGib * hbm
    ensures gap > ttl ==> GapCost(gap, ttl, recompute, kvGib, hbm) == ttl * kvGib * hbm + recompute
  {
  }

  /** The mean over the samples: sums are additive, and a repeated sample costs as much again. */
  lemma {:induction false} CostsAdd(a: seq<real>, b: seq<real>, ttl: real, recompute: real, kvGib: real, hbm: real)
    ensures TotalCost(a + b, ttl, recompute, kvGib, hbm)
            == TotalCost(a, ttl, recompute, kvGib, hbm) + TotalCost(b, ttl, recompute, kvGib, hbm)
    ensures |a| == 1 ==> TotalCost(a, ttl, recompute, kvGib, hbm) == GapCost(a[0], ttl, recompute, kvGib, hbm)
  {
    hide GapCost;
    if b == [] {
      assert a + b == a;
    } else {
      CostsAdd(a, b[..|b|-1], ttl, recompute, kvGib, hbm);
      assert (a + b)[..|a+b|-1] == a + b[..|b|-1];
    }
  }

  // ---- between two candidates the cost only rises ----

  lemma GapCostRises(gap: real, low: real, high: real, recompute: real, kvGib: real, hbm: real)
    requires kvGib >= 0.0 && hbm >= 0.0 && low <= high && !(low < gap <= high)
    ensures GapCost(gap, low, recompute, kvGib, hbm) <= GapCost(gap, high, recompute, kvGib, hbm)
  {
    var x := if gap < low then gap else low;
    var y := if gap < high then gap else high;
    assert x * kvGib <= y * kvGib;
    assert x * kvGib * hbm <= y * kvGib * hbm;
  }

  lemma {:induction false} TotalCostRises(samples: seq<real>, low: real, high: real, recompute: real, kvGib: real,
                                          hbm: real)
    requires kvGib >= 0.0 && hbm >= 0.0 && low <= high && forall i :: 0 <= i < |samples| ==> !(low < samples[i] <= high)
    ensures TotalCost(samples, low, recompute, kvGib, hbm) <= TotalCost(samples, high, recompute, kvGib, hbm)
  {
    if samples != [] {
      TotalCostRises(samples[..|samples|-1], low, high, recompute, kvGib, hbm);
      GapCostRises(samples[|samples|-1], low, high, recompute, kvGib, hbm);
    }
  }

  /** The largest candidate not above `ttl` has no sample between itself and `ttl`. */
  lemma {:induction false} CandidateBelow(cs: seq<real>, ttl: real) returns (c: real)
    requires Ascending(cs) && cs != [] && cs[0] <= ttl
    ensures c in cs && c <= ttl && forall x :: x in cs && x <= ttl ==> x <= c
  {
    var n := |cs| - 1;
    if cs[n] <= ttl {
      c := cs[n];
    } else {
      c := CandidateBelow(cs[..n], ttl);
      assert cs == cs[..n] + [cs[n]];
    }
  }

  /** Every TTL is at least as expensive as a candidate that is no longer. */
  lemma CandidateIsNoWorse(samples: seq<real>, ttl: real, recompute: real, kvGib: real, hbm: real) returns (c: real)
    requires samples != [] && kvGib >= 0.0 && hbm >= 0.0 && ttl >= 0.0
    requires forall x :: x in samples ==> x >= 0.0
    ensures c in Candidates(samples) && c <= ttl
    ensures ExpectedCost(samples, c, recompute, kvGib, hbm) <= ExpectedCost(samples, ttl, recompute, kvGib, hbm)
  {
    CandidatesOk(samples);
    var cs := Candidates(samples);
    assert 0.0 in cs;
    assert cs[0] in cs && cs[0] <= 0.0 by {
      var i :| 0 <= i < |cs| && cs[i] == 0.0;
    }
    c := CandidateBelow(cs, ttl);
    forall i | 0 <= i < |samples| ensures !(c < samples[i] <= ttl) {
      var x := samples[i];
      assert x in samples;
      assert x in cs;
    }
    TotalCostRises(samples, c, ttl, recompute, kvGib, hbm);
    DivideBoth(TotalCost(samples, c, recompute, kvGib, hbm), TotalCost(samples, ttl, recompute, kvGib, hbm), |samples|);
  }

  lemma DivideBoth(x: real, y: real, n: int)
    requires x <= y && n > 0
    ensures x / n as real <= y / n as real
  {
  }

  method MeasureCost(samples: seq<real>, ttl: real, recompute: real, kvGib: real, hbm: real) returns (expected: real)
    requires samples != []
    ensures expected == ExpectedCost(samples, ttl, recompute, kvGib, hbm)
  {
    var total := 0.0;
    for i := 0 to |samples|
      invariant total == TotalCost(samples[..i], ttl, recompute, kvGib, hbm)
    {
      assert samples[..i+1][..i] == samples[..i];
      total := total + (if samples[i] < ttl then samples[i] else ttl) * kvGib * hbm;
      if samples[i] > ttl {
        total := total + recompute;
      }
    }
    assert samples[..|samples|] == samples;
    expected := total / |samples| as real;
  }

  /** `ttl` costs no more than any real TTL >= 0, and any equally cheap one is at least as long. */
  ghost predicate LeastMinimiser(samples: seq<real>, ttl: real, recompute: real, kvGib: real, hbm: real)
    requires samples != []
  {
    forall other :: other >= 0.0 ==> NoBetter(samples, ttl, other, recompute, kvGib, hbm)
  }

  ghost predicate NoBetter(samples: seq<real>, ttl: real, other: real, recompute: real, kvGib: real, hbm: real)
    requires samples != []
  {
    var best, cost := ExpectedCost(samples, ttl, recompute, kvGib, hbm),
        ExpectedCost(samples, other, recompute, kvGib, hbm);
    best < cost || (best == cost && ttl <= other)
  }

  /** Beating the candidates is beating every TTL. */
  lemma BestCandidateIsBest(samples: seq<real>, ttl: real, recompute: real, kvGib: real, hbm: real)
    requires samples != [] && kvGib >= 0.0 && hbm >= 0.0 && forall x :: x in samples ==> x >= 0.0
    requires forall c :: c in Candidates(samples) ==> NoBetter(samples, ttl, c, recompute, kvGib, hbm)
    ensures LeastMinimiser(samples, ttl, recompute, kvGib, hbm)
  {
    forall other | other >= 0.0 ensures NoBetter(samples, ttl, other, recompute, kvGib, hbm) {
      var c := CandidateIsNoWorse(samples, other, recompute, kvGib, hbm);
      assert NoBetter(samples, ttl, c, recompute, kvGib, hbm);
    }
  }

  /**
  The cheapest TTL of all non-negative reals, and the shortest of the cheapest.  None for no samples or a
  negative price.
  */
  method CalibrateTtl(gaps: seq<real>, recompute: real, kvGib: real, hbm: real) returns (best: Option<Calibration>)
    ensures best.None? <==> gaps == [] || recompute < 0.0 || kvGib < 0.0 || hbm < 0.0
    ensures best.Some? ==>
              && best.value.ttlSeconds >= 0.0
              && best.value.expectedCostSeconds
                 == ExpectedCost(Clamped(gaps), best.value.ttlSeconds, recompute, kvGib, hbm)
              && LeastMinimiser(Clamped(gaps), best.value.ttlSeconds, recompute, kvGib, hbm)
  {
    hide ExpectedCost;
    var samples := Clamped(gaps);
    if samples == [] || recompute < 0.0 || kvGib < 0.0 || hbm < 0.0 {
      return None;
    }
    var candidates := Candidates(samples);
    CandidatesOk(samples);
    assert 0.0 in candidates;
    var found: Option<Calibration> := None;
    for k := 0 to |candidates|
      invariant k > 0 ==> found.Some?
      invariant found.Some? ==>
                  && found.value.ttlSeconds in candidates[..k]
                  && found.value.expectedCostSeconds
                     == ExpectedCost(samples, found.value.ttlSeconds, recompute, kvGib, hbm)
                  && forall c :: c in candidates[..k] ==>
                       NoBetter(samples, found.value.ttlSeconds, c, recompute, kvGib, hbm)
    {
      var ttl := candidates[k];
      assert candidates[..k+1] == candidates[..k] + [ttl];
      var expected := MeasureCost(samples, ttl, recompute, kvGib, hbm);
      if found.None? || expected < found.value.expectedCostSeconds {
        found := Some(Calibration(ttl, expected));
      }
    }
    assert candidates[..|candidates|] == candidates;
    best := found;
    BestCandidateIsBest(samples, best.value.ttlSeconds, recompute, kvGib, hbm);
  }
}
