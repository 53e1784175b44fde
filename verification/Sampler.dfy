/** The process sampler's CPU account, against the readings that it was given. */
module Sampler {
  import opened Wrappers

  /** A process; a reused pid has another creation time. */
  datatype Process = Process(pid: nat, createTime: real)

  /** One discovered process and its own CPU counter, None when the process could not be read. */
  datatype Seen = Seen(process: Process, cpu: Option<real>)

  datatype Reading = Reading(sample: nat, process: Process, cpu: real)

  function Max(a: real, b: real): real { if a > b then a else b }

  /** What the first reading of a process is compared with. */
  function Baseline(started: real, first: Reading): real {
    if first.sample > 0 && first.process.createTime >= started then 0.0 else first.cpu
  }

  class Sampler {
    const started: real
    var previous: map<Process, real>
    var cpuSeconds: real
    var samples: nat

    constructor (started: real)
      ensures this.started == started && samples == 0 && Accounts([])
    {
      this.started := started;
      previous, cpuSeconds, samples := map[], 0.0, 0;
    }

    /** The total so far is what the account of all readings charges, and `previous` holds the last reading of each. */
    ghost predicate Accounts(readings: seq<Reading>)
      reads this
    {
      && cpuSeconds == Charged(started, readings)
      && previous == LastReadings(readings)
    }

    /** Takes one sample of the discovered processes. */
    method Sample(found: seq<Seen>, ghost readings: seq<Reading>) returns (delta: real)
      requires Accounts(readings)
      modifies this
      ensures Accounts(WithSample(readings, old(samples), found)) && samples == old(samples) + 1
      ensures cpuSeconds == old(cpuSeconds) + delta
    {
      delta := 0.0;
      ghost var all := readings;
      hide Charged, LastReadings, Max;
      for i := 0 to |found|
        invariant all == WithSample(readings, samples, found[..i])
        invariant cpuSeconds + delta == Charged(started, all) && previous == LastReadings(all)
        invariant unchanged(`cpuSeconds) && unchanged(`samples)
      {
        assert found[..i+1][..i] == found[..i];
        if found[i].cpu.Some? {
          var process, cpu := found[i].process, found[i].cpu.value;
          var countInitial := samples > 0 && process.createTime >= started;
          var baseline := if process in previous then previous[process] else if countInitial then 0.0 else cpu;
          TakeReading(started, all, Reading(samples, process, cpu));
          delta := delta + Max(0.0, cpu - baseline);
          previous := previous[process := cpu];
          all := all + [Reading(samples, process, cpu)];
        }
      }
      assert found[..|found|] == found;
      cpuSeconds := cpuSeconds + delta;
      samples := samples + 1;
    }
  }

  // ---- the readings of a run ----

  /** The readings with those of one more sample, in order; a process that could not be read has none. */
  function WithSample(readings: seq<Reading>, sample: nat, found: seq<Seen>): seq<Reading> {
    if found == [] then readings
    else
      var n := |found| - 1;
      var before := WithSample(readings, sample, found[..n]);
      if found[n].cpu.Some? then before + [Reading(sample, found[n].process, found[n].cpu.value)] else before
  }

  function LastReadings(readings: seq<Reading>): map<Process, real> {
    if readings == [] then map[]
    else var r := readings[|readings|-1]; LastReadings(readings[..|readings|-1])[r.process := r.cpu]
  }

  /** What a reading is compared with: the process's reading before it, or its baseline. */
  function Compared(started: real, before: seq<Reading>, r: Reading): real {
    var last := LastReadings(before);
    if r.process in last then last[r.process] else Baseline(started, r)
  }

  /** What the deltas of the readings add up to; a decrease counts as nothing. */
  function Charged(started: real, readings: seq<Reading>): real {
    if readings == [] then 0.0
    else
      var n := |readings| - 1;
      Charged(started, readings[..n]) + Max(0.0, readings[n].cpu - Compared(started, readings[..n], readings[n]))
  }

  lemma ChargedNext(started: real, before: seq<Reading>, r: Reading)
    ensures Charged(started, before + [r]) == Charged(started, before) + Max(0.0, r.cpu - Compared(started, before, r))
    ensures LastReadings(before + [r]) == LastReadings(before)[r.process := r.cpu]
  {
    assert (before + [r])[..|before|] == before;
  }

  /** The baseline that the sampler computes from its own state. */
  lemma TakeReading(started: real, all: seq<Reading>, r: Reading)
    ensures var last := LastReadings(all);
            var baseline := if r.process in last then last[r.process]
                            else if r.sample > 0 && r.process.createTime >= started then 0.0 else r.cpu;
            && Charged(started, all + [r]) == Charged(started, all) + Max(0.0, r.cpu - baseline)
            && LastReadings(all + [r]) == last[r.process := r.cpu]
  {
    ChargedNext(started, all, r);
  }

  // ---- the independent account ----

  function Processes(readings: seq<Reading>): set<Process> { set r | r in readings :: r.process }

  function FirstOf(readings: seq<Reading>, p: Process): (r: Reading)
    requires p in Processes(readings)
    ensures r in readings && r.process == p
  {
    if readings[0].process == p then readings[0] else FirstOf(readings[1..], p)
  }

  function LastOf(readings: seq<Reading>, p: Process): (r: Reading)
    requires p in Processes(readings)
    ensures r in readings && r.process == p
  {
    var n := |readings| - 1;
    if readings[n].process == p then readings[n] else LastOf(readings[..n], p)
  }

  /** Each observed process's last reading less its baseline. */
  function Used(started: real, readings: seq<Reading>): map<Process, real> {
    map p | p in Processes(readings) :: LastOf(readings, p).cpu - Baseline(started, FirstOf(readings, p))
  }

  function Before(m: map<Process, real>, p: Process): real { if p in m then m[p] else 0.0 }

  ghost function Sum(m: map<Process, real>): real {
    if m == map[] then 0.0 else var p :| p in m; m[p] + Sum(m - {p})
  }

  /** No counter runs backwards: no reading is below the one it is compared with. */
  ghost predicate NeverBackwards(started: real, readings: seq<Reading>) {
    forall i :: 0 <= i < |readings| ==> readings[i].cpu >= Compared(started, readings[..i], readings[i])
  }

  /** The sum does not depend on the order in which it is taken. */
  lemma {:induction false} SumTakes(m: map<Process, real>, p: Process)
    requires p in m
    ensures Sum(m) == m[p] + Sum(m - {p})
  {
    var q :| q in m && Sum(m) == m[q] + Sum(m - {q});
    if q != p {
      SumTakes(m - {q}, p);
      SumTakes(m - {p}, q);
      assert m - {q} - {p} == m - {p} - {q};
    }
  }

  lemma SumPut(m: map<Process, real>, p: Process, x: real)
    ensures Sum(m[p := x]) == Sum(m) + x - Before(m, p)
  {
    SumTakes(m[p := x], p);
    assert m[p := x] - {p} == m - {p};
    if p in m {
      SumTakes(m, p);
    } else {
      assert m - {p} == m;
    }
  }

  lemma {:induction false} FirstOfLonger(readings: seq<Reading>, r: Reading, p: Process)
    requires p in Processes(readings + [r])
    ensures FirstOf(readings + [r], p) == if p in Processes(readings) then FirstOf(readings, p) else r
  {
    if readings != [] {
      assert (readings + [r])[1..] == readings[1..] + [r];
      assert readings == [readings[0]] + readings[1..];
      if readings[0].process != p {
        FirstOfLonger(readings[1..], r, p);
      }
    }
  }

  lemma {:induction false} LastReadingsAre(readings: seq<Reading>)
    ensures LastReadings(readings) == map p | p in Processes(readings) :: LastOf(readings, p).cpu
  {
    if readings != [] {
      var n := |readings| - 1;
      LastReadingsAre(readings[..n]);
      assert readings == readings[..n] + [readings[n]];
    }
  }

  lemma LastOfLonger(readings: seq<Reading>, r: Reading, p: Process)
    requires p in Processes(readings + [r])
    ensures LastOf(readings + [r], p) == if p == r.process then r else LastOf(readings, p)
  {
    assert (readings + [r])[..|readings|] == readings;
  }

  lemma UsedBy(started: real, before: seq<Reading>, r: Reading, p: Process)
    requires p in Processes(before + [r])
    ensures p == r.process || p in Processes(before)
    ensures Used(started, before + [r])[p]
            == if p == r.process then Before(Used(started, before), p) + r.cpu - Compared(started, before, r)
               else Used(started, before)[p]
  {
    LastReadingsAre(before);
    FirstOfLonger(before, r, p);
    LastOfLonger(before, r, p);
    hide LastReadings, FirstOf, LastOf, Baseline;
  }

  lemma UsedNext(started: real, before: seq<Reading>, r: Reading)
    ensures var m, p := Used(started, before), r.process;
            Used(started, before + [r]) == m[p := Before(m, p) + r.cpu - Compared(started, before, r)]
  {
    UsedKeys(started, before, r);
    var m, m' := Used(started, before), Used(started, before + [r]);
    hide Used, Processes, Compared, Before, Baseline, FirstOf, LastOf;
    forall p | p in m'
      ensures m'[p] == if p == r.process then Before(m, p) + r.cpu - Compared(started, before, r) else m[p]
    {
      UsedBy(started, before, r, p);
    }
  }

  lemma UsedKeys(started: real, before: seq<Reading>, r: Reading)
    ensures Used(started, before).Keys == Processes(before)
    ensures Used(started, before + [r]).Keys == Processes(before + [r])
    ensures Processes(before + [r]) == Processes(before) + {r.process}
  {
  }

  /** The account is never below the use that the readings show, and equals it exactly when no counter ran backwards:
      skipped readings, late-born processes and reused pids change nothing. */
  lemma {:induction false} ChargedIsUsed(started: real, readings: seq<Reading>)
    ensures Charged(started, readings) >= Sum(Used(started, readings))
    ensures Charged(started, readings) == Sum(Used(started, readings)) <==> NeverBackwards(started, readings)
  {
    if readings == [] {
      assert Used(started, readings) == map[];
    } else {
      var n := |readings| - 1;
      ChargedIsUsed(started, readings[..n]);
      assert readings == readings[..n] + [readings[n]];
      ChargedIsUsedNext(started, readings[..n], readings[n]);
    }
  }

  lemma ChargedIsUsedNext(started: real, before: seq<Reading>, r: Reading)
    requires Charged(started, before) >= Sum(Used(started, before))
    requires Charged(started, before) == Sum(Used(started, before)) <==> NeverBackwards(started, before)
    ensures Charged(started, before + [r]) >= Sum(Used(started, before + [r]))
    ensures Charged(started, before + [r]) == Sum(Used(started, before + [r]))
            <==> NeverBackwards(started, before + [r])
  {
    hide Used, Sum, Compared, LastReadings, NeverBackwards, Charged, Baseline, Processes;
    ChargedNext(started, before, r);
    UsedNext(started, before, r);
    var m := Used(started, before);
    SumPut(m, r.process, Before(m, r.process) + r.cpu - Compared(started, before, r));
    NeverBackwardsNext(started, before, r);
    MaxIs(r.cpu - Compared(started, before, r));
  }

  lemma MaxIs(x: real)
    ensures Max(0.0, x) >= x && (Max(0.0, x) == x <==> x >= 0.0)
  {
  }

  lemma NeverBackwardsNext(started: real, before: seq<Reading>, r: Reading)
    ensures NeverBackwards(started, before + [r]) <==>
              (NeverBackwards(started, before) && r.cpu >= Compared(started, before, r))
  {
    var all := before + [r];
    hide Compared;
    assert forall i :: 0 <= i < |before| ==> all[..i] == before[..i] && all[i] == before[i];
    assert all[..|before|] == before && all[|before|] == r;
  }
}
