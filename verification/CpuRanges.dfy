/** A CPU set printed as its maximal runs, and read back. */
module CpuRanges {
  import opened Seqs
  import opened Text
  import opened RuleSyntax
  import opened CpuSpec

  // ---- decimal numbers

  function DigitChar(d: nat): char
    requires d < 10
  {
    ('0' as int + d) as char
  }

  function NumberText(n: nat): (s: string)
    ensures s != "" && AllDigits(s)
  {
    if n < 10 then [DigitChar(n)] else NumberText(n / 10) + [DigitChar(n % 10)]
  }

  /** Printing a number and reading its digits gives the number. */
  lemma {:induction false} NumberValue(n: nat)
    ensures DigitsValue(NumberText(n)) == n
    decreases n
  {
    if n < 10 {
      assert NumberText(n)[..0] == "";
    } else {
      var s, t := NumberText(n), NumberText(n / 10);
      NumberValue(n / 10);
      assert s[..|s| - 1] == t;
    }
  }

  lemma {:induction false} NumberParses(n: nat)
    requires n < NoNumber
    ensures ParseUsize(NumberText(n)) == Some(n)
    ensures Trimmed(NumberText(n)) && '-' !in NumberText(n) && ',' !in NumberText(n)
  {
    NumberValue(n);
    var s := NumberText(n);
    assert IsDigit(s[0]) && IsDigit(s[|s| - 1]);
  }

  // ---- the runs of a set

  /** Consecutive CPUs, from `lo` to `hi`. */
  datatype Run = Run(lo: nat, hi: nat)

  /** One more member: it extends the last run when it follows it. */
  function Extend(runs: seq<Run>, cpu: nat): seq<Run> {
    if runs != [] && runs[|runs| - 1].hi + 1 == cpu
    then runs[..|runs| - 1] + [Run(runs[|runs| - 1].lo, cpu)] else runs + [Run(cpu, cpu)]
  }

  /** The runs of the members below `n`. */
  function RunsTo(s: set<nat>, n: nat): seq<Run> {
    if n == 0 then [] else if n - 1 in s then Extend(RunsTo(s, n - 1), n - 1) else RunsTo(s, n - 1)
  }

  function RunText(r: Run): string {
    if r.lo == r.hi then NumberText(r.lo) else NumberText(r.lo) + "-" + NumberText(r.hi)
  }

  function RunsText(runs: seq<Run>): string {
    if runs == [] then ""
    else if |runs| == 1 then RunText(runs[0])
    else RunsText(runs[..|runs| - 1]) + "," + RunText(runs[|runs| - 1])
  }

  /** The printed form of a CPU set. */
  function RangeString(s: set<nat>): string { RunsText(RunsTo(s, SetSize)) }

  /** Increasing runs with a gap after each: disjoint and as long as possible. */
  predicate Maximal(runs: seq<Run>, n: nat) {
    && (forall i | 0 <= i < |runs| :: runs[i].lo <= runs[i].hi < n)
    && (forall i, j | 0 <= i < j < |runs| :: runs[i].hi + 1 < runs[j].lo)
  }

  predicate Covers(runs: seq<Run>, cpu: nat) {
    exists i | 0 <= i < |runs| :: runs[i].lo <= cpu <= runs[i].hi
  }

  lemma {:induction false} ExtendMaximal(runs: seq<Run>, n: nat)
    requires Maximal(runs, n)
    ensures Maximal(Extend(runs, n), n + 1)
    ensures forall c: nat :: Covers(Extend(runs, n), c) <==> Covers(runs, c) || c == n
  {
    var k := |runs|;
    if k > 0 && runs[k - 1].hi + 1 == n {
      var out := runs[..k - 1] + [Run(runs[k - 1].lo, n)];
      assert forall i | 0 <= i < k - 1 :: out[i] == runs[i];
      forall c: nat ensures Covers(out, c) <==> Covers(runs, c) || c == n {
        ExtendCovers(runs, out, c, n);
      }
    } else {
      var out := runs + [Run(n, n)];
      assert forall i | 0 <= i < k :: out[i] == runs[i];
      assert out[k] == Run(n, n);
      forall c: nat ensures Covers(out, c) <==> Covers(runs, c) || c == n {
        if Covers(runs, c) {
          var i :| 0 <= i < k && runs[i].lo <= c <= runs[i].hi;
          assert out[i].lo <= c <= out[i].hi;
        }
        if c == n {
          assert out[k].lo <= c <= out[k].hi;
        }
      }
    }
  }

  lemma {:induction false} ExtendCovers(runs: seq<Run>, out: seq<Run>, c: nat, n: nat)
    requires runs != [] && |out| == |runs| && runs[|runs| - 1].hi + 1 == n && runs[|runs| - 1].lo <= runs[|runs| - 1].hi
    requires out[|runs| - 1] == Run(runs[|runs| - 1].lo, n) && forall i | 0 <= i < |runs| - 1 :: out[i] == runs[i]
    ensures Covers(out, c) <==> Covers(runs, c) || c == n
  {
    var k := |runs|;
    if Covers(runs, c) {
      var i :| 0 <= i < k && runs[i].lo <= c <= runs[i].hi;
      assert out[i].lo <= c <= out[i].hi;
    }
    if c == n {
      assert out[k - 1].lo <= c <= out[k - 1].hi;
    }
    if Covers(out, c) && c != n {
      var i :| 0 <= i < k && out[i].lo <= c <= out[i].hi;
      assert runs[i].lo <= c <= runs[i].hi;
    }
  }

  /** The printed runs are increasing, disjoint, maximal, and hold exactly the members. */
  lemma {:induction false} RunsMaximal(s: set<nat>, n: nat)
    ensures Maximal(RunsTo(s, n), n)
    ensures forall c: nat :: Covers(RunsTo(s, n), c) <==> c in s && c < n
  {
    hide Maximal, Covers, Extend;
    if n == 0 {
      NoRuns();
    } else {
      RunsMaximal(s, n - 1);
      if n - 1 in s {
        ExtendMaximal(RunsTo(s, n - 1), n - 1);
      } else {
        StillMaximal(RunsTo(s, n - 1), n - 1);
      }
    }
  }

  lemma {:induction false} NoRuns()
    ensures Maximal([], 0) && forall c: nat :: !Covers([], c)
  {
  }

  lemma {:induction false} StillMaximal(runs: seq<Run>, n: nat)
    requires Maximal(runs, n)
    ensures Maximal(runs, n + 1)
  {
  }

  // ---- reading the printed runs

  lemma {:induction false} RunParses(r: Run, present: Option<set<nat>>)
    requires r.lo <= r.hi < SetSize
    ensures ',' !in RunText(r) && Trimmed(RunText(r)) && RunText(r) != ""
    ensures PartCpus(RunText(r), present) == Span(r.lo, r.hi, present)
  {
    hide RunText, PartBounds, Trim, Span;
    RunShape(r);
    RunBounds(r);
    TrimOfTrimmed(RunText(r));
  }

  lemma {:induction false} RunShape(r: Run)
    requires r.lo <= r.hi < SetSize
    ensures ',' !in RunText(r) && Trimmed(RunText(r)) && RunText(r) != ""
  {
    hide ParseUsize, IsWs;
    NumberParses(r.lo);
    NumberParses(r.hi);
  }

  lemma {:induction false} RunBounds(r: Run)
    requires r.lo <= r.hi < SetSize
    ensures PartBounds(RunText(r)) == Some((r.lo, r.hi))
  {
    hide ParseUsize, NumberText;
    NumberParses(r.lo);
    NumberParses(r.hi);
    if r.lo != r.hi {
      DashSplit(NumberText(r.lo), NumberText(r.hi));
    }
  }

  lemma {:induction false} DashSplit(a: string, b: string)
    requires '-' !in a
    ensures var t := a + "-" + b; Find(t, '-') == Some(|a|) && t[..|a|] == a && t[|a| + 1..] == b
  {
    FindUnique(a, '-', b);
  }

  lemma {:induction false} SplitLast(a: string, c: char, b: string)
    requires c !in b
    ensures Split(a + [c] + b, c) == Split(a, c) + [b]
    decreases |a|
  {
    match Find(a, c) {
      case None =>
        SplitFirst(a, c, b);
      case Some(i) =>
        var x, y := a[..i], a[i + 1..];
        assert a == x + [c] + y;
        SplitFirst(x, c, y);
        SplitFirst(x, c, y + [c] + b);
        SplitLast(y, c, b);
        JoinLast(x, c, y, b);
        Assoc3([x], Split(y, c), [b]);
    }
  }

  lemma {:induction false} JoinLast(x: string, c: char, y: string, b: string)
    ensures (x + [c] + y) + [c] + b == x + [c] + (y + [c] + b)
  {
  }

  lemma {:induction false} PartsSnoc(parts: seq<string>, p: string, present: Option<set<nat>>)
    ensures PartsCpus(parts + [p], present) == PartsCpus(parts, present) + PartCpus(p, present)
    decreases |parts|
  {
    hide PartCpus;
    if parts == [] {
      NilLeft([p]);
      assert [p][1..] == [];
    } else {
      ConsDrop(parts, [p]);
      PartsSnoc(parts[1..], p, present);
    }
  }

  lemma {:induction false} OnePart(p: string, present: Option<set<nat>>)
    requires ',' !in p
    ensures RangesCpus(p, present) == PartCpus(p, present)
  {
    hide PartCpus;
    var parts := Split(p, ',');
    assert parts == [p] && parts[1..] == [];
    assert PartsCpus(parts[1..], present) == {};
    assert PartsCpus(parts, present) == PartCpus(parts[0], present) + PartsCpus(parts[1..], present);
  }

  ghost function RunsCpus(runs: seq<Run>, present: Option<set<nat>>): set<nat> {
    if runs == [] then {} else RunsCpus(runs[..|runs| - 1], present) + Span(runs[|runs| - 1].lo, runs[|runs| - 1].hi, present)
  }

  lemma {:induction false} RunsParse(runs: seq<Run>, present: Option<set<nat>>)
    requires forall i | 0 <= i < |runs| :: runs[i].lo <= runs[i].hi < SetSize
    ensures RangesCpus(RunsText(runs), present) == RunsCpus(runs, present)
    decreases |runs|
  {
    hide PartCpus, Span, RunText;
    if runs == [] {
      NoParts(present);
    } else {
      var init, last := runs[..|runs| - 1], runs[|runs| - 1];
      RunParses(last, present);
      if |runs| == 1 {
        assert init == [];
        OnePart(RunText(last), present);
      } else {
        RunsParse(init, present);
        SplitLast(RunsText(init), ',', RunText(last));
        PartsSnoc(Split(RunsText(init), ','), RunText(last), present);
      }
    }
  }

  lemma {:induction false} NoParts(present: Option<set<nat>>)
    ensures RangesCpus("", present) == {}
  {
    TrimBlank("");
    OnePart("", present);
  }

  lemma {:induction false} RunsCover(runs: seq<Run>, present: Option<set<nat>>, c: nat)
    ensures c in RunsCpus(runs, present) <==> Covers(runs, c) && c < SetSize && (present.None? || c in present.value)
    decreases |runs|
  {
    if runs != [] {
      var k := |runs| - 1;
      RunsCover(runs[..k], present, c);
      if Covers(runs, c) {
        var i :| 0 <= i < |runs| && runs[i].lo <= c <= runs[i].hi;
        assert i < k ==> runs[..k][i].lo <= c <= runs[..k][i].hi;
      }
      if Covers(runs[..k], c) {
        var i :| 0 <= i < k && runs[..k][i].lo <= c <= runs[..k][i].hi;
        assert runs[i].lo <= c <= runs[i].hi;
      }
    }
  }

  /** A set of CPUs the bit array can hold. */
  predicate InSet(s: set<nat>) {
    forall c | c in s :: c < SetSize
  }

  /** Printing and parsing gives the set back, restricted to the present CPUs if asked. */
  lemma {:induction false} RangeRoundTrip(s: set<nat>, present: Option<set<nat>>)
    requires InSet(s)
    ensures RangesCpus(RangeString(s), present) == if present.None? then s else s * present.value
  {
    hide RunsText, Split, PartsCpus, RunsTo, Covers, RunsCpus;
    var runs := RunsTo(s, SetSize);
    RunsMaximal(s, SetSize);
    RunsParse(runs, present);
    forall c: nat ensures c in RunsCpus(runs, present) <==> c in s && (present.None? || c in present.value) {
      RunsCover(runs, present, c);
    }
  }

  /** Directory names are equal exactly when the sets are. */
  lemma {:induction false} RangeInjective(s: set<nat>, t: set<nat>)
    requires InSet(s) && InSet(t)
    ensures RangeString(s) == RangeString(t) <==> s == t
  {
    hide RangeString, RangesCpus;
    RangeRoundTrip(s, None);
    RangeRoundTrip(t, None);
  }

  // ---- specs of rules

  /** Every core tier lies within the present CPUs. */
  predicate TiersPresent(topo: Topology) {
    topo.eCore <= topo.present && topo.pCore <= topo.present && topo.hpCore <= topo.present && InSet(topo.present)
  }

  lemma {:induction false} PartWithin(part: string, present: set<nat>)
    ensures PartCpus(part, Some(present)) <= present
  {
    hide Trim, PartBounds;
  }

  lemma {:induction false} PartsWithin(parts: seq<string>, present: set<nat>)
    ensures PartsCpus(parts, Some(present)) <= present
    decreases |parts|
  {
    hide PartCpus;
    if parts != [] {
      PartWithin(parts[0], present);
      PartsWithin(parts[1..], present);
    }
  }

  lemma {:induction false} SegmentWithin(part: string, topo: Topology)
    requires TiersPresent(topo)
    ensures SegmentCpus(part, topo) <= topo.present
  {
    hide Trim;
    PartsWithin(Split(Trim(part), ','), topo.present);
  }

  lemma {:induction false} SegmentsWithin(parts: seq<string>, topo: Topology)
    requires TiersPresent(topo)
    ensures SegmentsCpus(parts, topo) <= topo.present
    decreases |parts|
  {
    hide SegmentCpus, TiersPresent;
    if parts != [] {
      SegmentWithin(parts[0], topo);
      SegmentsWithin(parts[1..], topo);
    }
  }

  /** No spec selects a CPU that is not present. */
  lemma {:induction false} SpecWithin(spec: string, topo: Topology)
    requires TiersPresent(topo)
    ensures SpecCpus(spec, topo) <= topo.present
  {
    SegmentsWithin(Split(spec, ','), topo);
  }

  // ---- specs shown to the user

  /** A set shown as a tier name where it is one, otherwise as its ranges. */
  function SpecName(cpus: set<nat>, topo: Topology): string {
    if cpus != {} && cpus == topo.eCore then "e-core"
    else if cpus != {} && cpus == topo.pCore then "p-core"
    else if cpus != {} && cpus == topo.hpCore then "hp-core"
    else if cpus != {} && cpus == topo.present then "all-core"
    else RangeString(cpus)
  }

  lemma {:induction false} OneSegment(t: string, topo: Topology)
    requires ',' !in t
    ensures SpecCpus(t, topo) == SegmentCpus(t, topo)
  {
    hide SegmentCpus;
    var parts := Split(t, ',');
    assert parts == [t] && parts[1..] == [];
    assert SegmentsCpus(parts[1..], topo) == {};
    assert SegmentsCpus(parts, topo) == SegmentCpus(parts[0], topo) + SegmentsCpus(parts[1..], topo);
  }

  lemma {:induction false} TierSpec(t: string, topo: Topology)
    requires t in TierNames
    ensures SpecCpus(t, topo) == if t == "e-core" then topo.eCore else if t == "p-core" then topo.pCore
                                 else if t == "hp-core" then topo.hpCore else topo.present
  {
    hide Trim, SpecCpus, RangesCpus;
    TierTrimmed(t);
    OneSegment(t, topo);
    TrimOfTrimmed(t);
  }

  lemma {:induction false} TierTrimmed(t: string)
    requires t in TierNames
    ensures Trimmed(t) && ',' !in t && t != ""
  {
  }

  /** Printed ranges, read as a spec, are the present CPUs of the set. */
  lemma {:induction false} RangeSegment(p: string, topo: Topology)
    requires ',' !in p && Trimmed(p) && p != "" && IsDigit(p[0])
    ensures SegmentCpus(p, topo) == PartCpus(p, Some(topo.present))
  {
    hide PartCpus, Trim;
    TrimOfTrimmed(p);
    assert p !in TierNames;
    OnePart(p, Some(topo.present));
  }

  lemma {:induction false} SegmentsSnoc(parts: seq<string>, p: string, topo: Topology)
    ensures SegmentsCpus(parts + [p], topo) == SegmentsCpus(parts, topo) + SegmentCpus(p, topo)
    decreases |parts|
  {
    hide SegmentCpus;
    if parts == [] {
      NilLeft([p]);
      assert [p][1..] == [];
    } else {
      ConsDrop(parts, [p]);
      SegmentsSnoc(parts[1..], p, topo);
    }
  }

  lemma {:induction false} RunStarts(r: Run)
    ensures RunText(r) != "" && IsDigit(RunText(r)[0])
  {
    assert RunText(r)[0] == NumberText(r.lo)[0];
  }

  lemma {:induction false} RunsSpec(runs: seq<Run>, topo: Topology)
    requires forall i | 0 <= i < |runs| :: runs[i].lo <= runs[i].hi < SetSize
    ensures SpecCpus(RunsText(runs), topo) == RunsCpus(runs, Some(topo.present))
    decreases |runs|
  {
    hide PartCpus, Span, RunText, SegmentCpus;
    if runs == [] {
      EmptySpec(topo);
    } else {
      var init, last := runs[..|runs| - 1], runs[|runs| - 1];
      RunParses(last, Some(topo.present));
      RunStarts(last);
      RangeSegment(RunText(last), topo);
      if |runs| == 1 {
        OneSegment(RunText(last), topo);
        assert init == [];
      } else {
        RunsSpec(init, topo);
        SplitLast(RunsText(init), ',', RunText(last));
        SegmentsSnoc(Split(RunsText(init), ','), RunText(last), topo);
      }
    }
  }

  lemma {:induction false} EmptySpec(topo: Topology)
    ensures SpecCpus("", topo) == {}
  {
    TrimBlank("");
    OneSegment("", topo);
  }

  lemma {:induction false} RangeSpec(s: set<nat>, topo: Topology)
    requires InSet(s)
    ensures SpecCpus(RangeString(s), topo) == s * topo.present
  {
    hide RunsText, RunsTo, Covers, RunsCpus, SpecCpus;
    var runs := RunsTo(s, SetSize);
    RunsMaximal(s, SetSize);
    RunsSpec(runs, topo);
    forall c: nat ensures c in RunsCpus(runs, Some(topo.present)) <==> c in s * topo.present {
      RunsCover(runs, Some(topo.present), c);
    }
  }

  /** The shown form writes back to the same set exactly for tiers and subsets of the present CPUs. */
  lemma {:induction false} SpecNameExact(cpus: set<nat>, topo: Topology)
    requires InSet(cpus)
    ensures SpecCpus(SpecName(cpus, topo), topo) == cpus
       <==> cpus <= topo.present || cpus in {topo.eCore, topo.pCore, topo.hpCore}
  {
    hide SpecCpus, RangeString;
    TierSpec("e-core", topo);
    TierSpec("p-core", topo);
    TierSpec("hp-core", topo);
    TierSpec("all-core", topo);
    RangeSpec(cpus, topo);
  }

  /** Whatever a spec selects can be shown and written back without loss. */
  lemma {:induction false} SpecWritesBack(spec: string, topo: Topology)
    requires TiersPresent(topo)
    ensures SpecCpus(SpecName(SpecCpus(spec, topo), topo), topo) == SpecCpus(spec, topo) <= topo.present
  {
    hide SpecName, SpecCpus;
    SpecWithin(spec, topo);
    SpecNameExact(SpecCpus(spec, topo), topo);
  }
}
