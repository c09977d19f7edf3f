/** The parsers of CPU ranges and specs, accumulating into a bit set. */
module CpuParse {
  import opened Seqs
  import opened Text
  import opened CpuSpec
  import opened CpuRanges
  import opened CpuWords

  /** The CPUs from `lo` on, below `i`, that are present if that is asked. */
  ghost function Filled(lo: nat, i: nat, present: Option<set<nat>>): set<nat> {
    set c: nat | lo <= c < i && (present.None? || c in present.value)
  }

  lemma {:induction false} FilledAll(lo: nat, hi: nat, i: nat, present: Option<set<nat>>)
    requires i == if hi < SetSize then hi + 1 else SetSize
    ensures Filled(lo, i, present) == Span(lo, hi, present)
  {
  }

  lemma {:induction false} FilledNext(lo: nat, i: nat, present: Option<set<nat>>)
    requires lo <= i
    ensures Filled(lo, i + 1, present) == Filled(lo, i, present) + (if present.None? || i in present.value then {i} else {})
  {
  }

  lemma {:induction false} FilledNone(lo: nat, i: nat, present: Option<set<nat>>)
    requires i <= lo
    ensures Filled(lo, i, present) == {}
  {
  }

  /** The bounds of one part, as the parser computes them. */
  method Bounds(part: string) returns (b: Option<(nat, nat)>)
    ensures b == PartBounds(part) && (b.Some? ==> b.value.0 <= b.value.1)
  {
    hide NumberOr;
    match Find(part, '-') {
      case Some(pos) =>
        var lo := NumberOr(part[..pos], NoNumber);
        var hi := NumberOr(part[pos + 1..], lo);
        if lo == NoNumber {
          return None;
        }
        if lo > hi { lo, hi := hi, lo; }
        b := Some((lo, hi));
      case None =>
        var n := NumberOr(part, NoNumber);
        if n == NoNumber {
          return None;
        }
        b := Some((n, n));
    }
  }

  /** Add the CPUs of one range. */
  method Fill(s: CpuSet, lo: nat, hi: nat, present: CpuSet?)
    requires s.Valid() && (present != null ==> present.Valid() && present.bits != s.bits)
    modifies s.bits
    ensures s.Valid() && s.bits == old(s.bits)
    ensures s.Cpus() == old(s.Cpus()) + Span(lo, hi, if present == null then None else Some(present.Cpus()))
  {
    hide Members;
    ghost var p := if present == null then None else Some(present.Cpus());
    ghost var was := s.Cpus();
    var end := if hi < SetSize then hi + 1 else SetSize;
    var i := lo;
    FilledNone(lo, lo, p);
    while i < end
      invariant s.Valid() && s.bits == old(s.bits) && lo <= i && (i == lo || i <= end)
      invariant present != null ==> present.Valid() && present.Cpus() == p.value
      invariant s.Cpus() == was + Filled(lo, i, p)
    {
      FilledNext(lo, i, p);
      var keep := true;
      if present != null {
        keep := present.IsSet(i);
      }
      if keep {
        s.Set(i);
      }
      i := i + 1;
    }
    if lo <= end {
      FilledAll(lo, hi, end, p);
    } else {
      FilledNone(lo, end, p);
      FilledAll(lo, hi, end, p);
    }
  }

  /** Parse ranges, keeping present CPUs only if a set is given. */
  method ParseRanges(spec: string, present: CpuSet?) returns (s: CpuSet)
    requires present != null ==> present.Valid()
    ensures s.Valid() && fresh(s) && fresh(s.bits)
    ensures s.Cpus() == RangesCpus(spec, if present == null then None else Some(present.Cpus()))
  {
    hide Members, PartBounds, Span, Trim;
    ghost var p := if present == null then None else Some(present.Cpus());
    s := new CpuSet();
    if spec == "" {
      OnePart("", p);
      TrimBlank("");
      return;
    }
    var parts := Split(spec, ',');
    TakeAll(parts);
    for k := 0 to |parts|
      invariant s.Valid() && fresh(s) && fresh(s.bits)
      invariant present != null ==> present.Valid() && present.Cpus() == p.value
      invariant s.Cpus() == PartsCpus(parts[..k], p)
    {
      SplitAround(parts, k);
      PartsSnoc(parts[..k], parts[k], p);
      var part := Trim(parts[k]);
      if part == "" {
        continue;
      }
      var b := Bounds(part);
      match b {
        case Some(range) => Fill(s, range.0, range.1, present);
        case None =>
      }
    }
  }

  /** The sets a topology holds. */
  datatype Cores = Cores(present: CpuSet, eCore: CpuSet, pCore: CpuSet, hpCore: CpuSet)

  /** The sets are those of the topology. */
  ghost predicate Holds(cores: Cores, topo: Topology)
    reads cores.present, cores.present.bits, cores.eCore, cores.eCore.bits
    reads cores.pCore, cores.pCore.bits, cores.hpCore, cores.hpCore.bits
  {
    && cores.present.Valid() && cores.eCore.Valid() && cores.pCore.Valid() && cores.hpCore.Valid()
    && cores.present.Cpus() == topo.present && cores.eCore.Cpus() == topo.eCore
    && cores.pCore.Cpus() == topo.pCore && cores.hpCore.Cpus() == topo.hpCore
  }

  /** Parse a spec: tier names and ranges, in any mix. */
  method ParseSpec(spec: string, cores: Cores, ghost topo: Topology) returns (s: CpuSet)
    requires Holds(cores, topo)
    ensures s.Valid() && fresh(s) && fresh(s.bits) && s.Cpus() == SpecCpus(spec, topo)
  {
    hide Members, Trim, RangesCpus;
    s := new CpuSet();
    if spec == "" {
      EmptySpec(topo);
      return;
    }
    var parts := Split(spec, ',');
    TakeAll(parts);
    for k := 0 to |parts|
      invariant s.Valid() && fresh(s) && fresh(s.bits) && Holds(cores, topo)
      invariant s.Cpus() == SegmentsCpus(parts[..k], topo)
    {
      SplitAround(parts, k);
      SegmentsSnoc(parts[..k], parts[k], topo);
      var part := Trim(parts[k]);
      if part == "" {
        continue;
      }
      if part == "e-core" {
        s.Or(cores.eCore);
      } else if part == "p-core" {
        s.Or(cores.pCore);
      } else if part == "hp-core" {
        s.Or(cores.hpCore);
      } else if part == "all-core" {
        s.Or(cores.present);
      } else {
        var seg := ParseRanges(part, cores.present);
        s.Or(seg);
      }
    }
  }
}
