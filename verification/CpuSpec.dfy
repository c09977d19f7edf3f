/** CPU sets as values, and what a spec selects on a given topology. */
module CpuSpec {
  import opened Text
  import opened RuleSyntax

  const SetSize: nat := 1024

  /** `usize::MAX`, which the parser also uses to mean "no number". */
  const NoNumber: nat := 0xFFFF_FFFF_FFFF_FFFF

  /**
   * Present CPUs, the three core tiers, whether cpusets are usable, and for which
   * directory names creation succeeds (the system call itself is not modelled).
   */
  datatype Topology = Topology(
    present: set<nat>,
    eCore: set<nat>,
    pCore: set<nat>,
    hpCore: set<nat>,
    cpusetEnabled: bool,
    created: string -> bool)

  function DigitsValue(s: string): nat
    requires AllDigits(s)
  {
    if s == "" then 0
    else 10 * DigitsValue(s[..|s| - 1]) + (s[|s| - 1] as int - '0' as int)
  }

  /** `str::parse::<usize>` on a 64-bit target: an optional `+`, then digits that fit. */
  function ParseUsize(s: string): Option<nat> {
    var d := if s != "" && s[0] == '+' then s[1..] else s;
    if d == "" || !AllDigits(d) || DigitsValue(d) > NoNumber then None else Some(DigitsValue(d))
  }

  function NumberOr(s: string, default: nat): nat {
    match ParseUsize(s) case Some(n) => n case None => default
  }

  /** The bounds of one part, in order; None when it starts with no number. */
  function PartBounds(part: string): Option<(nat, nat)> {
    match Find(part, '-')
    case Some(pos) =>
      var a := NumberOr(part[..pos], NoNumber);
      var b := NumberOr(part[pos + 1..], a);
      if a == NoNumber then None else if a > b then Some((b, a)) else Some((a, b))
    case None =>
      var a := NumberOr(part, NoNumber);
      if a == NoNumber then None else Some((a, a))
  }

  function Span(lo: nat, hi: nat, present: Option<set<nat>>): set<nat> {
    set i: nat | lo <= i <= hi && i < SetSize && (present.None? || i in present.value)
  }

  function PartCpus(part: string, present: Option<set<nat>>): set<nat> {
    var t := Trim(part);
    if t == "" then {}
    else
      match PartBounds(t)
      case None => {}
      case Some(b) => Span(b.0, b.1, present)
  }

  function PartsCpus(parts: seq<string>, present: Option<set<nat>>): set<nat> {
    if parts == [] then {} else PartCpus(parts[0], present) + PartsCpus(parts[1..], present)
  }

  function RangesCpus(spec: string, present: Option<set<nat>>): set<nat> {
    PartsCpus(Split(spec, ','), present)
  }

  /** One part of a spec: a tier name or numbers. */
  function SegmentCpus(part: string, topo: Topology): set<nat> {
    var t := Trim(part);
    if t == "" then {}
    else if t == "e-core" then topo.eCore
    else if t == "p-core" then topo.pCore
    else if t == "hp-core" then topo.hpCore
    else if t == "all-core" then topo.present
    else RangesCpus(t, Some(topo.present))
  }

  function SegmentsCpus(parts: seq<string>, topo: Topology): set<nat> {
    if parts == [] then {} else SegmentCpus(parts[0], topo) + SegmentsCpus(parts[1..], topo)
  }

  function SpecCpus(spec: string, topo: Topology): set<nat> {
    SegmentsCpus(Split(spec, ','), topo)
  }
}
