/**
 * CPU specs by their text: exactly which texts are accepted, what each of them selects, and that
 * whatever is shown for a set of present CPUs can be loaded again.
 */
module SpecForms {
  import opened Seqs
  import opened Text
  import opened RuleSyntax
  import opened CpuSpec
  import opened CpuRanges
  import opened Loader

  /** A number written out in digits. */
  predicate Digits(s: string) {
    s != "" && forall i | 0 <= i < |s| :: '0' <= s[i] <= '9'
  }

  /** Two numbers with a dash between them. */
  predicate Dashed(s: string, a: string, b: string) {
    Digits(a) && Digits(b) && s == a + "-" + b
  }

  /** Nothing but white space and commas. */
  predicate Empty(s: string) {
    forall i | 0 <= i < |s| :: IsWs(s[i]) || s[i] == ','
  }

  // ---- what is accepted

  lemma {:induction false} DigitsPlain(s: string)
    requires Digits(s)
    ensures AllDigits(s) && ',' !in s && '-' !in s && '+' !in s && '=' !in s && Trimmed(s)
  {
  }

  lemma {:induction false} DashedPlain(s: string, a: string, b: string)
    requires Dashed(s, a, b)
    ensures ',' !in s && Trimmed(s) && s != "" && s !in TierNames && !AllDigits(s)
    ensures Find(s, '-') == Some(|a|) && s[..|a|] == a && s[|a| + 1..] == b
  {
    DigitsPlain(a);
    DigitsPlain(b);
    DashSplit(a, b);
    assert s[0] == a[0] && s[|a|] == '-' && s[|s| - 1] == b[|b| - 1];
    assert forall i | 0 <= i < |s| :: s[i] == if i < |a| then a[i] else if i == |a| then '-' else b[i - |a| - 1];
  }

  /** One part is accepted exactly when it is a tier, a number, or two numbers with a dash between them. */
  lemma {:induction false} PartExact(t: string)
    requires Trimmed(t) && t != "" && ',' !in t
    ensures SpecLike(t) <==> t in {"e-core", "p-core", "hp-core", "all-core"} || Digits(t) || exists a, b :: Dashed(t, a, b)
  {
    hide Trim, Split;
    TrimOfTrimmed(t);
    OneItem(t);
    if a, b :| Dashed(t, a, b) {
      DashedPlain(t, a, b);
      DigitsPlain(a);
      DigitsPlain(b);
    } else if PartLike(t) && t !in TierNames && !AllDigits(t) {
      var i := Find(t, '-').value;
      assert t == t[..i] + "-" + t[i + 1..];
      assert Dashed(t, t[..i], t[i + 1..]);
    }
  }

  lemma {:induction false} OneItem(t: string)
    requires Trim(t) != "" && ',' !in t
    ensures SpecLike(t) <==> PartLike(Trim(t))
  {
    hide Trim, PartLike;
    var parts := Split(t, ',');
    assert parts == [t];
    assert Trim(parts[0]) != "";
  }

  /** White space around a part does not matter. */
  lemma {:induction false} PartTrimmed(t: string)
    requires ',' !in t
    ensures SpecLike(t) <==> SpecLike(Trim(t))
  {
    hide Trim, PartLike;
    var lead, tail := TrimParts(t);
    TrimOfTrimmed(Trim(t));
    CommaKept(lead, Trim(t), tail);
    if Trim(t) != "" {
      OneItem(t);
      OneItem(Trim(t));
    } else {
      BlankItem(t);
      BlankItem(Trim(t));
    }
  }

  lemma {:induction false} CommaKept(lead: string, m: string, tail: string)
    requires ',' !in lead + m + tail
    ensures ',' !in m
  {
    assert forall i | 0 <= i < |m| :: m[i] == (lead + m + tail)[|lead| + i];
  }

  lemma {:induction false} BlankItem(t: string)
    requires Trim(t) == "" && ',' !in t
    ensures !SpecLike(t)
  {
    hide Trim, PartLike;
    assert Split(t, ',') == [t];
  }

  lemma {:induction false} SplitJoin(x: string, y: string)
    ensures Split(x + "," + y, ',') == Split(x, ',') + Split(y, ',')
    decreases |x|
  {
    match Find(x, ',') {
      case None => SplitFirst(x, ',', y);
      case Some(i) =>
        var a, b := x[..i], x[i + 1..];
        assert x + "," + y == a + [','] + (b + "," + y);
        SplitFirst(a, ',', b + "," + y);
        SplitJoin(b, y);
        Assoc3([a], Split(b, ','), Split(y, ','));
    }
  }

  /** A list is accepted exactly when each half is, or is empty, and not both are. */
  lemma {:induction false} ListExact(x: string, y: string)
    ensures SpecLike(x + "," + y)
       <==> (SpecLike(x) || Empty(x)) && (SpecLike(y) || Empty(y)) && (SpecLike(x) || SpecLike(y))
  {
    hide Trim, PartLike, Split;
    SplitJoin(x, y);
    EmptyParts(x);
    EmptyParts(y);
    var a, b := Split(x, ','), Split(y, ',');
    HalvesOk(a, b);
  }

  predicate PartsOk(parts: seq<string>) {
    forall i | 0 <= i < |parts| :: Trim(parts[i]) == "" || PartLike(Trim(parts[i]))
  }

  predicate PartsBlank(parts: seq<string>) {
    forall i | 0 <= i < |parts| :: Trim(parts[i]) == ""
  }

  lemma {:induction false} HalvesOk(a: seq<string>, b: seq<string>)
    ensures PartsOk(a + b) <==> PartsOk(a) && PartsOk(b)
    ensures PartsBlank(a + b) <==> PartsBlank(a) && PartsBlank(b)
  {
    hide Trim, PartLike;
    var c := a + b;
    assert forall i | 0 <= i < |a| :: c[i] == a[i];
    assert forall i | 0 <= i < |b| :: c[|a| + i] == b[i];
  }

  lemma {:induction false} EmptyParts(s: string)
    ensures Empty(s) <==> PartsBlank(Split(s, ','))
    decreases |s|
  {
    hide Trim, IsWs;
    var parts := Split(s, ',');
    match Find(s, ',') {
      case None =>
        assert parts == [s];
        BlankIff(s);
        OneBlank(s);
        NoComma(s);
      case Some(i) =>
        var a, b := s[..i], s[i + 1..];
        BlankIff(a);
        EmptyParts(b);
        assert parts == [a] + Split(b, ',');
        HalvesOk([a], Split(b, ','));
        assert s == a + [','] + b;
        assert Empty(s) <==> AllWs(a) && Empty(b) by { EmptyHalves(a, b, s); }
        OneBlank(a);
    }
  }

  lemma {:induction false} OneBlank(p: string)
    ensures PartsBlank([p]) <==> Trim(p) == ""
  {
    hide Trim;
    assert [p][0] == p;
  }

  lemma {:induction false} NoComma(s: string)
    requires ',' !in s
    ensures Empty(s) <==> AllWs(s)
  {
    hide IsWs;
  }

  lemma {:induction false} EmptyHalves(a: string, b: string, s: string)
    requires s == a + [','] + b && ',' !in a
    ensures Empty(s) <==> AllWs(a) && Empty(b)
  {
    hide IsWs;
    assert forall i | 0 <= i < |a| :: s[i] == a[i];
    assert forall i | 0 <= i < |b| :: s[|a| + 1 + i] == b[i];
    assert forall i | |a| < i < |s| :: s[i] == b[i - |a| - 1];
  }

  lemma {:induction false} BlankIff(a: string)
    ensures Trim(a) == "" <==> AllWs(a)
  {
    hide Trim, IsWs;
    if AllWs(a) {
      TrimBlank(a);
    } else {
      var i :| 0 <= i < |a| && !IsWs(a[i]);
      TrimKeeps(a, i);
    }
  }

  // ---- what is selected

  /** The CPUs from one number to another, whichever comes first, that fit the array and are present. */
  ghost function Between(a: nat, b: nat, present: set<nat>): set<nat> {
    set c | c in present && c < 1024 && (a <= c <= b || b <= c <= a)
  }

  lemma {:induction false} DigitsParse(s: string)
    requires Digits(s)
    ensures ParseUsize(s) == if DigitsValue(s) <= NoNumber then Some(DigitsValue(s)) else None
  {
    DigitsPlain(s);
  }

  /** A sign in front of a number does not count, and no other text is a number. */
  lemma {:induction false} NumberReads(s: string, d: string)
    requires s == d || s == "+" + d
    ensures d != "" && AllDigits(d) && DigitsValue(d) <= 0xFFFF_FFFF_FFFF_FFFF ==> ParseUsize(s) == Some(DigitsValue(d))
    ensures ParseUsize(s).Some? ==> s != "" && (forall i | 1 <= i < |s| :: IsDigit(s[i])) && (IsDigit(s[0]) || (s[0] == '+' && |s| > 1))
  {
    hide DigitsValue;
    assert ("+" + d)[1..] == d;
    assert d != "" && AllDigits(d) ==> IsDigit(d[0]);
  }

  /**
   * Two numbers select everything between them, in either order. A first number that does not fit
   * selects nothing, and a second one that does not fit counts as the first.
   */
  lemma {:induction false} RangeMeans(s: string, a: string, b: string, topo: Topology)
    requires Dashed(s, a, b) && AllDigits(a) && AllDigits(b)
    ensures var lo, hi := DigitsValue(a), DigitsValue(b);
            SpecCpus(s, topo) == if lo >= 0xFFFF_FFFF_FFFF_FFFF then {}
                                 else Between(lo, if hi > 0xFFFF_FFFF_FFFF_FFFF then lo else hi, topo.present)
  {
    hide Trim, ParseUsize, DigitsValue;
    DashedPlain(s, a, b);
    DigitsParse(a);
    DigitsParse(b);
    TrimOfTrimmed(s);
    OneSegment(s, topo);
    OnePart(s, Some(topo.present));
  }

  /** One number selects that CPU. */
  lemma {:induction false} NumberMeans(s: string, topo: Topology)
    requires Digits(s) && AllDigits(s)
    ensures SpecCpus(s, topo) == if DigitsValue(s) >= 0xFFFF_FFFF_FFFF_FFFF then {}
                                 else Between(DigitsValue(s), DigitsValue(s), topo.present)
  {
    hide Trim, ParseUsize, DigitsValue;
    DigitsPlain(s);
    DigitsParse(s);
    TrimOfTrimmed(s);
    NoTier(s);
    OneSegment(s, topo);
    OnePart(s, Some(topo.present));
  }

  lemma {:induction false} NoTier(s: string)
    requires Digits(s)
    ensures s !in TierNames
  {
    assert '0' <= s[0] <= '9';
  }

  /** A list selects what its halves select. */
  lemma {:induction false} ListMeans(x: string, y: string, topo: Topology)
    ensures SpecCpus(x + "," + y, topo) == SpecCpus(x, topo) + SpecCpus(y, topo)
  {
    hide Split, SegmentCpus;
    SplitJoin(x, y);
    SegmentsJoin(Split(x, ','), Split(y, ','), topo);
  }

  lemma {:induction false} SegmentsJoin(a: seq<string>, b: seq<string>, topo: Topology)
    ensures SegmentsCpus(a + b, topo) == SegmentsCpus(a, topo) + SegmentsCpus(b, topo)
    decreases |a|
  {
    hide SegmentCpus;
    if a == [] {
      NilLeft(b);
    } else {
      ConsDrop(a, b);
      SegmentsJoin(a[1..], b, topo);
    }
  }

  // ---- the printed text

  /** A number without leading zeros. */
  predicate Canonical(s: string) {
    Digits(s) && (s[0] == '0' ==> s == "0")
  }

  /** A part of a printed set: one number, or two with a dash, the lower first. */
  ghost predicate Reads(p: string, lo: nat, hi: nat) {
    || (Canonical(p) && AllDigits(p) && DigitsValue(p) == lo == hi)
    || exists a, b :: Canonical(a) && Canonical(b) && AllDigits(a) && AllDigits(b) && p == a + "-" + b
                      && DigitsValue(a) == lo < hi == DigitsValue(b)
  }

  lemma {:induction false} NumberCanonical(n: nat)
    ensures Canonical(NumberText(n)) && (n > 0 ==> NumberText(n)[0] != '0')
    decreases n
  {
    if n >= 10 {
      NumberCanonical(n / 10);
    }
  }

  lemma {:induction false} RunReads(r: Run)
    requires r.lo <= r.hi
    ensures Reads(RunText(r), r.lo, r.hi)
  {
    hide NumberText, DigitsValue;
    NumberCanonical(r.lo);
    NumberCanonical(r.hi);
    NumberValue(r.lo);
    NumberValue(r.hi);
  }

  lemma {:induction false} TextParts(runs: seq<Run>)
    requires runs != [] && forall i | 0 <= i < |runs| :: runs[i].lo <= runs[i].hi < SetSize
    ensures |Split(RunsText(runs), ',')| == |runs|
    ensures forall i | 0 <= i < |runs| :: Split(RunsText(runs), ',')[i] == RunText(runs[i])
    decreases |runs|
  {
    hide RunText, Split;
    var init, last := runs[..|runs| - 1], runs[|runs| - 1];
    RunShape(last);
    if |runs| == 1 {
      WholePart(RunText(last));
    } else {
      TextParts(init);
      SplitLast(RunsText(init), ',', RunText(last));
      assert forall i | 0 <= i < |init| :: init[i] == runs[i];
    }
  }

  lemma {:induction false} WholePart(p: string)
    requires ',' !in p
    ensures Split(p, ',') == [p]
  {
  }

  /**
   * The printed form, by its text: each part is a number or two with the lower first, the parts
   * increase with a gap in between, and what they say from left to right is the set.
   */
  lemma {:induction false} RangeTextIs(s: set<nat>) returns (bounds: seq<(nat, nat)>)
    requires InSet(s) && s != {}
    ensures var parts := Split(RangeString(s), ',');
            && |bounds| == |parts| && (forall i | 0 <= i < |parts| :: Reads(parts[i], bounds[i].0, bounds[i].1))
            && (forall i, j | 0 <= i < j < |bounds| :: bounds[i].1 + 1 < bounds[j].0)
    ensures forall c: nat :: c in s <==> exists i | 0 <= i < |bounds| :: bounds[i].0 <= c <= bounds[i].1
  {
    hide RunsText, RunsTo, RunText, Split, Reads;
    var runs := RunsTo(s, SetSize);
    RunsMaximal(s, SetSize);
    var x :| x in s;
    assert Covers(runs, x);
    TextParts(runs);
    bounds := seq(|runs|, i requires 0 <= i < |runs| => (runs[i].lo, runs[i].hi));
    forall i | 0 <= i < |runs| ensures Reads(RunText(runs[i]), bounds[i].0, bounds[i].1) {
      RunReads(runs[i]);
    }
    forall c: nat ensures c in s <==> exists i | 0 <= i < |bounds| :: bounds[i].0 <= c <= bounds[i].1 {
      BoundsCover(runs, bounds, c);
    }
  }

  lemma {:induction false} BoundsCover(runs: seq<Run>, bounds: seq<(nat, nat)>, c: nat)
    requires |bounds| == |runs| && forall i | 0 <= i < |runs| :: bounds[i] == (runs[i].lo, runs[i].hi)
    ensures Covers(runs, c) <==> exists i | 0 <= i < |bounds| :: bounds[i].0 <= c <= bounds[i].1
  {
    if Covers(runs, c) {
      var i :| 0 <= i < |runs| && runs[i].lo <= c <= runs[i].hi;
      assert bounds[i].0 <= c <= bounds[i].1;
    }
    if i :| 0 <= i < |bounds| && bounds[i].0 <= c <= bounds[i].1 {
      assert runs[i].lo <= c <= runs[i].hi;
    }
  }

  // ---- what is shown can be loaded

  lemma {:induction false} RunAccepted(r: Run)
    requires r.lo <= r.hi < SetSize
    ensures SpecLike(RunText(r))
  {
    hide NumberText, SpecLike;
    RunShape(r);
    NumberCanonical(r.lo);
    NumberCanonical(r.hi);
    if r.lo != r.hi {
      assert Dashed(RunText(r), NumberText(r.lo), NumberText(r.hi));
    }
    PartExact(RunText(r));
  }

  lemma {:induction false} RunsAccepted(runs: seq<Run>)
    requires runs != [] && forall i | 0 <= i < |runs| :: runs[i].lo <= runs[i].hi < SetSize
    ensures SpecLike(RunsText(runs))
    decreases |runs|
  {
    hide RunText, SpecLike;
    RunAccepted(runs[|runs| - 1]);
    if |runs| > 1 {
      RunsAccepted(runs[..|runs| - 1]);
      ListExact(RunsText(runs[..|runs| - 1]), RunText(runs[|runs| - 1]));
    }
  }

  /** Whatever is shown for a non-empty set of present CPUs is a spec that the loader keeps. */
  lemma {:induction false} ShownLoads(pkg: string, thread: string, cpus: set<nat>, topo: Topology)
    requires cpus != {} && cpus <= topo.present && InSet(cpus) && PkgOk(pkg) && ThreadOk(thread)
    ensures Accepts(topo, RawRule(pkg, thread, SpecName(cpus, topo)))
  {
    hide PkgOk, ThreadOk, SpecLike, SpecCpus, RunsText, RunsTo;
    SpecNameExact(cpus, topo);
    if SpecName(cpus, topo) in TierNames {
      TierTrimmed(SpecName(cpus, topo));
      PartExact(SpecName(cpus, topo));
    } else {
      var runs := RunsTo(cpus, SetSize);
      RunsMaximal(cpus, SetSize);
      var x :| x in cpus;
      assert Covers(runs, x);
      RunsAccepted(runs);
    }
  }

  // ---- names

  /** Printable ASCII. */
  predicate Printable7(s: string) {
    forall i | 0 <= i < |s| :: ' ' <= s[i] <= '~'
  }

  lemma {:induction false} AsciiLength(s: string)
    requires Printable7(s)
    ensures ByteLen(s) == |s| && NoControl(s)
    decreases |s|
  {
    if s != "" {
      AsciiLength(s[1..]);
    }
  }

  /** A rule with names in ASCII is kept exactly when they are short enough and its spec selects something. */
  lemma {:induction false} AsciiAccepted(topo: Topology, pkg: string, thread: string, spec: string)
    requires Printable7(pkg) && Printable7(thread)
    ensures Accepts(topo, RawRule(pkg, thread, spec))
       <==> 0 < |pkg| < 128 && |thread| < 32 && SpecLike(spec) && SpecCpus(spec, topo) != {}
  {
    hide SpecLike, SpecCpus;
    AsciiLength(pkg);
    AsciiLength(thread);
  }
}
