/**
 * The rule-file loader: a machine that reads lines one by one, inside and outside of
 * blocks. `Load` is its meaning; `LoadLines` is the loop of the source.
 */
module Loader {
  import opened Seqs
  import opened RuleSyntax
  import opened CpuSpec

  const MaxPkgLen: nat := 128
  const MaxThreadLen: nat := 32

  datatype RawRule = RawRule(pkg: string, thread: string, spec: string)

  // ---- one rule

  /** Length in UTF-8. */
  function ByteLen(s: string): nat {
    if s == "" then 0
    else
      var c := s[0] as int;
      (if c < 0x80 then 1 else if c < 0x800 then 2 else if c < 0x1_0000 then 3 else 4) + ByteLen(s[1..])
  }

  predicate NoControl(s: string) {
    forall i | 0 <= i < |s| :: s[i] as int >= 0x20 && s[i] as int != 0x7f
  }

  predicate PkgOk(pkg: string) {
    pkg != "" && ByteLen(pkg) < MaxPkgLen && NoControl(pkg)
  }

  predicate ThreadOk(thread: string) {
    ByteLen(thread) < MaxThreadLen && NoControl(thread)
  }

  predicate SpecOk(topo: Topology, spec: string) {
    SpecLike(spec) && SpecCpus(spec, topo) != {}
  }

  /** Whether the loader keeps a rule. */
  predicate Accepts(topo: Topology, r: RawRule) {
    PkgOk(r.pkg) && ThreadOk(r.thread) && SpecOk(topo, r.spec)
  }

  // ---- one line

  /** Inside a block and whose, or the package name that waits for its `{`. */
  datatype Ctl = Ctl(inBlock: bool, cur: string, pending: string)

  const Start := Ctl(false, "", "")

  function Next(c: Ctl, v: View): Ctl {
    if v.Skip? then c
    else if c.inBlock then
      var leave := c.(inBlock := false, cur := "");
      match v.inner
      case Close => leave
      case Entry(_, _, closed) => if closed then leave else c
      case Noise(closes) => if closes then leave else c
    else
      match v.outer
      case Single(pkg, _, _, open) => if open then Ctl(true, pkg, "") else c.(pending := "")
      case Rule(pkg, _, open) => if open then Ctl(true, pkg, "") else c.(pending := "")
      case BareOpen(pkg) =>
        var owner := if pkg != "" then pkg else c.pending;
        if owner == "" then c else Ctl(true, owner, "")
      case Pending(pkg) => c.(pending := pkg)
      case Junk => c.(pending := "")
  }

  /** The rule a line tries to add. */
  function Attempt(c: Ctl, v: View): seq<RawRule> {
    if v.Skip? then []
    else if c.inBlock then
      if v.inner.Entry? then [RawRule(c.cur, v.inner.name, v.inner.spec)] else []
    else if v.outer.Single? then [RawRule(v.outer.pkg, v.outer.thread, v.outer.cpus)]
    else if v.outer.Rule? then [RawRule(v.outer.pkg, "", v.outer.cpus)]
    else []
  }

  /** A line fails on its own account, whatever its rule says. */
  predicate Slips(c: Ctl, v: View) {
    && v.Text?
    && if c.inBlock then v.inner.Noise?
       else
         match v.outer
         case Single(_, _, _, _) => c.pending != ""
         case Rule(_, _, _) => c.pending != ""
         case BareOpen(pkg) => (pkg != "") == (c.pending != "")
         case Pending(_) => c.pending != ""
         case Junk => true
  }

  // ---- many lines

  function Walk(c: Ctl, lines: seq<string>): Ctl
    decreases |lines|
  {
    if lines == [] then c else Walk(Next(c, ViewOf(lines[0])), lines[1..])
  }

  /** All rules the lines try to add, in order. */
  function Attempts(c: Ctl, lines: seq<string>): seq<RawRule>
    decreases |lines|
  {
    if lines == [] then []
    else Attempt(c, ViewOf(lines[0])) + Attempts(Next(c, ViewOf(lines[0])), lines[1..])
  }

  function SlipCount(c: Ctl, lines: seq<string>): nat
    decreases |lines|
  {
    if lines == [] then 0
    else (if Slips(c, ViewOf(lines[0])) then 1 else 0) + SlipCount(Next(c, ViewOf(lines[0])), lines[1..])
  }

  function Kept(topo: Topology, rs: seq<RawRule>): seq<RawRule> {
    if rs == [] then [] else (if Accepts(topo, rs[0]) then [rs[0]] else []) + Kept(topo, rs[1..])
  }

  datatype Loaded = Loaded(rules: seq<RawRule>, fails: nat)

  /** What loading a file yields: the kept rules and the number of failures. */
  function Load(topo: Topology, lines: seq<string>): Loaded {
    var tried := Attempts(Start, lines);
    var kept := Kept(topo, tried);
    var end := Walk(Start, lines);
    KeptShorter(topo, tried);
    Loaded(kept, SlipCount(Start, lines) + (|tried| - |kept|) + (if end.inBlock || end.pending != "" then 1 else 0))
  }

  lemma KeptShorter(topo: Topology, rs: seq<RawRule>)
    ensures |Kept(topo, rs)| <= |rs|
  {
  }

  // ---- segments

  lemma {:induction false} WalkConcat(c: Ctl, a: seq<string>, b: seq<string>)
    ensures Walk(c, a + b) == Walk(Walk(c, a), b)
    decreases |a|
  {
    hide ViewOf;
    if a == [] {
      NilLeft(b);
    } else {
      ConsDrop(a, b);
      WalkConcat(Next(c, ViewOf(a[0])), a[1..], b);
    }
  }

  lemma {:induction false} AttemptsConcat(c: Ctl, a: seq<string>, b: seq<string>)
    ensures Attempts(c, a + b) == Attempts(c, a) + Attempts(Walk(c, a), b)
    decreases |a|
  {
    hide ViewOf, Next, Attempt;
    if a == [] {
      NilLeft(b);
    } else {
      ConsDrop(a, b);
      AttemptsConcat(Next(c, ViewOf(a[0])), a[1..], b);
    }
  }

  lemma {:induction false} SlipsConcat(c: Ctl, a: seq<string>, b: seq<string>)
    ensures SlipCount(c, a + b) == SlipCount(c, a) + SlipCount(Walk(c, a), b)
    decreases |a|
  {
    hide ViewOf, Next, Slips;
    if a == [] {
      NilLeft(b);
    } else {
      ConsDrop(a, b);
      SlipsConcat(Next(c, ViewOf(a[0])), a[1..], b);
    }
  }

  lemma {:induction false} KeptConcat(topo: Topology, a: seq<RawRule>, b: seq<RawRule>)
    ensures Kept(topo, a + b) == Kept(topo, a) + Kept(topo, b)
    decreases |a|
  {
    hide Accepts;
    if a == [] {
      NilLeft(b);
    } else {
      ConsDrop(a, b);
      KeptConcat(topo, a[1..], b);
    }
  }

  // ---- the loop

  /** One line of the loop: the new state, the rule to add (none or one), and the line's own failures. */
  method LoadLine(v: View, inBlock: bool, curPkg: string, pendingPkg: string)
    returns (inBlock': bool, curPkg': string, pendingPkg': string, adds: seq<RawRule>, fails: nat)
    requires if inBlock then pendingPkg == "" else curPkg == ""
    ensures Ctl(inBlock', curPkg', pendingPkg') == Next(Ctl(inBlock, curPkg, pendingPkg), v)
    ensures if inBlock' then pendingPkg' == "" else curPkg' == ""
    ensures adds == Attempt(Ctl(inBlock, curPkg, pendingPkg), v) && |adds| <= 1
    ensures fails == if Slips(Ctl(inBlock, curPkg, pendingPkg), v) then 1 else 0
  {
    inBlock', curPkg', pendingPkg', adds, fails := inBlock, curPkg, pendingPkg, [], 0;
    if v.Skip? {
      return;
    }
    if inBlock {
      match v.inner {
        case Close => inBlock', curPkg' := false, "";
        case Entry(thread, cpus, closed) =>
          adds := [RawRule(curPkg, thread, cpus)];
          if closed { inBlock', curPkg' := false, ""; }
        case Noise(closes) =>
          fails := 1;
          if closes { inBlock', curPkg' := false, ""; }
      }
      return;
    }
    match v.outer {
      case Single(pkg, thread, cpus, open) =>
        if pendingPkg != "" { fails := 1; }
        pendingPkg' := "";
        adds := [RawRule(pkg, thread, cpus)];
        if open { curPkg', inBlock' := pkg, true; }
      case Rule(pkg, cpus, open) =>
        if pendingPkg != "" { fails := 1; }
        adds := [RawRule(pkg, "", cpus)];
        if open { curPkg', inBlock' := pkg, true; }
        pendingPkg' := "";
      case BareOpen(pkg) =>
        if pkg != "" && pendingPkg != "" { fails := 1; }
        var owner := if pkg != "" then pkg else pendingPkg;
        if owner == "" {
          fails := 1;
        } else {
          curPkg', pendingPkg', inBlock' := owner, "", true;
        }
      case Pending(pkg) =>
        if pendingPkg != "" { fails := 1; }
        pendingPkg' := pkg;
      case Junk =>
        fails := 1;
        pendingPkg' := "";
    }
  }

  /** The loader's loop, with its own variables. */
  method LoadLines(topo: Topology, lines: seq<string>) returns (rules: seq<RawRule>, failCnt: nat)
    ensures Loaded(rules, failCnt) == Load(topo, lines)
  {
    hide ViewOf, Accepts, Walk, Attempts, SlipCount, Next, Slips, Kept;
    rules, failCnt := [], 0;
    var curPkg, pendingPkg, inBlock := "", "", false;
    ghost var tried: seq<RawRule> := [];
    NoLines(topo);
    assert lines[..0] == [];
    for n := 0 to |lines|
      invariant Ctl(inBlock, curPkg, pendingPkg) == Walk(Start, lines[..n])
      invariant if inBlock then pendingPkg == "" else curPkg == ""
      invariant tried == Attempts(Start, lines[..n])
      invariant rules == Kept(topo, tried) && |rules| <= |tried|
      invariant failCnt == SlipCount(Start, lines[..n]) + (|tried| - |rules|)
    {
      OneMore(topo, lines, n);
      var adds, fails;
      inBlock, curPkg, pendingPkg, adds, fails := LoadLine(ViewOf(lines[n]), inBlock, curPkg, pendingPkg);
      tried := tried + adds;
      failCnt := failCnt + fails;
      KeptAtMostOne(topo, adds);
      if adds != [] {
        if Accepts(topo, adds[0]) { rules := rules + adds; } else { failCnt := failCnt + 1; }
      }
    }
    assert lines[..|lines|] == lines;
    if inBlock || pendingPkg != "" {
      failCnt := failCnt + 1;
    }
  }

  lemma {:induction false} NoLines(topo: Topology)
    ensures Walk(Start, []) == Start && Attempts(Start, []) == [] && SlipCount(Start, []) == 0
    ensures Kept(topo, []) == []
  {
  }

  lemma {:induction false} KeptAtMostOne(topo: Topology, rs: seq<RawRule>)
    requires |rs| <= 1
    ensures Kept(topo, rs) == if rs == [] || !Accepts(topo, rs[0]) then [] else rs
  {
  }

  lemma {:induction false} OneMore(topo: Topology, lines: seq<string>, n: nat)
    requires n < |lines|
    ensures var c := Walk(Start, lines[..n]); var v := ViewOf(lines[n]);
            && Walk(Start, lines[..n + 1]) == Next(c, v)
            && Attempts(Start, lines[..n + 1]) == Attempts(Start, lines[..n]) + Attempt(c, v)
            && SlipCount(Start, lines[..n + 1]) == SlipCount(Start, lines[..n]) + (if Slips(c, v) then 1 else 0)
            && Kept(topo, Attempts(Start, lines[..n + 1]))
            == Kept(topo, Attempts(Start, lines[..n])) + Kept(topo, Attempt(c, v))
  {
    hide ViewOf, Next, Attempt, Slips, Accepts;
    var a, b := lines[..n], [lines[n]];
    assert lines[..n + 1] == a + b;
    WalkConcat(Start, a, b);
    AttemptsConcat(Start, a, b);
    SlipsConcat(Start, a, b);
    KeptConcat(topo, Attempts(Start, a), Attempt(Walk(Start, a), ViewOf(lines[n])));
    assert b[1..] == [];
    assert Attempts(Walk(Start, a), b) == Attempt(Walk(Start, a), ViewOf(lines[n]));
  }
}
