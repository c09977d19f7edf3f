/**
 * Stranded name lines. Deleting a package can leave a bare name line behind whose `{` is gone.
 * Blanking such lines gives a sound file; the scan and the loaded rules do not notice them,
 * and each costs exactly one load failure.
 */
module Veil {
  import opened Seqs
  import opened Text
  import opened RuleSyntax
  import opened CpuSpec
  import opened Loader
  import opened Scan
  import opened ScanSim
  import opened Splice
  import opened SpecTheorems

  /** A name line of `pkg` where the blanked file expects an outer line. */
  predicate Strand(full: string, bare: string, c: Ctl, pkg: string) {
    bare == "" && c == Start && ViewOf(full).Text? && ViewOf(full).outer == Pending(pkg)
  }

  /** `bare` is `full` with some name lines of `pkg` blanked. */
  predicate Veiled(c: Ctl, full: seq<string>, bare: seq<string>, pkg: string)
    decreases |full|
  {
    && |full| == |bare|
    && (full == [] ||
        (&& (full[0] == bare[0] || Strand(full[0], bare[0], c, pkg))
         && Veiled(Next(c, ViewOf(bare[0])), full[1..], bare[1..], pkg)))
  }

  /** How many lines are blanked. */
  function Strands(full: seq<string>, bare: seq<string>): nat
    requires |full| == |bare|
    decreases |full|
  {
    if full == [] then 0 else (if full[0] == bare[0] then 0 else 1) + Strands(full[1..], bare[1..])
  }

  lemma {:induction false} VeiledSelf(c: Ctl, a: seq<string>, pkg: string)
    ensures Veiled(c, a, a, pkg) && Strands(a, a) == 0
    decreases |a|
  {
    hide ViewOf, Next, Strand;
    if a != [] {
      VeiledSelf(Next(c, ViewOf(a[0])), a[1..], pkg);
    }
  }

  lemma {:induction false} VeiledJoin(c: Ctl, r1: seq<string>, b1: seq<string>, r2: seq<string>, b2: seq<string>, pkg: string)
    requires Veiled(c, r1, b1, pkg) && Veiled(Walk(c, b1), r2, b2, pkg)
    ensures Veiled(c, r1 + r2, b1 + b2, pkg)
    ensures Strands(r1 + r2, b1 + b2) == Strands(r1, b1) + Strands(r2, b2)
    decreases |r1|
  {
    hide ViewOf, Next, Strand;
    if r1 == [] {
      NilLeft(r2);
      NilLeft(b2);
    } else {
      ConsDrop(r1, r2);
      ConsDrop(b1, b2);
      VeiledJoin(Next(c, ViewOf(b1[0])), r1[1..], b1[1..], r2, b2, pkg);
    }
  }

  lemma {:induction false} VeiledSplit(c: Ctl, full: seq<string>, bare: seq<string>, i: nat, pkg: string)
    requires Veiled(c, full, bare, pkg) && i <= |full|
    ensures Veiled(c, full[..i], bare[..i], pkg) && Veiled(Walk(c, bare[..i]), full[i..], bare[i..], pkg)
    ensures Strands(full, bare) == Strands(full[..i], bare[..i]) + Strands(full[i..], bare[i..])
    decreases i
  {
    hide ViewOf, Next, Strand;
    if i == 0 {
      assert full[0..] == full && bare[0..] == bare && full[..0] == [] && bare[..0] == [];
    } else {
      VeiledSplit(Next(c, ViewOf(bare[0])), full[1..], bare[1..], i - 1, pkg);
      HeadTail(full, i);
      HeadTail(bare, i);
    }
  }

  lemma {:induction false} HeadTail(s: seq<string>, i: nat)
    requires 0 < i <= |s|
    ensures s[..i] != [] && s[..i][0] == s[0] && s[..i][1..] == s[1..][..i - 1] && s[1..][i - 1..] == s[i..]
  {
  }

  lemma {:induction false} VeiledAt(full: seq<string>, bare: seq<string>, i: nat, pkg: string)
    requires Veiled(Start, full, bare, pkg) && i < |full|
    ensures |full| == |bare|
    ensures full[i] == bare[i] || Strand(full[i], bare[i], At(bare, i), pkg)
  {
    hide ViewOf, Next, Strand, Walk;
    VeiledSplit(Start, full, bare, i, pkg);
    assert full[i..][0] == full[i] && bare[i..][0] == bare[i];
  }

  /** Only skipped lines read at the very outside can be blanked. */
  lemma {:induction false} VeiledSame(full: seq<string>, bare: seq<string>, i: nat, pkg: string)
    requires Veiled(Start, full, bare, pkg) && i < |bare| && (ViewOf(bare[i]).Text? || At(bare, i) != Start)
    ensures |full| == |bare| && full[i] == bare[i]
  {
    hide ViewOf, At;
    BlankSkips();
    VeiledAt(full, bare, i, pkg);
  }

  // ---- the scan does not notice

  predicate SameScan(s: State, s': State, c: Ctl) {
    && s'.t == s.t && s'.inBlock == s.inBlock && s'.target == s.target
    && (c.pending != "" ==> s'.pending == s.pending)
  }

  lemma {:induction false} SameScanStep(full: seq<string>, bare: seq<string>, n: nat, s: State, s': State, c: Ctl, pkg: string)
    requires n < |bare| == |full| && c == At(bare, n) && Sim(bare, n, c, s, pkg) && SameScan(s, s', c)
    requires !Slips(c, ViewOf(bare[n])) && pkg != ""
    requires full[n] == bare[n] || Strand(full[n], bare[n], c, pkg)
    requires ViewOf("") == Skip
    requires WaitingName(full, s.pending) == WaitingName(bare, s.pending)
    ensures SameScan(Step(bare, s, n, pkg), Step(full, s', n, pkg), Next(c, ViewOf(bare[n])))
  {
    hide ViewOf, At, WaitingName;
  }

  lemma {:induction false} SameWaiting(full: seq<string>, bare: seq<string>, n: nat, s: State, pkg: string)
    requires Veiled(Start, full, bare, pkg) && n <= |bare| && Sim(bare, n, At(bare, n), s, pkg)
    ensures |full| == |bare| && WaitingName(full, s.pending) == WaitingName(bare, s.pending)
  {
    hide ViewOf, Walk, Next, Strand;
    if s.pending.Some? {
      VeiledSame(full, bare, s.pending.value, pkg);
    }
  }

  lemma {:induction false} VeiledScanTo(full: seq<string>, bare: seq<string>, n: nat, pkg: string)
    requires Veiled(Start, full, bare, pkg) && Calm(bare) && pkg != "" && n <= |bare|
    ensures |full| == |bare| && SameScan(ScanTo(bare, n, pkg), ScanTo(full, n, pkg), At(bare, n))
  {
    hide ViewOf, Walk, Next, Strand, Step, Slips, Veiled, WaitingName, Sim;
    if n > 0 {
      var m := n - 1;
      VeiledScanTo(full, bare, m, pkg);
      ScanSimulates(bare, m, pkg);
      CalmAt(bare, m);
      VeiledAt(full, bare, m, pkg);
      BlankSkips();
      SameWaiting(full, bare, m, ScanTo(bare, m, pkg), pkg);
      SameScanStep(full, bare, m, ScanTo(bare, m, pkg), ScanTo(full, m, pkg), At(bare, m), pkg);
      AtNext(bare, m);
    } else {
      VeiledLength(full, bare, pkg);
    }
  }

  lemma {:induction false} VeiledLength(full: seq<string>, bare: seq<string>, pkg: string)
    requires Veiled(Start, full, bare, pkg)
    ensures |full| == |bare|
  {
  }

  lemma {:induction false} VeiledScan(full: seq<string>, bare: seq<string>, pkg: string)
    requires Veiled(Start, full, bare, pkg) && Calm(bare) && pkg != ""
    ensures |full| == |bare| && ScanOf(full, pkg) == ScanOf(bare, pkg)
  {
    hide ViewOf, Walk, ScanTo, Veiled;
    VeiledLength(full, bare, pkg);
    VeiledScanTo(full, bare, |bare|, pkg);
  }

  // ---- the loader counts them and nothing else

  /** The loader's state over the full file: as over the blanked one, or with the stranded name waiting. */
  predicate Lagging(c: Ctl, c': Ctl, pkg: string) {
    c' == c || (c == Start && c' == Ctl(false, "", pkg))
  }

  function EndFails(c: Ctl): nat { if c.inBlock || c.pending != "" then 1 else 0 }

  lemma {:induction false} LagStep(c: Ctl, c': Ctl, full: string, bare: string, pkg: string)
    requires Lagging(c, c', pkg) && pkg != "" && !Slips(c, ViewOf(bare)) && ViewOf("") == Skip
    requires full == bare || Strand(full, bare, c, pkg)
    ensures Lagging(Next(c, ViewOf(bare)), Next(c', ViewOf(full)), pkg)
    ensures Attempt(c', ViewOf(full)) == Attempt(c, ViewOf(bare))
    ensures (if Slips(c', ViewOf(full)) then 1 else 0) + (if Next(c', ViewOf(full)) == Next(c, ViewOf(bare)) then 0 else 1)
         == (if full == bare then 0 else 1) + (if c' == c then 0 else 1)
  {
    hide ViewOf;
  }

  lemma {:induction false} VeiledWalk(c: Ctl, c': Ctl, full: seq<string>, bare: seq<string>, pkg: string)
    requires Veiled(c, full, bare, pkg) && Lagging(c, c', pkg) && pkg != "" && SlipCount(c, bare) == 0
    requires EndFails(Walk(c, bare)) == 0
    ensures Attempts(c', full) == Attempts(c, bare)
    ensures SlipCount(c', full) + EndFails(Walk(c', full)) == Strands(full, bare) + (if c' == c then 0 else 1)
    decreases |full|
  {
    hide ViewOf, Next, Attempt, Slips, Strand, Lagging;
    if full != [] {
      BlankSkips();
      LagStep(c, c', full[0], bare[0], pkg);
      VeiledWalk(Next(c, ViewOf(bare[0])), Next(c', ViewOf(full[0])), full[1..], bare[1..], pkg);
    } else {
      LagEnd(c, c', pkg);
    }
  }

  lemma {:induction false} LagEnd(c: Ctl, c': Ctl, pkg: string)
    requires Lagging(c, c', pkg) && pkg != "" && EndFails(c) == 0
    ensures EndFails(c') == if c' == c then 0 else 1
  {
  }

  /** Over the whole file: the same rules, and one failure for every stranded line. */
  lemma {:induction false} VeiledLoad(topo: Topology, full: seq<string>, bare: seq<string>, pkg: string)
    requires Veiled(Start, full, bare, pkg) && pkg != "" && Good(topo, bare)
    ensures |full| == |bare| && Load(topo, full).rules == Load(topo, bare).rules
    ensures Load(topo, full).fails == Strands(full, bare)
  {
    hide ViewOf, Walk, Attempts, SlipCount, Veiled, Strands, Accepts, Kept;
    GoodIs(topo, bare);
    VeiledLength(full, bare, pkg);
    VeiledWalk(Start, Start, full, bare, pkg);
  }
}
