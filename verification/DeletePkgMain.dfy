/**
 * Deleting a package keeps every other rule, in order. It costs a load failure exactly when a
 * round finds the package's first block behind a standalone line, opened by a brace of its own.
 */
module DeletePkgMain {
  import opened Seqs
  import opened Text
  import opened RuleSyntax
  import opened SpecTheorems
  import opened CpuSpec
  import opened Loader
  import opened RuleSets
  import opened Scan
  import opened ScanSim
  import opened ScanFacts
  import opened PruneMeans
  import opened Splice
  import opened Normalize
  import opened NormalizeMain
  import opened NormalForm
  import opened Upsert
  import opened UpsertPkg
  import opened UpsertMain
  import opened Delete
  import opened Unseen
  import opened DeletePkg
  import opened Shedding
  import opened DeleteTally
  import opened Veil

  /** A round that removes the block but not the name line in front of it. */
  predicate LeavesName(lines: seq<string>, pkg: string) {
    var t := ScanOf(lines, pkg);
    && t.pkgLine.Some? && t.pkgLine.value.Standalone?
    && t.blockOpen.Some? && t.blockOpen.value < |lines| && IsBareBrace(lines[t.blockOpen.value])
  }

  /** In how many rounds that happens. */
  function NamesLeft(lines: seq<string>, pkg: string): nat
    decreases |lines|
  {
    if AnyLine(ScanOf(lines, pkg)) then
      RoundShrinks(lines, pkg);
      (if LeavesName(lines, pkg) then 1 else 0) + NamesLeft(Round(lines, pkg), pkg)
    else 0
  }

  // ---- the same replacement in the file and in its blanked form

  lemma {:induction false} SwapVeiled(full: seq<string>, bare: seq<string>, lo: nat, hi: nat,
                                      yf: seq<string>, yb: seq<string>, pkg: string)
    requires Veiled(Start, full, bare, pkg) && lo <= hi <= |bare| == |full| && full[lo..hi] == bare[lo..hi]
    requires Veiled(At(bare, lo), yf, yb, pkg) && Walk(At(bare, lo), yb) == At(bare, hi)
    ensures var f, b := full[..lo] + yf + full[hi..], bare[..lo] + yb + bare[hi..];
            Veiled(Start, f, b, pkg) && |f| == |b| && |yf| == |yb| && Strands(f, b) == Strands(full, bare) + Strands(yf, yb)
  {
    hide ViewOf, Next, Strand, Walk, Veiled, Strands;
    VeiledSplit(Start, full, bare, lo, pkg);
    VeiledSplit(Start, full, bare, hi, pkg);
    VeiledSplit(At(bare, lo), full[lo..], bare[lo..], hi - lo, pkg);
    SliceAgain(full, lo, hi);
    SliceAgain(bare, lo, hi);
    SameLength(At(bare, lo), yf, yb, pkg);
    VeiledJoin(Start, full[..lo], bare[..lo], yf, yb, pkg);
    WalkConcat(Start, bare[..lo], yb);
    VeiledJoin(Start, full[..lo] + yf, bare[..lo] + yb, full[hi..], bare[hi..], pkg);
    VeiledSelf(Start, full[lo..hi], pkg);
  }

  lemma {:induction false} SliceAgain(s: seq<string>, lo: nat, hi: nat)
    requires lo <= hi <= |s|
    ensures s[lo..][..hi - lo] == s[lo..hi] && s[lo..][hi - lo..] == s[hi..]
  {
  }

  lemma {:induction false} SameLength(c: Ctl, full: seq<string>, bare: seq<string>, pkg: string)
    requires Veiled(c, full, bare, pkg)
    ensures |full| == |bare|
  {
  }

  /** The same stretch removed from both. */
  lemma {:induction false} CutVeiled(full: seq<string>, bare: seq<string>, lo: nat, hi: nat, pkg: string)
    requires Veiled(Start, full, bare, pkg) && lo <= hi <= |bare| == |full| && full[lo..hi] == bare[lo..hi]
    requires At(bare, lo) == At(bare, hi)
    ensures var f, b := full[..lo] + full[hi..], bare[..lo] + bare[hi..];
            Veiled(Start, f, b, pkg) && |f| == |b| && Strands(f, b) == Strands(full, bare)
  {
    hide ViewOf, Next, Strand, Walk, Strands, Veiled;
    VeiledSelf(At(bare, lo), [], pkg);
    NoLine(At(bare, lo));
    SwapVeiled(full, bare, lo, hi, [], [], pkg);
    NilLeft(full[..lo]);
    NilLeft(bare[..lo]);
  }

  lemma {:induction false} SameStretch(full: seq<string>, bare: seq<string>, lo: nat, hi: nat, pkg: string)
    requires Veiled(Start, full, bare, pkg) && lo <= hi <= |bare| == |full|
    requires forall i | lo <= i < hi :: ViewOf(bare[i]).Text? || At(bare, i) != Start
    ensures full[lo..hi] == bare[lo..hi]
  {
    hide ViewOf, At, Veiled;
    forall i | lo <= i < hi ensures full[i] == bare[i] {
      VeiledSame(full, bare, i, pkg);
    }
  }

  /** A block's lines are the same in both. */
  lemma {:induction false} SameBlock(full: seq<string>, bare: seq<string>, o: nat, cl: nat, pkg: string)
    requires Veiled(Start, full, bare, pkg) && o < cl < |bare| == |full|
    requires Opening(At(bare, o), ViewOf(bare[o]), pkg) && Within(bare, o + 1, cl, pkg)
    ensures full[o..cl + 1] == bare[o..cl + 1]
  {
    hide ViewOf, At, Veiled, Next;
    OpenerText(At(bare, o), ViewOf(bare[o]), pkg);
    SameStretch(full, bare, o, cl + 1, pkg);
  }

  lemma {:induction false} OpenerText(c: Ctl, v: View, pkg: string)
    requires Opening(c, v, pkg)
    ensures v.Text?
  {
  }

  /** While the name waits, no line is blanked. */
  lemma {:induction false} WaitingAt(n: seq<string>, p: nat, o: nat, i: nat, pkg: string)
    requires Waits(n, p, o, pkg) && p < i <= o && pkg != ""
    ensures At(n, i) == Ctl(false, "", pkg)
    decreases i
  {
    hide ViewOf, At;
    AtNext(n, i - 1);
    if i > p + 1 {
      WaitingAt(n, p, o, i - 1, pkg);
      SkipStays(At(n, i - 1), ViewOf(n[i - 1]));
    } else {
      PendingWaits(ViewOf(n[p]), pkg);
    }
  }

  lemma {:induction false} SkipStays(c: Ctl, v: View)
    requires v.Skip?
    ensures Next(c, v) == c
  {
  }

  lemma {:induction false} PendingWaits(v: View, pkg: string)
    requires v.Text? && v.outer == Pending(pkg)
    ensures Next(Start, v) == Ctl(false, "", pkg)
  {
  }

  lemma {:induction false} SameName(full: seq<string>, bare: seq<string>, p: nat, o: nat, pkg: string)
    requires Veiled(Start, full, bare, pkg) && pkg != "" && o < |bare| == |full| && Waits(bare, p, o, pkg)
    ensures full[p..o] == bare[p..o]
  {
    hide ViewOf, At, Veiled;
    forall i | p <= i < o ensures ViewOf(bare[i]).Text? || At(bare, i) != Start {
      if i > p {
        WaitingAt(bare, p, o, i, pkg);
      }
    }
    SameStretch(full, bare, p, o, pkg);
  }

  // ---- the steps a round is made of

  /** What a step leaves, in the file and in its blanked form. */
  predicate Step2(full2: seq<string>, bare2: seq<string>, full: seq<string>, bare: seq<string>, extra: nat, pkg: string) {
    && Veiled(Start, full2, bare2, pkg) && Shed(bare2, bare, pkg)
    && |full2| == |bare2| && |full| == |bare| && Strands(full2, bare2) == Strands(full, bare) + extra
  }

  /** A sound, normalised file, the file it blanks, and a block of the package in it. */
  predicate BlockOf(full: seq<string>, bare: seq<string>, o: nat, cl: nat, pkg: string) {
    && Veiled(Start, full, bare, pkg) && Sound(bare) && NoSingles(Start, bare, pkg) && pkg != ""
    && o < cl < |bare| == |full|
    && Opening(At(bare, o), ViewOf(bare[o]), pkg) && Within(bare, o + 1, cl, pkg)
    && !Next(At(bare, cl), ViewOf(bare[cl])).inBlock
  }

  lemma {:induction false} StepBlockAway(full: seq<string>, bare: seq<string>, o: nat, cl: nat, pkg: string)
    requires BlockOf(full, bare, o, cl, pkg) && At(bare, o) == Start
    ensures Step2(full[..o] + full[cl + 1..], bare[..o] + bare[cl + 1..], full, bare, 0, pkg)
  {
    hide ViewOf, At, Veiled, Next, Opening, Within, Shed, Gone, Ends, Strands;
    ShedBlock(bare, o, cl, pkg);
    BlockOwned(bare, o, cl, pkg);
    SameBlock(full, bare, o, cl, pkg);
    CutVeiled(full, bare, o, cl + 1, pkg);
  }

  lemma {:induction false} StepLineAway(full: seq<string>, bare: seq<string>, i: nat, pkg: string)
    requires Veiled(Start, full, bare, pkg) && Sound(bare) && NoSingles(Start, bare, pkg) && pkg != ""
    requires i < |bare| == |full| && At(bare, i) == Start
    requires ViewOf(bare[i]).Text? && ViewOf(bare[i]).outer.Rule? && ViewOf(bare[i]).outer.pkg == pkg && !ViewOf(bare[i]).outer.open
    ensures Step2(full[..i] + full[i + 1..], bare[..i] + bare[i + 1..], full, bare, 0, pkg)
  {
    hide ViewOf, Veiled, Next, Shed, Gone, Sound, Strands, Walk;
    ShedStandalone(bare, i, pkg);
    AtNext(bare, i);
    RuleStays(ViewOf(bare[i]));
    SameStretch(full, bare, i, i + 1, pkg);
    CutVeiled(full, bare, i, i + 1, pkg);
  }

  /** The name line and its block. */
  lemma {:induction false} StepPendingAway(full: seq<string>, bare: seq<string>, p: nat, o: nat, cl: nat, pkg: string)
    requires BlockOf(full, bare, o, cl, pkg) && p < o && PendingOpens(bare, p, o, pkg)
    ensures Step2(full[..p] + full[p + 1..o] + full[cl + 1..], bare[..p] + bare[p + 1..o] + bare[cl + 1..], full, bare, 0, pkg)
  {
    hide ViewOf, Veiled, Next, Opening, Within, Shed, Gone, Ends, Strands, Walk, FirstNaming, At;
    ShedPending(bare, p, o, cl, pkg);
    SkipsBetween(bare, p, o, pkg);
    NamedStretch(full, bare, p, o, cl, pkg);
    VeiledSelf(Start, bare[p + 1..o], pkg);
    assert full[p + 1..o] == full[p..o][1..] && bare[p + 1..o] == bare[p..o][1..];
    SwapVeiled(full, bare, p, cl + 1, full[p + 1..o], bare[p + 1..o], pkg);
  }

  lemma {:induction false} SkipsBetween(n: seq<string>, p: nat, o: nat, pkg: string)
    requires p < o <= |n| && Waits(n, p, o, pkg)
    ensures At(n, p) == Start && ViewOf(n[p]).Text? && ViewOf(n[p]).outer == Pending(pkg)
    ensures Walk(Start, n[p + 1..o]) == Start && Attempts(Start, n[p + 1..o]) == [] && SlipCount(Start, n[p + 1..o]) == 0
    ensures NoSingles(Start, n[p + 1..o], pkg)
  {
    hide ViewOf, At, Walk, Attempts, SlipCount, Gone;
    var mid := n[p + 1..o];
    forall i | 0 <= i < |mid| ensures ViewOf(mid[i]).Skip? {
      assert mid[i] == n[p + 1 + i];
    }
    SkipsRun(Start, mid);
    SkipsNoSingles(Start, mid, pkg);
  }

  /** From the name line to the end of the block: the same in both, all of the package, back at the outside. */
  lemma {:induction false} NamedStretch(full: seq<string>, bare: seq<string>, p: nat, o: nat, cl: nat, pkg: string)
    requires BlockOf(full, bare, o, cl, pkg) && p < o && Waits(bare, p, o, pkg)
    ensures full[p..o] == bare[p..o] && full[p..cl + 1] == bare[p..cl + 1] && At(bare, cl + 1) == Start
    ensures AllOf(Attempts(At(bare, p), bare[p..cl + 1]), pkg) && Walk(At(bare, p), bare[p..cl + 1]) == Start
  {
    hide ViewOf, At, Veiled, Next, Opening, Within, Gone, Ends, Walk, Attempts;
    SameName(full, bare, p, o, pkg);
    SameBlock(full, bare, o, cl, pkg);
    assert full[p..cl + 1] == full[p..o] + full[o..cl + 1] && bare[p..cl + 1] == bare[p..o] + bare[o..cl + 1];
    BlockOwned(bare, o, cl, pkg);
    NameHeld(bare, p, o, pkg);
    StretchSplit(bare, p, o, cl + 1, pkg);
  }

  /** The block alone: its name line is stranded, and blanked from here on. */
  lemma {:induction false} StepStrand(full: seq<string>, bare: seq<string>, p: nat, o: nat, cl: nat, pkg: string)
    requires BlockOf(full, bare, o, cl, pkg) && p < o && Waits(bare, p, o, pkg)
    ensures var bare2 := bare[..p] + ([""] + bare[p + 1..o]) + bare[cl + 1..];
            Step2(full[..o] + full[cl + 1..], bare2, full, bare, 1, pkg)
  {
    hide ViewOf, At, Veiled, Next, Opening, Within, Shed, Gone, Ends, Strands, Walk, Attempts, SlipCount, Waits;
    NamedStretch(full, bare, p, o, cl, pkg);
    SkipsBetween(bare, p, o, pkg);
    var mid := bare[p + 1..o];
    BlankRuns(mid, pkg);
    AtIs(bare, p);
    assert bare == bare[..p] + bare[p..cl + 1] + bare[cl + 1..];
    ShedLines(bare[..p], bare[p..cl + 1], [""] + mid, bare[cl + 1..], pkg);
    StrandVeiled(full[p], mid, pkg) by { assert full[p] == full[p..o][0] == bare[p]; }
    SwapVeiled(full, bare, p, cl + 1, [full[p]] + mid, [""] + mid, pkg);
    assert mid == bare[p..o][1..];
    StrandJoin(full, p, o, cl + 1, mid);
  }

  lemma {:induction false} StrandJoin(full: seq<string>, p: nat, o: nat, hi: nat, mid: seq<string>)
    requires p < o <= hi <= |full| && full[p..o][1..] == mid
    ensures full[..p] + ([full[p]] + mid) + full[hi..] == full[..o] + full[hi..]
  {
    assert full[p..o][1..] == full[p + 1..o];
    assert full[..o] == full[..p] + ([full[p]] + full[p + 1..o]);
  }

  lemma {:induction false} BlankRuns(mid: seq<string>, pkg: string)
    requires Walk(Start, mid) == Start && Attempts(Start, mid) == [] && SlipCount(Start, mid) == 0
    requires NoSingles(Start, mid, pkg)
    ensures Walk(Start, [""] + mid) == Start && Attempts(Start, [""] + mid) == [] && SlipCount(Start, [""] + mid) == 0
    ensures NoSingles(Start, [""] + mid, pkg)
  {
    hide ViewOf;
    BlankSkips();
    ConsDrop([""], mid);
    assert [""][1..] + mid == mid;
  }

  lemma {:induction false} StrandVeiled(name: string, mid: seq<string>, pkg: string)
    requires ViewOf(name).Text? && ViewOf(name).outer == Pending(pkg)
    ensures Veiled(Start, [name] + mid, [""] + mid, pkg) && Strands([name] + mid, [""] + mid) == 1
  {
    hide ViewOf;
    BlankSkips();
    ConsDrop([name], mid);
    ConsDrop([""], mid);
    assert [name][1..] + mid == mid && [""][1..] + mid == mid;
    VeiledSelf(Start, mid, pkg);
  }

  // ---- one round

  lemma {:induction false} RoundVeiled(full: seq<string>, bare: seq<string>, pkg: string) returns (bare2: seq<string>)
    requires Veiled(Start, full, bare, pkg) && Sound(bare) && NoSingles(Start, bare, pkg) && pkg != ""
    requires |full| == |bare| && AnyLine(ScanOf(full, pkg))
    ensures Step2(Round(full, pkg), bare2, full, bare, if LeavesName(full, pkg) then 1 else 0, pkg)
    ensures NamesStranded(bare, pkg) == NamesStranded(bare2, pkg) + (if LeavesName(full, pkg) then 1 else 0)
  {
    hide ViewOf, Veiled, ScanTo, Gone, Shed, At, Walk, Naming, NoNaming, NoOpening, Opening, Within, SlipCount, Next, Ends, Strands, Step2, Pick, IsBareBrace, NamesStranded;
    VeiledScan(full, bare, pkg);
    var t := ScanOf(bare, pkg);
    PkgLineFacts(bare, |bare|, pkg);
    BlockFacts(bare, |bare|, pkg);
    ClosedBlock(bare, pkg);
    NoSinglesIff(bare, pkg);
    NoneDoomed(t);
    match t.pkgLine {
      case Some(Standalone(i)) =>
        StandaloneAt(bare, i, pkg);
        if t.blockOpen.Some? {
          bare2 := RoundBoth(full, bare, i, t.blockOpen.value, t.blockClose.value, pkg);
        } else {
          WithoutRange(full, i, i + 1, t);
          StepLineAway(full, bare, i, pkg);
          bare2 := bare[..i] + bare[i + 1..];
          LoneBehind(bare, i, pkg);
          TallyLone(bare, i, pkg);
        }
      case Some(OpenInline(i)) => bare2 := RoundOpen(full, bare, i, pkg);
      case Some(OpenBare(i)) => bare2 := RoundOpen(full, bare, i, pkg);
      case Some(OpenPending(p)) =>
        var o :| p < o < |bare| && PendingOpens(bare, p, o, pkg);
        PendingBlock(bare, p, o, pkg);
        WithoutTwo(full, p, o, t.blockClose.value + 1, t);
        FullJoin(full, p, o, t.blockClose.value + 1);
        StepPendingAway(full, bare, p, o, t.blockClose.value, pkg);
        bare2 := bare[..p] + bare[p + 1..o] + bare[t.blockClose.value + 1..];
        BlockOwned(bare, o, t.blockClose.value, pkg);
        TallyPending(bare, p, o, t.blockClose.value, pkg);
      case None => bare2 := bare;
    }
  }

  lemma {:induction false} LoneBehind(n: seq<string>, i: nat, pkg: string)
    requires i < |n| && At(n, i) == Start && ViewOf(n[i]).Text? && ViewOf(n[i]).outer.Rule? && !ViewOf(n[i]).outer.open
    ensures At(n, i + 1) == Start
  {
    hide ViewOf, Walk;
    AtNext(n, i);
    RuleStays(ViewOf(n[i]));
  }

  lemma {:induction false} FullJoin(full: seq<string>, p: nat, o: nat, hi: nat)
    requires p < o <= hi <= |full|
    ensures full[..o] + full[hi..] == full[..p] + [full[p]] + full[p + 1..o] + full[hi..]
  {
  }

  lemma {:induction false} NoneDoomed(t: Target)
    requires Singles(t.threads) == []
    ensures forall i: nat :: Doomed(t, i) <==>
              ((t.pkgLine.Some? && i == t.pkgLine.value.idx)
               || (t.blockOpen.Some? && t.blockOpen.value <= i <= BlockEnd(t, t.blockOpen.value)))
  {
    hide BlockEnd, Pick;
  }

  /** On a sound file every block of the package is closed. */
  lemma {:induction false} ClosedBlock(n: seq<string>, pkg: string)
    requires Sound(n) && pkg != ""
    ensures ScanOf(n, pkg).blockOpen.Some? ==> ScanOf(n, pkg).blockClose.Some?
  {
    hide ViewOf, ScanTo, NoOpening, Opening, SlipCount, Walk;
    BlockFacts(n, |n|, pkg);
    EndsAt(n);
    var t := ScanOf(n, pkg);
    var end := At(n, |n|);
    assert t.blockOpen.Some? && t.blockClose.None? ==> end.inBlock;
  }

  /** The first line that names the package opens its first block. */
  lemma {:induction false} RoundOpen(full: seq<string>, bare: seq<string>, i: nat, pkg: string) returns (bare2: seq<string>)
    requires Veiled(Start, full, bare, pkg) && Sound(bare) && NoSingles(Start, bare, pkg) && pkg != ""
    requires |full| == |bare| && ScanOf(full, pkg) == ScanOf(bare, pkg)
    requires var t := ScanOf(bare, pkg);
             && t.pkgLine.Some? && !t.pkgLine.value.Standalone? && t.pkgLine.value.idx == i && Singles(t.threads) == []
             && (t.blockOpen.Some? ==> t.blockClose.Some?)
    requires FirstNaming(bare, i, pkg)
             && (ViewOf(bare[i]).outer == BareOpen(pkg) || (ViewOf(bare[i]).outer.Rule? && ViewOf(bare[i]).outer.open))
    ensures Step2(Round(full, pkg), bare2, full, bare, 0, pkg) && NamesStranded(bare2, pkg) == NamesStranded(bare, pkg)
  {
    hide ViewOf, Veiled, ScanTo, Gone, Shed, At, Walk, NoNaming, Opening, Within, SlipCount, Next, Ends, Strands, Step2, Pick, Naming, NamesStranded;
    var t := ScanOf(bare, pkg);
    BlockFacts(bare, |bare|, pkg);
    OpensFirst(bare, i, t, pkg);
    NoneDoomed(t);
    WithoutRange(full, i, t.blockClose.value + 1, t);
    StepBlockAway(full, bare, i, t.blockClose.value, pkg);
    bare2 := bare[..i] + bare[t.blockClose.value + 1..];
    BlockOwned(bare, i, t.blockClose.value, pkg);
    TallyOpen(bare, i, t.blockClose.value, pkg);
  }

  lemma {:induction false} OpensFirst(n: seq<string>, i: nat, t: Target, pkg: string)
    requires Calm(n) && NoSingles(Start, n, pkg) && pkg != "" && FirstNaming(n, i, pkg) && BlockMeans(n, |n|, t, pkg)
    requires ViewOf(n[i]).outer == BareOpen(pkg) || (ViewOf(n[i]).outer.Rule? && ViewOf(n[i]).outer.open)
    ensures At(n, i) == Start && t.blockOpen == Some(i)
  {
    hide ViewOf, Gone, At, SlipCount;
    CalmAt(n, i);
    AtShape(n, i);
    assert Opening(At(n, i), ViewOf(n[i]), pkg);
    if t.blockOpen.Some? && t.blockOpen.value != i {
      OpeningNames(n, t.blockOpen.value, pkg);
    }
  }

  /** A standalone line first and a block further on. */
  lemma {:induction false} RoundBoth(full: seq<string>, bare: seq<string>, i: nat, o: nat, cl: nat, pkg: string)
    returns (bare2: seq<string>)
    requires BlockOf(full, bare, o, cl, pkg) && FirstNaming(bare, i, pkg) && At(bare, i) == Start && NoOpening(bare, o, pkg)
    requires ViewOf(bare[i]).Text? && ViewOf(bare[i]).outer.Rule? && ViewOf(bare[i]).outer.pkg == pkg && !ViewOf(bare[i]).outer.open
    requires ScanOf(full, pkg) == ScanOf(bare, pkg)
    requires var t := ScanOf(bare, pkg);
             t.pkgLine == Some(Standalone(i)) && t.blockOpen == Some(o) && t.blockClose == Some(cl) && Singles(t.threads) == []
    ensures Step2(Round(full, pkg), bare2, full, bare, if LeavesName(full, pkg) then 1 else 0, pkg)
    ensures NamesStranded(bare, pkg) == NamesStranded(bare2, pkg) + (if LeavesName(full, pkg) then 1 else 0)
  {
    hide ViewOf, Veiled, ScanTo, Gone, Shed, At, Walk, NoNaming, NoOpening, Opening, Within, SlipCount, Next, Ends, Strands, Step2, Pick, Naming, IsBareBrace, Attempts, Select, NamesStranded;
    var t := ScanOf(bare, pkg);
    OpeningNames(bare, o, pkg);
    StandsFirst(bare, i, o, pkg);
    NoneDoomed(t);
    WithoutTwo(full, i, o, cl + 1, t);
    SameBlock(full, bare, o, cl, pkg);
    assert full[o] == full[o..cl + 1][0] && bare[o] == bare[o..cl + 1][0];
    OpenerKind(bare, o, pkg);
    BlockOwned(bare, o, cl, pkg);
    if At(bare, o).pending == "" {
      StepBlockAway(full, bare, o, cl, pkg);
      var bare1 := bare[..o] + bare[cl + 1..];
      assert bare1[..i + 1] == bare[..i + 1];
      bare2 := bare[..i] + bare[i + 1..o] + bare[cl + 1..];
      assert bare1[..i] + bare1[i + 1..] == bare2;
      ThenLine(full, bare, bare1, i, o, cl, 0, pkg);
      TallyHeaded(bare, i, o, cl, pkg);
    } else {
      WaitingFrom(bare, o, pkg);
      var p := ScanTo(bare, o, pkg).pending.value;
      NotBetween(bare, p, o, i, pkg);
      StepStrand(full, bare, p, o, cl, pkg);
      var bare1 := bare[..p] + ([""] + bare[p + 1..o]) + bare[cl + 1..];
      assert bare1[..i + 1] == bare[..i + 1];
      bare2 := bare[..i] + (bare[i + 1..p] + ([""] + bare[p + 1..o])) + bare[cl + 1..];
      assert bare1[..i] + bare1[i + 1..] == bare2;
      ThenLine(full, bare, bare1, i, o, cl, 1, pkg);
      TallyStrand(bare, i, p, o, cl, pkg);
    }
  }

  /** The block gone, the standalone line goes as well. */
  lemma {:induction false} ThenLine(full: seq<string>, bare: seq<string>, bare1: seq<string>, i: nat, o: nat, cl: nat, extra: nat, pkg: string)
    requires i < o < cl < |bare| == |full| && pkg != "" && At(bare, i) == Start
    requires ViewOf(bare[i]).Text? && ViewOf(bare[i]).outer.Rule? && ViewOf(bare[i]).outer.pkg == pkg && !ViewOf(bare[i]).outer.open
    requires Step2(full[..o] + full[cl + 1..], bare1, full, bare, extra, pkg)
    requires i < |bare1| && bare1[..i + 1] == bare[..i + 1]
    ensures Step2(full[..i] + full[i + 1..o] + full[cl + 1..], bare1[..i] + bare1[i + 1..], full, bare, extra, pkg)
  {
    hide ViewOf, Veiled, Gone, Shed, Walk, Strands, Sound, Select, Attempts;
    var full1 := full[..o] + full[cl + 1..];
    ShedSound(bare1, bare, pkg);
    PrefixKept(bare1, bare, i);
    StepLineAway(full1, bare1, i, pkg);
    ShedTrans(bare1[..i] + bare1[i + 1..], bare1, bare, pkg);
    assert full1[..i] + full1[i + 1..] == full[..i] + full[i + 1..o] + full[cl + 1..];
  }

  lemma {:induction false} ShedSound(m: seq<string>, n: seq<string>, pkg: string)
    requires Shed(m, n, pkg)
    ensures Sound(m) && NoSingles(Start, m, pkg)
  {
    hide Sound, Gone, Select, Attempts;
  }

  lemma {:induction false} PrefixKept(m: seq<string>, n: seq<string>, i: nat)
    requires i < |m| && i < |n| && m[..i + 1] == n[..i + 1]
    ensures At(m, i) == At(n, i) && m[i] == n[i]
  {
    hide Walk;
    assert m[..i] == m[..i + 1][..i] && n[..i] == n[..i + 1][..i];
    assert m[i] == m[..i + 1][i] && n[i] == n[..i + 1][i];
  }

  /** A block is opened by a header of its own or by a brace behind the waiting name. */
  lemma {:induction false} OpenerKind(n: seq<string>, o: nat, pkg: string)
    requires Sound(n) && pkg != "" && o < |n| && Opening(At(n, o), ViewOf(n[o]), pkg)
    requires Naming(At(n, o), ViewOf(n[o]), pkg)
    ensures if At(n, o).pending == "" then At(n, o) == Start && !IsBareBrace(n[o])
            else At(n, o).pending == pkg && IsBareBrace(n[o])
  {
    hide SlipCount, Walk, Trim, ParseOuter, InnerView, Ends;
    CalmAt(n, o);
    AtShape(n, o);
  }

  lemma {:induction false} NotBetween(n: seq<string>, p: nat, o: nat, i: nat, pkg: string)
    requires Waits(n, p, o, pkg) && i < o < |n| && ViewOf(n[i]).Text? && ViewOf(n[i]).outer.Rule?
    ensures i < p < o
  {
    hide ViewOf, At;
  }

  /** The naming line is before the block, which it does not open. */
  lemma {:induction false} StandsFirst(n: seq<string>, i: nat, o: nat, pkg: string)
    requires FirstNaming(n, i, pkg) && At(n, i) == Start && ViewOf(n[i]).Text? && ViewOf(n[i]).outer.Rule?
    requires !ViewOf(n[i]).outer.open && o < |n| && Opening(At(n, o), ViewOf(n[o]), pkg)
    requires Naming(At(n, o), ViewOf(n[o]), pkg)
    ensures i < o
  {
    hide ViewOf, At;
  }

  // ---- all rounds

  lemma {:induction false} RoundsVeiled(full: seq<string>, bare: seq<string>, pkg: string) returns (bare2: seq<string>)
    requires Veiled(Start, full, bare, pkg) && Sound(bare) && NoSingles(Start, bare, pkg) && pkg != "" && |full| == |bare|
    ensures Step2(Rounds(full, pkg), bare2, full, bare, NamesLeft(full, pkg), pkg)
    ensures NoneOf(Rules(bare2), pkg) && NamesLeft(full, pkg) == NamesStranded(bare, pkg)
    decreases |full|
  {
    hide ViewOf, Veiled, ScanTo, Gone, Round, Strands, LeavesName, Select, Attempts, Sound, Calm, NamesStranded, NoNaming;
    if AnyLine(ScanOf(full, pkg)) {
      RoundShrinks(full, pkg);
      var bare1 := RoundVeiled(full, bare, pkg);
      bare2 := RoundsVeiled(Round(full, pkg), bare1, pkg);
      ShedTrans(bare2, bare1, bare, pkg);
    } else {
      bare2 := bare;
      ShedSelf(bare, pkg);
      SoundCalm(bare);
      VeiledScan(full, bare, pkg);
      UnseenNoRules(bare, pkg);
      PkgLineFacts(bare, |bare|, pkg);
      NoneLeft(bare, pkg);
    }
  }

  /**
   * Deleting a package: missing exactly when no line names it; otherwise none of its rules is
   * loaded any more, every other rule is, in order, and the number of load failures is exactly
   * the number of name lines that one pass over the file tells will be left behind.
   */
  lemma {:induction false} DeletePkgExact(topo: Topology, lines: seq<string>, pkg: string)
    requires Good(topo, lines) && pkg != "" && NormalizeSafe(lines, pkg)
    ensures var e := DeletedPkg(lines, pkg); var n := Normalized(lines, pkg);
            if !AnyLine(ScanOf(n, pkg)) then e.NotFound? && NoneOf(Load(topo, lines).rules, pkg)
            else && e.Ok?
                 && Load(topo, e.lines).rules == Select(Load(topo, lines).rules, OtherPkgs(pkg))
                 && Load(topo, e.lines).fails == NamesStranded(n, pkg) == NamesLeft(n, pkg)
  {
    hide Attempts, Walk, SlipCount, ScanTo, Select, NormalizeSafe, Sound, SpecsLike, Load, Normalized, Accepts, Gone, Veiled, Strands, Rounds, NamesLeft, NamesStranded;
    Normal(topo, lines, pkg);
    var n := Normalized(lines, pkg);
    VeiledSelf(Start, n, pkg);
    if AnyLine(ScanOf(n, pkg)) {
      var bare := RoundsVeiled(n, n, pkg);
      StillGood(topo, bare, Rules(n));
      VeiledLoad(topo, Rounds(n, pkg), bare, pkg);
      OnlyOthers(Rules(bare), pkg);
    } else {
      SoundCalm(n);
      UnseenNoRules(n, pkg);
      SameNone(Rules(n), Rules(lines), pkg);
    }
  }

  /** So the file stays loadable when no standalone rule of the package stands before a block with a brace of its own. */
  lemma {:induction false} DeletePkgGood(topo: Topology, lines: seq<string>, pkg: string)
    requires Good(topo, lines) && pkg != "" && NormalizeSafe(lines, pkg)
    requires BracesFirst(Normalized(lines, pkg), pkg)
    ensures var e := DeletedPkg(lines, pkg); e.Ok? ==> Good(topo, e.lines)
  {
    hide NormalizeSafe, Load, Normalized, ScanTo, Rounds, NamesLeft, NamesStranded, BracesFirst, Select;
    DeletePkgExact(topo, lines, pkg);
    BracesFirstKeep(Normalized(lines, pkg), pkg);
  }

  lemma {:induction false} SameNone(a: seq<RawRule>, b: seq<RawRule>, pkg: string)
    requires multiset(a) == multiset(b) && NoneOf(a, pkg)
    ensures NoneOf(b, pkg)
  {
    forall r | r in b ensures r.pkg != pkg {
      assert r in multiset(b);
    }
  }

  lemma {:induction false} OnlyOthers(rs: seq<RawRule>, pkg: string)
    requires NoneOf(rs, pkg)
    ensures Select(rs, OtherPkgs(pkg)) == rs
  {
    SelectAll(rs, OtherPkgs(pkg));
  }

  lemma {:induction false} KeptFrom(topo: Topology, rs: seq<RawRule>)
    ensures forall r | r in Kept(topo, rs) :: r in rs
    decreases |rs|
  {
    hide Accepts;
    if rs != [] {
      KeptFrom(topo, rs[1..]);
    }
  }

  lemma {:induction false} WithoutFrom(lines: seq<string>, base: nat, t: Target)
    ensures forall l | l in Without(lines, base, t) :: l in lines
    decreases |lines|
  {
    hide Doomed;
    if lines != [] {
      WithoutFrom(lines[1..], base + 1, t);
    }
  }

  lemma {:induction false} RoundsFrom(lines: seq<string>, pkg: string)
    ensures forall l | l in Rounds(lines, pkg) :: l in lines
    decreases |lines|
  {
    hide Without, ScanTo;
    if AnyLine(ScanOf(lines, pkg)) {
      RoundShrinks(lines, pkg);
      WithoutFrom(lines, 0, ScanOf(lines, pkg));
      RoundsFrom(Round(lines, pkg), pkg);
    }
  }

  /** On any file without a bare `=`: when the rounds are over, no rule of the package is loaded. */
  lemma {:induction false} RoundsLeaveNone(topo: Topology, lines: seq<string>, pkg: string)
    requires pkg != "" && NoEqLine(lines)
    ensures NoneOf(Load(topo, Rounds(lines, pkg)).rules, pkg)
  {
    hide ViewOf, ScanTo, Attempts, Kept, Walk, SlipCount, Rounds;
    var r := Rounds(lines, pkg);
    RoundsFrom(lines, pkg);
    NoEqBare(r);
    UnseenNoRules(r, pkg);
    KeptFrom(topo, Rules(r));
  }
}
