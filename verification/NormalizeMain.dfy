/** The main results about normalisation. */
module NormalizeMain {
  import opened Seqs
  import opened Text
  import opened RuleSyntax
  import opened LinePrint
  import opened LineHeader
  import opened LineParts
  import opened Loader
  import opened RuleSets
  import opened Scan
  import opened ScanSim
  import opened ScanFacts
  import opened Prune
  import opened PruneMeans
  import opened Splice
  import opened Normalize
  import opened NormalizeProof

  // ---- records by position

  lemma {:induction false} LocsIndexed(lines: seq<string>, n: nat, pkg: string)
    requires n <= |lines|
    ensures forall l | l in LocsOf(Start, lines[..n], 0, pkg) ::
              l.idx < n && LocOf(At(lines, l.idx), ViewOf(lines[l.idx]), l.idx, pkg) == [l]
  {
    hide ViewOf, At, LocOf;
    if n == 0 {
      NoLocs(Start, 0, pkg);
      assert lines[..0] == [];
    } else {
      LocsIndexed(lines, n - 1, pkg);
      LocsSnoc(lines, n - 1, pkg);
      LocOfIdx(At(lines, n - 1), ViewOf(lines[n - 1]), n - 1, pkg);
    }
  }

  lemma {:induction false} NoLocs(c: Ctl, base: nat, pkg: string)
    ensures LocsOf(c, [], base, pkg) == []
  {
  }

  lemma {:induction false} LocOfIdx(c: Ctl, v: View, i: nat, pkg: string)
    ensures |LocOf(c, v, i, pkg)| <= 1
    ensures forall l | l in LocOf(c, v, i, pkg) :: l.idx == i && LocOf(c, v, i, pkg) == [l]
  {
  }

  lemma {:induction false} PickFrom(locs: seq<Loc>, sel: Sel)
    ensures forall l | l in Pick(locs, sel) :: l in locs && Picked(sel, l)
    decreases |locs|
  {
    hide Picked;
    if locs != [] {
      Uncons(locs);
      PickFrom(locs[1..], sel);
    }
  }

  lemma {:induction false} ScanLocs(lines: seq<string>, pkg: string)
    requires pkg != "" && Calm(lines)
    ensures ScanOf(lines, pkg).threads == LocsOf(Start, lines, 0, pkg)
  {
    ScanSimulates(lines, |lines|, pkg);
    assert lines[..|lines|] == lines;
  }

  lemma {:induction false} CutIsPruned(lines: seq<string>, pkg: string)
    requires pkg != "" && Calm(lines)
    ensures Cut(lines, pkg) == Pruned(Start, lines, pkg, SinglesOnly)
    ensures Items(lines, Singles(ScanOf(lines, pkg).threads)) == ItemsOf(Start, lines, pkg)
  {
    hide ViewOf, LocOf, Picked, RemoveAt, ItemOf;
    ScanLocs(lines, pkg);
    assert [] + lines == lines;
    RemoveIsPrune([], Start, lines, pkg, SinglesOnly);
    ItemsAre([], Start, lines, pkg);
    assert [] + Pruned(Start, lines, pkg, SinglesOnly) == Pruned(Start, lines, pkg, SinglesOnly);
  }

  // ---- before the first single-line rule nothing changes

  lemma {:induction false} PruneConcat(c: Ctl, a: seq<string>, b: seq<string>, pkg: string, sel: Sel)
    ensures Pruned(c, a + b, pkg, sel) == Pruned(c, a, pkg, sel) + Pruned(Walk(c, a), b, pkg, sel)
    decreases |a|
  {
    hide ViewOf, Next, PruneLine;
    if a == [] {
      NilLeft(b);
    } else {
      ConsDrop(a, b);
      PruneConcat(Next(c, ViewOf(a[0])), a[1..], b, pkg, sel);
    }
  }

  lemma {:induction false} PruneNothing(c: Ctl, lines: seq<string>, base: nat, pkg: string, sel: Sel)
    requires Pick(LocsOf(c, lines, base, pkg), sel) == []
    ensures Pruned(c, lines, pkg, sel) == lines
    decreases |lines|
  {
    hide ViewOf, Next, LocOf, Picked, LineWithout;
    if lines != [] {
      var v := ViewOf(lines[0]);
      PickConcat(LocOf(c, v, base, pkg), LocsOf(Next(c, v), lines[1..], base + 1, pkg), sel);
      LineOnly(c, lines[0], base, pkg, sel);
      PruneNothing(Next(c, v), lines[1..], base + 1, pkg, sel);
      assert [lines[0]] + lines[1..] == lines;
    }
  }

  /** The first recorded position: a single-line rule outside of blocks, and nothing picked before it. */
  lemma {:induction false} FirstSingle(lines: seq<string>, pkg: string)
    requires pkg != "" && Calm(lines)
    requires Singles(ScanOf(lines, pkg).threads) != []
    ensures var at := Singles(ScanOf(lines, pkg).threads)[0].idx;
            && at < |lines| && At(lines, at) == Start
            && ViewOf(lines[at]).Text? && ViewOf(lines[at]).outer.Single? && ViewOf(lines[at]).outer.pkg == pkg
            && Pick(LocsOf(Start, lines[..at], 0, pkg), SinglesOnly) == []
  {
    hide ViewOf, At, LocOf, Slips;
    ScanLocs(lines, pkg);
    var locs := LocsOf(Start, lines, 0, pkg);
    assert lines[..|lines|] == lines;
    LocsIndexed(lines, |lines|, pkg);
    PickFrom(locs, SinglesOnly);
    var l := Singles(locs)[0];
    assert l in locs;
    SingleLoc(At(lines, l.idx), ViewOf(lines[l.idx]), l, pkg);
    CalmAt(lines, l.idx);
    AtShape(lines, l.idx);
    SingleCalm(At(lines, l.idx), ViewOf(lines[l.idx]));
    NothingBefore(lines, pkg, l.idx);
  }

  lemma {:induction false} SingleLoc(c: Ctl, v: View, l: Loc, pkg: string)
    requires LocOf(c, v, l.idx, pkg) == [l] && l.single
    ensures v.Text? && !c.inBlock && v.outer.Single? && v.outer.pkg == pkg
  {
  }

  lemma {:induction false} SingleCalm(c: Ctl, v: View)
    requires v.Text? && !c.inBlock && (v.outer.Single? || v.outer.Rule?) && !Slips(c, v) && c.cur == ""
    ensures c == Start
  {
  }

  lemma {:induction false} NothingBefore(lines: seq<string>, pkg: string, at: nat)
    requires at < |lines|
    requires Singles(LocsOf(Start, lines, 0, pkg)) != [] && Singles(LocsOf(Start, lines, 0, pkg))[0].idx == at
    ensures Pick(LocsOf(Start, lines[..at], 0, pkg), SinglesOnly) == []
  {
    hide ViewOf, At, LocOf, Picked, LocsOf, Walk, Pick;
    var a, b := lines[..at], lines[at..];
    assert lines == a + b;
    LocsConcat(Start, a, b, 0, pkg);
    var la, lb := LocsOf(Start, a, 0, pkg), LocsOf(Walk(Start, a), b, at, pkg);
    PickConcat(la, lb, SinglesOnly);
    assert a[..at] == a;
    LocsIndexed(a, at, pkg);
    PickFrom(la, SinglesOnly);
    FirstOf(Pick(la, SinglesOnly), Pick(lb, SinglesOnly), at);
  }

  lemma {:induction false} FirstOf(a: seq<Loc>, b: seq<Loc>, at: nat)
    requires (forall k | 0 <= k < |a| :: a[k].idx < at) && a + b != [] && (a + b)[0].idx == at
    ensures a == []
  {
  }

  // ---- putting the rules into their block

  /** What `Inserted` needs of the rules it inserts. */
  predicate RunsIn(pkg: string, items: seq<string>, g: seq<RawRule>) {
    Walk(In(pkg), items) == In(pkg) && SlipCount(In(pkg), items) == 0 && Attempts(In(pkg), items) == g
  }

  /** The standalone line that would become the block's header carries no comment. */
  predicate HeaderFree(cut: seq<string>, t: Target) {
    t.blockClose.None? && t.pkgLine.Some? && t.pkgLine.value.Standalone? && t.pkgLine.value.idx < |cut| ==>
      CommentAt(cut[t.pkgLine.value.idx]).None?
  }

  /** There is no place for the rules yet. */
  predicate NewBlock(t: Target) {
    t.blockClose.None? && !(t.pkgLine.Some? && t.pkgLine.value.Standalone?)
  }

  lemma {:induction false} InsertAtClose(cut: seq<string>, pkg: string, items: seq<string>, g: seq<RawRule>, close: nat)
    returns (before: seq<RawRule>, after: seq<RawRule>)
    requires close <= |cut| && At(cut, close) == In(pkg) && RunsIn(pkg, items, g)
    ensures Sound(cut) ==> Sound(cut[..close] + items + cut[close..])
    ensures Rules(cut) == before + after && Rules(cut[..close] + items + cut[close..]) == before + g + after
  {
    hide ViewOf, Next, Walk, Attempts, SlipCount, Sound;
    var a, b := cut[..close], cut[close..];
    assert cut == a + [] + b;
    NoLine(In(pkg));
    before, after := Replace(a, [], items, b);
    assert before + [] + after == before + after;
  }

  lemma {:induction false} InsertBlock(cut: seq<string>, pkg: string, items: seq<string>, g: seq<RawRule>, at: nat)
    returns (before: seq<RawRule>, after: seq<RawRule>)
    requires at <= |cut| && At(cut, at) == Start && RunsIn(pkg, items, g) && BareOk(pkg) && pkg != ""
    ensures var block := [BareOpenLine(pkg)] + items + ["}"];
            && (Sound(cut) ==> Sound(cut[..at] + block + cut[at..]))
            && Rules(cut) == before + after && Rules(cut[..at] + block + cut[at..]) == before + g + after
  {
    hide ViewOf, Walk, Attempts, SlipCount, Sound, BareOpenLine, BareOk;
    var a, b := cut[..at], cut[at..];
    assert cut == a + [] + b;
    NoLine(Start);
    PrintedShowsBare(pkg);
    BlockRuns(Start, BareOpenLine(pkg), items, pkg);
    assert Attempt(Start, ViewOf(BareOpenLine(pkg))) == [];
    before, after := Replace(a, [], [BareOpenLine(pkg)] + items + ["}"], b);
    assert before + [] + after == before + after;
    assert [] + g == g;
  }

  lemma {:induction false} InsertAfterHeader(cut: seq<string>, pkg: string, items: seq<string>, g: seq<RawRule>, i: nat)
    returns (before: seq<RawRule>, after: seq<RawRule>)
    requires i < |cut| && At(cut, i) == Start && RunsIn(pkg, items, g) && pkg != ""
    requires ViewOf(cut[i]).Text? && ViewOf(cut[i]).outer.Rule? && ViewOf(cut[i]).outer.pkg == pkg
    requires !ViewOf(cut[i]).outer.open && CommentAt(cut[i]).None?
    ensures var block := [TrimEnd(cut[i]) + " {"] + items + ["}"];
            && (Sound(cut) ==> Sound(cut[..i] + block + cut[i + 1..]))
            && Rules(cut) == before + after && Rules(cut[..i] + block + cut[i + 1..]) == before + g + after
  {
    hide ViewOf, Walk, Attempts, SlipCount, Sound, TrimEnd;
    var a, b := cut[..i], cut[i + 1..];
    var header := TrimEnd(cut[i]) + " {";
    assert cut == a + [cut[i]] + b;
    AppendOpen(cut[i]);
    OneLine(Start, cut[i]);
    BlockRuns(Start, header, items, pkg);
    var x, y := Attempt(Start, ViewOf(cut[i])), Attempt(Start, ViewOf(header));
    assert x == y;
    var b0, a0 := Replace(a, [cut[i]], [header] + items + ["}"], b);
    before, after := b0 + x, a0;
    assert b0 + (x + g) + a0 == before + g + after;
  }

  /** Wherever the rules go, they are added and nothing else changes. */
  lemma {:induction false} InsertMeans(cut: seq<string>, pkg: string, items: seq<string>, g: seq<RawRule>, at: nat)
    returns (before: seq<RawRule>, after: seq<RawRule>)
    requires Sound(cut) && pkg != "" && RunsIn(pkg, items, g)
    requires NewBlock(ScanOf(cut, pkg)) ==> BareOk(pkg)
    requires at <= |cut| && At(cut, at) == Start && HeaderFree(cut, ScanOf(cut, pkg))
    ensures Sound(Inserted(cut, ScanOf(cut, pkg), pkg, items, at))
    ensures Rules(cut) == before + after
    ensures Rules(Inserted(cut, ScanOf(cut, pkg), pkg, items, at)) == before + g + after
  {
    hide ViewOf, Walk, Attempts, SlipCount, ScanTo, BareOk, RunsIn, BareOpenLine, TrimEnd, Slips, Next, Naming, NoNaming, NoOpening, Opening;
    var t := ScanOf(cut, pkg);
    BlockFacts(cut, |cut|, pkg);
    PkgLineFacts(cut, |cut|, pkg);
    if t.blockClose.Some? {
      before, after := InsertAtClose(cut, pkg, items, g, t.blockClose.value);
    } else if t.pkgLine.Some? && t.pkgLine.value.Standalone? {
      var i := t.pkgLine.value.idx;
      StandaloneAt(cut, i, pkg);
      before, after := InsertAfterHeader(cut, pkg, items, g, i);
    } else {
      before, after := InsertBlock(cut, pkg, items, g, at);
    }
  }

  lemma {:induction false} StandaloneAt(lines: seq<string>, i: nat, pkg: string)
    requires Calm(lines) && FirstNaming(lines, i, pkg) && ViewOf(lines[i]).outer.Rule?
    ensures At(lines, i) == Start && ViewOf(lines[i]).Text? && ViewOf(lines[i]).outer.pkg == pkg
  {
    hide ViewOf, At, Slips, NoNaming;
    CalmAt(lines, i);
    AtShape(lines, i);
    SingleCalm(At(lines, i), ViewOf(lines[i]));
  }

  // ---- the main theorem

  /** The single-line rules of `pkg` have names that an in-block line can carry. */
  predicate NamesPrintable(lines: seq<string>, pkg: string) {
    forall r | r in Gone(Start, lines, pkg, SinglesOnly) :: EntryNameOk(r.thread)
  }

  predicate NormalizeSafe(lines: seq<string>, pkg: string) {
    && NamesPrintable(lines, pkg)
    && (Singles(ScanOf(lines, pkg).threads) != [] ==> HeaderFree(Cut(lines, pkg), ScanOf(Cut(lines, pkg), pkg)))
  }

  predicate SpecsLike(rs: seq<RawRule>) {
    forall r | r in rs :: SpecLike(r.spec)
  }

  lemma {:induction false} GonePrintable(lines: seq<string>, pkg: string)
    requires pkg != "" && Calm(lines) && SpecsLike(Rules(lines)) && NamesPrintable(lines, pkg)
    ensures forall r | r in Gone(Start, lines, pkg, SinglesOnly) :: Printable(r)
  {
    hide Attempts, Gone, EntryNameOk, SpecLike, Pruned;
    PruneAttempts(Start, lines, pkg, SinglesOnly);
    forall r | r in Gone(Start, lines, pkg, SinglesOnly) ensures Printable(r) {
      assert r in multiset(Rules(lines));
    }
  }

  /** The file without its single-line rules, and where the block may go. */
  lemma {:induction false} CutFacts(lines: seq<string>, pkg: string)
    requires pkg != "" && Sound(lines) && Singles(ScanOf(lines, pkg).threads) != []
    ensures var at := Singles(ScanOf(lines, pkg).threads)[0].idx;
            && Sound(Cut(lines, pkg)) && at <= |Cut(lines, pkg)| && At(Cut(lines, pkg), at) == Start && BareOk(pkg)
  {
    hide ViewOf, Attempts, LocsOf, Pruned, Pick, Cut, ScanTo, Items, ItemsOf, Walk, SlipCount;
    var at := Singles(ScanOf(lines, pkg).threads)[0].idx;
    FirstSingle(lines, pkg);
    ViewNames(lines[at]);
    CutIsPruned(lines, pkg);
    PruneWalk(Start, lines, pkg, SinglesOnly);
    var a := lines[..at];
    assert lines == a + lines[at..];
    PruneConcat(Start, a, lines[at..], pkg, SinglesOnly);
    PruneNothing(Start, a, 0, pkg, SinglesOnly);
    PrefixSame(lines, a, Pruned(At(lines, at), lines[at..], pkg, SinglesOnly), Cut(lines, pkg));
  }

  lemma {:induction false} PrefixSame(lines: seq<string>, a: seq<string>, r: seq<string>, cut: seq<string>)
    requires a <= lines && cut == a + r
    ensures |a| <= |cut| && At(cut, |a|) == At(lines, |a|)
  {
    assert cut[..|a|] == a && lines[..|a|] == a;
  }

  /**
   * Normalising keeps the file sound, keeps every rule, keeps the order of all rules of
   * other packages and of the package-level rules; only thread rules of `pkg` move.
   */
  lemma {:induction false} NormalizeMeans(lines: seq<string>, pkg: string)
    requires pkg != "" && Sound(lines) && SpecsLike(Rules(lines)) && NormalizeSafe(lines, pkg)
    ensures Sound(Normalized(lines, pkg)) && SameFor(Rules(Normalized(lines, pkg)), Rules(lines), pkg)
  {
    hide ViewOf, Attempts, Pruned, Gone, ItemsOf, ScanTo, Printable, Inserted, HeaderFree, Select, SpecsLike, Cut, Items, Pick, Gives, BareOk;
    CutIsPruned(lines, pkg);
    var t := ScanOf(lines, pkg);
    var items, g := ItemsOf(Start, lines, pkg), Gone(Start, lines, pkg, SinglesOnly);
    if items != [] && !Gives(t, Singles(t.threads)) {
      SomeItems(lines, Singles(t.threads));
      GonePrintable(lines, pkg);
      ItemsRun(Start, lines, pkg);
      CutFacts(lines, pkg);
      var before, after := InsertMeans(Cut(lines, pkg), pkg, items, g, Singles(t.threads)[0].idx);
      PruneAttempts(Start, lines, pkg, SinglesOnly);
      PruneKeepsPart(Start, lines, pkg, SinglesOnly, OtherPkgs(pkg));
      PruneKeepsPart(Start, lines, pkg, SinglesOnly, PkgRules(pkg));
      MovedRules(Rules(lines), Rules(Cut(lines, pkg)), before, g, after, pkg);
    }
  }

  lemma {:induction false} SomeItems(lines: seq<string>, locs: seq<Loc>)
    requires Items(lines, locs) != []
    ensures locs != []
  {
  }
}
