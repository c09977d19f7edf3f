/** After normalisation no single-line rule of the package is left; a second run changes nothing. */
module NormalForm {
  import opened Seqs
  import opened Text
  import opened RuleSyntax
  import opened LinePrint
  import opened LineHeader
  import opened LineParts
  import opened Loader
  import opened Scan
  import opened ScanSim
  import opened ScanFacts
  import opened Prune
  import opened PruneMeans
  import opened Splice
  import opened Normalize
  import opened NormalizeProof
  import opened NormalizeMain

  /** No line is a single-line rule of `pkg`, read from state `c`. */
  predicate NoSingles(c: Ctl, lines: seq<string>, pkg: string) {
    Gone(c, lines, pkg, SinglesOnly) == []
  }

  lemma {:induction false} GoneConcat(c: Ctl, a: seq<string>, b: seq<string>, pkg: string, sel: Sel)
    ensures Gone(c, a + b, pkg, sel) == Gone(c, a, pkg, sel) + Gone(Walk(c, a), b, pkg, sel)
    decreases |a|
  {
    hide ViewOf, Next, Attempt, LocOf, Pick;
    if a == [] {
      NilLeft(b);
    } else {
      ConsDrop(a, b);
      GoneConcat(Next(c, ViewOf(a[0])), a[1..], b, pkg, sel);
    }
  }

  lemma {:induction false} GoneOne(c: Ctl, line: string, pkg: string, sel: Sel)
    ensures Gone(c, [line], pkg, sel) == [] <==> Pick(LocOf(c, ViewOf(line), 0, pkg), sel) == []
  {
    hide ViewOf, Next, LocOf, Picked;
    assert [line][1..] == [];
    assert Gone(Next(c, ViewOf(line)), [], pkg, sel) == [];
    if Pick(LocOf(c, ViewOf(line), 0, pkg), sel) != [] {
      PickedRule(c, line, pkg, sel);
    }
  }

  /** The scan's records and the removed rules vanish together. */
  lemma {:induction false} GoneIffPicked(c: Ctl, lines: seq<string>, base: nat, pkg: string, sel: Sel)
    ensures Gone(c, lines, pkg, sel) == [] <==> Pick(LocsOf(c, lines, base, pkg), sel) == []
    decreases |lines|
  {
    hide ViewOf, Next, LocOf, Picked, Attempt;
    if lines != [] {
      var v := ViewOf(lines[0]);
      PickConcat(LocOf(c, v, base, pkg), LocsOf(Next(c, v), lines[1..], base + 1, pkg), sel);
      LineOnly(c, lines[0], base, pkg, sel);
      GoneIffPicked(Next(c, v), lines[1..], base + 1, pkg, sel);
      if Pick(LocOf(c, v, 0, pkg), sel) != [] {
        PickedRule(c, lines[0], pkg, sel);
      }
    }
  }

  lemma {:induction false} NoSinglesIff(lines: seq<string>, pkg: string)
    requires pkg != "" && Calm(lines)
    ensures NoSingles(Start, lines, pkg) <==> Singles(ScanOf(lines, pkg).threads) == []
  {
    hide Gone, Pick, LocsOf;
    ScanLocs(lines, pkg);
    GoneIffPicked(Start, lines, 0, pkg, SinglesOnly);
  }

  /** Pruning the single-line rules leaves none. */
  lemma {:induction false} PrunedNoSingles(c: Ctl, lines: seq<string>, pkg: string)
    requires pkg != "" && SlipCount(c, lines) == 0
    ensures NoSingles(c, Pruned(c, lines, pkg, SinglesOnly), pkg)
    decreases |lines|
  {
    hide ViewOf, Next, LocOf, Picked, Attempt, PruneLine, Slips;
    if lines != [] {
      var v := ViewOf(lines[0]);
      var here, tail := PruneLine(c, lines[0], pkg, SinglesOnly), Pruned(Next(c, v), lines[1..], pkg, SinglesOnly);
      PrunedNoSingles(Next(c, v), lines[1..], pkg);
      PruneLineWalk(c, lines[0], pkg, SinglesOnly);
      PruneLineNoSingle(c, lines[0], pkg);
      GoneConcat(c, here, tail, pkg, SinglesOnly);
    }
  }

  lemma {:induction false} PruneLineNoSingle(c: Ctl, line: string, pkg: string)
    requires pkg != ""
    ensures NoSingles(c, PruneLine(c, line, pkg, SinglesOnly), pkg)
  {
    hide ViewOf, WithComment, BareOpenLine;
    var locs := Pick(LocOf(c, ViewOf(line), 0, pkg), SinglesOnly);
    if locs == [] {
      GoneOne(c, line, pkg, SinglesOnly);
    } else {
      SinglePicked(c, line, pkg);
      SingleShape(c, ViewOf(line), pkg);
      if locs[0].open {
        ViewNames(line);
        BareOpenPrinted(pkg, line);
        GoneOne(c, WithComment(BareOpenLine(pkg), line), pkg, SinglesOnly);
      }
    }
  }

  lemma {:induction false} SingleShape(c: Ctl, v: View, pkg: string)
    requires Pick(LocOf(c, v, 0, pkg), SinglesOnly) != []
    ensures var l := Pick(LocOf(c, v, 0, pkg), SinglesOnly)[0]; l.single && !l.closed
  {
  }

  lemma {:induction false} InsideNoSingle(c: Ctl, line: string, pkg: string)
    requires c.inBlock
    ensures NoSingles(c, [line], pkg)
  {
    hide ViewOf;
    GoneOne(c, line, pkg, SinglesOnly);
  }

  lemma {:induction false} ItemsNoSingles(c: Ctl, lines: seq<string>, pkg: string)
    requires forall r | r in Gone(c, lines, pkg, SinglesOnly) :: Printable(r)
    ensures NoSingles(In(pkg), ItemsOf(c, lines, pkg), pkg)
    decreases |lines|
  {
    hide ViewOf, Next, LocOf, ItemOf, Attempt, Printable, Pick;
    if lines != [] {
      var v := ViewOf(lines[0]);
      ItemsNoSingles(Next(c, v), lines[1..], pkg);
      var rest := ItemsOf(Next(c, v), lines[1..], pkg);
      if Pick(LocOf(c, v, 0, pkg), SinglesOnly) != [] {
        ItemReads(c, lines[0], pkg);
        var here := [ItemOf(lines[0]).value];
        InsideNoSingle(In(pkg), here[0], pkg);
        GoneConcat(In(pkg), here, rest, pkg, SinglesOnly);
      } else {
        assert ItemsOf(c, lines, pkg) == rest;
      }
    }
  }

  lemma {:induction false} BlockNoSingles(c: Ctl, header: string, items: seq<string>, pkg: string)
    requires !c.inBlock && Next(c, ViewOf(header)) == In(pkg) && ViewOf(header).Text?
    requires ViewOf(header).outer.Rule? || ViewOf(header).outer.BareOpen?
    requires Walk(In(pkg), items) == In(pkg) && NoSingles(In(pkg), items, pkg)
    ensures NoSingles(c, [header] + items + ["}"], pkg)
  {
    hide ViewOf, Next;
    GoneOne(c, header, pkg, SinglesOnly);
    OneLine(c, header);
    GoneConcat(c, [header], items, pkg, SinglesOnly);
    WalkConcat(c, [header], items);
    InsideNoSingle(In(pkg), "}", pkg);
    GoneConcat(c, [header] + items, ["}"], pkg, SinglesOnly);
  }

  /** Replacing lines by lines without single-line rules. */
  lemma {:induction false} ReplaceNoSingles(a: seq<string>, x: seq<string>, y: seq<string>, b: seq<string>, pkg: string)
    requires Walk(Walk(Start, a), y) == Walk(Walk(Start, a), x)
    requires NoSingles(Start, a + x + b, pkg) && NoSingles(Walk(Start, a), y, pkg)
    ensures NoSingles(Start, a + y + b, pkg)
  {
    hide Gone, Walk;
    GoneConcat(Start, a + x, b, pkg, SinglesOnly);
    GoneConcat(Start, a, x, pkg, SinglesOnly);
    GoneConcat(Start, a + y, b, pkg, SinglesOnly);
    GoneConcat(Start, a, y, pkg, SinglesOnly);
    WalkConcat(Start, a, x);
    WalkConcat(Start, a, y);
  }

  lemma {:induction false} InsertNoSingles(cut: seq<string>, pkg: string, items: seq<string>, g: seq<RawRule>, at: nat)
    requires Sound(cut) && pkg != "" && RunsIn(pkg, items, g)
    requires NewBlock(ScanOf(cut, pkg)) ==> BareOk(pkg)
    requires at <= |cut| && At(cut, at) == Start && HeaderFree(cut, ScanOf(cut, pkg))
    requires NoSingles(Start, cut, pkg) && NoSingles(In(pkg), items, pkg)
    ensures NoSingles(Start, Inserted(cut, ScanOf(cut, pkg), pkg, items, at), pkg)
  {
    hide ViewOf, Attempts, SlipCount, ScanTo, BareOk, BareOpenLine, TrimEnd, Naming, NoNaming, NoOpening, Opening, Gone, Walk;
    var t := ScanOf(cut, pkg);
    BlockFacts(cut, |cut|, pkg);
    PkgLineFacts(cut, |cut|, pkg);
    if t.blockClose.Some? {
      var k := t.blockClose.value;
      assert cut == cut[..k] + [] + cut[k..];
      NoLine(In(pkg));
      ReplaceNoSingles(cut[..k], [], items, cut[k..], pkg);
    } else if t.pkgLine.Some? && t.pkgLine.value.Standalone? {
      var i := t.pkgLine.value.idx;
      StandaloneAt(cut, i, pkg);
      HeaderNoSingles(cut, pkg, items, g, i);
    } else {
      assert cut == cut[..at] + [] + cut[at..];
      NoLine(Start);
      PrintedShowsBare(pkg);
      BlockRuns(Start, BareOpenLine(pkg), items, pkg);
      BlockNoSingles(Start, BareOpenLine(pkg), items, pkg);
      ReplaceNoSingles(cut[..at], [], [BareOpenLine(pkg)] + items + ["}"], cut[at..], pkg);
    }
  }

  lemma {:induction false} HeaderNoSingles(cut: seq<string>, pkg: string, items: seq<string>, g: seq<RawRule>, i: nat)
    requires i < |cut| && At(cut, i) == Start && RunsIn(pkg, items, g) && pkg != ""
    requires ViewOf(cut[i]).Text? && ViewOf(cut[i]).outer.Rule? && ViewOf(cut[i]).outer.pkg == pkg
    requires !ViewOf(cut[i]).outer.open && CommentAt(cut[i]).None?
    requires NoSingles(Start, cut, pkg) && NoSingles(In(pkg), items, pkg)
    ensures NoSingles(Start, cut[..i] + ([TrimEnd(cut[i]) + " {"] + items + ["}"]) + cut[i + 1..], pkg)
  {
    hide ViewOf, Walk, TrimEnd, Gone;
    var header := TrimEnd(cut[i]) + " {";
    assert cut == cut[..i] + [cut[i]] + cut[i + 1..];
    AppendOpen(cut[i]);
    OneLine(Start, cut[i]);
    BlockRuns(Start, header, items, pkg);
    BlockNoSingles(Start, header, items, pkg);
    ReplaceNoSingles(cut[..i], [cut[i]], [header] + items + ["}"], cut[i + 1..], pkg);
  }

  /** On a sound file the edit never has to give up. */
  lemma {:induction false} NeverGives(lines: seq<string>, pkg: string)
    requires pkg != "" && Sound(lines)
    ensures !Gives(ScanOf(lines, pkg), Singles(ScanOf(lines, pkg).threads))
  {
    hide ViewOf, ScanTo, Slips, LocOf, Pick, LocsOf, Naming, Next;
    var t := ScanOf(lines, pkg);
    BlockFacts(lines, |lines|, pkg);
    PkgLineFacts(lines, |lines|, pkg);
    assert lines[..|lines|] == lines;
    assert At(lines, |lines|) == Walk(Start, lines);
    if t.blockClose.None? {
      assert NoOpening(lines, |lines|, pkg);
      if t.pkgLine.Some? && !t.pkgLine.value.Standalone? {
        OpensIfNamed(lines, t, pkg);
      }
      SinglesClosed(lines, pkg);
    }
  }

  /** A recorded package line other than a standalone one opens a block. */
  lemma {:induction false} OpensIfNamed(lines: seq<string>, t: Target, pkg: string)
    requires pkg != "" && Calm(lines) && PkgLineMeans(lines, |lines|, t, pkg)
    requires t.pkgLine.Some? && !t.pkgLine.value.Standalone?
    ensures !NoOpening(lines, |lines|, pkg)
  {
    hide ViewOf, At;
    var i := match t.pkgLine.value
      case OpenInline(i) => i
      case OpenBare(i) => i
      case OpenPending(p) => var o :| p < o < |lines| && PendingOpens(lines, p, o, pkg); o;
    CalmAt(lines, i);
    assert Opening(At(lines, i), ViewOf(lines[i]), pkg);
  }

  lemma {:induction false} SinglesClosed(lines: seq<string>, pkg: string)
    requires pkg != "" && Calm(lines) && NoOpening(lines, |lines|, pkg)
    ensures !AnyOpen(Singles(ScanOf(lines, pkg).threads))
  {
    hide ViewOf, At, Pick, LocsOf, LocOf, Next;
    ScanLocs(lines, pkg);
    assert lines[..|lines|] == lines;
    LocsIndexed(lines, |lines|, pkg);
    var locs := LocsOf(Start, lines, 0, pkg);
    PickFrom(locs, SinglesOnly);
    forall k | 0 <= k < |Singles(locs)| ensures !Singles(locs)[k].open {
      var l := Singles(locs)[k];
      assert l in Singles(locs);
      assert !Opening(At(lines, l.idx), ViewOf(lines[l.idx]), pkg);
      SingleOpens(At(lines, l.idx), ViewOf(lines[l.idx]), l, pkg);
    }
  }

  lemma {:induction false} SingleOpens(c: Ctl, v: View, l: Loc, pkg: string)
    requires LocOf(c, v, l.idx, pkg) == [l] && l.single
    ensures l.open ==> Opening(c, v, pkg)
  {
  }

  /** No single-line rule of the package is left. */
  lemma {:induction false} NormalizedNoSingles(lines: seq<string>, pkg: string)
    requires pkg != "" && Sound(lines) && SpecsLike(Rules(lines)) && NormalizeSafe(lines, pkg)
    ensures NoSingles(Start, Normalized(lines, pkg), pkg)
    ensures Singles(ScanOf(Normalized(lines, pkg), pkg).threads) == []
  {
    hide ViewOf, Attempts, Pruned, Gone, ItemsOf, ScanTo, Printable, Inserted, HeaderFree, SpecsLike, Cut, Items, Pick, Gives, BareOk;
    NormalizeMeans(lines, pkg);
    NoSinglesIff(Normalized(lines, pkg), pkg);
    CutIsPruned(lines, pkg);
    var t := ScanOf(lines, pkg);
    var items, g := ItemsOf(Start, lines, pkg), Gone(Start, lines, pkg, SinglesOnly);
    NeverGives(lines, pkg);
    GonePrintable(lines, pkg);
    ItemsRun(Start, lines, pkg);
    if items != [] {
      SomeItems(lines, Singles(t.threads));
      CutFacts(lines, pkg);
      PrunedNoSingles(Start, lines, pkg);
      ItemsNoSingles(Start, lines, pkg);
      InsertNoSingles(Cut(lines, pkg), pkg, items, g, Singles(t.threads)[0].idx);
    }
  }

  /** Normalising twice is normalising once. */
  lemma {:induction false} NormalizeIdempotent(lines: seq<string>, pkg: string)
    requires pkg != "" && Sound(lines) && SpecsLike(Rules(lines)) && NormalizeSafe(lines, pkg)
    ensures Normalized(Normalized(lines, pkg), pkg) == Normalized(lines, pkg)
  {
    hide SpecsLike, NormalizeSafe, ScanTo, Inserted, Cut, Gives;
    NormalizedNoSingles(lines, pkg);
    assert Items(Normalized(lines, pkg), []) == [];
  }

  lemma {:induction false} NoSinglesSame(n: seq<string>, pkg: string)
    requires Singles(ScanOf(n, pkg).threads) == []
    ensures Normalized(n, pkg) == n
  {
    hide ScanTo, Inserted, Cut, Gives;
    assert Items(n, []) == [];
  }
}
