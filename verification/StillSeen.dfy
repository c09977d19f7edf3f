/** A package that some line names is still named after its normalisation, safe or not. */
module StillSeen {
  import opened Seqs
  import opened Text
  import opened RuleSyntax
  import opened LinePrint
  import opened LineHeader
  import opened Loader
  import opened Scan
  import opened ScanSim
  import opened ScanFacts
  import opened ScanRange
  import opened Splice
  import opened Normalize
  import opened NormalizeProof
  import opened NormalizeMain
  import opened NormalForm
  import opened UpsertPkg
  import opened Unseen

  /** The scan of a prefix depends on the prefix alone. */
  lemma {:induction false} ScanPrefix(a: seq<string>, b: seq<string>, n: nat, pkg: string)
    requires n <= |a| && n <= |b| && a[..n] == b[..n]
    ensures ScanTo(a, n, pkg) == ScanTo(b, n, pkg)
  {
    hide ViewOf, StepInside, StepOutside;
    if n > 0 {
      var m := n - 1;
      assert a[..m] == a[..n][..m] && b[..m] == b[..n][..m];
      assert a[m] == a[..n][m] && b[m] == b[..n][m];
      ScanPrefix(a, b, m, pkg);
      var s := ScanTo(a, m, pkg);
      ScanInRange(a, m, pkg);
      if s.pending.Some? {
        var p := s.pending.value;
        assert a[p] == a[..m][p] && b[p] == b[..m][p];
      }
    }
  }

  lemma {:induction false} SeenFrom(lines: seq<string>, m: nat, n: nat, pkg: string)
    requires m <= n <= |lines| && AnyLine(ScanTo(lines, m, pkg).t)
    ensures AnyLine(ScanTo(lines, n, pkg).t)
    decreases n
  {
    hide Step, AnyLine;
    if m < n {
      SeenFrom(lines, m, n - 1, pkg);
      StepSeen(lines, ScanTo(lines, n - 1, pkg), n - 1, pkg);
    }
  }

  /** An outer line naming the package, behind a prefix the two files share. */
  lemma {:induction false} SeenBehind(a: seq<string>, b: seq<string>, i: nat, pkg: string)
    requires i <= |a| && i < |b| && a[..i] == b[..i] && pkg != "" && Calm(a) && At(a, i) == Start
    requires ViewOf(b[i]).Text? && (ViewOf(b[i]).outer == BareOpen(pkg) || (ViewOf(b[i]).outer.Rule? && ViewOf(b[i]).outer.pkg == pkg))
    ensures AnyLine(ScanOf(b, pkg))
  {
    hide ViewOf, Walk, SlipCount, ScanTo, Pick;
    ScanSimulates(a, i, pkg);
    ScanPrefix(a, b, i, pkg);
    NamesHere(b, ScanTo(b, i, pkg), i, pkg);
    NextScan(b, i, pkg);
    SeenFrom(b, i + 1, |b|, pkg);
  }

  lemma {:induction false} NextScan(b: seq<string>, i: nat, pkg: string)
    requires i < |b|
    ensures ScanTo(b, i + 1, pkg) == Step(b, ScanTo(b, i, pkg), i, pkg)
  {
    hide Step;
  }

  lemma {:induction false} NamesHere(b: seq<string>, s: State, i: nat, pkg: string)
    requires i < |b| && !s.inBlock && pkg != ""
    requires ViewOf(b[i]).Text? && (ViewOf(b[i]).outer == BareOpen(pkg) || (ViewOf(b[i]).outer.Rule? && ViewOf(b[i]).outer.pkg == pkg))
    ensures AnyLine(Step(b, s, i, pkg).t)
  {
    hide ViewOf, Pick, WaitingName;
  }

  /** A block of the package was named where it was opened. */
  lemma {:induction false} SeenAtBlock(cut: seq<string>, out: seq<string>, close: nat, pkg: string)
    requires Sound(cut) && pkg != "" && NoSingles(Start, cut, pkg) && ScanOf(cut, pkg).blockClose == Some(close)
    requires close <= |cut| && close <= |out| && cut[..close] == out[..close]
    ensures AnyLine(ScanOf(out, pkg))
  {
    hide ViewOf, At, ScanTo, Naming, SlipCount, Ends, Pick, Within, Opening;
    BlockFacts(cut, |cut|, pkg);
    var o := ScanOf(cut, pkg).blockOpen.value;
    OpeningNames(cut, o, pkg);
    PkgLineFacts(cut, o + 1, pkg);
    assert out[..o + 1] == cut[..o + 1] by {
      assert out[..o + 1] == out[..close][..o + 1] && cut[..o + 1] == cut[..close][..o + 1];
    }
    ScanPrefix(cut, out, o + 1, pkg);
    SeenFrom(out, o + 1, |out|, pkg);
  }

  /** Wherever rules are inserted for the package, a line names it. */
  lemma {:induction false} InsertedSeen(cut: seq<string>, pkg: string, items: seq<string>, at: nat)
    requires Sound(cut) && pkg != "" && NoSingles(Start, cut, pkg) && BareOk(pkg)
    requires at <= |cut| && At(cut, at) == Start
    ensures AnyLine(ScanOf(Inserted(cut, ScanOf(cut, pkg), pkg, items, at), pkg))
  {
    hide ViewOf, At, ScanTo, Naming, NoNaming, SlipCount, Ends, Pick, TrimEnd, BareOpenLine, BareOk, AnyLine, BlockMeans;
    var t := ScanOf(cut, pkg);
    PkgLineFacts(cut, |cut|, pkg);
    ScanInRange(cut, |cut|, pkg);
    var out := Inserted(cut, t, pkg, items, at);
    if t.blockClose.Some? {
      var k := t.blockClose.value;
      PrefixOf(cut[..k], items + cut[k..]);
      Assoc3(cut[..k], items, cut[k..]);
      SeenAtBlock(cut, out, k, pkg);
    } else if t.pkgLine.Some? && t.pkgLine.value.Standalone? {
      var i := t.pkgLine.value.idx;
      StandaloneAt(cut, i, pkg);
      AppendOpen(cut[i]);
      HeadAt(cut[..i], TrimEnd(cut[i]) + " {", items + ["}"], cut[i + 1..]);
      Assoc3([TrimEnd(cut[i]) + " {"], items, ["}"]);
      SeenBehind(cut, out, i, pkg);
    } else {
      PrintedShowsBare(pkg);
      HeadAt(cut[..at], BareOpenLine(pkg), items + ["}"], cut[at..]);
      Assoc3([BareOpenLine(pkg)], items, ["}"]);
      SeenBehind(cut, out, at, pkg);
    }
  }

  lemma {:induction false} HeadAt(a: seq<string>, h: string, more: seq<string>, b: seq<string>)
    ensures var s := a + ([h] + more) + b; |a| < |s| && s[..|a|] == a && s[|a|] == h
  {
  }

  /** The package of a single-line rule is named after its rules are moved. */
  lemma {:induction false} NormalizedSeen(n: seq<string>, pkg: string)
    requires Sound(n) && pkg != "" && Singles(ScanOf(n, pkg).threads) != []
    ensures AnyLine(ScanOf(Normalized(n, pkg), pkg))
  {
    hide ViewOf, At, ScanTo, SlipCount, Ends, Pick, Inserted, Cut, BareOk, Items, Gives;
    NeverGives(n, pkg);
    if Items(n, Singles(ScanOf(n, pkg).threads)) != [] {
      CutFacts(n, pkg);
      CutIsPruned(n, pkg);
      PrunedNoSingles(Start, n, pkg);
      InsertedSeen(Cut(n, pkg), pkg, Items(n, Singles(ScanOf(n, pkg).threads)), Singles(ScanOf(n, pkg).threads)[0].idx);
    }
  }
}
