/** Deleting one rule of a package. */
module Delete {
  import opened Seqs
  import opened Text
  import opened RuleSyntax
  import opened LineShape
  import opened LinePrint
  import opened SpecTheorems
  import opened CpuSpec
  import opened Loader
  import opened RuleSets
  import opened Scan
  import opened ScanSim
  import opened ScanFacts
  import opened Prune
  import opened PruneMeans
  import opened Splice
  import opened Normalize
  import opened NormalizeProof
  import opened NormalizeMain
  import opened NormalForm
  import opened Upsert
  import opened UpsertPkg
  import opened UpsertMain

  function DeletePackage(n: seq<string>, t: Target, pkg: string): RuleEdit {
    match t.pkgLine
    case Some(Standalone(i)) => if i < |n| then Ok(n[..i] + n[i + 1..]) else Ok(n)
    case Some(OpenInline(i)) => if i < |n| then Ok(n[i := BareOpenLine(pkg)]) else Ok(n)
    case _ => NotFound
  }

  function DeleteThread(n: seq<string>, t: Target, pkg: string, thread: string): RuleEdit {
    var locs := Pick(t.threads, Named(thread));
    if locs == [] then NotFound else Ok(RemoveAll(n, pkg, locs))
  }

  function Deleted(lines: seq<string>, pkg: string, thread: string): RuleEdit {
    var n := Normalized(lines, pkg);
    var t := ScanOf(n, pkg);
    if thread == "" then DeletePackage(n, t, pkg) else DeleteThread(n, t, pkg, thread)
  }

  // ---- a thread's rules

  /** A thread is found exactly when some rule names it. */
  lemma {:induction false} FoundIff(n: seq<string>, pkg: string, thread: string)
    requires Sound(n) && pkg != "" && thread != ""
    ensures Pick(ScanOf(n, pkg).threads, Named(thread)) == [] <==> Select(Rules(n), Just(pkg, thread)) == []
  {
    hide Attempts, Walk, SlipCount, ScanTo, Pick, Gone, Select, LocsOf, Pruned;
    ScanLocs(n, pkg);
    if Pick(ScanOf(n, pkg).threads, Named(thread)) == [] {
      NoRuleYet(n, pkg, thread);
      SelectNone(Rules(n), Just(pkg, thread));
    } else {
      GoneIffPicked(Start, n, 0, pkg, Named(thread));
      PruneAttempts(Start, n, pkg, Named(thread));
      var r := Gone(Start, n, pkg, Named(thread))[0];
      assert r in multiset(Rules(n));
      assert r in Gone(Start, n, pkg, Named(thread));
      SelectFrom(Rules(n), Just(pkg, thread));
      assert r in Select(Rules(n), Just(pkg, thread));
    }
  }

  lemma {:induction false} CutThread(n: seq<string>, pkg: string, thread: string)
    requires Sound(n) && pkg != "" && thread != ""
    ensures var after := RemoveAll(n, pkg, Pick(ScanOf(n, pkg).threads, Named(thread)));
            && Sound(after) && Select(Rules(after), Just(pkg, thread)) == []
            && (forall q | Apart(q, pkg, thread) :: Select(Rules(after), q) == Select(Rules(n), q))
            && (forall r | r in Rules(after) :: r in Rules(n))
  {
    hide Attempts, Walk, SlipCount, ScanTo, Pick, Gone, Select, LocsOf, Pruned, RemoveAll;
    ScanLocs(n, pkg);
    RemoveIsPrune([], Start, n, pkg, Named(thread));
    NilLeft(n);
    NilLeft(Pruned(Start, n, pkg, Named(thread)));
    PruneWalk(Start, n, pkg, Named(thread));
    PruneNamed(Start, n, pkg, thread);
    SelectNone(Rules(Pruned(Start, n, pkg, Named(thread))), Just(pkg, thread));
    forall q | Apart(q, pkg, thread)
      ensures Select(Rules(Pruned(Start, n, pkg, Named(thread))), q) == Select(Rules(n), q)
    {
      PruneKeepsPart(Start, n, pkg, Named(thread), q);
    }
    PruneAttempts(Start, n, pkg, Named(thread));
    forall r | r in Rules(Pruned(Start, n, pkg, Named(thread))) ensures r in Rules(n) {
      assert r in multiset(Rules(n));
    }
  }

  lemma {:induction false} StillGood(topo: Topology, lines: seq<string>, was: seq<RawRule>)
    requires Sound(lines) && AllAccepted(topo, was) && forall x | x in Rules(lines) :: x in was
    ensures Good(topo, lines) && Load(topo, lines).rules == Rules(lines)
  {
    hide Accepts, Attempts, Sound, Load;
    GoodIs(topo, lines);
  }

  /**
   * Deleting a thread: it is reported missing exactly when no rule names it; otherwise every
   * rule for it is gone and nothing else.
   */
  lemma {:induction false} DeleteThreadExact(topo: Topology, lines: seq<string>, pkg: string, thread: string)
    requires Good(topo, lines) && pkg != "" && thread != "" && NormalizeSafe(lines, pkg)
    ensures var e := Deleted(lines, pkg, thread);
            if Select(Load(topo, lines).rules, Just(pkg, thread)) == [] then e.NotFound?
            else && e.Ok? && Good(topo, e.lines)
                 && Select(Load(topo, e.lines).rules, Just(pkg, thread)) == []
                 && OthersKept(Load(topo, e.lines).rules, Load(topo, lines).rules, pkg, thread)
  {
    hide Attempts, Walk, SlipCount, ScanTo, Select, NormalizeSafe, Sound, SpecsLike, SameFor, OthersKept, Load, Normalized, Apart, Pick, RemoveAll, Accepts, Gone;
    Normal(topo, lines, pkg);
    var n := Normalized(lines, pkg);
    FoundIff(n, pkg, thread);
    SameFound(Rules(n), Rules(lines), pkg, thread);
    CutThread(n, pkg, thread);
    var after := RemoveAll(n, pkg, Pick(ScanOf(n, pkg).threads, Named(thread)));
    StillGood(topo, after, Rules(n));
    ThroughNormal(Rules(after), Rules(n), Rules(lines), pkg, thread);
  }

  lemma {:induction false} SameFound(a: seq<RawRule>, b: seq<RawRule>, pkg: string, thread: string)
    requires SameFor(a, b, pkg)
    ensures Select(a, Just(pkg, thread)) == [] <==> Select(b, Just(pkg, thread)) == []
  {
    hide Select;
    SelectMultiset(a, b, Just(pkg, thread));
    assert Select(a, Just(pkg, thread)) == [] <==> multiset(Select(a, Just(pkg, thread))) == multiset{};
    assert Select(b, Just(pkg, thread)) == [] <==> multiset(Select(b, Just(pkg, thread))) == multiset{};
  }

  // ---- the package rule

  lemma {:induction false} RuleHeader(line: string)
    requires ViewOf(line).Text? && ViewOf(line).outer.Rule? && ViewOf(line).outer.pkg != ""
    ensures HeaderOk(ViewOf(line).outer.pkg)
  {
    hide ViewOf, ParseBody, Trim, TrimEnd, SplitTarget;
    var lead, b, t := Decompose(line);
    var a, y, z := OuterForm(b);
    assert a <= b;
    KeyIsHeader(a, b);
  }

  lemma {:induction false} KeyIsHeader(a: string, b: string)
    requires IsBody(b) && a != "" && a <= b && SplitTarget(TrimEnd(a)).None? && Trim(a) != ""
    ensures HeaderOk(Trim(a))
  {
    hide SplitTarget;
    assert a[0] == b[0];
    TrimPrefix(a);
    OuterKey(b, Trim(a));
    var lead, tail := TrimParts(a);
  }

  /** Deleting the rule on the line that first names the package. */
  lemma {:induction false} CutPackage(n: seq<string>, pkg: string)
    returns (before: seq<RawRule>, was: RawRule, after: seq<RawRule>)
    requires Sound(n) && pkg != "" && Carries(ScanOf(n, pkg))
    ensures var e := DeletePackage(n, ScanOf(n, pkg), pkg);
            e.Ok? && Sound(e.lines) && Rules(e.lines) == before + after
    ensures Rules(n) == before + [was] + after && was.pkg == pkg && was.thread == ""
    ensures Select(before, PkgRules(pkg)) == []
  {
    hide ViewOf, Attempts, Walk, SlipCount, ScanTo, Select, Naming, At, NoNaming, Sound;
    var t := ScanOf(n, pkg);
    PkgLineFacts(n, |n|, pkg) by { SoundCalm(n); }
    var i := t.pkgLine.value.idx;
    SoundCalm(n);
    StandaloneAt(n, i, pkg);
    var a, line, b := n[..i], n[i], n[i + 1..];
    SplitAround(n, i);
    AtIs(n, i);
    OneLine(Start, line);
    RuleAttempt(pkg, ViewOf(line));
    NoPkgRules(n, i, pkg);
    was := Attempt(Start, ViewOf(line))[0];
    if t.pkgLine.value.Standalone? {
      NoLine(Start);
      RuleStays(ViewOf(line));
      before, after := Replace(a, [line], [], b);
      NilMiddle(before, after);
      NilLeft(a);
    } else {
      RuleHeader(line);
      HeaderIsBare(pkg);
      PrintedShowsBare(pkg);
      OneLine(Start, BareOpenLine(pkg));
      RuleOpens(ViewOf(line), ViewOf(BareOpenLine(pkg)), pkg);
      UpdateAround(n, i, BareOpenLine(pkg));
      before, after := Replace(a, [line], [BareOpenLine(pkg)], b);
      NilMiddle(before, after);
    }
  }

  lemma {:induction false} SoundCalm(n: seq<string>)
    requires Sound(n)
    ensures Calm(n)
  {
  }

  lemma {:induction false} RuleStays(v: View)
    requires v.Text? && v.outer.Rule? && !v.outer.open
    ensures Next(Start, v) == Start
  {
  }

  lemma {:induction false} RuleOpens(v: View, w: View, pkg: string)
    requires v.Text? && v.outer.Rule? && v.outer.pkg == pkg && v.outer.open && pkg != ""
    requires w.Text? && w.outer == BareOpen(pkg)
    ensures Next(Start, v) == Next(Start, w) && Attempt(Start, w) == [] && !Slips(Start, w)
  {
  }

  /**
   * Deleting the package rule: it is found exactly when the line that first names the package
   * carries it; then the package's first rule goes and all others stay.
   */
  lemma {:induction false} DeletePackageExact(topo: Topology, lines: seq<string>, pkg: string)
    requires Good(topo, lines) && pkg != "" && NormalizeSafe(lines, pkg)
    ensures var e := Deleted(lines, pkg, ""); var was := Select(Load(topo, lines).rules, PkgRules(pkg));
            if !Carries(ScanOf(Normalized(lines, pkg), pkg)) then e.NotFound?
            else && e.Ok? && Good(topo, e.lines) && was != []
                 && Select(Load(topo, e.lines).rules, PkgRules(pkg)) == was[1..]
                 && OthersKept(Load(topo, e.lines).rules, Load(topo, lines).rules, pkg, "")
  {
    hide Attempts, Walk, SlipCount, ScanTo, Select, NormalizeSafe, Sound, SpecsLike, OthersKept, Load, Normalized, Apart, Accepts, Gone, BareOpenLine;
    Normal(topo, lines, pkg);
    var n := Normalized(lines, pkg);
    if Carries(ScanOf(n, pkg)) {
      var before, was, after := CutPackage(n, pkg);
      var e := Deleted(lines, pkg, "");
      PkgCut(before, was, after, pkg);
      StillGood(topo, e.lines, Rules(n));
      ThroughNormal(Rules(e.lines), Rules(n), Rules(lines), pkg, "");
    }
  }

  lemma {:induction false} PkgCut(before: seq<RawRule>, was: RawRule, after: seq<RawRule>, pkg: string)
    requires was.pkg == pkg && was.thread == "" && Select(before, PkgRules(pkg)) == []
    ensures var all := Select(before + [was] + after, PkgRules(pkg));
            all != [] && Select(before + after, PkgRules(pkg)) == all[1..]
    ensures forall q | Apart(q, pkg, "") :: Select(before + after, q) == Select(before + [was] + after, q)
    ensures forall x | x in before + after :: x in before + [was] + after
  {
    hide Select, Apart;
    var p := PkgRules(pkg);
    SelectThree(before, was, after, p);
    SelectConcat(before, after, p);
    NilLeft([was]);
    NilLeft(Select(after, p));
    ConsDrop([was], Select(after, p));
    forall q | Apart(q, pkg, "") ensures Select(before + after, q) == Select(before + [was] + after, q) {
      AddPart(before, was, after, q);
    }
  }
}
