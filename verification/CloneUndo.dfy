/** Deleting a clone removes exactly the appended lines. */
module CloneUndo {
  import opened Seqs
  import opened Text
  import opened RuleSyntax
  import opened LinePrint
  import opened SpecTheorems
  import opened CpuSpec
  import opened Loader
  import opened RuleSets
  import opened Scan
  import opened ScanSim
  import opened ScanFacts
  import opened PruneMeans
  import opened Splice
  import opened Normalize
  import opened NormalizeProof
  import opened NormalizeMain
  import opened NormalForm
  import opened Upsert
  import opened UpsertPkg
  import opened UpsertMain
  import opened Delete
  import opened DeletePkg
  import opened Shedding
  import opened DeletePkgMain
  import opened Clone
  import opened CloneMain

  /** No line names the package, in the loader's terms. */
  predicate Absent(m: seq<string>, pkg: string) {
    NoNaming(m, |m|, pkg) && NoSingles(Start, m, pkg)
  }

  lemma {:induction false} AbsentIff(m: seq<string>, pkg: string)
    requires Sound(m) && pkg != ""
    ensures Absent(m, pkg) <==> !AnyLine(ScanOf(m, pkg))
  {
    hide ViewOf, At, ScanTo, Gone, Naming, SlipCount, Ends;
    PkgLineFacts(m, |m|, pkg);
    NoSinglesIff(m, pkg);
    var t := ScanOf(m, pkg);
    match t.pkgLine {
      case Some(OpenPending(p)) =>
        var o :| p < o < |m| && PendingOpens(m, p, o, pkg);
      case _ =>
    }
  }

  lemma {:induction false} PaddedAbsent(n: seq<string>, pkg: string)
    requires Sound(n) && pkg != "" && Absent(n, pkg)
    ensures Absent(Padded(n), pkg)
  {
    hide ViewOf, Walk, Gone, Trim, Sound;
    BlankSkips();
    if Padded(n) != n {
      var m := n + [""];
      GoneConcat(Start, n, [""], pkg, SinglesOnly);
      SkipNoSingle(Walk(Start, n), pkg);
      NilLeft(Gone(Start, n, pkg, SinglesOnly));
      forall i | 0 <= i < |m| ensures !Naming(At(m, i), ViewOf(m[i]), pkg) {
        BeforeBlock(n, [""], if i < |n| then i else |n|);
      }
    }
  }

  lemma {:induction false} SkipNoSingle(c: Ctl, pkg: string)
    requires ViewOf("") == Skip
    ensures Gone(c, [""], pkg, SinglesOnly) == []
  {
    hide ViewOf;
    assert [""][1..] == [];
  }

  /** The appended block's first line. */
  function HeadOf(target: string, rules: CloneRules): string {
    if rules.threads == [] then (match rules.package case Some(cpus) => RuleLine(target, cpus) case None => "")
    else match rules.package case Some(cpus) => RuleOpenLine(target, cpus) case None => BareOpenLine(target)
  }

  /** What the clone appends to, and what it appends. */
  predicate Appending(m: seq<string>, target: string, rules: CloneRules) {
    && Sound(m) && Walk(Start, m) == Start && Absent(m, target) && RulePkgOk(target)
    && Copyable(rules.threads) && (rules.threads != [] || rules.package.Some?)
    && (rules.package.Some? ==> SpecLike(rules.package.value) && Trimmed(rules.package.value))
  }

  lemma {:induction false} HeadNames(target: string, rules: CloneRules)
    requires RulePkgOk(target) && (rules.threads != [] || rules.package.Some?)
    requires rules.package.Some? ==> SpecLike(rules.package.value) && Trimmed(rules.package.value)
    ensures var v := ViewOf(HeadOf(target, rules));
            && v.Text? && (v.outer == BareOpen(target) || (v.outer.Rule? && v.outer.pkg == target)) && target != ""
            && Next(Start, v) == (if rules.threads == [] then Start else In(target))
  {
    hide ViewOf, SpecLike, Trimmed, RulePkgOk, BareOpenLine, RuleOpenLine, RuleLine;
    TargetBody(target);
    if rules.threads == [] {
      RuleLineShows(target, rules.package.value);
      RuleRuns(ViewOf(RuleLine(target, rules.package.value)), target, rules.package.value);
    } else {
      CloneHeader(target, rules.package);
    }
  }

  lemma {:induction false} BlockHead(target: string, rules: CloneRules)
    requires rules.threads != [] || rules.package.Some?
    ensures CloneBlock(target, rules) != [] && CloneBlock(target, rules)[0] == HeadOf(target, rules)
    ensures rules.threads == [] ==> |CloneBlock(target, rules)| == 1
    ensures rules.threads != [] ==> CloneBlock(target, rules) == [HeadOf(target, rules)] + EntryLines(rules.threads) + ["}"]
  {
  }

  /** The block's states: inside the target from its second line on. */
  lemma {:induction false} StateIn(m: seq<string>, target: string, rules: CloneRules, k: nat)
    requires Appending(m, target, rules) && k <= |CloneBlock(target, rules)|
    ensures At(m + CloneBlock(target, rules), |m| + k)
         == if k == 0 || k == |CloneBlock(target, rules)| then Start else In(target)
  {
    hide ViewOf, Walk, Sound, Copyable, RulePkgOk, SpecLike, Trimmed, HeadOf, CloneBlock, EntryLines;
    var block := CloneBlock(target, rules);
    BehindBlock(m, block, k);
    TakeAll(block);
    BlockHead(target, rules);
    BlockClones(target, rules);
    NoLine(Start);
    if 0 < k < |block| {
      HeadNames(target, rules);
      EntryCount(rules.threads);
      BlockStates(target, HeadOf(target, rules), rules.threads, k);
    }
  }

  /** Only the block's first line names the target. */
  lemma {:induction false} OnlyHead(m: seq<string>, target: string, rules: CloneRules, i: nat)
    requires Appending(m, target, rules) && i < |m + CloneBlock(target, rules)|
    ensures var e := m + CloneBlock(target, rules);
            && (Naming(At(e, i), ViewOf(e[i]), target) <==> i == |m|)
            && (i == |m| ==> ViewOf(e[i]).Text? && ViewOf(e[i]).outer != BareOpen("") && Next(At(e, i), ViewOf(e[i])).inBlock == (rules.threads != []))
  {
    hide ViewOf, Walk, Sound, Copyable, RulePkgOk, SpecLike, Trimmed, HeadOf, CloneBlock, At, Gone;
    var block := CloneBlock(target, rules);
    BlockHead(target, rules);
    HeadNames(target, rules);
    if i < |m| {
      BeforeBlock(m, block, i);
      assert !Naming(At(m, i), ViewOf(m[i]), target);
    } else {
      StateIn(m, target, rules, i - |m|);
      assert (m + block)[i] == block[i - |m|];
    }
  }

  lemma {:induction false} BlockNoSingle(target: string, rules: CloneRules)
    requires RulePkgOk(target) && Copyable(rules.threads) && (rules.threads != [] || rules.package.Some?)
    requires rules.package.Some? ==> SpecLike(rules.package.value) && Trimmed(rules.package.value)
    ensures NoSingles(Start, CloneBlock(target, rules), target)
  {
    hide ViewOf, Copyable, RulePkgOk, SpecLike, Trimmed, HeadOf, EntryLines, Gone, Walk, Attempts, SlipCount, LocOf;
    BlockHead(target, rules);
    HeadNames(target, rules);
    var h := HeadOf(target, rules);
    HeadNoLoc(ViewOf(h), target);
    if rules.threads == [] {
      assert CloneBlock(target, rules) == [h];
      GoneOne(Start, h, target, SinglesOnly);
    } else {
      EntriesRun(target, rules.threads);
      EntriesNoSingle(target, rules.threads);
      BlockNoSingles(Start, h, EntryLines(rules.threads), target);
    }
  }

  lemma {:induction false} HeadNoLoc(v: View, target: string)
    requires v.Text? && (v.outer.BareOpen? || v.outer.Rule?)
    ensures LocOf(Start, v, 0, target) == []
  {
  }

  lemma {:induction false} EntriesNoSingle(target: string, threads: seq<(string, string)>)
    requires Copyable(threads)
    ensures NoSingles(In(target), EntryLines(threads), target)
    decreases |threads|
  {
    hide ViewOf, EntryNameOk, SpecLike, Trimmed, EntryLine, Walk, Gone;
    if threads == [] {
      NoGone(In(target), target);
    } else {
      assert threads[0] in threads;
      var h := EntryLine(threads[0].0, threads[0].1);
      EntryRuns(target, threads[0].0, threads[0].1);
      EntriesNoSingle(target, threads[1..]);
      GoneConcat(In(target), [h], EntryLines(threads[1..]), target, SinglesOnly);
    }
  }

  lemma {:induction false} AppendedSound(m: seq<string>, target: string, rules: CloneRules)
    requires Appending(m, target, rules)
    ensures Sound(m + CloneBlock(target, rules)) && NoSingles(Start, m + CloneBlock(target, rules), target)
  {
    hide ViewOf, Walk, Copyable, RulePkgOk, SpecLike, Trimmed, CloneBlock, Gone, Naming, Sound;
    BlockClones(target, rules);
    Appended(m, CloneBlock(target, rules));
    BlockNoSingle(target, rules);
    GoneConcat(Start, m, CloneBlock(target, rules), target, SinglesOnly);
  }

  /** The scan of the grown file sees the appended block and nothing else. */
  lemma {:induction false} ScanSees(m: seq<string>, target: string, rules: CloneRules)
    requires Appending(m, target, rules) && target != ""
    ensures var e := m + CloneBlock(target, rules); var t := ScanOf(e, target);
            && Singles(t.threads) == [] && t.pkgLine.Some? && t.pkgLine.value.idx == |m|
            && (t.blockOpen.Some? ==> t.blockOpen == Some(|m|) && t.blockClose == Some(|e| - 1))
            && (t.blockOpen.None? ==> |e| == |m| + 1)
            && !LeavesName(e, target)
  {
    hide ViewOf, At, ScanTo, Gone, Naming, SlipCount, Ends, CloneBlock, Copyable, RulePkgOk, SpecLike, Trimmed, Next, IsBareBrace, Walk;
    var e := m + CloneBlock(target, rules);
    var t := ScanOf(e, target);
    BlockHead(target, rules);
    AppendedSound(m, target, rules);
    PkgLineFacts(e, |e|, target);
    BlockFacts(e, |e|, target);
    NoSinglesIff(e, target);
    ClosedBlock(e, target);
    forall i | 0 <= i < |e| ensures Naming(At(e, i), ViewOf(e[i]), target) <==> i == |m| { OnlyHead(m, target, rules, i); }
    OnlyHead(m, target, rules, |m|);
    StateIn(m, target, rules, 0);
    FoundHead(e, |m|, t, target);
    if t.blockOpen.Some? {
      OpeningNames(e, t.blockOpen.value, target);
      ClosesLast(m, target, rules, t.blockClose.value);
      NotBare(e, |m|, target);
    } else {
      HeadOpens(m, target, rules);
    }
  }

  lemma {:induction false} FoundHead(e: seq<string>, h: nat, t: Target, pkg: string)
    requires h < |e| && PkgLineMeans(e, |e|, t, pkg) && ViewOf(e[h]).Text? && ViewOf(e[h]).outer != BareOpen("")
    requires forall i | 0 <= i < |e| :: Naming(At(e, i), ViewOf(e[i]), pkg) <==> i == h
    ensures t.pkgLine.Some? && t.pkgLine.value.idx == h
  {
    hide ViewOf, At, Naming;
  }

  /** The block is closed by its last line. */
  lemma {:induction false} ClosesLast(m: seq<string>, target: string, rules: CloneRules, cl: nat)
    requires Appending(m, target, rules) && |m| < cl < |m + CloneBlock(target, rules)|
    requires var e := m + CloneBlock(target, rules); !Next(At(e, cl), ViewOf(e[cl])).inBlock
    ensures cl == |m + CloneBlock(target, rules)| - 1
  {
    hide ViewOf, At, Next, CloneBlock, Appending;
    var e := m + CloneBlock(target, rules);
    AtNext(e, cl);
    StateIn(m, target, rules, cl + 1 - |m|);
  }

  lemma {:induction false} HeadOpens(m: seq<string>, target: string, rules: CloneRules)
    requires Appending(m, target, rules) && target != ""
    requires var e := m + CloneBlock(target, rules); NoOpening(e, |e|, target)
    ensures |m + CloneBlock(target, rules)| == |m| + 1
  {
    hide ViewOf, At, CloneBlock, Walk, Sound, Copyable, RulePkgOk, SpecLike, Trimmed, HeadOf, EntryLines;
    var e := m + CloneBlock(target, rules);
    BlockHead(target, rules);
    HeadNames(target, rules);
    StateIn(m, target, rules, 0);
    assert e[|m|] == CloneBlock(target, rules)[0];
    assert !Opening(At(e, |m|), ViewOf(e[|m|]), target);
  }

  lemma {:induction false} NotBare(e: seq<string>, h: nat, pkg: string)
    requires h < |e| && ViewOf(e[h]).Text? && ViewOf(e[h]).outer != BareOpen("")
    ensures !IsBareBrace(e[h])
  {
    hide ParseOuter, Trim, InnerView;
  }

  /** Deleting the target removes the block, and nothing else. */
  lemma {:induction false} DeleteAppended(m: seq<string>, target: string, rules: CloneRules)
    requires Appending(m, target, rules) && target != ""
    ensures DeletedPkg(m + CloneBlock(target, rules), target) == Ok(m)
    ensures NamesLeft(m + CloneBlock(target, rules), target) == 0
  {
    hide ScanTo, CloneBlock, Copyable, RulePkgOk, SpecLike, Trimmed, Absent, Normalized, Without, Walk, Pick;
    var e := m + CloneBlock(target, rules);
    ScanSees(m, target, rules);
    NoSinglesSame(e, target);
    AbsentIff(m, target);
    var t := ScanOf(e, target);
    NoneDoomed(t);
    hide Doomed, LeavesName;
    WithoutRange(e, |m|, |e|, t);
    KeptPrefix(m, CloneBlock(target, rules));
    OneRound(e, m, target);
  }

  lemma {:induction false} KeptPrefix(m: seq<string>, block: seq<string>)
    ensures var e := m + block; e[..|m|] + e[|e|..] == m
  {
  }

  lemma {:induction false} OneRound(e: seq<string>, m: seq<string>, pkg: string)
    requires Normalized(e, pkg) == e && AnyLine(ScanOf(e, pkg)) && !LeavesName(e, pkg)
    requires Round(e, pkg) == m && !AnyLine(ScanOf(m, pkg))
    ensures DeletedPkg(e, pkg) == Ok(m) && NamesLeft(e, pkg) == 0
  {
    hide Normalized, ScanTo, LeavesName, Without, Pick;
    assert Rounds(m, pkg) == m && NamesLeft(m, pkg) == 0;
  }

  /**
   * Cloning and then deleting the target gives back the normalised file, line by line, but
   * for the blank line that may have been put in front of the block.
   */
  lemma {:induction false} CloneUndone(topo: Topology, lines: seq<string>, source: string, target: string, cp: bool, ct: bool)
    requires Good(topo, lines) && source != "" && NormalizeSafe(lines, source)
    requires RulePkgOk(target) && PkgOk(target) && (cp || ct)
    ensures var e := Cloned(lines, source, target, cp, ct); var n := Normalized(lines, source);
            e.Ok? ==> && DeletedPkg(e.lines, target) == Ok(Padded(n))
                      && Good(topo, Padded(n)) && Load(topo, Padded(n)).rules == Load(topo, n).rules
                      && multiset(Load(topo, n).rules) == multiset(Load(topo, lines).rules)
  {
    hide ScanTo, Normalized, NormalizeSafe, Attempts, Gone, Accepts, Load, Select, Selection, ClonePrepare, Copyable, SpecLike, Trimmed, CloneBlock, Padded, PkgOk, RulePkgOk, CloneOwned, Walk, Absent, DeletedPkg, Sound, Owned, Pairs;
    TargetBody(target);
    Normal(topo, lines, source);
    var n := Normalized(lines, source);
    GoodIs(topo, n);
    PrepareIs(topo, lines, source, target, cp, ct);
    if Cloned(lines, source, target, cp, ct).Ok? {
      var rules := ClonePrepare(lines, source, target, cp, ct).rules;
      PaddedRuns(n);
      SoundCalm(n);
      PackageSpecIs(n, source);
      AbsentIff(n, target);
      PaddedAbsent(n, target);
      SomethingCloned(Rules(n), ScanOf(n, source), source, target, cp, ct, rules);
      DeleteAppended(Padded(n), target, rules);
      GoodIs(topo, Padded(n));
    }
  }

  lemma {:induction false} SomethingCloned(rs: seq<RawRule>, t: Target, source: string, target: string, cp: bool, ct: bool, rules: CloneRules)
    requires (cp || ct) && !CloneMissing(rs, t, source, cp, ct)
    requires CloneOwned(target, rules) == Selection(rs, t, source, target, cp, ct)
    requires cp && Carries(t) ==> Select(rs, PkgRules(source)) != []
    ensures rules.threads != [] || rules.package.Some?
  {
    hide Select, Carries;
    PairsFrom(Select(rs, PkgThreads(source)));
    OwnedAre(target, Pairs(Select(rs, PkgThreads(source))));
    OwnedAre(target, rules.threads);
  }
}
