/** Setting one rule is exact: the file reloads to the old rules with precisely that rule set. */
module UpsertMain {
  import opened Seqs
  import opened Text
  import opened RuleSyntax
  import opened LineShape
  import opened LinePrint
  import opened LineHeader
  import opened CpuSpec
  import opened Loader
  import opened RuleSets
  import opened Scan
  import opened ScanSim
  import opened ScanFacts
  import opened PruneMeans
  import opened Splice
  import opened NormalizeMain
  import opened NormalForm
  import opened Normalize
  import opened Upsert
  import opened UpsertPkg

  /** Nothing but the rules of one target changed, and only thread rules of its package may have moved. */
  predicate OthersKept(after: seq<RawRule>, was: seq<RawRule>, pkg: string, thread: string) {
    && multiset(Select(after, AllBut(pkg, thread))) == multiset(Select(was, AllBut(pkg, thread)))
    && Select(after, OtherPkgs(pkg)) == Select(was, OtherPkgs(pkg))
    && (thread != "" ==> Select(after, PkgRules(pkg)) == Select(was, PkgRules(pkg)))
  }

  // ---- rule lists

  /** A narrower part of a part is the narrower part. */
  lemma {:induction false} SelectWithin(rs: seq<RawRule>, p: Part, q: Part)
    requires forall r :: Holds(q, r) ==> Holds(p, r)
    ensures Select(Select(rs, p), q) == Select(rs, q)
    decreases |rs|
  {
    hide Holds;
    if rs != [] {
      SelectWithin(rs[1..], p, q);
      SelectConcat(if Holds(p, rs[0]) then [rs[0]] else [], Select(rs[1..], p), q);
      SelectOne(rs[0], q);
      NilLeft(Select(rs[1..], q));
    } else {
      assert Select([], p) == [];
    }
  }

  lemma {:induction false} SelectThree(a: seq<RawRule>, r: RawRule, b: seq<RawRule>, p: Part)
    ensures Select(a + [r] + b, p) == Select(a, p) + (if Holds(p, r) then [r] else []) + Select(b, p)
  {
    hide Holds, Select;
    SelectConcat(a + [r], b, p);
    SelectConcat(a, [r], p);
    SelectOne(r, p);
  }

  /** Parts that do not see the rules of (pkg, thread). */
  predicate Apart(q: Part, pkg: string, thread: string) {
    q == AllBut(pkg, thread) || q == OtherPkgs(pkg) || (thread != "" && q == PkgRules(pkg))
  }

  lemma {:induction false} ApartWithin(q: Part, pkg: string, thread: string)
    requires Apart(q, pkg, thread)
    ensures forall r :: Holds(q, r) ==> Holds(AllBut(pkg, thread), r)
  {
  }

  /** The rules of the target give way to one new rule. */
  lemma {:induction false} SetPart(before: seq<RawRule>, gone: RawRule, new_: RawRule, after: seq<RawRule>, q: Part)
    requires gone.pkg == new_.pkg && gone.thread == new_.thread && Apart(q, new_.pkg, new_.thread)
    ensures Select(Select(before, AllBut(new_.pkg, new_.thread)) + [new_] + after, q)
         == Select(before + [gone] + after, q)
  {
    hide Select;
    ApartWithin(q, new_.pkg, new_.thread);
    SelectWithin(before, AllBut(new_.pkg, new_.thread), q);
    SelectThree(Select(before, AllBut(new_.pkg, new_.thread)), new_, after, q);
    SelectThree(before, gone, after, q);
  }

  lemma {:induction false} SetJust(kept: seq<RawRule>, r: RawRule, after: seq<RawRule>)
    requires forall x | x in kept :: Holds(AllBut(r.pkg, r.thread), x)
    requires forall x | x in after :: Holds(AllBut(r.pkg, r.thread), x)
    ensures Select(kept + [r] + after, Just(r.pkg, r.thread)) == [r]
  {
    hide Select;
    SelectThree(kept, r, after, Just(r.pkg, r.thread));
    SelectNone(kept, Just(r.pkg, r.thread));
    SelectNone(after, Just(r.pkg, r.thread));
  }

  lemma {:induction false} AddPart(before: seq<RawRule>, r: RawRule, after: seq<RawRule>, q: Part)
    requires Apart(q, r.pkg, r.thread)
    ensures Select(before + [r] + after, q) == Select(before + after, q)
  {
    hide Select;
    InsertedPart(before, [r], after, q);
  }

  /** What was known of the normalised file holds of the original. */
  lemma {:induction false} ThroughNormal(after: seq<RawRule>, mid: seq<RawRule>, was: seq<RawRule>, pkg: string, thread: string)
    requires SameFor(mid, was, pkg)
    requires forall q | Apart(q, pkg, thread) :: Select(after, q) == Select(mid, q)
    ensures OthersKept(after, was, pkg, thread)
  {
    hide Select;
    assert Apart(AllBut(pkg, thread), pkg, thread) && Apart(OtherPkgs(pkg), pkg, thread);
    assert thread != "" ==> Apart(PkgRules(pkg), pkg, thread);
    SelectMultiset(mid, was, AllBut(pkg, thread));
  }

  // ---- the file before and after normalisation

  predicate AllAccepted(topo: Topology, rs: seq<RawRule>) {
    forall r | r in rs :: Accepts(topo, r)
  }

  lemma {:induction false} Normal(topo: Topology, lines: seq<string>, pkg: string)
    requires Good(topo, lines) && pkg != "" && NormalizeSafe(lines, pkg)
    ensures var n := Normalized(lines, pkg);
            && Sound(n) && NoSingles(Start, n, pkg) && SameFor(Rules(n), Rules(lines), pkg)
            && AllAccepted(topo, Rules(n)) && SpecsLike(Rules(n)) && Load(topo, lines).rules == Rules(lines)
  {
    hide Attempts, Walk, SlipCount, Normalized, NormalizeSafe, SpecCpus, PkgOk, ThreadOk, SpecLike, Gone, Select;
    GoodIs(topo, lines);
    NormalizeMeans(lines, pkg);
    NormalizedNoSingles(lines, pkg);
    SameAccepted(topo, Rules(Normalized(lines, pkg)), Rules(lines));
  }

  lemma {:induction false} SameAccepted(topo: Topology, a: seq<RawRule>, b: seq<RawRule>)
    requires multiset(a) == multiset(b) && AllAccepted(topo, b)
    ensures AllAccepted(topo, a)
  {
    hide Accepts;
    forall r | r in a ensures Accepts(topo, r) {
      assert r in multiset(a);
    }
  }

  // ---- thread rules

  /**
   * What setting a thread rule needs of the file: for a new rule, a name that an in-block line can
   * carry and no comment on a standalone line that becomes the header; for a rule that is
   * rewritten, no `=` behind its closing brace.
   */
  predicate ThreadSafe(n: seq<string>, pkg: string, thread: string) {
    if Pick(ScanOf(n, pkg).threads, Named(thread)) == [] then InsertSafe(n, pkg, thread)
    else LastSwapSafe(n, pkg, thread)
  }

  lemma {:induction false} SetThread(n: seq<string>, pkg: string, thread: string, cpus: string)
    requires Sound(n) && pkg != "" && thread != "" && NoSingles(Start, n, pkg) && SpecsLike(Rules(n))
    requires ThreadSafe(n, pkg, thread) && SpecLike(cpus) && Trimmed(cpus)
    ensures var e := UpsertThread(n, ScanOf(n, pkg), Unterminated(n, pkg), pkg, thread, cpus);
            && e.Ok? && Sound(e.lines)
            && Select(Rules(e.lines), Just(pkg, thread)) == [RawRule(pkg, thread, cpus)]
            && (forall q | Apart(q, pkg, thread) :: Select(Rules(e.lines), q) == Select(Rules(n), q))
            && (forall r | r in Rules(e.lines) :: r == RawRule(pkg, thread, cpus) || r in Rules(n))
  {
    hide Attempts, Walk, SlipCount, ScanTo, Pick, Gone, Select, UpsertThread, InsertSafe, LastSwapSafe, SpecLike, Trimmed, Sound, Holds, Apart, SpecsLike;
    var r := RawRule(pkg, thread, cpus);
    if Pick(ScanOf(n, pkg).threads, Named(thread)) == [] {
      var before, after := InsertThread(n, pkg, thread, cpus);
      NoRuleYet(n, pkg, thread);
      AddedRule(before, r, after);
    } else {
      var before, gone, after, kept := ReplaceThread(n, pkg, thread, cpus);
      SwappedRule(before, gone, r, after);
    }
  }

  lemma {:induction false} NoRuleYet(n: seq<string>, pkg: string, thread: string)
    requires Sound(n) && pkg != "" && thread != "" && Pick(ScanOf(n, pkg).threads, Named(thread)) == []
    ensures forall r | r in Rules(n) :: Holds(AllBut(pkg, thread), r)
  {
    hide Attempts, Walk, SlipCount, ScanTo, Pick, Holds;
    ScanLocs(n, pkg);
    NoneAfter(Start, n, 0, pkg, thread);
  }

  lemma {:induction false} AddedRule(before: seq<RawRule>, r: RawRule, after: seq<RawRule>)
    requires forall x | x in before + after :: Holds(AllBut(r.pkg, r.thread), x)
    ensures Select(before + [r] + after, Just(r.pkg, r.thread)) == [r]
    ensures forall q | Apart(q, r.pkg, r.thread) :: Select(before + [r] + after, q) == Select(before + after, q)
    ensures forall x | x in before + [r] + after :: x == r || x in before + after
  {
    hide Select, Apart, Holds;
    assert forall x | x in before || x in after :: x in before + after;
    SetJust(before, r, after);
    forall q | Apart(q, r.pkg, r.thread) ensures Select(before + [r] + after, q) == Select(before + after, q) {
      AddPart(before, r, after, q);
    }
  }

  lemma {:induction false} SwappedRule(before: seq<RawRule>, gone: RawRule, r: RawRule, after: seq<RawRule>)
    requires gone.pkg == r.pkg && gone.thread == r.thread
    requires forall x | x in after :: Holds(AllBut(r.pkg, r.thread), x)
    ensures var now, was := Select(before, AllBut(r.pkg, r.thread)) + [r] + after, before + [gone] + after;
            && Select(now, Just(r.pkg, r.thread)) == [r]
            && (forall q | Apart(q, r.pkg, r.thread) :: Select(now, q) == Select(was, q))
            && (forall x | x in now :: x == r || x in was)
  {
    hide Select, Apart, Holds;
    var kept := Select(before, AllBut(r.pkg, r.thread));
    SelectFrom(before, AllBut(r.pkg, r.thread));
    SetJust(kept, r, after);
    forall q | Apart(q, r.pkg, r.thread) ensures Select(kept + [r] + after, q) == Select(before + [gone] + after, q) {
      SetPart(before, gone, r, after, q);
    }
  }

  /**
   * Setting a thread rule, whichever branch the editor takes: the file still loads without a
   * failure, there is exactly one rule for the thread, it carries the given spec, and no other
   * rule is lost, added or changed.
   */
  lemma {:induction false} UpsertThreadExact(topo: Topology, lines: seq<string>, pkg: string, thread: string, cpus: string)
    requires Good(topo, lines) && thread != "" && Accepts(topo, RawRule(pkg, thread, cpus)) && Trimmed(cpus)
    requires NormalizeSafe(lines, pkg) && ThreadSafe(Normalized(lines, pkg), pkg, thread)
    ensures var e := Upserted(lines, pkg, thread, cpus);
            && e.Ok? && Good(topo, e.lines)
            && Select(Load(topo, e.lines).rules, Just(pkg, thread)) == [RawRule(pkg, thread, cpus)]
            && OthersKept(Load(topo, e.lines).rules, Load(topo, lines).rules, pkg, thread)
  {
    hide Attempts, Walk, SlipCount, ScanTo, Select, UpsertThread, ThreadSafe, NormalizeSafe, SpecLike, Trimmed, Sound, SpecsLike, SpecCpus, Gone, SameFor, OthersKept, Load, Normalized, ThreadOk, Apart;
    Normal(topo, lines, pkg);
    var n := Normalized(lines, pkg);
    SetThread(n, pkg, thread, cpus);
    var e := Upserted(lines, pkg, thread, cpus);
    NowGood(topo, e.lines, Rules(n), RawRule(pkg, thread, cpus));
    ThroughNormal(Rules(e.lines), Rules(n), Rules(lines), pkg, thread);
  }

  lemma {:induction false} NowGood(topo: Topology, lines: seq<string>, was: seq<RawRule>, r: RawRule)
    requires Sound(lines) && AllAccepted(topo, was) && Accepts(topo, r)
    requires forall x | x in Rules(lines) :: x == r || x in was
    ensures Good(topo, lines) && Load(topo, lines).rules == Rules(lines)
  {
    hide Accepts, Attempts, Sound, Load;
    GoodIs(topo, lines);
  }

  // ---- the package rule

  lemma {:induction false} PushRule(n: seq<string>, pkg: string, cpus: string)
    requires Sound(n) && RulePkgOk(pkg) && SpecLike(cpus) && Trimmed(cpus)
    ensures Sound(n + [RuleLine(pkg, cpus)])
    ensures Rules(n + [RuleLine(pkg, cpus)]) == Rules(n) + [RawRule(pkg, "", cpus)]
  {
    hide ViewOf, Attempts, Walk, SlipCount, SpecLike, RulePkgOk, Trimmed, Slips;
    var line := RuleLine(pkg, cpus);
    RuleLineShows(pkg, cpus);
    EndsAt(n);
    WholeAt(n);
    OneLine(Start, line);
    RuleRuns(ViewOf(line), pkg, cpus);
    WalkConcat(Start, n, [line]);
    AttemptsConcat(Start, n, [line]);
    SlipsConcat(Start, n, [line]);
  }

  lemma {:induction false} WholeAt(n: seq<string>)
    ensures At(n, |n|) == Walk(Start, n)
  {
    hide Walk;
    TakeAll(n);
  }

  lemma {:induction false} RuleRuns(v: View, pkg: string, cpus: string)
    requires v.Text? && v.outer == Rule(pkg, cpus, false)
    ensures Next(Start, v) == Start && Attempt(Start, v) == [RawRule(pkg, "", cpus)] && !Slips(Start, v)
  {
  }

  lemma {:induction false} RuleLineShows(pkg: string, cpus: string)
    requires RulePkgOk(pkg) && SpecLike(cpus) && Trimmed(cpus)
    ensures ViewOf(RuleLine(pkg, cpus)).Text? && ViewOf(RuleLine(pkg, cpus)).outer == Rule(pkg, cpus, false)
  {
    hide ViewOf, SpecLike, RulePkgOk, Trimmed, ParseBody;
    SpecIsPlain(cpus);
    SpecNoBrace(cpus);
    RuleBody(pkg, cpus);
    PrintedShows(RuleLine(pkg, cpus));
  }

  lemma {:induction false} SpecNoBrace(s: string)
    requires SpecChars(s)
    ensures '{' !in s
  {
  }

  /** The package rules after the edit, and the rest of the file. */
  lemma {:induction false} SetPackage(n: seq<string>, pkg: string, cpus: string)
    returns (before: seq<RawRule>, was: seq<RawRule>, after: seq<RawRule>)
    requires Sound(n) && pkg != "" && NoSingles(Start, n, pkg) && SpecsLike(Rules(n))
    requires PkgPrintable(ScanOf(n, pkg), pkg) && SpecLike(cpus) && Trimmed(cpus)
    ensures var e := UpsertPackage(n, ScanOf(n, pkg), Unterminated(n, pkg), pkg, cpus);
            e.Ok? && Sound(e.lines) && Rules(e.lines) == before + [RawRule(pkg, "", cpus)] + after
    ensures Rules(n) == before + was + after && Select(before, PkgRules(pkg)) == []
    ensures if Carries(ScanOf(n, pkg)) then |was| == 1 && was[0].pkg == pkg && was[0].thread == "" else was == []
    ensures ScanOf(n, pkg).pkgLine.None? ==> after == []
  {
    hide ViewOf, Attempts, Walk, SlipCount, ScanTo, Gone, Select, SpecLike, Trimmed, SpecSwap, WithComment, RuleOpenLine, RulePkgOk, HeaderOk, Naming, At, NoNaming, IsBareBrace, Calm, Ends;
    var t := ScanOf(n, pkg);
    PkgLineFacts(n, |n|, pkg);
    SoundTerminated(n, pkg);
    match t.pkgLine {
      case Some(Standalone(i)) => before, was, after := CarriedCase(n, i, pkg, cpus);
      case Some(OpenInline(i)) => before, was, after := CarriedCase(n, i, pkg, cpus);
      case Some(OpenBare(i)) =>
        was := [];
        before, after := BareCase(n, i, pkg, cpus);
        NilMiddle(before, after);
      case Some(OpenPending(p)) =>
        was := [];
        before, after := SetPending(n, p, pkg, cpus);
        NilMiddle(before, after);
      case None =>
        before, was, after := Rules(n), [], [];
        PushRule(n, pkg, cpus);
        NoPkgRules(n, |n|, pkg);
        TakeAll(n);
        NilMiddle(before, after);
        NilLeft(before);
        NilLeft(before + [RawRule(pkg, "", cpus)]);
    }
  }

  lemma {:induction false} NilMiddle(a: seq<RawRule>, b: seq<RawRule>)
    ensures a + [] + b == a + b
  {
  }

  lemma {:induction false} SetPending(n: seq<string>, p: nat, pkg: string, cpus: string)
    returns (before: seq<RawRule>, after: seq<RawRule>)
    requires Sound(n) && pkg != "" && NoSingles(Start, n, pkg)
    requires ScanOf(n, pkg).pkgLine == Some(OpenPending(p)) && PkgLineMeans(n, |n|, ScanOf(n, pkg), pkg)
    requires HeaderOk(pkg) && SpecLike(cpus) && Trimmed(cpus)
    ensures var e := UpsertPackage(n, ScanOf(n, pkg), Unterminated(n, pkg), pkg, cpus);
            e.Ok? && Sound(e.lines) && Rules(e.lines) == before + [RawRule(pkg, "", cpus)] + after
    ensures Rules(n) == before + after && Select(before, PkgRules(pkg)) == []
  {
    hide ViewOf, Attempts, Walk, SlipCount, ScanTo, Gone, Select, SpecLike, Trimmed, WithComment, RuleOpenLine, HeaderOk, At, Sound, Waits, FirstNaming, IsBareBrace, NoSingles, Unterminated;
    var o :| p < o < |n| && PendingOpens(n, p, o, pkg);
    PendingBlock(n, p, o, pkg);
    before, after := PendingCase(n, p, o, pkg, cpus);
    BraceLine(n, o, pkg);
  }

  lemma {:induction false} BraceLine(n: seq<string>, o: nat, pkg: string)
    requires o < |n| && FirstNaming(n, o, pkg) && ViewOf(n[o]).outer == BareOpen("")
    ensures IsBareBrace(n[o])
  {
    hide ParseOuter, Trim, At, NoNaming;
  }

  /** The one further rule the package may keep: those behind the line the editor rewrites. */
  function PkgRest(rs: seq<RawRule>, t: Target): seq<RawRule> {
    if Carries(t) && rs != [] then rs[1..] else rs
  }

  lemma {:induction false} PkgSelected(before: seq<RawRule>, was: seq<RawRule>, r: RawRule, after: seq<RawRule>, t: Target)
    requires r.thread == "" && Select(before, PkgRules(r.pkg)) == []
    requires if Carries(t) then |was| == 1 && was[0].pkg == r.pkg && was[0].thread == "" else was == []
    ensures Select(before + [r] + after, PkgRules(r.pkg)) == [r] + PkgRest(Select(before + was + after, PkgRules(r.pkg)), t)
    ensures forall q | Apart(q, r.pkg, "") :: Select(before + [r] + after, q) == Select(before + was + after, q)
    ensures forall x | x in before + [r] + after :: x == r || x in before + was + after
  {
    hide Select, Apart;
    var p := PkgRules(r.pkg);
    SelectThree(before, r, after, p);
    NilLeft(Select(after, p));
    NilLeft([r]);
    if was == [] {
      SelectConcat(before, after, p);
      NilMiddle(before, after);
    } else {
      SelectThree(before, was[0], after, p);
      NilLeft([was[0]]);
      assert was == [was[0]];
      assert ([was[0]] + Select(after, p))[1..] == Select(after, p);
    }
    forall q | Apart(q, r.pkg, "") ensures Select(before + [r] + after, q) == Select(before + was + after, q) {
      InsertedPart(before, [r], after, q) by { ApartFrom(q, r); }
      InsertedPart(before, was, after, q) by { WasApart(q, r.pkg, was); }
    }
  }

  lemma {:induction false} ApartFrom(q: Part, r: RawRule)
    requires Apart(q, r.pkg, r.thread)
    ensures !Holds(q, r)
  {
  }

  lemma {:induction false} WasApart(q: Part, pkg: string, was: seq<RawRule>)
    requires Apart(q, pkg, "") && forall x | x in was :: x.pkg == pkg && x.thread == ""
    ensures forall x | x in was :: !Holds(q, x)
  {
  }

  /**
   * Setting the package rule: the given spec is the package's first rule; a rule on the line
   * that first names the package is replaced, and any others stay behind it. All other rules stay.
   */
  lemma {:induction false} UpsertPackageExact(topo: Topology, lines: seq<string>, pkg: string, cpus: string)
    requires Good(topo, lines) && Accepts(topo, RawRule(pkg, "", cpus)) && Trimmed(cpus)
    requires NormalizeSafe(lines, pkg) && PkgPrintable(ScanOf(Normalized(lines, pkg), pkg), pkg)
    ensures var e := Upserted(lines, pkg, "", cpus); var t := ScanOf(Normalized(lines, pkg), pkg);
            && e.Ok? && Good(topo, e.lines)
            && Select(Load(topo, e.lines).rules, PkgRules(pkg))
            == [RawRule(pkg, "", cpus)] + PkgRest(Select(Load(topo, lines).rules, PkgRules(pkg)), t)
            && OthersKept(Load(topo, e.lines).rules, Load(topo, lines).rules, pkg, "")
  {
    hide Attempts, Walk, SlipCount, ScanTo, Select, UpsertPackage, PkgPrintable, NormalizeSafe, SpecLike, Trimmed, Sound, SpecsLike, SpecCpus, Gone, OthersKept, Load, Normalized, ThreadOk, Apart, Carries, PkgRest;
    Normal(topo, lines, pkg);
    var n := Normalized(lines, pkg);
    var before, was, after := SetPackage(n, pkg, cpus);
    var e := Upserted(lines, pkg, "", cpus);
    PkgSelected(before, was, RawRule(pkg, "", cpus), after, ScanOf(n, pkg));
    NowGood(topo, e.lines, Rules(n), RawRule(pkg, "", cpus));
    ThroughNormal(Rules(e.lines), Rules(n), Rules(lines), pkg, "");
  }

  /** At most one package rule, on the line that first names the package. */
  predicate OneSpec(topo: Topology, lines: seq<string>, pkg: string) {
    |Select(Load(topo, lines).rules, PkgRules(pkg))|
    <= if Carries(ScanOf(Normalized(lines, pkg), pkg)) then 1 else 0
  }

  /** That is exactly when the edit leaves a single package rule. */
  lemma {:induction false} UpsertPackageOnly(topo: Topology, lines: seq<string>, pkg: string, cpus: string)
    requires Good(topo, lines) && Accepts(topo, RawRule(pkg, "", cpus)) && Trimmed(cpus)
    requires NormalizeSafe(lines, pkg) && PkgPrintable(ScanOf(Normalized(lines, pkg), pkg), pkg)
    ensures var e := Upserted(lines, pkg, "", cpus);
            e.Ok? && (Select(Load(topo, e.lines).rules, PkgRules(pkg)) == [RawRule(pkg, "", cpus)]
                      <==> OneSpec(topo, lines, pkg))
  {
    hide Load, Select, Upserted, Normalized, ScanTo, PkgPrintable, NormalizeSafe, Good, Accepts, Trimmed, Carries, OthersKept;
    UpsertPackageExact(topo, lines, pkg, cpus);
    RestEmpty([RawRule(pkg, "", cpus)], PkgRest(Select(Load(topo, lines).rules, PkgRules(pkg)), ScanOf(Normalized(lines, pkg), pkg)));
  }

  lemma {:induction false} RestEmpty(a: seq<RawRule>, b: seq<RawRule>)
    ensures a + b == a <==> b == []
  {
    if b != [] {
      assert |a + b| > |a|;
    }
  }
}
