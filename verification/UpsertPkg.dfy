/** Setting the package-level rule. */
module UpsertPkg {
  import opened Text
  import opened RuleSyntax
  import opened LinePrint
  import opened LineHeader
  import opened LineParts
  import opened SpecTheorems
  import opened Loader
  import opened RuleSets
  import opened Scan
  import opened ScanSim
  import opened ScanFacts
  import opened PruneMeans
  import opened Splice
  import opened NormalizeProof
  import opened NormalizeMain
  import opened NormalForm
  import opened Upsert

  /** The first line that names the package carries a spec. */
  predicate Carries(t: Target) {
    t.pkgLine.Some? && (t.pkgLine.value.Standalone? || t.pkgLine.value.OpenInline?)
  }

  /** The name can stand where the new rule will be written. */
  predicate PkgPrintable(t: Target, pkg: string) {
    match t.pkgLine
    case None => RulePkgOk(pkg)
    case Some(OpenBare(_)) => HeaderOk(pkg)
    case Some(OpenPending(_)) => HeaderOk(pkg)
    case _ => true
  }

  // ---- nothing before the first naming line

  lemma {:induction false} PkgRuleNames(c: Ctl, line: string, pkg: string)
    requires !Naming(c, ViewOf(line), pkg) && pkg != ""
    ensures forall r | r in Attempt(c, ViewOf(line)) :: !Holds(PkgRules(pkg), r)
  {
    hide ViewOf;
    if ViewOf(line).Text? {
      ViewNames(line);
    }
  }

  lemma {:induction false} NoPkgRules(n: seq<string>, i: nat, pkg: string)
    requires i <= |n| && pkg != "" && NoNaming(n, i, pkg)
    ensures Select(Rules(n[..i]), PkgRules(pkg)) == []
  {
    hide ViewOf, Naming, Attempt, Next, Holds, At;
    if i == 0 {
      assert n[..0] == [];
    } else {
      NoPkgRules(n, i - 1, pkg);
      var a := n[..i - 1];
      assert n[..i] == a + [n[i - 1]];
      AttemptsConcat(Start, a, [n[i - 1]]);
      AtIs(n, i - 1);
      OneLine(At(n, i - 1), n[i - 1]);
      PkgRuleNames(At(n, i - 1), n[i - 1], pkg);
      SelectConcat(Rules(a), Attempt(At(n, i - 1), ViewOf(n[i - 1])), PkgRules(pkg));
      SelectNone(Attempt(At(n, i - 1), ViewOf(n[i - 1])), PkgRules(pkg));
    }
  }

  // ---- the cases

  /** A line at the outer level replaced by one that leaves the loader in the same state. */
  lemma {:induction false} ReplaceOuter(n: seq<string>, i: nat, line: string, pkg: string, cpus: string)
    returns (before: seq<RawRule>, was: seq<RawRule>, after: seq<RawRule>)
    requires i < |n| && At(n, i) == Start && NoNaming(n, i, pkg) && pkg != ""
    requires ViewOf(line).Text? && ViewOf(line).outer.Rule?
    requires ViewOf(line).outer.pkg == pkg && ViewOf(line).outer.cpus == cpus
    requires Next(Start, ViewOf(line)) == Next(Start, ViewOf(n[i]))
    ensures Sound(n) ==> Sound(n[i := line])
    ensures Rules(n) == before + was + after
    ensures Rules(n[i := line]) == before + [RawRule(pkg, "", cpus)] + after
    ensures was == Attempt(Start, ViewOf(n[i])) && Select(before, PkgRules(pkg)) == []
  {
    hide ViewOf, Walk, Attempts, SlipCount, Sound, NoNaming, Select, Next;
    var a, b := n[..i], n[i + 1..];
    assert n == a + [n[i]] + b && n[i := line] == a + [line] + b;
    AtIs(n, i);
    OneLine(Start, n[i]);
    OneLine(Start, line);
    before, after := Replace(a, [n[i]], [line], b);
    was := Attempt(Start, ViewOf(n[i]));
    NoPkgRules(n, i, pkg);
  }

  lemma {:induction false} CarriedCase(n: seq<string>, i: nat, pkg: string, cpus: string)
    returns (before: seq<RawRule>, was: seq<RawRule>, after: seq<RawRule>)
    requires Sound(n) && pkg != "" && FirstNaming(n, i, pkg) && ViewOf(n[i]).outer.Rule?
    requires SpecsLike(Rules(n)) && SpecLike(cpus) && Trimmed(cpus)
    ensures Sound(n[i := SpecSwap(n[i], cpus)])
    ensures Rules(n) == before + was + after
    ensures Rules(n[i := SpecSwap(n[i], cpus)]) == before + [RawRule(pkg, "", cpus)] + after
    ensures was == [RawRule(pkg, "", ViewOf(n[i]).outer.cpus)] && Select(before, PkgRules(pkg)) == []
  {
    hide ViewOf, Walk, Attempts, SlipCount, NoNaming, Select, SpecLike, SpecSwap, Trimmed, At;
    StandaloneAt(n, i, pkg);
    AttemptIn(n, i);
    RuleAttempt(pkg, ViewOf(n[i]));
    SwapRule(n[i], cpus);
    SameNext(ViewOf(n[i]), ViewOf(SpecSwap(n[i], cpus)));
    before, was, after := ReplaceOuter(n, i, SpecSwap(n[i], cpus), pkg, cpus);
  }

  lemma {:induction false} RuleAttempt(pkg: string, v: View)
    requires v.Text? && v.outer.Rule? && v.outer.pkg == pkg
    ensures Attempt(Start, v) == [RawRule(pkg, "", v.outer.cpus)]
  {
  }

  lemma {:induction false} SameNext(v: View, w: View)
    requires v.Text? && w.Text? && v.outer.Rule? && w.outer.Rule?
    requires w.outer.pkg == v.outer.pkg && w.outer.open == v.outer.open
    ensures Next(Start, v) == Next(Start, w)
  {
  }

  lemma {:induction false} BareAt(n: seq<string>, i: nat, pkg: string)
    requires Calm(n) && FirstNaming(n, i, pkg) && ViewOf(n[i]).outer == BareOpen(pkg) && pkg != ""
    ensures At(n, i) == Start && ViewOf(n[i]).Text? && Next(Start, ViewOf(n[i])) == In(pkg)
    ensures Attempt(Start, ViewOf(n[i])) == []
  {
    hide ViewOf, At, NoNaming;
    CalmAt(n, i);
    AtShape(n, i);
  }

  lemma {:induction false} HeaderLine(line: string, pkg: string, cpus: string)
    requires ViewOf(line).Text? && HeaderOk(pkg) && SpecLike(cpus) && Trimmed(cpus)
    ensures ViewOf(WithComment(RuleOpenLine(pkg, cpus), line)).Text?
    ensures ViewOf(WithComment(RuleOpenLine(pkg, cpus), line)).outer == Rule(pkg, cpus, true)
    ensures Next(Start, ViewOf(WithComment(RuleOpenLine(pkg, cpus), line))) == In(pkg)
  {
    hide ViewOf, HeaderOk, SpecLike, RuleOpenLine, WithComment;
    SpecIsPlain(cpus);
    RuleOpenBody(pkg, cpus);
    WithCommentShows(RuleOpenLine(pkg, cpus), line);
  }

  lemma {:induction false} BareCase(n: seq<string>, i: nat, pkg: string, cpus: string)
    returns (before: seq<RawRule>, after: seq<RawRule>)
    requires Sound(n) && pkg != "" && FirstNaming(n, i, pkg) && ViewOf(n[i]).outer == BareOpen(pkg)
    requires HeaderOk(pkg) && SpecLike(cpus) && Trimmed(cpus)
    ensures var line := WithComment(RuleOpenLine(pkg, cpus), n[i]);
            && Sound(n[i := line]) && Rules(n) == before + after
            && Rules(n[i := line]) == before + [RawRule(pkg, "", cpus)] + after
    ensures Select(before, PkgRules(pkg)) == []
  {
    hide ViewOf, Walk, Attempts, SlipCount, NoNaming, Select, SpecLike, RuleOpenLine, WithComment, Trimmed, At, HeaderOk, Next, Attempt;
    BareAt(n, i, pkg);
    HeaderLine(n[i], pkg, cpus);
    var was;
    before, was, after := ReplaceOuter(n, i, WithComment(RuleOpenLine(pkg, cpus), n[i]), pkg, cpus);
    assert before + [] + after == before + after;
  }

  // ---- the pending case: the name line is rewritten, the separate brace goes

  lemma {:induction false} SkipsRun(c: Ctl, lines: seq<string>)
    requires forall i | 0 <= i < |lines| :: ViewOf(lines[i]).Skip?
    ensures Walk(c, lines) == c && Attempts(c, lines) == [] && SlipCount(c, lines) == 0
    decreases |lines|
  {
    hide ViewOf;
    if lines != [] {
      assert forall i | 0 <= i < |lines| - 1 :: lines[1..][i] == lines[i + 1];
      SkipsRun(c, lines[1..]);
    }
  }

  /** Name line, skipped lines, brace; and the same as one header. */
  lemma {:induction false} PendingRuns(name: string, mid: seq<string>, brace: string, header: string, pkg: string, cpus: string)
    requires pkg != "" && ViewOf(name).Text? && ViewOf(name).outer == Pending(pkg)
    requires ViewOf(brace).Text? && ViewOf(brace).outer == BareOpen("")
    requires forall i | 0 <= i < |mid| :: ViewOf(mid[i]).Skip?
    requires ViewOf(header).Text? && ViewOf(header).outer == Rule(pkg, cpus, true)
    ensures Walk(Start, [name] + mid + [brace]) == In(pkg) && Attempts(Start, [name] + mid + [brace]) == []
    ensures Walk(Start, [header] + mid) == In(pkg) && SlipCount(Start, [header] + mid) == 0
    ensures Attempts(Start, [header] + mid) == [RawRule(pkg, "", cpus)]
  {
    hide ViewOf;
    var c := Ctl(false, "", pkg);
    OneLine(Start, name);
    SkipsRun(c, mid);
    OneLine(c, brace);
    WalkConcat(Start, [name], mid);
    WalkConcat(Start, [name] + mid, [brace]);
    AttemptsConcat(Start, [name], mid);
    AttemptsConcat(Start, [name] + mid, [brace]);
    OneLine(Start, header);
    SkipsRun(In(pkg), mid);
    WalkConcat(Start, [header], mid);
    AttemptsConcat(Start, [header], mid);
    SlipsConcat(Start, [header], mid);
  }

  lemma {:induction false} PendingCase(n: seq<string>, p: nat, o: nat, pkg: string, cpus: string)
    returns (before: seq<RawRule>, after: seq<RawRule>)
    requires Sound(n) && pkg != "" && p < o < |n| && PendingOpens(n, p, o, pkg)
    requires HeaderOk(pkg) && SpecLike(cpus) && Trimmed(cpus)
    ensures var m := n[p := WithComment(RuleOpenLine(pkg, cpus), n[p])]; var r := m[..o] + m[o + 1..];
            && Sound(r) && Rules(n) == before + after
            && Rules(r) == before + [RawRule(pkg, "", cpus)] + after
    ensures Select(before, PkgRules(pkg)) == []
  {
    hide ViewOf, Walk, Attempts, SlipCount, Select, SpecLike, RuleOpenLine, WithComment, Trimmed, HeaderOk, Next, Attempt, Naming;
    var header := WithComment(RuleOpenLine(pkg, cpus), n[p]);
    var a, mid, b := n[..p], n[p + 1..o], n[o + 1..];
    HeaderLine(n[p], pkg, cpus);
    forall i | 0 <= i < |mid| ensures ViewOf(mid[i]).Skip? {
      assert mid[i] == n[p + 1 + i];
    }
    BraceText(n, o, pkg);
    PendingRuns(n[p], mid, n[o], header, pkg, cpus);
    PendingSlices(n, p, o, header);
    AtIs(n, p);
    before, after := Replace(a, [n[p]] + mid + [n[o]], [header] + mid, b);
    assert before + [] + after == before + after;
    NoPkgRules(n, p, pkg);
  }

  lemma {:induction false} BraceText(n: seq<string>, o: nat, pkg: string)
    requires o < |n| && FirstNaming(n, o, pkg)
    ensures ViewOf(n[o]).Text?
  {
    hide ViewOf, At;
  }

  lemma {:induction false} PendingSlices(n: seq<string>, p: nat, o: nat, header: string)
    requires p < o < |n|
    ensures n == n[..p] + ([n[p]] + n[p + 1..o] + [n[o]]) + n[o + 1..]
    ensures var m := n[p := header];
            m[..o] + m[o + 1..] == n[..p] + ([header] + n[p + 1..o]) + n[o + 1..]
  {
  }

  /** The recorded block of the pending case is the one its brace opens. */
  lemma {:induction false} PendingBlock(n: seq<string>, p: nat, o: nat, pkg: string)
    requires Sound(n) && pkg != "" && NoSingles(Start, n, pkg) && p < o < |n| && PendingOpens(n, p, o, pkg)
    ensures ScanOf(n, pkg).blockOpen == Some(o)
  {
    hide ViewOf, ScanTo, Next, Gone, At;
    BlockFacts(n, |n|, pkg);
    PendingOpening(n, p, o, pkg);
    var x := ScanOf(n, pkg).blockOpen;
    assert x.Some?;
    OpeningNames(n, x.value, pkg);
  }

  lemma {:induction false} PendingOpening(n: seq<string>, p: nat, o: nat, pkg: string)
    requires Calm(n) && pkg != "" && p < o < |n| && PendingOpens(n, p, o, pkg)
    ensures Opening(At(n, o), ViewOf(n[o]), pkg)
  {
    hide ViewOf, At, NoNaming;
    CalmAt(n, o);
  }

  lemma {:induction false} NoSingleAt(n: seq<string>, i: nat, pkg: string)
    requires i < |n| && NoSingles(Start, n, pkg)
    ensures Pick(LocOf(At(n, i), ViewOf(n[i]), 0, pkg), SinglesOnly) == []
  {
    hide ViewOf, Gone, LocOf, Pick, Walk;
    var a, b := n[..i], n[i + 1..];
    assert n == a + ([n[i]] + b);
    GoneConcat(Start, a, [n[i]] + b, pkg, SinglesOnly);
    GoneConcat(Walk(Start, a), [n[i]], b, pkg, SinglesOnly);
    GoneOne(At(n, i), n[i], pkg, SinglesOnly);
  }

  /** Without single-line rules, only naming lines open blocks. */
  lemma {:induction false} OpeningNames(n: seq<string>, i: nat, pkg: string)
    requires pkg != "" && NoSingles(Start, n, pkg) && i < |n| && Opening(At(n, i), ViewOf(n[i]), pkg)
    ensures Naming(At(n, i), ViewOf(n[i]), pkg)
  {
    hide ViewOf, At, Gone;
    NoSingleAt(n, i, pkg);
    if ViewOf(n[i]).Text? {
      ViewNames(n[i]);
    }
  }
}
