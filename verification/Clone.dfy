/** Cloning a package's rules to a package that has none. */
module Clone {
  import opened Seqs
  import opened Text
  import opened RuleSyntax
  import opened LinePrint
  import opened LineHeader
  import opened LineShape
  import opened SpecTheorems
  import opened Loader
  import opened RuleSets
  import opened Scan
  import opened ScanSim
  import opened ScanFacts
  import opened PruneMeans
  import opened Splice
  import opened Normalize
  import opened NormalizeProof
  import opened NormalizeMain
  import opened Upsert
  import opened UpsertPkg
  import opened UpsertMain

  /** What is copied: a package spec and thread entries, in file order. */
  datatype CloneRules = CloneRules(package: Option<string>, threads: seq<(string, string)>)

  datatype Prepared = Ready(lines: seq<string>, rules: CloneRules) | Refused(why: RuleEdit)

  function PackageSpec(lines: seq<string>, t: Target): Option<string> {
    if t.pkgLine.Some? && (t.pkgLine.value.Standalone? || t.pkgLine.value.OpenInline?) && t.pkgLine.value.idx < |lines| then
      match ParseOuter(Trim(lines[t.pkgLine.value.idx]))
      case Rule(_, cpus, _) => Some(cpus)
      case _ => None
    else None
  }

  function ThreadSpec(lines: seq<string>, loc: Loc): Option<string> {
    if loc.idx >= |lines| then None
    else
      var p := Trim(lines[loc.idx]);
      if loc.single then
        match SplitSingle(OpenBody(StripComment(p)).1) case None => None case Some(s) => Some(s.2)
      else
        match SplitRuleLine(p) case None => None case Some(e) => Some(e.1)
  }

  function EntryOf(lines: seq<string>, loc: Loc): seq<(string, string)> {
    match ThreadSpec(lines, loc) case None => [] case Some(spec) => [(loc.name, spec)]
  }

  function Entries(lines: seq<string>, locs: seq<Loc>): seq<(string, string)> {
    if locs == [] then [] else EntryOf(lines, locs[0]) + Entries(lines, locs[1..])
  }

  function ClonePrepare(lines: seq<string>, source: string, target: string, copyPackage: bool, copyThreads: bool): (p: Prepared)
    ensures p.Refused? ==> !p.why.Ok?
  {
    var n := Normalized(Normalized(lines, source), target);
    var from, to := ScanOf(n, source), ScanOf(n, target);
    if Unterminated(n, source) || Unterminated(n, target) then Refused(Malformed)
    else if AnyLine(to) then Refused(Conflict)
    else if copyPackage && PackageSpec(n, from).None? then Refused(NotFound)
    else if copyThreads && Entries(n, from.threads) == [] then Refused(NotFound)
    else Ready(n, CloneRules(if copyPackage then PackageSpec(n, from) else None,
                             if copyThreads then Entries(n, from.threads) else []))
  }

  function EntryLines(threads: seq<(string, string)>): seq<string> {
    if threads == [] then [] else [EntryLine(threads[0].0, threads[0].1)] + EntryLines(threads[1..])
  }

  /** A blank line between the file and what is appended. */
  function Padded(lines: seq<string>): seq<string> {
    if lines != [] && Trim(lines[|lines| - 1]) != "" then lines + [""] else lines
  }

  function CloneBlock(target: string, rules: CloneRules): seq<string> {
    if rules.threads == [] then
      match rules.package case None => [] case Some(cpus) => [RuleLine(target, cpus)]
    else
      [match rules.package case Some(cpus) => RuleOpenLine(target, cpus) case None => BareOpenLine(target)]
      + EntryLines(rules.threads) + ["}"]
  }

  function Cloned(lines: seq<string>, source: string, target: string, copyPackage: bool, copyThreads: bool): RuleEdit {
    match ClonePrepare(lines, source, target, copyPackage, copyThreads)
    case Refused(why) => why
    case Ready(n, rules) => Ok(Padded(n) + CloneBlock(target, rules))
  }

  // ---- what is copied

  function Pairs(rs: seq<RawRule>): seq<(string, string)> {
    if rs == [] then [] else [(rs[0].thread, rs[0].spec)] + Pairs(rs[1..])
  }

  lemma {:induction false} EntriesConcat(lines: seq<string>, a: seq<Loc>, b: seq<Loc>)
    ensures Entries(lines, a + b) == Entries(lines, a) + Entries(lines, b)
    decreases |a|
  {
    hide EntryOf;
    if a == [] {
      NilLeft(b);
      NilLeft(Entries(lines, b));
    } else {
      ConsDrop(a, b);
      EntriesConcat(lines, a[1..], b);
      Assoc3(EntryOf(lines, a[0]), Entries(lines, a[1..]), Entries(lines, b));
    }
  }

  lemma {:induction false} PairsConcat(a: seq<RawRule>, b: seq<RawRule>)
    ensures Pairs(a + b) == Pairs(a) + Pairs(b)
    decreases |a|
  {
    if a == [] {
      NilLeft(b);
    } else {
      ConsDrop(a, b);
      PairsConcat(a[1..], b);
    }
  }

  /** A recorded line holds one thread rule of the package; other lines hold none. */
  lemma {:induction false} RecordedRule(c: Ctl, v: View, i: nat, pkg: string)
    ensures var locs, rs := LocOf(c, v, i, pkg), Select(Attempt(c, v), PkgThreads(pkg));
            if locs == [] then rs == []
            else && |locs| == 1 && |rs| == 1 && locs[0].idx == i && locs[0].name == rs[0].thread && v.Text?
                 && (if locs[0].single then v.outer.Single? && rs[0].spec == v.outer.cpus
                     else v.inner.Entry? && rs[0].spec == v.inner.spec)
  {
    if Attempt(c, v) != [] {
      SelectOne(Attempt(c, v)[0], PkgThreads(pkg));
      assert Attempt(c, v) == [Attempt(c, v)[0]];
    }
  }

  /** The spec read back from a recorded line is the spec the loader reads there. */
  lemma {:induction false} SpecThere(lines: seq<string>, c: Ctl, i: nat, pkg: string)
    requires i < |lines|
    ensures Entries(lines, LocOf(c, ViewOf(lines[i]), i, pkg)) == Pairs(Select(Attempt(c, ViewOf(lines[i])), PkgThreads(pkg)))
  {
    hide ViewOf, Trim, SplitSingle, SplitRuleLine, OpenBody, StripComment, LocOf, Attempt, Select;
    var locs, rs := LocOf(c, ViewOf(lines[i]), i, pkg), Select(Attempt(c, ViewOf(lines[i])), PkgThreads(pkg));
    RecordedRule(c, ViewOf(lines[i]), i, pkg);
    ViewParts(lines[i]);
    if locs != [] {
      assert locs == [locs[0]] && rs == [rs[0]];
      assert Entries(lines, locs[1..]) == [] && Pairs(rs[1..]) == [];
    }
  }

  lemma {:induction false} ViewParts(line: string)
    ensures var p := Trim(line); var v := ViewOf(line);
            && (v.Text? && v.inner.Entry? ==> SplitRuleLine(p).Some? && SplitRuleLine(p).value.1 == v.inner.spec)
            && (v.Text? && v.outer.Single? ==>
                  var s := SplitSingle(OpenBody(StripComment(p)).1); s.Some? && s.value.2 == v.outer.cpus)
  {
    hide Trim, SplitSingle, SplitRuleLine, OpenBody, StripComment, CloseLike, StartsComment;
  }

  lemma {:induction false} EntriesAre(a: seq<string>, c: Ctl, rest: seq<string>, pkg: string)
    ensures Entries(a + rest, LocsOf(c, rest, |a|, pkg)) == Pairs(Select(Attempts(c, rest), PkgThreads(pkg)))
    decreases |rest|
  {
    hide ViewOf, Next, LocOf, Entries, Select, Attempt, Pairs;
    if rest == [] {
      NoEntries(a + rest, c, |a|, pkg);
    } else {
      var v := ViewOf(rest[0]);
      EntriesConcat(a + rest, LocOf(c, v, |a|, pkg), LocsOf(Next(c, v), rest[1..], |a| + 1, pkg));
      EntriesAre(a + [rest[0]], Next(c, v), rest[1..], pkg);
      Uncons(rest);
      Assoc3(a, [rest[0]], rest[1..]);
      assert (a + rest)[|a|] == rest[0];
      SpecThere(a + rest, c, |a|, pkg);
      SelectConcat(Attempt(c, v), Attempts(Next(c, v), rest[1..]), PkgThreads(pkg));
      PairsConcat(Select(Attempt(c, v), PkgThreads(pkg)), Select(Attempts(Next(c, v), rest[1..]), PkgThreads(pkg)));
    }
  }

  lemma {:induction false} NoEntries(lines: seq<string>, c: Ctl, base: nat, pkg: string)
    ensures LocsOf(c, [], base, pkg) == [] && Attempts(c, []) == [] && Entries(lines, []) == []
    ensures Pairs(Select([], PkgThreads(pkg))) == []
  {
  }

  /** The thread entries are the package's thread rules, in file order. */
  lemma {:induction false} EntriesWhole(n: seq<string>, pkg: string)
    requires Calm(n) && pkg != ""
    ensures Entries(n, ScanOf(n, pkg).threads) == Pairs(Select(Rules(n), PkgThreads(pkg)))
  {
    hide Entries, Select, Attempts, ScanTo, LocsOf, Walk, SlipCount, Pairs;
    ScanLocs(n, pkg);
    EntriesAre([], Start, n, pkg);
    NilLeft(n);
  }

  /** The package spec is that of the package's first rule, if the first naming line carries it. */
  lemma {:induction false} PackageSpecIs(n: seq<string>, pkg: string)
    requires Sound(n) && pkg != ""
    ensures var rs := Select(Rules(n), PkgRules(pkg));
            if Carries(ScanOf(n, pkg)) then rs != [] && PackageSpec(n, ScanOf(n, pkg)) == Some(rs[0].spec)
            else PackageSpec(n, ScanOf(n, pkg)) == None
  {
    hide ViewOf, Attempts, Walk, SlipCount, ScanTo, Select, Naming, At, NoNaming, ParseOuter, Trim, Ends;
    var t := ScanOf(n, pkg);
    PkgLineFacts(n, |n|, pkg);
    if Carries(t) {
      var i := t.pkgLine.value.idx;
      StandaloneAt(n, i, pkg);
      OuterIs(n[i]);
      NoPkgRules(n, i, pkg);
      AtIs(n, i);
      OneLine(Start, n[i]);
      RuleAttempt(pkg, ViewOf(n[i]));
      SplitAround(n, i);
      ThreeParts(n[..i], [n[i]], n[i + 1..]);
      var r := RawRule(pkg, "", ViewOf(n[i]).outer.cpus);
      SelectThree(Rules(n[..i]), r, Attempts(Next(Start, ViewOf(n[i])), n[i + 1..]), PkgRules(pkg));
      NilLeft([r]);
    }
  }

  lemma {:induction false} OuterIs(line: string)
    requires ViewOf(line).Text?
    ensures ParseOuter(Trim(line)) == ViewOf(line).outer
  {
    hide ParseOuter, Trim, InnerView;
  }

  // ---- what is appended

  /** Entries that an in-block line carries unchanged. */
  predicate Copyable(threads: seq<(string, string)>) {
    forall e | e in threads :: EntryNameOk(e.0) && SpecLike(e.1) && Trimmed(e.1)
  }

  function Owned(target: string, threads: seq<(string, string)>): seq<RawRule> {
    if threads == [] then [] else [RawRule(target, threads[0].0, threads[0].1)] + Owned(target, threads[1..])
  }

  lemma {:induction false} EntriesRun(target: string, threads: seq<(string, string)>)
    requires Copyable(threads)
    ensures RunsIn(target, EntryLines(threads), Owned(target, threads))
    decreases |threads|
  {
    hide ViewOf, EntryNameOk, SpecLike, Trimmed, EntryLine;
    if threads == [] {
      NoLine(In(target));
    } else {
      Uncons(threads);
      assert threads[0] in threads;
      EntryRuns(target, threads[0].0, threads[0].1);
      EntriesRun(target, threads[1..]);
      var a, b := [EntryLine(threads[0].0, threads[0].1)], EntryLines(threads[1..]);
      WalkConcat(In(target), a, b);
      AttemptsConcat(In(target), a, b);
      SlipsConcat(In(target), a, b);
    }
  }

  function CloneOwned(target: string, rules: CloneRules): seq<RawRule> {
    (match rules.package case None => [] case Some(cpus) => [RawRule(target, "", cpus)]) + Owned(target, rules.threads)
  }

  /** The header of the appended block. */
  lemma {:induction false} CloneHeader(target: string, package: Option<string>)
    requires RulePkgOk(target) && (package.Some? ==> SpecLike(package.value) && Trimmed(package.value))
    ensures var h := match package case Some(cpus) => RuleOpenLine(target, cpus) case None => BareOpenLine(target);
            && ViewOf(h).Text? && Next(Start, ViewOf(h)) == In(target) && !Slips(Start, ViewOf(h))
            && ViewOf(h).outer == (match package case None => BareOpen(target) case Some(cpus) => Rule(target, cpus, true))
            && Attempt(Start, ViewOf(h)) == (match package case None => [] case Some(cpus) => [RawRule(target, "", cpus)])
  {
    hide ViewOf, SpecLike, Trimmed, RulePkgOk, BareOpenLine, RuleOpenLine;
    TargetBody(target);
    match package {
      case Some(cpus) =>
        SpecIsPlain(cpus);
        RuleOpenBody(target, cpus);
        PrintedShows(RuleOpenLine(target, cpus));
      case None =>
        HeaderIsBare(target);
        PrintedShowsBare(target);
    }
  }

  lemma {:induction false} TargetBody(target: string)
    requires RulePkgOk(target)
    ensures HeaderOk(target) && target != ""
  {
  }

  lemma {:induction false} BlockClones(target: string, rules: CloneRules)
    requires RulePkgOk(target) && Copyable(rules.threads)
    requires rules.package.Some? ==> SpecLike(rules.package.value) && Trimmed(rules.package.value)
    ensures Walk(Start, CloneBlock(target, rules)) == Start && SlipCount(Start, CloneBlock(target, rules)) == 0
    ensures Attempts(Start, CloneBlock(target, rules)) == CloneOwned(target, rules)
  {
    hide ViewOf, SpecLike, Trimmed, RulePkgOk, BareOpenLine, RuleOpenLine, RuleLine, Walk, Attempts, SlipCount, EntryLines, Copyable, Slips;
    if rules.threads == [] {
      NoLine(Start);
      if rules.package.Some? {
        var cpus := rules.package.value;
        RuleLineShows(target, cpus);
        RuleRuns(ViewOf(RuleLine(target, cpus)), target, cpus);
        OneLine(Start, RuleLine(target, cpus));
        NilLeft([RawRule(target, "", cpus)]);
      }
    } else {
      CloneHeader(target, rules.package);
      EntriesRun(target, rules.threads);
      BlockRuns(Start, match rules.package case Some(cpus) => RuleOpenLine(target, cpus) case None => BareOpenLine(target),
                EntryLines(rules.threads), target);
    }
  }

  lemma {:induction false} PaddedRuns(n: seq<string>)
    requires Sound(n)
    ensures Sound(Padded(n)) && Rules(Padded(n)) == Rules(n) && Walk(Start, Padded(n)) == Start
  {
    hide ViewOf, Walk, Attempts, SlipCount, Trim;
    EndsAt(n);
    WholeAt(n);
    if Padded(n) != n {
      BlankSkips();
      OneLine(Start, "");
      SkipRuns(ViewOf(""));
      WalkConcat(Start, n, [""]);
      AttemptsConcat(Start, n, [""]);
      SlipsConcat(Start, n, [""]);
      NilLeft(Rules(n));
    }
  }

  lemma {:induction false} SkipRuns(v: View)
    requires v.Skip?
    ensures Next(Start, v) == Start && Attempt(Start, v) == [] && !Slips(Start, v)
  {
  }

  /** Appending what runs from the outside back to the outside. */
  lemma {:induction false} Appended(n: seq<string>, block: seq<string>)
    requires Sound(n) && Walk(Start, n) == Start && Walk(Start, block) == Start && SlipCount(Start, block) == 0
    ensures Sound(n + block) && Rules(n + block) == Rules(n) + Attempts(Start, block)
  {
    hide Walk, Attempts, SlipCount;
    WalkConcat(Start, n, block);
    AttemptsConcat(Start, n, block);
    SlipsConcat(Start, n, block);
  }
}
