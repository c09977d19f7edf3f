/**
 * When an edit is refused, and what an appended line becomes: on every file without a bare `=`,
 * loadable or not, told by the loader's own reading of the normalised file.
 */
module Refusals {
  import opened Seqs
  import opened Text
  import opened RuleSyntax
  import opened LinePrint
  import opened LineHeader
  import opened Loader
  import opened RuleSets
  import opened Scan
  import opened ScanSim
  import opened ScanFacts
  import opened Prune
  import opened PruneMeans
  import opened Splice
  import opened Normalize
  import opened NormalizeProof
  import opened NormalizeMain
  import opened Upsert
  import opened UpsertMain
  import opened Delete
  import opened Unseen
  import opened DeletePkg
  import opened RenameEnds
  import opened RenameForever
  import opened RenameMain
  import opened Clone
  import opened NormalizeAny

  // ---- the loader's reading

  /** An outer line other than a single-line rule names the package. */
  predicate NamedLine(n: seq<string>, pkg: string) {
    exists i | 0 <= i < |n| :: Naming(At(n, i), ViewOf(n[i]), pkg)
  }

  /** A single-line rule of the package. */
  predicate OuterSingle(c: Ctl, v: View, pkg: string) {
    v.Text? && !c.inBlock && v.outer.Single? && v.outer.pkg == pkg
  }

  /** An outer line of any kind names the package. */
  predicate Mentioned(n: seq<string>, pkg: string) {
    exists i | 0 <= i < |n| :: Naming(At(n, i), ViewOf(n[i]), pkg) || OuterSingle(At(n, i), ViewOf(n[i]), pkg)
  }

  predicate RuleAlone(v: View) {
    v.Text? && v.outer.Rule? && !v.outer.open
  }

  /** The first line that names the package is a rule on its own. */
  predicate RuleFirst(n: seq<string>, pkg: string) {
    exists i | 0 <= i < |n| :: FirstNaming(n, i, pkg) && RuleAlone(ViewOf(n[i]))
  }

  /** A line at which a block of the package ends. */
  predicate Ending(n: seq<string>, i: nat, pkg: string)
    requires i < |n|
  {
    At(n, i).inBlock && At(n, i).cur == pkg && !Next(At(n, i), ViewOf(n[i])).inBlock
  }

  predicate BlockEnded(n: seq<string>, pkg: string) {
    exists i | 0 <= i < |n| :: Ending(n, i, pkg)
  }

  /** The loader is inside a block at the end of the file. */
  predicate EndsInside(n: seq<string>) {
    Walk(Start, n).inBlock
  }

  predicate HasRule(n: seq<string>, pkg: string, thread: string) {
    exists r | r in Rules(n) :: r.pkg == pkg && r.thread == thread
  }

  // ---- what the scan records, in these terms

  lemma {:induction false} NamedIff(n: seq<string>, pkg: string)
    requires pkg != "" && NoBareEq(n)
    ensures ScanOf(n, pkg).pkgLine.Some? <==> NamedLine(n, pkg)
    ensures (ScanOf(n, pkg).pkgLine.Some? && ScanOf(n, pkg).pkgLine.value.Standalone?) <==> RuleFirst(n, pkg)
  {
    hide ViewOf, Walk, ScanTo, Naming;
    PkgLineAny(n, |n|, pkg);
    var t := ScanOf(n, pkg);
    if i :| 0 <= i < |n| && FirstNaming(n, i, pkg) && RuleAlone(ViewOf(n[i])) {
      FirstIsOne(n, t, i, pkg);
    }
    if t.pkgLine.Some? && t.pkgLine.value.Standalone? {
      NamingText(n, t.pkgLine.value.idx, pkg);
    }
  }

  lemma {:induction false} NamingText(n: seq<string>, i: nat, pkg: string)
    requires FirstNaming(n, i, pkg)
    ensures ViewOf(n[i]).Text?
  {
    hide ViewOf, Walk, NoNaming;
  }

  lemma {:induction false} FirstIsOne(n: seq<string>, t: Target, i: nat, pkg: string)
    requires PkgLineKind(n, |n|, t, pkg) && FirstNaming(n, i, pkg) && RuleAlone(ViewOf(n[i]))
    ensures t.pkgLine == Some(Standalone(i))
  {
    hide ViewOf, Walk, Naming;
    forall j | FirstNaming(n, j, pkg) ensures j == i {
      OnlyFirst(n, i, j, pkg);
    }
  }

  lemma {:induction false} OnlyFirst(n: seq<string>, i: nat, j: nat, pkg: string)
    requires FirstNaming(n, i, pkg) && FirstNaming(n, j, pkg)
    ensures i == j
  {
    hide ViewOf, Walk, Naming;
  }

  lemma {:induction false} ClosedIff(n: seq<string>, k: nat, pkg: string)
    requires k <= |n| && pkg != "" && NoBareEq(n)
    ensures ScanTo(n, k, pkg).t.blockClose.Some? <==> exists i | 0 <= i < k :: Ending(n, i, pkg)
    ensures var c := ScanTo(n, k, pkg).t.blockClose; c.Some? ==> c.value < k && Ending(n, c.value, pkg)
  {
    hide ViewOf, Walk, Step, Next, Orphan;
    if k > 0 {
      ClosedIff(n, k - 1, pkg);
      ScanSimulates(n, k - 1, pkg);
      NoOrphan(n, k - 1, ScanTo(n, k - 1, pkg), pkg);
      StepBlock(n, ScanTo(n, k - 1, pkg), k - 1, At(n, k - 1), pkg);
      assert (exists i | 0 <= i < k :: Ending(n, i, pkg))
        <==> (exists i | 0 <= i < k - 1 :: Ending(n, i, pkg)) || Ending(n, k - 1, pkg);
    }
  }

  lemma {:induction false} InsideIff(n: seq<string>, pkg: string)
    requires pkg != "" && NoBareEq(n)
    ensures Unterminated(n, pkg) <==> EndsInside(n)
  {
    hide ViewOf, Walk, ScanTo;
    ScanSimulates(n, |n|, pkg);
    TakeAll(n);
  }

  lemma {:induction false} SinglesIff(c: Ctl, n: seq<string>, base: nat, pkg: string)
    ensures Singles(LocsOf(c, n, base, pkg)) != []
       <==> exists i | 0 <= i < |n| :: OuterSingle(Walk(c, n[..i]), ViewOf(n[i]), pkg)
    decreases |n|
  {
    hide ViewOf, Next, LocOf, OuterSingle, Pick;
    if n == [] {
      assert LocsOf(c, n, base, pkg) == [];
      NoneSingle();
    } else {
      var v := ViewOf(n[0]);
      SinglesIff(Next(c, v), n[1..], base + 1, pkg);
      PickConcat(LocOf(c, v, base, pkg), LocsOf(Next(c, v), n[1..], base + 1, pkg), SinglesOnly);
      SingleHere(c, n[0], base, pkg);
      forall i | 0 < i < |n| ensures Walk(c, n[..i]) == Walk(Next(c, v), n[1..][..i - 1]) {
        assert n[..i][1..] == n[1..][..i - 1];
      }
      assert Walk(c, n[..0]) == c;
      ShiftedSingles(c, n, pkg);
    }
  }

  lemma {:induction false} ShiftedSingles(c: Ctl, n: seq<string>, pkg: string)
    requires n != []
    requires forall i | 0 < i < |n| :: Walk(c, n[..i]) == Walk(Next(c, ViewOf(n[0])), n[1..][..i - 1])
    requires Walk(c, n[..0]) == c
    ensures (exists i | 0 <= i < |n| :: OuterSingle(Walk(c, n[..i]), ViewOf(n[i]), pkg))
       <==> OuterSingle(c, ViewOf(n[0]), pkg)
            || exists i | 0 <= i < |n| - 1 :: OuterSingle(Walk(Next(c, ViewOf(n[0])), n[1..][..i]), ViewOf(n[1..][i]), pkg)
  {
    hide ViewOf, Next, OuterSingle, Walk;
    var m, d := n[1..], Next(c, ViewOf(n[0]));
    assert forall i | 0 <= i < |m| :: m[i] == n[i + 1];
    if i :| 0 <= i < |n| && OuterSingle(Walk(c, n[..i]), ViewOf(n[i]), pkg) {
      if i > 0 {
        assert OuterSingle(Walk(d, m[..i - 1]), ViewOf(m[i - 1]), pkg);
      }
    }
    if i :| 0 <= i < |m| && OuterSingle(Walk(d, m[..i]), ViewOf(m[i]), pkg) {
      assert OuterSingle(Walk(c, n[..i + 1]), ViewOf(n[i + 1]), pkg);
    }
    if OuterSingle(c, ViewOf(n[0]), pkg) {
      assert OuterSingle(Walk(c, n[..0]), ViewOf(n[0]), pkg);
    }
  }

  lemma {:induction false} NoneSingle()
    ensures Singles([]) == []
  {
  }

  lemma {:induction false} SingleHere(c: Ctl, line: string, i: nat, pkg: string)
    ensures Singles(LocOf(c, ViewOf(line), i, pkg)) != [] <==> OuterSingle(c, ViewOf(line), pkg)
  {
    hide ViewOf;
    var v := ViewOf(line);
    if v.Text? && !c.inBlock && v.outer.Single? {
      SingleNamed(line);
    }
    var l := LocOf(c, v, i, pkg);
    if l != [] {
      assert l == [l[0]];
      PickOne(l[0], SinglesOnly);
    }
  }

  /** The scan sees a package exactly when an outer line names it. */
  lemma {:induction false} SeenIff(n: seq<string>, pkg: string)
    requires pkg != "" && NoBareEq(n)
    ensures AnyLine(ScanOf(n, pkg)) <==> Mentioned(n, pkg)
  {
    hide ViewOf, Walk, ScanTo, Naming, OuterSingle, Pick;
    NamedIff(n, pkg);
    ScanSimulates(n, |n|, pkg);
    TakeAll(n);
    SinglesIff(Start, n, 0, pkg);
  }

  /** A thread is recorded exactly when some rule names it. */
  lemma {:induction false} RecordedIff(c: Ctl, n: seq<string>, base: nat, pkg: string, thread: string)
    requires thread != ""
    ensures Pick(LocsOf(c, n, base, pkg), Sel.Named(thread)) != []
       <==> exists r | r in Attempts(c, n) :: r.pkg == pkg && r.thread == thread
    decreases |n|
  {
    hide ViewOf, Next, LocOf, Attempt, Pick;
    if n == [] {
      NonePicked(thread);
    } else {
      var v := ViewOf(n[0]);
      RecordedIff(Next(c, v), n[1..], base + 1, pkg, thread);
      PickConcat(LocOf(c, v, base, pkg), LocsOf(Next(c, v), n[1..], base + 1, pkg), Sel.Named(thread));
      RuleHere(c, n[0], base, pkg, thread);
    }
  }

  lemma {:induction false} NonePicked(thread: string)
    ensures Pick([], Sel.Named(thread)) == []
  {
  }

  lemma {:induction false} RuleHere(c: Ctl, line: string, i: nat, pkg: string, thread: string)
    requires thread != ""
    ensures Pick(LocOf(c, ViewOf(line), i, pkg), Sel.Named(thread)) != []
       <==> exists r | r in Attempt(c, ViewOf(line)) :: r.pkg == pkg && r.thread == thread
  {
    hide ViewOf;
    var v := ViewOf(line);
    var l, a := LocOf(c, v, i, pkg), Attempt(c, v);
    if l != [] {
      assert l == [l[0]];
      PickOne(l[0], Sel.Named(thread));
    }
    assert a != [] ==> a == [a[0]];
    assert a != [] && a[0].pkg == pkg && a[0].thread == thread ==> a[0] in a;
  }

  lemma {:induction false} HasRuleIff(n: seq<string>, pkg: string, thread: string)
    requires pkg != "" && thread != "" && NoBareEq(n)
    ensures Pick(ScanOf(n, pkg).threads, Sel.Named(thread)) != [] <==> HasRule(n, pkg, thread)
  {
    hide ViewOf, ScanTo, Pick, Attempts;
    ScanSimulates(n, |n|, pkg);
    TakeAll(n);
    RecordedIff(Start, n, 0, pkg, thread);
  }

  // ---- refusals

  /** Setting a package rule is refused exactly when no line names the package and the file ends in a block. */
  lemma {:induction false} PackageRefused(lines: seq<string>, pkg: string, cpus: string)
    requires pkg != "" && NoEqLine(lines)
    ensures var n, e := Normalized(lines, pkg), Upserted(lines, pkg, "", cpus);
            && (e.Malformed? <==> !NamedLine(n, pkg) && EndsInside(n)) && !e.NotFound? && !e.Conflict?
            && (!NamedLine(n, pkg) && !EndsInside(n) ==> e == Ok(n + [pkg + "=" + cpus]))
  {
    hide ViewOf, ScanTo, Normalized, SpecSwap, WithComment, RuleOpenLine, IsBareBrace, Walk, Naming;
    NoEqNormal(lines, pkg);
    NoEqBare(Normalized(lines, pkg));
    NamedIff(Normalized(lines, pkg), pkg);
    InsideIff(Normalized(lines, pkg), pkg);
  }

  /**
   * Setting a thread rule is refused exactly when the thread has no rule, the package has neither
   * a closed block nor a rule on its own as its first line, and the file ends in a block.
   */
  lemma {:induction false} ThreadRefused(lines: seq<string>, pkg: string, thread: string, cpus: string)
    requires pkg != "" && thread != "" && NoEqLine(lines)
    ensures var n, e := Normalized(lines, pkg), Upserted(lines, pkg, thread, cpus);
            && (e.Malformed? <==> !HasRule(n, pkg, thread) && !BlockEnded(n, pkg) && !RuleFirst(n, pkg) && EndsInside(n))
            && !e.NotFound? && !e.Conflict?
  {
    hide ViewOf, ScanTo, Normalized, SpecSwap, RemoveAll, Inserted, Walk, Pick, Ending;
    var n := Normalized(lines, pkg);
    NoEqNormal(lines, pkg);
    NoEqBare(n);
    NamedIff(n, pkg);
    InsideIff(n, pkg);
    ClosedIff(n, |n|, pkg);
    HasRuleIff(n, pkg, thread);
  }

  /** Deleting a thread's rules, or a package, finds nothing exactly when there is nothing. */
  lemma {:induction false} DeleteRefused(lines: seq<string>, pkg: string, thread: string)
    requires pkg != "" && thread != "" && NoEqLine(lines)
    ensures var n, e := Normalized(lines, pkg), Deleted(lines, pkg, thread);
            (e.NotFound? <==> !HasRule(n, pkg, thread)) && !e.Conflict? && !e.Malformed?
    ensures var n, e := Normalized(lines, pkg), DeletedPkg(lines, pkg);
            (e.NotFound? <==> !Mentioned(n, pkg)) && !e.Conflict? && !e.Malformed?
  {
    hide ViewOf, ScanTo, Normalized, RemoveAll, Walk, Pick, Rounds;
    var n := Normalized(lines, pkg);
    NoEqNormal(lines, pkg);
    NoEqBare(n);
    HasRuleIff(n, pkg, thread);
    SeenIff(n, pkg);
  }

  /** Renaming is refused exactly when no outer line names the old package, or one names the new. */
  lemma {:induction false} RenameRefused(lines: seq<string>, from: string, to: string)
    requires from != "" && to != "" && NoEqLine(lines) && Halts(lines, from, to)
    ensures var n, e := Normalized(lines, from), RenamedPkg(lines, from, to);
            && (e.NotFound? <==> !Mentioned(n, from)) && (e.Conflict? <==> Mentioned(n, from) && Mentioned(n, to))
            && !e.Malformed?
  {
    hide ViewOf, ScanTo, Normalized, Walk, Passes, Terminates, Pick;
    var n := Normalized(lines, from);
    NoEqNormal(lines, from);
    NoEqBare(n);
    SeenIff(n, from);
    SeenIff(n, to);
  }

  /** Cloning is refused when the file ends in a block, else when a line names the target. */
  lemma {:induction false} CloneRefused(lines: seq<string>, source: string, target: string, cp: bool, ct: bool)
    requires source != "" && target != "" && NoEqLine(lines)
    ensures var n, e := Normalized(Normalized(lines, source), target), Cloned(lines, source, target, cp, ct);
            && (e.Malformed? <==> EndsInside(n)) && (e.Conflict? <==> !EndsInside(n) && Mentioned(n, target))
  {
    hide ViewOf, ScanTo, Normalized, Walk, PackageSpec, Entries, CloneBlock, Pick;
    var n := Normalized(Normalized(lines, source), target);
    NoEqNormal(lines, source);
    NoEqNormal(Normalized(lines, source), target);
    NoEqBare(n);
    InsideIff(n, source);
    InsideIff(n, target);
    SeenIff(n, target);
  }

  // ---- what appended lines become

  /** The new package rule is loaded as such, behind everything else. */
  lemma {:induction false} PackageAppended(lines: seq<string>, pkg: string, cpus: string)
    requires RulePkgOk(pkg) && SpecLike(cpus) && Trimmed(cpus) && NoEqLine(lines) && pkg != ""
    requires !NamedLine(Normalized(lines, pkg), pkg) && !EndsInside(Normalized(lines, pkg))
    ensures var e := Upserted(lines, pkg, "", cpus);
            e.Ok? && Rules(e.lines) == Rules(Normalized(lines, pkg)) + [RawRule(pkg, "", cpus)]
  {
    hide ViewOf, ScanTo, Normalized, Walk, RulePkgOk, SpecLike, Attempts, Naming, Upserted;
    var n := Normalized(lines, pkg);
    PackageRefused(lines, pkg, cpus);
    RuleLineShows(pkg, cpus);
    AttemptsConcat(Start, n, [RuleLine(pkg, cpus)]);
    OneLine(Walk(Start, n), RuleLine(pkg, cpus));
    RuleAdds(Walk(Start, n), ViewOf(RuleLine(pkg, cpus)), pkg, cpus);
  }

  lemma {:induction false} RuleAdds(c: Ctl, v: View, pkg: string, cpus: string)
    requires !c.inBlock && v.Text? && v.outer == Rule(pkg, cpus, false)
    ensures Attempt(c, v) == [RawRule(pkg, "", cpus)]
  {
  }

  /** A block put where the loader is outside of blocks, whatever name waits there. */
  lemma {:induction false} BlockAdds(c: Ctl, header: string, items: seq<string>, pkg: string)
    requires !c.inBlock && Next(c, ViewOf(header)) == In(pkg) && Walk(In(pkg), items) == In(pkg)
    ensures Walk(c, [header] + items + ["}"]) == Start
    ensures Attempts(c, [header] + items + ["}"]) == Attempt(c, ViewOf(header)) + Attempts(In(pkg), items)
  {
    hide ViewOf, Next, Attempt;
    CloserRuns(pkg);
    OneLine(c, header);
    WalkConcat(c, [header] + items, ["}"]);
    WalkConcat(c, [header], items);
    AttemptsConcat(c, [header] + items, ["}"]);
    AttemptsConcat(c, [header], items);
    NilLeft(Attempt(c, ViewOf(header)) + Attempts(In(pkg), items));
  }

  lemma {:induction false} OpensFrom(c: Ctl, v: View, pkg: string)
    requires !c.inBlock && v.Text? && pkg != "" && (v.outer == BareOpen(pkg) || (v.outer.Rule? && v.outer.open && v.outer.pkg == pkg))
    ensures Next(c, v) == In(pkg)
    ensures Attempt(c, v) == if v.outer.Rule? then [RawRule(pkg, "", v.outer.cpus)] else []
  {
  }

  /** Lines put in place of others between `a` and `b`, leaving the loader in the same state. */
  lemma {:induction false} Exchange(a: seq<string>, x: seq<string>, y: seq<string>, b: seq<string>)
    requires Walk(Walk(Start, a), y) == Walk(Walk(Start, a), x)
    ensures var after := Attempts(Walk(Walk(Start, a), x), b);
            && Rules(a + x + b) == Rules(a) + Attempts(Walk(Start, a), x) + after
            && Rules(a + y + b) == Rules(a) + Attempts(Walk(Start, a), y) + after
  {
    hide Walk, Attempts, SlipCount;
    ThreeParts(a, x, b);
    ThreeParts(a, y, b);
  }

  /** A rule and nothing else is added. */
  ghost predicate Adds(after: seq<string>, was: seq<string>, r: RawRule) {
    && r in Rules(after) && multiset(Rules(after)) == multiset(Rules(was)) + multiset{r}
    && (forall q | !Holds(q, r) :: Select(Rules(after), q) == Select(Rules(was), q))
  }

  lemma {:induction false} AddsOne(after: seq<string>, was: seq<string>, a: seq<RawRule>, r: RawRule, b: seq<RawRule>)
    requires Rules(was) == a + b && Rules(after) == a + [r] + b
    ensures Adds(after, was, r)
  {
    hide Select, Holds, Attempts;
    assert (a + [r] + b)[|a|] == r;
    forall q | !Holds(q, r) ensures Select(Rules(after), q) == Select(Rules(was), q) {
      InsertedPart(a, [r], b, q);
    }
  }

  /** A new thread rule, wherever it is put, is loaded as a rule of the package; every other rule stays. */
  lemma {:induction false} ThreadAdded(lines: seq<string>, pkg: string, thread: string, cpus: string)
    requires pkg != "" && thread != "" && NoEqLine(lines) && SpecLike(cpus) && Trimmed(cpus)
    requires InsertSafe(Normalized(lines, pkg), pkg, thread) && !HasRule(Normalized(lines, pkg), pkg, thread)
    ensures var e := Upserted(lines, pkg, thread, cpus);
            e.Ok? ==> Adds(e.lines, Normalized(lines, pkg), RawRule(pkg, thread, cpus))
  {
    hide ViewOf, ScanTo, Normalized, Walk, SpecLike, Attempts, Pick, Inserted, EntryNameOk, BareOk, HeaderFree, RuleFirst, Adds, NewBlock, HasRule, EndsInside, BlockEnded;
    var n := Normalized(lines, pkg);
    NoEqNormal(lines, pkg);
    NoEqBare(n);
    HasRuleIff(n, pkg, thread);
    InsideIff(n, pkg);
    if Upserted(lines, pkg, thread, cpus).Ok? {
      InsertAdds(n, pkg, thread, cpus);
    }
  }

  lemma {:induction false} InsertAdds(n: seq<string>, pkg: string, thread: string, cpus: string)
    requires pkg != "" && NoBareEq(n) && SpecLike(cpus) && Trimmed(cpus) && InsertSafe(n, pkg, thread)
    requires var t := ScanOf(n, pkg); t.blockClose.Some? || (t.pkgLine.Some? && t.pkgLine.value.Standalone?) || !EndsInside(n)
    ensures Adds(Inserted(n, ScanOf(n, pkg), pkg, [EntryLine(thread, cpus)], |n|), n, RawRule(pkg, thread, cpus))
  {
    hide ViewOf, ScanTo, Walk, SpecLike, Attempts, EntryNameOk, BareOk, Adds, EntryLine, Naming, TrimEnd, BareOpenLine, CommentAt;
    var t := ScanOf(n, pkg);
    EntryRuns(pkg, thread, cpus);
    ClosedIff(n, |n|, pkg);
    PkgLineAny(n, |n|, pkg);
    if t.blockClose.Some? {
      CloseAdds(n, t.blockClose.value, pkg, thread, cpus);
    } else if t.pkgLine.Some? && t.pkgLine.value.Standalone? {
      HeaderAdds(n, t.pkgLine.value.idx, pkg, thread, cpus);
    } else {
      EndAdds(n, pkg, thread, cpus);
    }
  }

  lemma {:induction false} CloseAdds(n: seq<string>, close: nat, pkg: string, thread: string, cpus: string)
    requires close < |n| && Ending(n, close, pkg)
    requires RunsIn(pkg, [EntryLine(thread, cpus)], [RawRule(pkg, thread, cpus)])
    ensures Adds(n[..close] + [EntryLine(thread, cpus)] + n[close..], n, RawRule(pkg, thread, cpus))
  {
    hide ViewOf, Walk, Attempts, Adds, EntryLine, Next;
    AtShape(n, close);
    var a, b, y := n[..close], n[close..], [EntryLine(thread, cpus)];
    NoLine(In(pkg));
    Exchange(a, [], y, b);
    assert a + [] + b == n;
    NilLeft(Rules(a));
    AddsOne(a + y + b, n, Rules(a), RawRule(pkg, thread, cpus), Attempts(In(pkg), b));
  }

  lemma {:induction false} HeaderAdds(n: seq<string>, i: nat, pkg: string, thread: string, cpus: string)
    requires FirstNaming(n, i, pkg) && ViewOf(n[i]).outer.Rule? && !ViewOf(n[i]).outer.open && CommentAt(n[i]).None?
    requires RunsIn(pkg, [EntryLine(thread, cpus)], [RawRule(pkg, thread, cpus)]) && pkg != ""
    ensures Adds(n[..i] + ([TrimEnd(n[i]) + " {"] + [EntryLine(thread, cpus)] + ["}"]) + n[i + 1..], n, RawRule(pkg, thread, cpus))
  {
    hide ViewOf, Walk, Attempts, Adds, EntryLine, TrimEnd, NoNaming, Next, Attempt;
    var a, b, c := n[..i], n[i + 1..], At(n, i);
    var header := TrimEnd(n[i]) + " {";
    var y := [header] + [EntryLine(thread, cpus)] + ["}"];
    NamingRule(c, ViewOf(n[i]), pkg);
    AppendOpen(n[i]);
    AtShape(n, i);
    OpensFrom(c, ViewOf(header), pkg);
    BlockAdds(c, header, [EntryLine(thread, cpus)], pkg);
    RuleOnly(c, ViewOf(n[i]), pkg);
    OneLine(c, n[i]);
    Exchange(a, [n[i]], y, b);
    assert n == a + [n[i]] + b;
    var x := Attempt(c, ViewOf(n[i]));
    Assoc3(Rules(a), x, [RawRule(pkg, thread, cpus)]);
    AddsOne(a + y + b, n, Rules(a) + x, RawRule(pkg, thread, cpus), Attempts(Start, b));
  }

  lemma {:induction false} NamingRule(c: Ctl, v: View, pkg: string)
    requires Naming(c, v, pkg) && v.outer.Rule?
    ensures v.Text? && !c.inBlock && v.outer.pkg == pkg
  {
  }

  lemma {:induction false} RuleOnly(c: Ctl, v: View, pkg: string)
    requires !c.inBlock && c.cur == "" && v.Text? && v.outer.Rule? && !v.outer.open && v.outer.pkg == pkg
    ensures Next(c, v) == Start && Attempt(c, v) == [RawRule(pkg, "", v.outer.cpus)]
  {
  }

  lemma {:induction false} EndAdds(n: seq<string>, pkg: string, thread: string, cpus: string)
    requires !EndsInside(n) && BareOk(pkg) && pkg != ""
    requires RunsIn(pkg, [EntryLine(thread, cpus)], [RawRule(pkg, thread, cpus)])
    ensures Adds(n[..|n|] + ([BareOpenLine(pkg)] + [EntryLine(thread, cpus)] + ["}"]) + n[|n|..], n, RawRule(pkg, thread, cpus))
  {
    hide ViewOf, Walk, Attempts, Adds, EntryLine, BareOpenLine, BareOk, Next, Attempt;
    var y := [BareOpenLine(pkg)] + [EntryLine(thread, cpus)] + ["}"];
    var c := Walk(Start, n);
    PrintedShowsBare(pkg);
    BareView(pkg);
    OpensFrom(c, ViewOf(BareOpenLine(pkg)), pkg);
    BlockAdds(c, BareOpenLine(pkg), [EntryLine(thread, cpus)], pkg);
    AttemptsConcat(Start, n, y);
    TakeAll(n);
    assert n[|n|..] == [];
    NilLeft(n + y);
    NilLeft([RawRule(pkg, thread, cpus)]);
    NilLeft(Rules(n) + [RawRule(pkg, thread, cpus)]);
    NilLeft(Rules(n));
    assert Rules(n + y) == Rules(n) + [RawRule(pkg, thread, cpus)] + [];
    assert Rules(n) == Rules(n) + [];
    AddsOne(n + y, n, Rules(n), RawRule(pkg, thread, cpus), []);
  }

  lemma {:induction false} BareView(pkg: string)
    requires BareOk(pkg)
    ensures ViewOf(BareOpenLine(pkg)).Text? && ViewOf(BareOpenLine(pkg)).outer == BareOpen(pkg)
  {
    hide ViewOf, LineShape.IsBody;
    BareOpenBody(pkg);
    LineShape.PrintedShows(BareOpenLine(pkg));
  }

  // ---- blocks that are not closed

  /** The package's first block is opened at `o` and never closed. */
  predicate Unclosed(n: seq<string>, o: nat, pkg: string) {
    o < |n| && NoOpening(n, o, pkg) && Opening(At(n, o), ViewOf(n[o]), pkg) && Within(n, o + 1, |n|, pkg)
  }

  lemma {:induction false} UnclosedScan(n: seq<string>, o: nat, pkg: string)
    requires pkg != "" && NoBareEq(n) && Unclosed(n, o, pkg)
    ensures ScanOf(n, pkg).blockOpen == Some(o) && ScanOf(n, pkg).blockClose.None?
  {
    hide ViewOf, Walk, ScanTo, NoOpening, Next;
    BlockFacts(n, |n|, pkg);
    var t := ScanOf(n, pkg);
    OpenOnce(n, o, t, pkg);
  }

  lemma {:induction false} OpenOnce(n: seq<string>, o: nat, t: Target, pkg: string)
    requires Unclosed(n, o, pkg) && BlockMeans(n, |n|, t, pkg)
    ensures t.blockOpen == Some(o) && t.blockClose.None?
  {
    hide ViewOf, Walk, Opening, Next;
    if t.blockOpen.Some? && t.blockClose.Some? {
      var p, cl := t.blockOpen.value, t.blockClose.value;
      FirstOpening(n, o, p, pkg);
      AtNext(n, cl);
    } else if t.blockOpen.Some? {
      FirstOpening(n, o, t.blockOpen.value, pkg);
    }
  }

  lemma {:induction false} FirstOpening(n: seq<string>, o: nat, p: nat, pkg: string)
    requires o < |n| && p < |n| && NoOpening(n, o, pkg) && NoOpening(n, p, pkg)
    requires Opening(At(n, o), ViewOf(n[o]), pkg) && Opening(At(n, p), ViewOf(n[p]), pkg)
    ensures o == p
  {
    hide ViewOf, Walk, Opening;
  }

  /** Deleting the package takes every rule line of such a block, the first round already. */
  lemma {:induction false} UnclosedGoes(n: seq<string>, o: nat, i: nat, pkg: string)
    requires pkg != "" && NoBareEq(n) && Unclosed(n, o, pkg) && o < i < |n|
    requires ViewOf(n[i]).Text? && ViewOf(n[i]).inner.Entry? && ViewOf(n[i]).inner.name != ""
    ensures Doomed(ScanOf(n, pkg), o) && Doomed(ScanOf(n, pkg), i)
  {
    hide ViewOf, Walk, ScanTo, NoOpening, Opening, Pick;
    UnclosedScan(n, o, pkg);
    ScanSimulates(n, |n|, pkg);
    TakeAll(n);
    var t := ScanOf(n, pkg);
    assert At(n, i) == Ctl(true, pkg, "");
    var l := Loc(ViewOf(n[i]).inner.name, i, false, ViewOf(n[i]).inner.closed, false);
    EntryRecorded(n, i, l, pkg);
    InsideReaches(t.threads, o, l);
  }

  lemma {:induction false} EntryRecorded(n: seq<string>, i: nat, l: Loc, pkg: string)
    requires i < |n| && LocOf(At(n, i), ViewOf(n[i]), i, pkg) == [l]
    ensures l in LocsOf(Start, n, 0, pkg)
  {
    hide ViewOf, Walk, LocOf;
    SplitAround(n, i);
    LocsConcat(Start, n[..i], [n[i]] + n[i + 1..], 0, pkg);
    Assoc3(n[..i], [n[i]], n[i + 1..]);
    LocsConcat(At(n, i), [n[i]], n[i + 1..], i, pkg);
    LocsHead(At(n, i), n[i], i, pkg);
    assert l in [l];
  }

  lemma {:induction false} LocsHead(c: Ctl, line: string, i: nat, pkg: string)
    ensures LocsOf(c, [line], i, pkg) == LocOf(c, ViewOf(line), i, pkg)
  {
    hide ViewOf, Next, LocOf;
    assert [line][1..] == [];
    NilLeft(LocOf(c, ViewOf(line), i, pkg));
  }

  lemma {:induction false} InsideReaches(locs: seq<Loc>, best: nat, l: Loc)
    requires l in locs && !l.single
    ensures best <= LastInside(locs, best) && l.idx <= LastInside(locs, best)
    decreases |locs|
  {
    var next := if !locs[0].single && locs[0].idx > best then locs[0].idx else best;
    if l in locs[1..] {
      InsideReaches(locs[1..], next, l);
    } else {
      InsideGrows(locs[1..], next);
      Uncons(locs);
    }
  }

  lemma {:induction false} InsideGrows(locs: seq<Loc>, best: nat)
    ensures best <= LastInside(locs, best)
    decreases |locs|
  {
    if locs != [] {
      InsideGrows(locs[1..], if !locs[0].single && locs[0].idx > best then locs[0].idx else best);
    }
  }

  /** Normalising leaves a file alone whose first block of the package is not closed, unless a rule on its own comes first. */
  lemma {:induction false} UnclosedStays(n: seq<string>, o: nat, pkg: string)
    requires pkg != "" && NoBareEq(n) && Unclosed(n, o, pkg) && !RuleFirst(n, pkg)
    ensures Normalized(n, pkg) == n
  {
    hide ViewOf, Walk, ScanTo, NoOpening, Pick, Items, Cut, Inserted, RuleFirst, Naming, Within;
    UnclosedScan(n, o, pkg);
    NamedIff(n, pkg);
    if ViewOf(n[o]).Text? && OuterSingle(At(n, o), ViewOf(n[o]), pkg) {
      ScanSimulates(n, |n|, pkg);
      TakeAll(n);
      SingleNamed(n[o]);
      var l := Loc(ViewOf(n[o]).outer.thread, o, true, false, true);
      OpensSingle(At(n, o), ViewOf(n[o]), pkg);
      EntryRecorded(n, o, l, pkg);
      OpenPicked(ScanOf(n, pkg).threads, l);
    } else {
      OpeningIs(At(n, o), ViewOf(n[o]), pkg);
    }
  }

  lemma {:induction false} OpensSingle(c: Ctl, v: View, pkg: string)
    requires Opening(c, v, pkg) && OuterSingle(c, v, pkg)
    ensures v.outer.open
  {
  }

  lemma {:induction false} OpeningIs(c: Ctl, v: View, pkg: string)
    requires Opening(c, v, pkg) && pkg != "" && !OuterSingle(c, v, pkg)
    ensures v.Text? && Naming(c, v, pkg)
  {
  }

  lemma {:induction false} OpenPicked(locs: seq<Loc>, l: Loc)
    requires l in locs && l.single && l.open
    ensures AnyOpen(Singles(locs))
    decreases |locs|
  {
    if locs[0] == l {
      assert Singles(locs)[0].open;
    } else {
      OpenPicked(locs[1..], l);
      var k :| 0 <= k < |Singles(locs[1..])| && Singles(locs[1..])[k].open;
      var d := |Singles(locs)| - |Singles(locs[1..])|;
      assert Singles(locs)[k + d].open;
    }
  }

  // ---- the blank line before a clone

  /** Behind a line with text a clone is set off by one empty line, and otherwise by none. */
  lemma {:induction false} CloneSetOff(lines: seq<string>, source: string, target: string, cp: bool, ct: bool)
    ensures var n, e := Normalized(Normalized(lines, source), target), Cloned(lines, source, target, cp, ct);
            e.Ok? ==> && n <= e.lines
                      && (n != [] && Trim(n[|n| - 1]) != "" ==> |e.lines| > |n| && e.lines[|n|] == "")
                      && (n == [] || Trim(n[|n| - 1]) == "" ==> |e.lines| == |n| || e.lines[|n|] != "")
  {
    hide ViewOf, ScanTo, Normalized, PackageSpec, Entries, Trim, AnyLine;
    var n := Normalized(Normalized(lines, source), target);
    var p := ClonePrepare(lines, source, target, cp, ct);
    if p.Ready? {
      var block := CloneBlock(target, p.rules);
      assert Padded(n) + block == if Padded(n) == n then n + block else n + ([""] + block);
    }
  }
}
