/** Setting one rule. Texts first: what the editor writes, position by position. */
module Upsert {
  import opened Seqs
  import opened Text
  import opened RuleSyntax
  import opened LinePrint
  import opened LineHeader
  import opened SpecLens
  import opened SpecTheorems
  import opened Loader
  import opened RuleSets
  import opened Scan
  import opened ScanSim
  import opened ScanFacts
  import opened Prune
  import opened PruneMeans
  import opened Splice
  import opened Normalize
  import opened NormalizeProof
  import opened NormalizeMain
  import opened NormalForm

  /** The outcome of an edit; file writing is taken to succeed. */
  datatype RuleEdit = Ok(lines: seq<string>) | NotFound | Conflict | Malformed

  predicate IsBareBrace(line: string) {
    ParseOuter(Trim(line)) == BareOpen("")
  }

  function UpsertPackage(n: seq<string>, t: Target, unterminated: bool, pkg: string, cpus: string): RuleEdit {
    match t.pkgLine
    case Some(Standalone(i)) => if i < |n| then Ok(n[i := SpecSwap(n[i], cpus)]) else Ok(n)
    case Some(OpenInline(i)) => if i < |n| then Ok(n[i := SpecSwap(n[i], cpus)]) else Ok(n)
    case Some(OpenBare(i)) => if i < |n| then Ok(n[i := WithComment(RuleOpenLine(pkg, cpus), n[i])]) else Ok(n)
    case Some(OpenPending(i)) =>
      if i < |n| then
        var m := n[i := WithComment(RuleOpenLine(pkg, cpus), n[i])];
        if t.blockOpen.Some? && t.blockOpen.value < |m| && IsBareBrace(m[t.blockOpen.value])
        then Ok(m[..t.blockOpen.value] + m[t.blockOpen.value + 1..]) else Ok(m)
      else Ok(n)
    case None => if unterminated then Malformed else Ok(n + [RuleLine(pkg, cpus)])
  }

  function UpsertThread(n: seq<string>, t: Target, unterminated: bool, pkg: string, thread: string, cpus: string): RuleEdit {
    var locs := Pick(t.threads, Named(thread));
    if locs != [] then
      var last := locs[|locs| - 1];
      if last.idx < |n|
      then Ok(RemoveAll(n[last.idx := SpecSwap(n[last.idx], cpus)], pkg, locs[..|locs| - 1])) else Ok(n)
    else if t.blockClose.Some? || (t.pkgLine.Some? && t.pkgLine.value.Standalone?) || !unterminated then
      Ok(Inserted(n, t, pkg, [EntryLine(thread, cpus)], |n|))
    else Malformed
  }

  function Upserted(lines: seq<string>, pkg: string, thread: string, cpus: string): RuleEdit {
    var n := Normalized(lines, pkg);
    var t, u := ScanOf(n, pkg), Unterminated(n, pkg);
    if thread == "" then UpsertPackage(n, t, u, pkg, cpus) else UpsertThread(n, t, u, pkg, thread, cpus)
  }

  // ---- shared facts

  lemma {:induction false} EndsAt(lines: seq<string>)
    requires Ends(lines)
    ensures At(lines, |lines|) == Start
  {
    hide ViewOf, Walk;
    assert lines[..|lines|] == lines;
    AtShape(lines, |lines|);
  }

  lemma {:induction false} SoundTerminated(lines: seq<string>, pkg: string)
    requires pkg != "" && Sound(lines)
    ensures !Unterminated(lines, pkg)
  {
    hide ViewOf, Walk, ScanTo;
    assert lines[..|lines|] == lines;
    ScanSimulates(lines, |lines|, pkg);
  }

  /** A new entry at the end of its block. */
  lemma {:induction false} EntryRuns(pkg: string, thread: string, cpus: string)
    requires EntryNameOk(thread) && SpecLike(cpus) && Trimmed(cpus)
    ensures RunsIn(pkg, [EntryLine(thread, cpus)], [RawRule(pkg, thread, cpus)])
    ensures NoSingles(In(pkg), [EntryLine(thread, cpus)], pkg)
  {
    hide ViewOf, EntryNameOk, SpecLike;
    SpecIsPlain(cpus);
    EntryLineShows(thread, cpus, "");
    assert EntryLine(thread, cpus) + "" == EntryLine(thread, cpus);
    OneLine(In(pkg), EntryLine(thread, cpus));
    InsideNoSingle(In(pkg), EntryLine(thread, cpus), pkg);
  }

  // ---- a thread that has no rule yet

  /** What adding a new thread rule needs of the names and of the header line. */
  predicate InsertSafe(n: seq<string>, pkg: string, thread: string) {
    EntryNameOk(thread) && HeaderFree(n, ScanOf(n, pkg)) && (NewBlock(ScanOf(n, pkg)) ==> BareOk(pkg))
  }

  lemma {:induction false} InsertThread(n: seq<string>, pkg: string, thread: string, cpus: string)
    returns (before: seq<RawRule>, after: seq<RawRule>)
    requires Sound(n) && pkg != "" && InsertSafe(n, pkg, thread) && SpecLike(cpus) && Trimmed(cpus)
    requires Pick(ScanOf(n, pkg).threads, Named(thread)) == []
    ensures var e := UpsertThread(n, ScanOf(n, pkg), Unterminated(n, pkg), pkg, thread, cpus);
            e.Ok? && Sound(e.lines) && Rules(n) == before + after
            && Rules(e.lines) == before + [RawRule(pkg, thread, cpus)] + after
  {
    hide ViewOf, ScanTo, Walk, Attempts, SlipCount, Inserted, HeaderFree, EntryNameOk, BareOk, SpecLike, Pick;
    SoundTerminated(n, pkg);
    EntryRuns(pkg, thread, cpus);
    EndsAt(n);
    before, after := InsertMeans(n, pkg, [EntryLine(thread, cpus)], [RawRule(pkg, thread, cpus)], |n|);
  }

  // ---- a thread that already has rules

  /** The in-block line at `i` is the last one recorded for the thread. */
  lemma {:induction false} LastNamed(n: seq<string>, pkg: string, thread: string)
    requires pkg != "" && Calm(n) && NoSingles(Start, n, pkg)
    requires Pick(ScanOf(n, pkg).threads, Named(thread)) != []
    ensures var locs := Pick(ScanOf(n, pkg).threads, Named(thread)); var i := locs[|locs| - 1].idx;
            && i < |n| && At(n, i) == In(pkg)
            && ViewOf(n[i]).Text? && ViewOf(n[i]).inner.Entry? && ViewOf(n[i]).inner.name == thread && thread != ""
            && locs[..|locs| - 1] == Pick(LocsOf(Start, n[..i], 0, pkg), Named(thread))
            && Pick(LocsOf(At(n, i + 1), n[i + 1..], i + 1, pkg), Named(thread)) == []
  {
    hide ViewOf, At, LocOf, Pick, LocsOf, Next, Slips;
    ScanLocs(n, pkg);
    var all := LocsOf(Start, n, 0, pkg);
    var locs := Pick(all, Named(thread));
    var l := locs[|locs| - 1];
    assert n[..|n|] == n;
    LocsIndexed(n, |n|, pkg);
    PickFrom(all, Named(thread));
    assert l in locs;
    var i := l.idx;
    NotSingle(n, l, pkg);
    EntryLoc(At(n, i), ViewOf(n[i]), l, pkg);
    AtShape(n, i);
    SplitAtLoc(n, pkg, thread, i, l);
  }

  lemma {:induction false} NotSingle(n: seq<string>, l: Loc, pkg: string)
    requires pkg != "" && Calm(n) && NoSingles(Start, n, pkg) && l in LocsOf(Start, n, 0, pkg)
    ensures !l.single
  {
    hide ViewOf, LocsOf, Gone, Walk;
    GoneIffPicked(Start, n, 0, pkg, SinglesOnly);
    PickNone(LocsOf(Start, n, 0, pkg), SinglesOnly);
  }

  lemma {:induction false} PickNone(locs: seq<Loc>, sel: Sel)
    requires Pick(locs, sel) == []
    ensures forall l | l in locs :: !Picked(sel, l)
    decreases |locs|
  {
    hide Picked;
    if locs != [] {
      Uncons(locs);
      PickNone(locs[1..], sel);
    }
  }

  lemma {:induction false} EntryLoc(c: Ctl, v: View, l: Loc, pkg: string)
    requires LocOf(c, v, l.idx, pkg) == [l] && !l.single
    ensures v.Text? && c.inBlock && c.cur == pkg && v.inner.Entry? && v.inner.name == l.name && l.name != ""
  {
  }

  /** Cutting the records at the last one. */
  lemma {:induction false} SplitAtLoc(n: seq<string>, pkg: string, thread: string, i: nat, l: Loc)
    requires i < |n| && l.idx == i && LocOf(At(n, i), ViewOf(n[i]), i, pkg) == [l]
    requires var locs := Pick(LocsOf(Start, n, 0, pkg), Named(thread)); locs != [] && locs[|locs| - 1] == l
    ensures Pick(LocsOf(Start, n, 0, pkg), Named(thread))
         == Pick(LocsOf(Start, n[..i], 0, pkg), Named(thread)) + [l]
    ensures Pick(LocsOf(At(n, i + 1), n[i + 1..], i + 1, pkg), Named(thread)) == []
  {
    hide ViewOf, At, LocOf, Pick, LocsOf, Next;
    var a, b := n[..i + 1], n[i + 1..];
    assert n == a + b;
    LocsConcat(Start, a, b, 0, pkg);
    LocsSnoc(n, i, pkg);
    var la, lb := LocsOf(Start, n[..i], 0, pkg), LocsOf(Walk(Start, a), b, i + 1, pkg);
    PickConcat(la + [l], lb, Named(thread));
    PickConcat(la, [l], Named(thread));
    LaterLocs(n, i + 1, pkg);
    PickFrom(lb, Named(thread));
    PickFrom(LocsOf(Start, n, 0, pkg), Named(thread));
    AtIs(n, i + 1);
    LastOf(Pick(la + [l], Named(thread)), Pick(lb, Named(thread)), l, i);
    PickOne(l, Named(thread));
  }

  lemma {:induction false} AtIs(n: seq<string>, k: nat)
    requires k <= |n|
    ensures At(n, k) == Walk(Start, n[..k])
  {
  }

  lemma {:induction false} LastOf(a: seq<Loc>, b: seq<Loc>, l: Loc, i: nat)
    requires a + b != [] && (a + b)[|a + b| - 1] == l && l.idx == i
    requires forall k | 0 <= k < |b| :: b[k].idx > i
    ensures b == []
  {
  }

  /** Records of later lines have later positions. */
  lemma {:induction false} LaterLocs(n: seq<string>, k: nat, pkg: string)
    requires k <= |n|
    ensures forall l | l in LocsOf(Walk(Start, n[..k]), n[k..], k, pkg) :: l.idx >= k
  {
    LocsAbove(Walk(Start, n[..k]), n[k..], k, pkg);
  }

  lemma {:induction false} LocsAbove(c: Ctl, lines: seq<string>, base: nat, pkg: string)
    ensures forall l | l in LocsOf(c, lines, base, pkg) :: l.idx >= base
    decreases |lines|
  {
    hide ViewOf, Next, LocOf;
    if lines != [] {
      var v := ViewOf(lines[0]);
      LocsAbove(Next(c, v), lines[1..], base + 1, pkg);
      LocOfIdx(c, v, base, pkg);
    }
  }

  lemma {:induction false} AttemptIn(n: seq<string>, i: nat)
    requires i < |n|
    ensures forall r | r in Attempt(At(n, i), ViewOf(n[i])) :: r in Rules(n)
  {
    hide ViewOf, Walk, Attempt, Next, Attempts;
    var a, b := n[..i], n[i + 1..];
    assert n == a + [n[i]] + b;
    ThreeParts(a, [n[i]], b);
    OneLine(Walk(Start, a), n[i]);
  }

  /** The spec of the thread's last rule can be replaced on its line. */
  predicate LastSwapSafe(n: seq<string>, pkg: string, thread: string) {
    var locs := Pick(ScanOf(n, pkg).threads, Named(thread));
    locs != [] && locs[|locs| - 1].idx < |n| ==> SwapSafe(BodyOf(n[locs[|locs| - 1].idx]))
  }

  /** The swapped line is the same rule with the new spec. */
  lemma {:induction false} SwappedRuns(line: string, pkg: string, thread: string, cpus: string)
    requires ViewOf(line).Text? && ViewOf(line).inner.Entry? && ViewOf(line).inner.name == thread
    requires SpecLike(ViewOf(line).inner.spec) && SwapSafe(BodyOf(line)) && SpecLike(cpus) && Trimmed(cpus)
    ensures Walk(In(pkg), [SpecSwap(line, cpus)]) == Walk(In(pkg), [line])
    ensures SlipCount(In(pkg), [SpecSwap(line, cpus)]) == 0
    ensures Attempts(In(pkg), [SpecSwap(line, cpus)]) == [RawRule(pkg, thread, cpus)]
    ensures Attempts(In(pkg), [line]) == [RawRule(pkg, thread, ViewOf(line).inner.spec)]
  {
    hide ViewOf, SpecLike, SwapSafe, BodyOf, SpecSwap, Trimmed;
    SwapEntry(line, cpus);
    OneLine(In(pkg), line);
    OneLine(In(pkg), SpecSwap(line, cpus));
  }

  /** Rewriting the last rule and removing the others. */
  lemma {:induction false} ReplaceThread(n: seq<string>, pkg: string, thread: string, cpus: string)
    returns (before: seq<RawRule>, gone: RawRule, after: seq<RawRule>, kept: seq<RawRule>)
    requires Sound(n) && pkg != "" && NoSingles(Start, n, pkg) && SpecsLike(Rules(n))
    requires Pick(ScanOf(n, pkg).threads, Named(thread)) != [] && LastSwapSafe(n, pkg, thread)
    requires SpecLike(cpus) && Trimmed(cpus)
    ensures var e := UpsertThread(n, ScanOf(n, pkg), Unterminated(n, pkg), pkg, thread, cpus);
            e.Ok? && Sound(e.lines) && Rules(e.lines) == kept + [RawRule(pkg, thread, cpus)] + after
    ensures Rules(n) == before + [gone] + after && gone.pkg == pkg && gone.thread == thread && thread != ""
    ensures kept == Select(before, AllBut(pkg, thread))
    ensures forall r | r in after :: Holds(AllBut(pkg, thread), r)
  {
    hide ViewOf, ScanTo, Walk, Attempts, SlipCount, Pick, LocsOf, SpecLike, SwapSafe, BodyOf, SpecSwap, Pruned, Select, RemoveAll, Gone, Trimmed, Next, Slips, Attempt;
    var locs := Pick(ScanOf(n, pkg).threads, Named(thread));
    var i := locs[|locs| - 1].idx;
    LastNamed(n, pkg, thread);
    var a, line, b := n[..i], n[i], n[i + 1..];
    assert n == a + [line] + b;
    AttemptIn(n, i);
    EntryAttempt(pkg, ViewOf(line));
    SwappedRuns(line, pkg, thread, cpus);
    var line' := SpecSwap(line, cpus);
    assert n[i := line'] == a + [line'] + b;
    before, after := Replace(a, [line], [line'], b);
    gone := RawRule(pkg, thread, ViewOf(line).inner.spec);
    Assoc3(a, [line'], b);
    ThreeParts(a, [line], b);
    PruneBefore(a, [line'] + b, pkg, thread);
    kept := Select(before, AllBut(pkg, thread));
    Assoc3(Pruned(Start, a, pkg, Named(thread)), [line'], b);
    ThreeParts(Pruned(Start, a, pkg, Named(thread)), [line'], b);
    ThreeParts(a, [line'], b);
    AtNext(n, i);
    OneLine(At(n, i), line);
    NoneAfter(Walk(At(n, i), [line]), b, i + 1, pkg, thread);
  }

  lemma {:induction false} EntryAttempt(pkg: string, v: View)
    requires v.Text? && v.inner.Entry?
    ensures Attempt(In(pkg), v) == [RawRule(pkg, v.inner.name, v.inner.spec)]
  {
  }

  /** Removing the thread's rules from the lines before the last one. */
  lemma {:induction false} PruneBefore(a: seq<string>, end: seq<string>, pkg: string, thread: string)
    requires pkg != "" && thread != "" && SlipCount(Start, a) == 0
    ensures RemoveAll(a + end, pkg, Pick(LocsOf(Start, a, 0, pkg), Named(thread)))
         == Pruned(Start, a, pkg, Named(thread)) + end
    ensures Walk(Start, Pruned(Start, a, pkg, Named(thread))) == Walk(Start, a)
    ensures SlipCount(Start, Pruned(Start, a, pkg, Named(thread))) == 0
    ensures Rules(Pruned(Start, a, pkg, Named(thread))) == Select(Rules(a), AllBut(pkg, thread))
  {
    hide ViewOf, Walk, Attempts, SlipCount, Pick, LocsOf, Pruned, Select, RemoveAll;
    RemovePrefix([], Start, a, end, pkg, Named(thread));
    assert [] + a == a;
    assert [] + Pruned(Start, a, pkg, Named(thread)) == Pruned(Start, a, pkg, Named(thread));
    PruneWalk(Start, a, pkg, Named(thread));
    PruneKeepsPart(Start, a, pkg, Named(thread), AllBut(pkg, thread));
    PruneNamed(Start, a, pkg, thread);
    SelectAll(Attempts(Start, Pruned(Start, a, pkg, Named(thread))), AllBut(pkg, thread));
  }

  /** Lines without a record for the thread hold no rule for it. */
  lemma {:induction false} NoneAfter(c: Ctl, lines: seq<string>, base: nat, pkg: string, thread: string)
    requires thread != "" && Pick(LocsOf(c, lines, base, pkg), Named(thread)) == []
    ensures forall r | r in Attempts(c, lines) :: Holds(AllBut(pkg, thread), r)
    decreases |lines|
  {
    hide ViewOf, Next, LocOf, Picked, Attempt, Holds;
    if lines != [] {
      var v := ViewOf(lines[0]);
      PickConcat(LocOf(c, v, base, pkg), LocsOf(Next(c, v), lines[1..], base + 1, pkg), Named(thread));
      LineOnly(c, lines[0], base, pkg, Named(thread));
      UnpickedRule(c, lines[0], pkg, thread);
      NoneAfter(Next(c, v), lines[1..], base + 1, pkg, thread);
    }
  }
}
