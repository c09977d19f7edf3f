/** Cloning appends exactly the selection, and deleting the clone undoes it. */
module CloneMain {
  import opened Text
  import opened RuleSyntax
  import opened LinePrint
  import opened LineParts
  import opened CpuSpec
  import opened Loader
  import opened RuleSets
  import opened Scan
  import opened ScanSim
  import opened PruneMeans
  import opened Splice
  import opened Normalize
  import opened NormalizeProof
  import opened NormalizeMain
  import opened NormalForm
  import opened Upsert
  import opened UpsertPkg
  import opened UpsertMain
  import opened Delete
  import opened Unseen
  import opened Rename
  import opened StillSeen
  import opened Clone

  // ---- every rule of a sound file without single-line rules can be copied

  lemma {:induction false} CopyOne(c: Ctl, line: string, pkg: string)
    requires !(ViewOf(line).Text? && !c.inBlock && ViewOf(line).outer.Single? && ViewOf(line).outer.pkg == pkg)
    requires pkg != ""
    ensures forall r | r in Attempt(c, ViewOf(line)) && r.pkg == pkg && r.thread != "" :: EntryNameOk(r.thread)
    ensures forall r | r in Attempt(c, ViewOf(line)) :: Trimmed(r.spec)
  {
    hide ViewOf, EntryNameOk;
    if ViewOf(line).Text? {
      ViewNames(line);
    }
  }

  lemma {:induction false} CopyAll(c: Ctl, lines: seq<string>, pkg: string)
    requires NoSingles(c, lines, pkg) && pkg != ""
    ensures forall r | r in Attempts(c, lines) && r.pkg == pkg && r.thread != "" :: EntryNameOk(r.thread)
    ensures forall r | r in Attempts(c, lines) :: Trimmed(r.spec)
    decreases |lines|
  {
    hide ViewOf, Next, Attempt, EntryNameOk, Gone, Trimmed;
    if lines != [] {
      var v := ViewOf(lines[0]);
      HeadNoSingle(c, lines, pkg);
      CopyOne(c, lines[0], pkg);
      CopyAll(Next(c, v), lines[1..], pkg);
    }
  }

  lemma {:induction false} PairsFrom(rs: seq<RawRule>)
    ensures |Pairs(rs)| == |rs| && forall k | 0 <= k < |rs| :: Pairs(rs)[k] == (rs[k].thread, rs[k].spec)
    decreases |rs|
  {
    if rs != [] {
      PairsFrom(rs[1..]);
    }
  }

  lemma {:induction false} EntriesCopyable(n: seq<string>, pkg: string)
    requires Sound(n) && NoSingles(Start, n, pkg) && pkg != "" && SpecsLike(Rules(n))
    ensures Copyable(Pairs(Select(Rules(n), PkgThreads(pkg))))
  {
    hide Gone, Attempts, Sound, EntryNameOk, SpecLike, Trimmed;
    CopyAll(Start, n, pkg);
    var rs := Select(Rules(n), PkgThreads(pkg));
    SelectFrom(Rules(n), PkgThreads(pkg));
    PairsFrom(rs);
    forall e | e in Pairs(rs) ensures EntryNameOk(e.0) && SpecLike(e.1) && Trimmed(e.1) {
      var k :| 0 <= k < |rs| && Pairs(rs)[k] == e;
      assert rs[k] in rs;
    }
  }

  // ---- the target is named before exactly when it is named after its normalisation

  lemma {:induction false} TargetSeen(n: seq<string>, pkg: string)
    requires Sound(n) && pkg != ""
    ensures AnyLine(ScanOf(Normalized(n, pkg), pkg)) <==> AnyLine(ScanOf(n, pkg))
    ensures !AnyLine(ScanOf(n, pkg)) ==> Normalized(n, pkg) == n
  {
    hide ScanTo, Normalized, Pick, Sound;
    if Singles(ScanOf(n, pkg).threads) == [] {
      NoSinglesSame(n, pkg);
    } else {
      NormalizedSeen(n, pkg);
    }
  }

  // ---- the main theorem

  /** What the caller asked for, read off the loaded rules. */
  function Selection(rs: seq<RawRule>, t: Target, source: string, target: string, copyPackage: bool, copyThreads: bool): seq<RawRule> {
    (if copyPackage && Carries(t) && Select(rs, PkgRules(source)) != []
     then [RawRule(target, "", Select(rs, PkgRules(source))[0].spec)] else [])
    + (if copyThreads then Owned(target, Pairs(Select(rs, PkgThreads(source)))) else [])
  }

  predicate CloneMissing(rs: seq<RawRule>, t: Target, source: string, copyPackage: bool, copyThreads: bool) {
    || (copyPackage && !Carries(t))
    || (copyThreads && Select(rs, PkgThreads(source)) == [])
  }

  /** On a sound file: refused, missing, or ready with exactly the selection. */
  lemma {:induction false} PrepareIs(topo: Topology, lines: seq<string>, source: string, target: string, cp: bool, ct: bool)
    requires Good(topo, lines) && source != "" && target != "" && NormalizeSafe(lines, source)
    ensures var n := Normalized(lines, source); var p := ClonePrepare(lines, source, target, cp, ct); var t := ScanOf(n, source);
            if AnyLine(ScanOf(n, target))
            then p in {Refused(Conflict), Refused(Malformed)} && (NormalizeSafe(n, target) ==> p == Refused(Conflict))
            else if CloneMissing(Rules(n), t, source, cp, ct) then p == Refused(NotFound)
            else && p.Ready? && p.lines == n && CloneOwned(target, p.rules) == Selection(Rules(n), t, source, target, cp, ct)
                 && Copyable(p.rules.threads)
                 && (p.rules.package.Some? ==> SpecLike(p.rules.package.value) && Trimmed(p.rules.package.value))
  {
    hide ScanTo, Normalized, NormalizeSafe, Attempts, Gone, SameFor, Accepts, Load, Pick, Select, Entries, PackageSpec, Carries, Copyable, Calm, Ends, SpecLike, Trimmed, Owned, Pairs;
    Normal(topo, lines, source);
    var n := Normalized(lines, source);
    GoodIs(topo, n);
    TargetSeen(n, target);
    if NormalizeSafe(n, target) {
      NormalTerminated(topo, n, target, source);
    }
    if !AnyLine(ScanOf(n, target)) {
      SoundTerminated(n, target);
      SoundTerminated(n, source);
      PackageSpecIs(n, source);
      EntriesWhole(n, source);
      EntriesCopyable(n, source);
      PairsFrom(Select(Rules(n), PkgThreads(source)));
      CopyNone();
      PkgSpecGood(n, source);
    }
  }

  lemma {:induction false} PkgSpecGood(n: seq<string>, source: string)
    requires Sound(n) && NoSingles(Start, n, source) && source != "" && SpecsLike(Rules(n))
    ensures forall r | r in Select(Rules(n), PkgRules(source)) :: SpecLike(r.spec) && Trimmed(r.spec)
  {
    hide Gone, Attempts, Sound, EntryNameOk, SpecLike, Trimmed;
    CopyAll(Start, n, source);
    SelectFrom(Rules(n), PkgRules(source));
  }

  lemma {:induction false} CopyNone()
    ensures Copyable([]) && forall t :: Owned(t, []) == []
  {
  }

  lemma {:induction false} NormalTerminated(topo: Topology, n: seq<string>, target: string, source: string)
    requires Good(topo, n) && target != "" && source != "" && NormalizeSafe(n, target)
    ensures !Unterminated(Normalized(n, target), target) && !Unterminated(Normalized(n, target), source)
  {
    hide ScanTo, Normalized, NormalizeSafe, Attempts, Gone, SameFor, Accepts, Load, Sound;
    Normal(topo, n, target);
    SoundTerminated(Normalized(n, target), target);
    SoundTerminated(Normalized(n, target), source);
  }

  /**
   * Cloning: refused when a line names the target, missing when something selected is not
   * there; otherwise the rules are those of the normalised file followed by the selection,
   * in file order, owned by the target.
   */
  lemma {:induction false} CloneExact(topo: Topology, lines: seq<string>, source: string, target: string, cp: bool, ct: bool)
    requires Good(topo, lines) && source != "" && NormalizeSafe(lines, source)
    requires RulePkgOk(target) && PkgOk(target)
    ensures var n := Normalized(lines, source); var e := Cloned(lines, source, target, cp, ct); var t := ScanOf(n, source);
            && Good(topo, n) && SameFor(Load(topo, n).rules, Load(topo, lines).rules, source)
            && if AnyLine(ScanOf(n, target))
               then e in {Conflict, Malformed} && (NormalizeSafe(n, target) ==> e == Conflict)
               else if CloneMissing(Load(topo, n).rules, t, source, cp, ct) then e == NotFound
               else && e.Ok? && Good(topo, e.lines) && NoneOf(Load(topo, n).rules, target)
                    && Load(topo, e.lines).rules
                       == Load(topo, n).rules + Selection(Load(topo, n).rules, t, source, target, cp, ct)
  {
    hide ScanTo, Normalized, NormalizeSafe, Attempts, Gone, SameFor, Accepts, Load, Select, Selection, CloneMissing, ClonePrepare, Copyable, Sound, SpecLike, Trimmed, CloneBlock, Padded, PkgOk, RulePkgOk, CloneOwned, Walk, SlipCount;
    TargetBody(target);
    Normal(topo, lines, source);
    var n := Normalized(lines, source);
    GoodIs(topo, n);
    PrepareIs(topo, lines, source, target, cp, ct);
    SoundCalm(n);
    if !AnyLine(ScanOf(n, target)) && !CloneMissing(Rules(n), ScanOf(n, source), source, cp, ct) {
      var rules := ClonePrepare(lines, source, target, cp, ct).rules;
      PaddedRuns(n);
      BlockClones(target, rules);
      Appended(Padded(n), CloneBlock(target, rules));
      SelectionAccepted(topo, Rules(n), ScanOf(n, source), source, target, cp, ct);
      NowAllGood(topo, Padded(n) + CloneBlock(target, rules), Rules(n), CloneOwned(target, rules));
      UnseenNoRules(n, target);
    }
  }

  lemma {:induction false} NowAllGood(topo: Topology, lines: seq<string>, a: seq<RawRule>, b: seq<RawRule>)
    requires Sound(lines) && Rules(lines) == a + b && AllAccepted(topo, a) && AllAccepted(topo, b)
    ensures Good(topo, lines) && Load(topo, lines).rules == a + b
  {
    hide Accepts, Attempts, Sound, Load;
    GoodIs(topo, lines);
  }

  lemma {:induction false} OwnedAre(target: string, threads: seq<(string, string)>)
    ensures |Owned(target, threads)| == |threads|
    ensures forall k | 0 <= k < |threads| :: Owned(target, threads)[k] == RawRule(target, threads[k].0, threads[k].1)
    decreases |threads|
  {
    if threads != [] {
      OwnedAre(target, threads[1..]);
    }
  }

  lemma {:induction false} SelectionAccepted(topo: Topology, rs: seq<RawRule>, t: Target, source: string, target: string, cp: bool, ct: bool)
    requires AllAccepted(topo, rs) && PkgOk(target)
    ensures AllAccepted(topo, Selection(rs, t, source, target, cp, ct))
  {
    hide PkgOk, SpecOk, NoControl, Select, Owned, Pairs, Carries;
    var th := Select(rs, PkgThreads(source));
    SelectFrom(rs, PkgThreads(source));
    SelectFrom(rs, PkgRules(source));
    PairsFrom(th);
    OwnedAre(target, Pairs(th));
    forall r | r in Owned(target, Pairs(th)) ensures Accepts(topo, r) {
      var k :| 0 <= k < |th| && Owned(target, Pairs(th))[k] == r;
      assert th[k] in th && th[k] in rs;
    }
    var ps := Select(rs, PkgRules(source));
    if ps != [] {
      assert ps[0] in ps && ps[0] in rs;
    }
    EmptyThread();
  }

  lemma {:induction false} EmptyThread()
    ensures ThreadOk("")
  {
  }

  // ---- deleting the clone again

  /** The appended block is the one place that names the target. */
  lemma {:induction false} BeforeBlock(m: seq<string>, block: seq<string>, k: nat)
    requires k <= |m|
    ensures At(m + block, k) == At(m, k) && (k < |m| ==> (m + block)[k] == m[k])
  {
    hide Walk;
    assert (m + block)[..k] == m[..k];
  }

  lemma {:induction false} BehindBlock(m: seq<string>, block: seq<string>, k: nat)
    requires k <= |block| && Walk(Start, m) == Start
    ensures At(m + block, |m| + k) == Walk(Start, block[..k])
    ensures k < |block| ==> (m + block)[|m| + k] == block[k]
  {
    hide Walk;
    assert (m + block)[..|m| + k] == m + block[..k];
    WalkConcat(Start, m, block[..k]);
  }

  /** Inside a run that stays in the block, every state is the block's. */
  lemma {:induction false} StaysInside(target: string, threads: seq<(string, string)>, k: nat)
    requires Copyable(threads) && k <= |EntryLines(threads)|
    ensures Walk(In(target), EntryLines(threads)[..k]) == In(target)
    decreases |threads|
  {
    hide ViewOf, EntryNameOk, SpecLike, Trimmed, EntryLine, Next;
    if k > 0 {
      assert threads[0] in threads;
      var h := EntryLine(threads[0].0, threads[0].1);
      EntryRuns(target, threads[0].0, threads[0].1);
      OneLine(In(target), h);
      StaysInside(target, threads[1..], k - 1);
      assert EntryLines(threads)[..k] == [h] + EntryLines(threads[1..])[..k - 1];
      RunCons(In(target), h, EntryLines(threads[1..])[..k - 1]);
    } else {
      NoLine(In(target));
    }
  }

  lemma {:induction false} EntryCount(threads: seq<(string, string)>)
    ensures |EntryLines(threads)| == |threads|
    decreases |threads|
  {
    if threads != [] {
      EntryCount(threads[1..]);
    }
  }

  /** The states inside the appended block. */
  lemma {:induction false} BlockStates(target: string, header: string, threads: seq<(string, string)>, k: nat)
    requires Copyable(threads) && Next(Start, ViewOf(header)) == In(target) && 0 < k <= |threads| + 1
    ensures |[header] + EntryLines(threads) + ["}"]| == |threads| + 2
    ensures Walk(Start, ([header] + EntryLines(threads) + ["}"])[..k]) == In(target)
  {
    hide ViewOf, Copyable, Next;
    EntryCount(threads);
    assert ([header] + EntryLines(threads) + ["}"])[..k] == [header] + EntryLines(threads)[..k - 1];
    StaysInside(target, threads, k - 1);
    RunCons(Start, header, EntryLines(threads)[..k - 1]);
  }
}
