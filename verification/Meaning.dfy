/** What the edits mean to the daemon, and names that callers check. */
module Meaning {
  import opened Seqs
  import opened Text
  import opened RuleSyntax
  import opened LineShape
  import opened LinePrint
  import opened LineParts
  import opened LineRename
  import opened LineReown
  import opened LineSteady
  import opened CpuSpec
  import opened Loader
  import opened RuleSets
  import opened Scan
  import opened Splice
  import opened Normalize
  import opened NormalizeMain
  import opened PruneMeans
  import opened NormalForm
  import opened Limits
  import opened Upsert
  import opened UpsertMain
  import opened Clone
  import opened CloneMain
  import opened Unseen
  import opened Prune
  import opened Rename
  import opened RenameForever
  import opened RuleMatch
  import opened Tuning

  /**
   * Normalising: the file still loads without a failure and holds the same rules, those of
   * other packages and the package's own package rules in the same order; no single-line rule
   * of the package is left; and doing it again changes nothing.
   */
  lemma {:induction false} NormalizeExact(topo: Topology, lines: seq<string>, pkg: string)
    requires Good(topo, lines) && pkg != "" && NormalizeSafe(lines, pkg)
    ensures var n := Normalized(lines, pkg);
            && Good(topo, n) && SameFor(Load(topo, n).rules, Load(topo, lines).rules, pkg)
            && Singles(ScanOf(n, pkg).threads) == []
            && Normalized(n, pkg) == n
  {
    hide Attempts, Walk, SlipCount, ScanTo, NormalizeSafe, SpecsLike, Load, Normalized, Accepts, Gone, SameFor, Sound, Pick;
    Normal(topo, lines, pkg);
    GoodIs(topo, lines);
    GoodIs(topo, Normalized(lines, pkg));
    AcceptedSpecs(topo, Rules(lines));
    NormalizedNoSingles(lines, pkg);
    NormalizeIdempotent(lines, pkg);
  }

  /** Without single-line rules every thread rule of the package stands in a block, under a name that can be printed. */
  lemma {:induction false} BlockNames(c: Ctl, lines: seq<string>, pkg: string)
    requires NoSingles(c, lines, pkg)
    ensures forall r | r in Attempts(c, lines) && r.pkg == pkg && r.thread != "" :: EntryNameOk(r.thread)
    decreases |lines|
  {
    hide ViewOf, Next, Attempt, Gone, EntryNameOk;
    if lines != [] {
      HeadNoSingle(c, lines, pkg);
      BlockNames(Next(c, ViewOf(lines[0])), lines[1..], pkg);
      LineNames(c, lines[0], pkg);
    }
  }

  lemma {:induction false} LineNames(c: Ctl, line: string, pkg: string)
    requires var v := ViewOf(line); v.Text? && !c.inBlock && v.outer.Single? ==> v.outer.pkg != pkg
    ensures forall r | r in Attempt(c, ViewOf(line)) && r.pkg == pkg && r.thread != "" :: EntryNameOk(r.thread)
  {
    hide ViewOf, EntryNameOk;
    if ViewOf(line).Text? {
      ViewNames(line);
    }
  }

  /**
   * Normalising keeps what it promises exactly when it is safe: that the file still loads, that
   * it holds the same rules, and that no single-line rule of the package is left.
   */
  lemma {:induction false} NormalizeExactIff(topo: Topology, lines: seq<string>, pkg: string)
    requires Good(topo, lines) && pkg != ""
    ensures var n := Normalized(lines, pkg);
            (Good(topo, n) && SameFor(Load(topo, n).rules, Load(topo, lines).rules, pkg) && Singles(ScanOf(n, pkg).threads) == [])
            <==> NormalizeSafe(lines, pkg)
  {
    hide Attempts, Walk, SlipCount, ScanTo, NormalizeSafe, Load, Normalized, Accepts, Gone, Sound, Pick, Select, EntryNameOk;
    var n := Normalized(lines, pkg);
    if NormalizeSafe(lines, pkg) {
      NormalizeExact(topo, lines, pkg);
    } else if Good(topo, n) && SameFor(Load(topo, n).rules, Load(topo, lines).rules, pkg) && Singles(ScanOf(n, pkg).threads) == [] {
      GoodIs(topo, lines);
      GoodIs(topo, n);
      StillPrintable(lines, n, pkg);
      NormalizeGoodIff(topo, lines, pkg);
    }
  }

  /** The rules that were moved are still there, so their names can be printed. */
  lemma {:induction false} StillPrintable(lines: seq<string>, n: seq<string>, pkg: string)
    requires pkg != "" && Sound(lines) && Sound(n) && multiset(Rules(n)) == multiset(Rules(lines))
    requires Singles(ScanOf(n, pkg).threads) == []
    ensures NamesPrintable(lines, pkg)
  {
    hide Attempts, SlipCount, ScanTo, Gone, Pick, EntryNameOk, Pruned, Walk;
    NoSinglesIff(n, pkg);
    BlockNames(Start, n, pkg);
    PruneAttempts(Start, lines, pkg, SinglesOnly);
    forall r | r in Gone(Start, lines, pkg, SinglesOnly) ensures EntryNameOk(r.thread) {
      assert r in multiset(Rules(lines));
      assert r in multiset(Rules(n));
    }
  }

  /** Normalising changes the CPUs of no thread, in any package. */
  lemma {:induction false} NormalizeKeepsAffinity(topo: Topology, lines: seq<string>, moved: string,
                                                  tuned: set<string>, tunedThreads: set<string>,
                                                  pkg: string, thread: string, matches: (string, string) -> bool)
    requires Good(topo, lines) && moved != "" && NormalizeSafe(lines, moved)
    ensures ThreadAffinity(pkg, thread, ConfigOf(topo, Load(topo, Normalized(lines, moved)).rules, tuned, tunedThreads), matches)
         == ThreadAffinity(pkg, thread, ConfigOf(topo, Load(topo, lines).rules, tuned, tunedThreads), matches)
  {
    hide Load, Normalized, NormalizeSafe, ScanTo, ThreadAffinity, ConfigOf, SameFor, Good, Pick;
    NormalizeExact(topo, lines, moved);
    MovedAffinity(topo, Load(topo, Normalized(lines, moved)).rules, Load(topo, lines).rules, moved, tuned, tunedThreads,
                  pkg, thread, matches);
  }

  // ---- names

  lemma {:induction false} MarkText(s: string, i: nat)
    requires i < |s|
    ensures MarkAt(s, i) ==> '#' in s || HasText(s, "//")
  {
    if s[i] == '/' && i + 1 < |s| && s[i + 1] == '/' {
      assert s[i..][0] == '/' && s[i..][1] == '/';
      assert "//" <= s[i..];
    }
  }

  lemma {:induction false} PlainIsBody(s: string, max: nat)
    requires PlainToken(s, max) && Trimmed(s)
    ensures IsBody(s) && ByteLen(s) < max && NoControl(s) && s != ""
  {
    hide Trim, HasText, MarkAt;
    TrimOfTrimmed(s);
    forall i | 0 <= i < |s| ensures !MarkAt(s, i) {
      MarkText(s, i);
    }
  }

  /** A trimmed plain name without braces can be a package's new name. */
  lemma {:induction false} PlainRename(s: string)
    requires PlainToken(s, MaxPkgLen) && Trimmed(s) && '{' !in s && '}' !in s
    ensures NewNameOk(s) && PkgOk(s) && RulePkgOk(s)
  {
    hide PlainToken, IsBody, NoControl, Trim;
    PlainIsBody(s, MaxPkgLen);
    NewNameFacts(s, "");
    NilLeft(s);
  }

  /** What the web layer asks of a package's new name. */
  predicate NewNameAdmitted(to: string) {
    PlainToken(to, MaxPkgLen) && Trimmed(to) && !('{' in to && LastChar(to) == '}')
  }

  /** On a loadable file renaming to an admitted name ends, unless the name loops. */
  lemma {:induction false} AdmittedHalts(topo: Topology, lines: seq<string>, from: string, to: string)
    requires Good(topo, lines) && NormalizeSafe(lines, from) && from != "" && NewNameAdmitted(to) && !Loops(from, to)
    ensures Halts(lines, from, to)
  {
    hide PlainToken, Loops, Halts, Good, NormalizeSafe, Sound, Attempts, SpecsLike, Accepts;
    PlainIsBody(to, MaxPkgLen);
    GoodIs(topo, lines);
    AcceptedSpecs(topo, Rules(lines));
    SafeHalts(lines, from, to);
  }

  /** An admitted name without `=` that does not end in a brace never loops, the old name `}` aside. */
  lemma {:induction false} AdmittedPlain(from: string, to: string)
    requires NewNameAdmitted(to) && '=' !in to && LastChar(to) != '{' && from != "}"
    ensures !Loops(from, to)
  {
    hide PlainToken, Trim, Head, CloseLike;
    if SplitTarget(to).Some? {
      TargetHead(to);
    }
  }

  /** The two names for which it does not are admitted. */
  lemma {:induction false} LoopingAdmitted()
    ensures NewNameAdmitted("p{x") && NewNameAdmitted("p{y}=z")
  {
    AdmittedText("p{x");
    AdmittedText("p{y}=z");
  }

  lemma {:induction false} AdmittedText(s: string)
    requires s in {"p{x", "p{y}=z"}
    ensures NewNameAdmitted(s)
  {
    hide Trim, HasText, NoControl;
    assert forall c | c in s :: c in {'p', '{', 'x', 'y', '}', '=', 'z'};
    TrimOfTrimmed(s);
    NoSlashes(s);
    ShortBytes(s);
    Visible(s);
  }

  lemma {:induction false} Visible(s: string)
    requires forall c | c in s :: c in {'p', '{', 'x', 'y', '}', '=', 'z'}
    ensures NoControl(s)
  {
    forall i | 0 <= i < |s| ensures s[i] as int >= 0x20 && s[i] as int != 0x7f {
      assert s[i] in s;
    }
  }

  lemma {:induction false} NoSlashes(s: string)
    requires '/' !in s
    ensures !HasText(s, "//")
  {
    forall i | 0 <= i <= |s| ensures !("//" <= s[i..]) {
      assert i < |s| ==> s[i..][0] == s[i] && s[i] in s;
    }
  }

  lemma {:induction false} ShortBytes(s: string)
    ensures ByteLen(s) <= 4 * |s|
    decreases |s|
  {
    if s != "" {
      ShortBytes(s[1..]);
    }
  }

  /** ... and a thread's name inside a block. */
  lemma {:induction false} PlainThread(s: string)
    requires PlainToken(s, MaxThreadLen) && Trimmed(s) && '}' !in s
    ensures EntryNameOk(s) && ThreadOk(s)
  {
    hide PlainToken, NoControl, Trim;
    PlainIsBody(s, MaxThreadLen);
    assert s[0] in s && (s + "=")[0] == s[0];
  }

  /** The check made on a clone's target is enough for the clone to be exact. */
  lemma {:induction false} CloneToChecked(topo: Topology, lines: seq<string>, source: string, target: string, cp: bool, ct: bool)
    requires Good(topo, lines) && source != "" && NormalizeSafe(lines, source)
    requires PackageName(target) && Trimmed(target)
    ensures var n := Normalized(lines, source); var e := Cloned(lines, source, target, cp, ct);
            e.Ok? ==> && Good(topo, e.lines) && NoneOf(Load(topo, n).rules, target)
                      && Load(topo, e.lines).rules
                         == Load(topo, n).rules + Selection(Load(topo, n).rules, ScanOf(n, source), source, target, cp, ct)
  {
    hide PlainToken, Load, Normalized, NormalizeSafe, ScanTo, Good, Selection, ClonePrepare, RulePkgOk, PkgOk, NewNameOk, SameFor, CloneMissing;
    PlainRename(target);
    CloneExact(topo, lines, source, target, cp, ct);
  }
}
