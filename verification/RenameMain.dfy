/** Renaming is a substitution on the loaded rules. */
module RenameMain {
  import opened Seqs
  import opened Text
  import opened RuleSyntax
  import opened LineShape
  import opened SpecTheorems
  import opened LineRename
  import opened LineReown
  import opened LineLighter
  import opened CpuSpec
  import opened Loader
  import opened RuleSets
  import opened Scan
  import opened ScanSim
  import opened ScanFacts
  import opened PruneMeans
  import opened Splice
  import opened Normalize
  import opened NormalizeMain
  import opened NormalForm
  import opened Upsert
  import opened UpsertMain
  import opened Delete
  import opened Unseen
  import opened DeletePkgMain
  import opened Rename
  import opened RenameLoop
  import opened RenameEnds
  import opened RenameForever

  /** The renaming: its outcome, where it comes to one. */
  ghost function RenamedPkg(lines: seq<string>, from: string, to: string): RuleEdit
    requires Halts(lines, from, to)
  {
    var n := Normalized(lines, from);
    if !AnyLine(ScanOf(n, from)) then NotFound
    else if AnyLine(ScanOf(n, to)) then Conflict
    else Ok(Passes(n, from, to))
  }

  /** With a name that holds no braces it always does. */
  lemma {:induction false} PlainHalts(lines: seq<string>, from: string, to: string)
    requires NamesOk(from, to)
    ensures Terminates(lines, from, to) && Halts(lines, from, to)
  {
    hide Terminates, Over, Normalized;
    NewNameBody(to);
    EndsAnywhere(lines, from, to);
    EndsAnywhere(Normalized(lines, from), from, to);
  }

  lemma {:induction false} SameOutline(n: seq<string>, i: nat, pkg: string)
    requires Calm(n) && pkg != "" && i <= |n|
    ensures At(n, i).inBlock == OutlineTo(n, i).inBlock
  {
    hide ViewOf, Walk, SlipCount, ScanTo, OutlineTo;
    ScanSimulates(n, i, pkg);
    ScanRecords(n, i, pkg);
  }

  lemma {:induction false} SafeFrom(n: seq<string>, i: nat, from: string, to: string)
    requires Calm(n) && from != "" && Renamable(n, from, to) && i <= |n|
    ensures RenameSafe(At(n, i), n[i..], from, to)
    decreases |n| - i
  {
    hide ViewOf, Walk, SlipCount, RenameLineOk, Next, OutlineTo;
    if i < |n| {
      SameOutline(n, i, from);
      AtNext(n, i);
      SafeFrom(n, i + 1, from, to);
      assert n[i..][0] == n[i] && n[i..][1..] == n[i + 1..];
      if Declares(At(n, i), ViewOf(n[i]), from) {
        NamedOuter(ViewOf(n[i]).outer, from);
        assert Names(n, i, from);
      }
    }
  }

  lemma {:induction false} NamedOuter(o: Outer, pkg: string)
    requires NamedBy(o) == Some(pkg)
    ensures Owner(o) == Some(pkg) && !o.Single?
  {
  }

  lemma {:induction false} RenamableSafe(n: seq<string>, from: string, to: string)
    requires Calm(n) && from != "" && Renamable(n, from, to)
    ensures RenameSafe(Start, n, from, to)
  {
    hide RenameSafe, Renamable, Walk;
    SafeFrom(n, 0, from, to);
    assert n[0..] == n && n[..0] == [];
    NoLinesAt();
  }

  lemma {:induction false} NoLinesAt()
    ensures Walk(Start, []) == Start
  {
  }

  /** On a sound, normalised file the loop computes the file renamed in one go. */
  lemma {:induction false} PassesRename(d: seq<string>, from: string, to: string)
    requires Renaming(d, from, to) && NamesOk(from, to)
    ensures Terminates(d, from, to) && Passes(d, from, to) == RenamedLines(Start, d, from, to)
    decreases Declarations(Start, d, from)
  {
    hide Renaming, RenamedLines, Pass, ScanTo, NewNameOk, RenameIdxs, FreshIdxs, Passes, Declarations, Terminates;
    PlainHalts(d, from, to);
    PassesStep(d, from, to);
    PassRenames(d, from, to);
    PassIdxs(d, from);
    if AnyLine(ScanOf(d, from)) {
      PassesRename(Pass(d, from, to), from, to);
    }
  }

  lemma {:induction false} RenamedHas(rs: seq<RawRule>, from: string, to: string)
    ensures |RenamedRules(rs, from, to)| == |rs|
    ensures forall k | 0 <= k < |rs| :: RenamedRules(rs, from, to)[k]
                                     == RawRule(RenamePkg(rs[k].pkg, from, to), rs[k].thread, rs[k].spec)
    decreases |rs|
  {
    if rs != [] {
      RenamedHas(rs[1..], from, to);
    }
  }

  lemma {:induction false} RenamedAccepted(topo: Topology, rs: seq<RawRule>, from: string, to: string)
    requires AllAccepted(topo, rs) && PkgOk(to)
    ensures AllAccepted(topo, RenamedRules(rs, from, to))
  {
    hide PkgOk, ThreadOk, SpecOk;
    RenamedHas(rs, from, to);
    var out := RenamedRules(rs, from, to);
    forall k | 0 <= k < |out| ensures Accepts(topo, out[k]) {
      assert rs[k] in rs;
    }
  }

  /**
   * Renaming: missing when no line names the old package, refused when one names the new;
   * otherwise the rules are those of the normalised file, in order and with the same specs,
   * the old name replaced by the new. No rule of another package is merged with them.
   */
  lemma {:induction false} RenameExact(topo: Topology, lines: seq<string>, from: string, to: string)
    requires Good(topo, lines) && NormalizeSafe(lines, from) && NamesOk(from, to) && PkgOk(to)
    requires Renamable(Normalized(lines, from), from, to)
    ensures Halts(lines, from, to)
    ensures var e := RenamedPkg(lines, from, to); var n := Normalized(lines, from);
            && (e.NotFound? <==> !AnyLine(ScanOf(n, from)))
            && (e.Conflict? <==> AnyLine(ScanOf(n, from)) && AnyLine(ScanOf(n, to)))
            && (e.NotFound? ==> NoneOf(Load(topo, lines).rules, from))
            && (e.NotFound? || e.Conflict? ||
                (&& e.Ok? && Good(topo, e.lines) && NoneOf(Load(topo, lines).rules, to)
                 && Good(topo, n) && SameFor(Load(topo, n).rules, Load(topo, lines).rules, from)
                 && Load(topo, e.lines).rules == RenamedRules(Load(topo, n).rules, from, to)))
  {
    hide Attempts, Walk, SlipCount, ScanTo, NormalizeSafe, SpecsLike, Load, Normalized, Accepts, Gone, Renamable, Passes, Terminates, Halts, RenamedLines, RenameSafe, NewNameOk, PkgOk, SameFor, RenamedRules, Sound;
    PlainHalts(lines, from, to);
    Normal(topo, lines, from);
    var n := Normalized(lines, from);
    SoundCalm(n);
    NewNotEmpty(to);
    if !AnyLine(ScanOf(n, from)) {
      UnseenNoRules(n, from);
      SameNoneFor(Rules(n), Rules(lines), from, from);
    } else if !AnyLine(ScanOf(n, to)) {
      UnseenNoRules(n, to);
      SameNoneFor(Rules(n), Rules(lines), from, to);
      RenamableSafe(n, from, to);
      PassesRename(n, from, to);
      RenamedMeans(n, from, to);
      RenamedAccepted(topo, Rules(n), from, to);
      GoodIs(topo, n);
      GoodIs(topo, Passes(n, from, to));
    }
  }

  lemma {:induction false} NewNotEmpty(to: string)
    requires NewNameOk(to)
    ensures to != ""
  {
  }

  lemma {:induction false} SameNoneFor(a: seq<RawRule>, b: seq<RawRule>, pkg: string, q: string)
    requires SameFor(a, b, pkg) && NoneOf(a, q)
    ensures NoneOf(b, q)
  {
    hide Select;
    SameNone(a, b, q);
  }

  // ---- and back

  lemma {:induction false} RulesBack(rs: seq<RawRule>, from: string, to: string)
    requires NoneOf(rs, to)
    ensures RenamedRules(RenamedRules(rs, from, to), to, from) == rs
    decreases |rs|
  {
    if rs != [] {
      Uncons(rs);
      RulesBack(rs[1..], from, to);
    }
  }

  /** A renamed line can take its old name back. */
  lemma {:induction false} LineBack(raw: string, from: string, to: string)
    requires ViewOf(raw).Text? && NamedBy(ViewOf(raw).outer) == Some(from) && from != "" && NewNameOk(to)
    ensures RenameLineOk(RenameText(raw, from, to), to, from)
  {
    hide ViewOf, RenameText, IsBody, IsTail, ParseBody, BodyOf, TrimStartLen, NewRest, CommentAt;
    if '=' in from {
      NewNameBody(to);
      var u := RenameBody(raw, from, to);
      var b := BodyOf(raw);
      if !HasEq(b, from) {
        var g := BareKind(b, from);
      }
      EqKept(b, u, from, to);
      PrefixOf(to, NewRest(Behind(b, from), u, to));
    }
  }

  lemma {:induction false} EqKept(b: string, u: string, from: string, to: string)
    requires HasEq(b, from)
    ensures '=' in NewRest(Behind(b, from), u, to)
  {
    hide Trim;
    assert "="[0] == '=' && "= {"[0] == '=';
  }

  /** The renamed file names the new package where the old one was named, and can be renamed back. */
  lemma {:induction false} Reversible(c: Ctl, lines: seq<string>, from: string, to: string)
    requires NamesOk(from, to) && RenameSafe(c, lines, from, to) && Declarations(c, lines, to) == 0
    requires NoSingles(c, lines, to) && (c.inBlock ==> c.pending == "")
    requires SlipCount(c, lines) == 0 && NoSingles(c, lines, from)
    ensures var d := RenamedCtl(c, from, to); var m := RenamedLines(c, lines, from, to);
            NoSingles(d, m, to) && RenameSafe(d, m, to, from) && Declarations(d, m, to) == Declarations(c, lines, from)
    decreases |lines|
  {
    hide ViewOf, Next, Slips, RenameLineOk, NewNameOk, RenameText, NamedBy, Gone;
    if lines == [] {
      NothingGone(RenamedCtl(c, from, to), to);
      return;
    }
    var v := ViewOf(lines[0]);
    var line := if Declares(c, v, from) then RenameText(lines[0], from, to) else lines[0];
    var rest := RenamedLines(Next(c, v), lines[1..], from, to);
    if Declares(c, v, from) {
      RenamedView(lines[0], from, to);
      LineBack(lines[0], from, to);
    }
    HeadNoSingle(c, lines, from);
    HeadNoSingle(c, lines, to);
    NewNameBody(to);
    StaysShaped(c, v);
    RenamedStep(c, v, ViewOf(line), from, to);
    Reversible(Next(c, v), lines[1..], from, to);
    LineDeclares(c, v, ViewOf(line), from, to);
    var d := RenamedCtl(c, from, to);
    NotGone(d, line, to);
    HeadGone(d, line, rest, to);
    assert ([line] + rest)[1..] == rest;
  }

  lemma {:induction false} NothingGone(c: Ctl, pkg: string)
    ensures NoSingles(c, [], pkg)
  {
  }

  lemma {:induction false} LineDeclares(c: Ctl, v: View, w: View, from: string, to: string)
    requires to != from && !Declares(c, v, to)
    requires if Declares(c, v, from) then w.Text? && w.outer == Renamed(v.outer, to) else w == v
    ensures var d := RenamedCtl(c, from, to); Declares(d, w, to) <==> Declares(c, v, from)
  {
  }

  lemma {:induction false} NotGone(c: Ctl, line: string, pkg: string)
    requires var v := ViewOf(line); v.Text? && !c.inBlock && v.outer.Single? ==> v.outer.pkg != pkg
    ensures Pick(LocOf(c, ViewOf(line), 0, pkg), SinglesOnly) == []
  {
    hide ViewOf;
  }
  lemma {:induction false} NoDeclarations(n: seq<string>, pkg: string)
    requires Sound(n) && pkg != "" && Over(n, pkg)
    ensures Declarations(Start, n, pkg) == 0 && NoSingles(Start, n, pkg)
  {
    hide ScanTo, Pick, Walk, SlipCount, Gone, ViewOf, Declarations, NoNaming;
    PkgLineFacts(n, |n|, pkg);
    NoSinglesIff(n, pkg);
    forall i | 0 <= i < |n| ensures !Declares(At(n, i), ViewOf(n[i]), pkg) {
      NoneDeclared(n, i, pkg);
    }
    CountsNone(n, |n|, pkg);
    TakeAll(n);
  }

  lemma {:induction false} CountsNone(d: seq<string>, n: nat, pkg: string)
    requires n <= |d| && forall i | 0 <= i < |d| :: !Declares(At(d, i), ViewOf(d[i]), pkg)
    ensures Declarations(Start, d[..n], pkg) == 0
  {
    hide ViewOf, Walk, Declares;
    if n > 0 {
      CountsNone(d, n - 1, pkg);
      SplitAround(d, n - 1);
      RenamedLinesConcat(Start, d[..n - 1], [d[n - 1]], pkg, "");
      AtIs(d, n - 1);
      OneUndeclared(At(d, n - 1), d[n - 1], pkg);
    }
  }

  lemma {:induction false} OneUndeclared(c: Ctl, line: string, pkg: string)
    requires !Declares(c, ViewOf(line), pkg)
    ensures Declarations(c, [line], pkg) == 0
  {
    hide ViewOf, Next;
    assert [line][1..] == [];
  }

  /** A renamed file can be renamed back: nothing is in the way, and the loop gets every line. */
  lemma {:induction false} BackAgain(n: seq<string>, from: string, to: string)
    requires Renaming(n, from, to) && NamesOk(from, to) && NewNameOk(from) && !Over(n, from) && Over(n, to)
    ensures var m := RenamedLines(Start, n, from, to);
            Renaming(m, to, from) && !Over(m, to) && Over(m, from) && Rules(m) == RenamedRules(Rules(n), from, to)
  {
    hide ScanTo, Walk, SlipCount, Gone, Attempts, RenameSafe, NewNameOk, RenamedLines, Declarations, Pass, Passes, Terminates, RenamedRules;
    var m := RenamedLines(Start, n, from, to);
    NewNotEmpty(to);
    NoDeclarations(n, to);
    RenamedMeans(n, from, to);
    Reversible(Start, n, from, to);
    assert RenamedCtl(Start, from, to) == Start;
    PassRenames(n, from, to);
    PassIdxs(n, from);
    if Over(m, to) {
      NoDeclarations(m, to);
    }
    PassesRename(n, from, to);
    PassesStep(n, from, to);
  }

  /** Renaming back succeeds and restores the rules. */
  lemma {:induction false} RenameBack(topo: Topology, lines: seq<string>, from: string, to: string)
    requires Good(topo, lines) && NormalizeSafe(lines, from) && NamesOk(from, to) && NewNameOk(from) && PkgOk(to)
    requires Renamable(Normalized(lines, from), from, to)
    ensures Halts(lines, from, to)
    ensures var e := RenamedPkg(lines, from, to);
            e.Ok? ==>
              && Halts(e.lines, to, from)
              && var back := RenamedPkg(e.lines, to, from);
                 && back.Ok? && Good(topo, back.lines)
                 && Load(topo, back.lines).rules == Load(topo, Normalized(lines, from)).rules
  {
    hide Attempts, Walk, SlipCount, ScanTo, NormalizeSafe, SpecsLike, Load, Normalized, Accepts, Gone, Renamable, Passes, Terminates, Halts, RenamedLines, RenameSafe, NewNameOk, PkgOk, SameFor, RenamedRules, Sound, Pick;
    PlainHalts(lines, from, to);
    Normal(topo, lines, from);
    var n := Normalized(lines, from);
    SoundCalm(n);
    NewNotEmpty(to);
    var e := RenamedPkg(lines, from, to);
    if e.Ok? {
      RenamableSafe(n, from, to);
      PassesRename(n, from, to);
      BackAgain(n, from, to);
      var m := e.lines;
      PlainHalts(m, to, from);
      SoundNoSingles(m, to);
      NoSinglesSame(m, to);
      PassesRename(m, to, from);
      RenamedMeans(m, to, from);
      UnseenNoRules(n, to);
      RulesBack(Rules(n), from, to);
      GoodIs(topo, n);
      GoodIs(topo, Passes(m, to, from));
    }
  }
}
