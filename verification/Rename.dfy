/**
 * Renaming a package: line by line, the scan's first line of the old name at a time. On a
 * sound, normalised file the loop ends and every rule is kept with the package replaced.
 */
module Rename {
  import opened Seqs
  import opened Text
  import opened RuleSyntax
  import opened LineRename
  import opened Loader
  import opened Scan
  import opened ScanSim
  import opened ScanFacts
  import opened PruneMeans
  import opened Splice
  import opened NormalForm
  import opened Upsert
  import opened Unseen

  /** One pass of the loop: the positions of single-line rules, then the package line. */
  function RenameIdxs(t: Target): seq<nat> {
    LocIdxs(Singles(t.threads)) + (if t.pkgLine.Some? then [t.pkgLine.value.idx] else [])
  }

  function LocIdxs(locs: seq<Loc>): seq<nat> {
    if locs == [] then [] else [locs[0].idx] + LocIdxs(locs[1..])
  }

  function RenameAt(lines: seq<string>, idxs: seq<nat>, from: string, to: string): seq<string>
    decreases |idxs|
  {
    if idxs == [] then lines
    else RenameAt(if idxs[0] < |lines| then lines[idxs[0] := RenameText(lines[idxs[0]], from, to)] else lines,
                  idxs[1..], from, to)
  }

  function Pass(lines: seq<string>, from: string, to: string): seq<string> {
    RenameAt(lines, RenameIdxs(ScanOf(lines, from)), from, to)
  }

  // ---- the whole file, renamed in one go

  /** An outer line that declares `pkg`. */
  predicate Declares(c: Ctl, v: View, pkg: string) {
    v.Text? && !c.inBlock && NamedBy(v.outer) == Some(pkg)
  }

  function RenamedLines(c: Ctl, lines: seq<string>, from: string, to: string): seq<string>
    decreases |lines|
  {
    if lines == [] then []
    else
      var v := ViewOf(lines[0]);
      [if Declares(c, v, from) then RenameText(lines[0], from, to) else lines[0]]
      + RenamedLines(Next(c, v), lines[1..], from, to)
  }

  /** The number of lines that declare `pkg`. */
  function Declarations(c: Ctl, lines: seq<string>, pkg: string): nat
    decreases |lines|
  {
    if lines == [] then 0
    else
      var v := ViewOf(lines[0]);
      (if Declares(c, v, pkg) then 1 else 0) + Declarations(Next(c, v), lines[1..], pkg)
  }

  function RenamePkg(pkg: string, from: string, to: string): string {
    if pkg == from then to else pkg
  }

  function RenamedRules(rs: seq<RawRule>, from: string, to: string): seq<RawRule> {
    if rs == [] then []
    else [RawRule(RenamePkg(rs[0].pkg, from, to), rs[0].thread, rs[0].spec)] + RenamedRules(rs[1..], from, to)
  }

  function RenamedCtl(c: Ctl, from: string, to: string): Ctl {
    Ctl(c.inBlock, RenamePkg(c.cur, from, to), RenamePkg(c.pending, from, to))
  }

  /** Every declaring line can carry the new name. */
  predicate RenameSafe(c: Ctl, lines: seq<string>, from: string, to: string)
    decreases |lines|
  {
    lines == [] ||
    (var v := ViewOf(lines[0]);
     && (Declares(c, v, from) ==> RenameLineOk(lines[0], from, to))
     && RenameSafe(Next(c, v), lines[1..], from, to))
  }

  predicate NamesOk(from: string, to: string) {
    from != "" && to != from && NewNameOk(to)
  }

  // ---- the renamed file means the renamed rules

  lemma {:induction false} RenamedConcat(a: seq<RawRule>, b: seq<RawRule>, from: string, to: string)
    ensures RenamedRules(a + b, from, to) == RenamedRules(a, from, to) + RenamedRules(b, from, to)
    decreases |a|
  {
    if a == [] {
      NilLeft(b);
    } else {
      ConsDrop(a, b);
      RenamedConcat(a[1..], b, from, to);
    }
  }

  lemma {:induction false} RenamedView(line: string, from: string, to: string)
    requires NamesOk(from, to) && ViewOf(line).Text? && NamedBy(ViewOf(line).outer) == Some(from)
    requires RenameLineOk(line, from, to)
    ensures ViewOf(RenameText(line, from, to)).Text?
    ensures ViewOf(RenameText(line, from, to)).outer == Renamed(ViewOf(line).outer, to)
  {
    hide ViewOf, RenameText, RenameLineOk, NewNameOk;
    RenameShows(line, from, to);
  }

  /** One line, read from the renamed state. */
  lemma {:induction false} RenamedStep(c: Ctl, v: View, w: View, from: string, to: string)
    requires from != "" && to != "" && !Slips(c, v) && (c.inBlock ==> c.pending == "")
    requires if Declares(c, v, from) then w.Text? && w.outer == Renamed(v.outer, to) else w == v
    requires v.Text? && !c.inBlock && v.outer.Single? ==> v.outer.pkg != from
    ensures Next(RenamedCtl(c, from, to), w) == RenamedCtl(Next(c, v), from, to)
    ensures Attempt(RenamedCtl(c, from, to), w) == RenamedRules(Attempt(c, v), from, to)
    ensures !Slips(RenamedCtl(c, from, to), w)
  {
  }

  lemma {:induction false} RenamedWalk(c: Ctl, lines: seq<string>, from: string, to: string)
    requires NamesOk(from, to) && RenameSafe(c, lines, from, to) && SlipCount(c, lines) == 0
    requires NoSingles(c, lines, from) && (c.inBlock ==> c.pending == "")
    ensures Walk(RenamedCtl(c, from, to), RenamedLines(c, lines, from, to)) == RenamedCtl(Walk(c, lines), from, to)
    ensures Attempts(RenamedCtl(c, from, to), RenamedLines(c, lines, from, to)) == RenamedRules(Attempts(c, lines), from, to)
    ensures SlipCount(RenamedCtl(c, from, to), RenamedLines(c, lines, from, to)) == 0
    decreases |lines|
  {
    hide ViewOf, Next, Attempt, Slips, RenameLineOk, NewNameOk, RenameText, RenamedCtl, NamedBy, Gone;
    if lines == [] {
      return;
    }
    var v := ViewOf(lines[0]);
    var line := if Declares(c, v, from) then RenameText(lines[0], from, to) else lines[0];
    if Declares(c, v, from) {
      RenamedView(lines[0], from, to);
    }
    HeadNoSingle(c, lines, from);
    NewNameBody(to);
    StaysShaped(c, v);
    RenamedStep(c, v, ViewOf(line), from, to);
    var rest := RenamedLines(Next(c, v), lines[1..], from, to);
    RenamedWalk(Next(c, v), lines[1..], from, to);
    RunCons(RenamedCtl(c, from, to), line, rest);
    RenamedConcat(Attempt(c, v), Attempts(Next(c, v), lines[1..]), from, to);
  }

  lemma {:induction false} RunCons(c: Ctl, line: string, rest: seq<string>)
    ensures var c' := Next(c, ViewOf(line));
            && Walk(c, [line] + rest) == Walk(c', rest)
            && Attempts(c, [line] + rest) == Attempt(c, ViewOf(line)) + Attempts(c', rest)
            && SlipCount(c, [line] + rest) == (if Slips(c, ViewOf(line)) then 1 else 0) + SlipCount(c', rest)
  {
    hide ViewOf, Next, Attempt, Slips;
    ConsDrop([line], rest);
    assert [line][1..] + rest == rest;
  }

  lemma {:induction false} StaysShaped(c: Ctl, v: View)
    requires c.inBlock ==> c.pending == ""
    ensures Next(c, v).inBlock ==> Next(c, v).pending == ""
  {
  }

  lemma {:induction false} HeadNoSingle(c: Ctl, lines: seq<string>, pkg: string)
    requires lines != [] && NoSingles(c, lines, pkg)
    ensures NoSingles(Next(c, ViewOf(lines[0])), lines[1..], pkg)
    ensures ViewOf(lines[0]).Text? && !c.inBlock && ViewOf(lines[0]).outer.Single? ==> ViewOf(lines[0]).outer.pkg != pkg
  {
    hide ViewOf, Next;
    var v := ViewOf(lines[0]);
    if Pick(LocOf(c, v, 0, pkg), SinglesOnly) != [] {
      PickedRule(c, lines[0], pkg, SinglesOnly);
    }
    if v.Text? && v.outer.Single? {
      SingleNamed(lines[0]);
    }
  }

  /** Soundness and the rules of the renamed file. */
  lemma {:induction false} RenamedMeans(n: seq<string>, from: string, to: string)
    requires NamesOk(from, to) && RenameSafe(Start, n, from, to) && Sound(n) && NoSingles(Start, n, from)
    ensures Sound(RenamedLines(Start, n, from, to))
    ensures Rules(RenamedLines(Start, n, from, to)) == RenamedRules(Rules(n), from, to)
  {
    hide ViewOf, Walk, Attempts, SlipCount, RenameSafe, NewNameOk, RenamedLines, Gone;
    RenamedWalk(Start, n, from, to);
    assert RenamedCtl(Start, from, to) == Start;
  }

  // ---- one pass

  /** States that differ only in names. */
  predicate Like(c: Ctl, d: Ctl) {
    c.inBlock == d.inBlock && (c.pending == "" <==> d.pending == "")
  }

  lemma {:induction false} LikeStep(c: Ctl, d: Ctl, v: View, pkg: string)
    requires Like(c, d)
    ensures Like(Next(c, v), Next(d, v)) && Slips(c, v) == Slips(d, v) && Declares(c, v, pkg) == Declares(d, v, pkg)
    ensures Pick(LocOf(c, v, 0, pkg), SinglesOnly) == Pick(LocOf(d, v, 0, pkg), SinglesOnly)
  {
  }

  /** Names in the state do not matter to the rest of the file. */
  lemma {:induction false} LikeRest(c: Ctl, d: Ctl, b: seq<string>, from: string, to: string)
    requires Like(c, d)
    ensures Like(Walk(c, b), Walk(d, b)) && SlipCount(c, b) == SlipCount(d, b)
    ensures RenamedLines(c, b, from, to) == RenamedLines(d, b, from, to)
    ensures Declarations(c, b, from) == Declarations(d, b, from)
    ensures RenameSafe(c, b, from, to) == RenameSafe(d, b, from, to)
    ensures NoSingles(c, b, from) == NoSingles(d, b, from)
    decreases |b|
  {
    hide ViewOf, Next, Slips, Declares, Like, LocOf, Pick, RenameText, RenameLineOk, Attempt;
    if b != [] {
      var v := ViewOf(b[0]);
      LikeStep(c, d, v, from);
      LikeRest(Next(c, v), Next(d, v), b[1..], from, to);
      if Pick(LocOf(c, v, 0, from), SinglesOnly) != [] {
        PickedRule(c, b[0], from, SinglesOnly);
        PickedRule(d, b[0], from, SinglesOnly);
      }
    }
  }

  lemma {:induction false} RenamedLinesConcat(c: Ctl, a: seq<string>, b: seq<string>, from: string, to: string)
    ensures RenamedLines(c, a + b, from, to) == RenamedLines(c, a, from, to) + RenamedLines(Walk(c, a), b, from, to)
    ensures Declarations(c, a + b, from) == Declarations(c, a, from) + Declarations(Walk(c, a), b, from)
    ensures RenameSafe(c, a + b, from, to) <==> RenameSafe(c, a, from, to) && RenameSafe(Walk(c, a), b, from, to)
    decreases |a|
  {
    hide ViewOf, Next, Declares, RenameText, RenameLineOk;
    if a == [] {
      NilLeft(b);
    } else {
      ConsDrop(a, b);
      RenamedLinesConcat(Next(c, ViewOf(a[0])), a[1..], b, from, to);
    }
  }

  /** The renamed line and the line itself, in front of the same rest. */
  lemma {:induction false} RenamedHead(c: Ctl, line: string, b: seq<string>, from: string, to: string)
    requires NamesOk(from, to) && Declares(c, ViewOf(line), from) && RenameLineOk(line, from, to)
    requires c.pending == "" || !Slips(c, ViewOf(line))
    ensures var w := RenameText(line, from, to);
            && Like(Walk(c, [w] + b), Walk(c, [line] + b)) && SlipCount(c, [w] + b) == SlipCount(c, [line] + b)
            && RenamedLines(c, [w] + b, from, to) == RenamedLines(c, [line] + b, from, to)
            && Declarations(c, [w] + b, from) + 1 == Declarations(c, [line] + b, from)
            && (RenameSafe(c, [line] + b, from, to) ==> RenameSafe(c, [w] + b, from, to))
            && NoSingles(c, [w] + b, from) == NoSingles(c, [line] + b, from)
  {
    hide ViewOf, RenameText, RenameLineOk, NewNameOk, Walk, SlipCount, Gone, Next, Slips, Declares, LocOf;
    var w := RenameText(line, from, to);
    RenamedView(line, from, to) by { DeclaresText(c, ViewOf(line), from); }
    NewNameBody(to);
    RenamedLike(c, ViewOf(line), ViewOf(w), from, to);
    RunCons(c, line, b);
    RunCons(c, w, b);
    LikeRest(Next(c, ViewOf(w)), Next(c, ViewOf(line)), b, from, to);
    HeadGone(c, line, b, from);
    HeadGone(c, w, b, from);
    assert ([w] + b)[1..] == b && ([line] + b)[1..] == b;
  }

  lemma {:induction false} DeclaresText(c: Ctl, v: View, pkg: string)
    requires Declares(c, v, pkg)
    ensures v.Text? && NamedBy(v.outer) == Some(pkg)
  {
  }

  lemma {:induction false} RenamedLike(c: Ctl, v: View, w: View, from: string, to: string)
    requires Declares(c, v, from) && w.Text? && w.outer == Renamed(v.outer, to) && from != "" && to != "" && to != from
    ensures Like(Next(c, w), Next(c, v)) && Slips(c, w) == Slips(c, v) && !Declares(c, w, from)
    ensures Pick(LocOf(c, w, 0, from), SinglesOnly) == [] == Pick(LocOf(c, v, 0, from), SinglesOnly)
  {
  }

  lemma {:induction false} HeadGone(c: Ctl, line: string, b: seq<string>, pkg: string)
    requires Pick(LocOf(c, ViewOf(line), 0, pkg), SinglesOnly) == []
    ensures NoSingles(c, [line] + b, pkg) == NoSingles(Next(c, ViewOf(line)), b, pkg)
  {
    hide ViewOf, Next, LocOf;
    assert ([line] + b)[1..] == b;
  }

  /** What the loop keeps, and what one more renamed line does to it. */
  predicate Renaming(d: seq<string>, from: string, to: string) {
    Sound(d) && NoSingles(Start, d, from) && RenameSafe(Start, d, from, to)
  }

  lemma {:induction false} RenameOne(d: seq<string>, i: nat, from: string, to: string)
    requires Renaming(d, from, to) && NamesOk(from, to) && i < |d| && Declares(At(d, i), ViewOf(d[i]), from)
    ensures var e := d[i := RenameText(d[i], from, to)];
            && Renaming(e, from, to)
            && RenamedLines(Start, e, from, to) == RenamedLines(Start, d, from, to)
            && Declarations(Start, e, from) + 1 == Declarations(Start, d, from)
  {
    hide ViewOf, RenameText, RenameLineOk, NewNameOk, Walk, SlipCount, Gone, Next, Slips, Declares, RenamedLines, Declarations, RenameSafe;
    var a, b := d[..i], d[i + 1..];
    var w := RenameText(d[i], from, to);
    UpdateParts(d, i, w);
    AtIs(d, i);
    RenamedLinesConcat(Start, a, [d[i]] + b, from, to);
    RenamedLinesConcat(Start, a, [w] + b, from, to);
    WalkConcat(Start, a, [d[i]] + b);
    WalkConcat(Start, a, [w] + b);
    SlipsConcat(Start, a, [d[i]] + b);
    SlipsConcat(Start, a, [w] + b);
    GoneConcat(Start, a, [d[i]] + b, from, SinglesOnly);
    GoneConcat(Start, a, [w] + b, from, SinglesOnly);
    HeadSafe(At(d, i), d[i], b, from, to);
    CalmAt(d, i);
    RenamedHead(At(d, i), d[i], b, from, to);
  }

  lemma {:induction false} UpdateParts(d: seq<string>, i: nat, w: string)
    requires i < |d|
    ensures d == d[..i] + ([d[i]] + d[i + 1..]) && d[i := w] == d[..i] + ([w] + d[i + 1..])
  {
  }

  lemma {:induction false} HeadSafe(c: Ctl, line: string, b: seq<string>, from: string, to: string)
    requires RenameSafe(c, [line] + b, from, to) && Declares(c, ViewOf(line), from)
    ensures RenameLineOk(line, from, to)
  {
    hide ViewOf, RenameLineOk;
  }

  // ---- nothing left to rename

  /** A name line that waits is followed by its brace. */
  lemma {:induction false} WaitingNamed(d: seq<string>, i: nat, pkg: string)
    requires Sound(d) && pkg != "" && i <= |d| && !At(d, i).inBlock && At(d, i).pending == pkg
    ensures !NoNaming(d, |d|, pkg)
    decreases |d| - i
  {
    hide ViewOf, Walk, SlipCount;
    if i == |d| {
      EndsAt(d);
      assert false;
    } else {
      CalmAt(d, i);
      AtNext(d, i);
      if ViewOf(d[i]).Skip? {
        WaitingNamed(d, i + 1, pkg);
      } else {
        assert Naming(At(d, i), ViewOf(d[i]), pkg);
      }
    }
  }

  lemma {:induction false} NoneDeclared(d: seq<string>, i: nat, pkg: string)
    requires Sound(d) && pkg != "" && NoNaming(d, |d|, pkg) && i < |d|
    ensures !Declares(At(d, i), ViewOf(d[i]), pkg)
  {
    hide ViewOf, Walk, SlipCount;
    assert !Naming(At(d, i), ViewOf(d[i]), pkg);
    if Declares(At(d, i), ViewOf(d[i]), pkg) {
      AtNext(d, i);
      WaitingNamed(d, i + 1, pkg);
    }
  }

  lemma {:induction false} RenamedNothing(d: seq<string>, n: nat, from: string, to: string)
    requires n <= |d| && forall i | 0 <= i < |d| :: !Declares(At(d, i), ViewOf(d[i]), from)
    ensures RenamedLines(Start, d[..n], from, to) == d[..n]
  {
    hide ViewOf, Walk, Declares, RenameText;
    if n == 0 {
      TakeAll(d);
    } else {
      RenamedNothing(d, n - 1, from, to);
      SplitAround(d, n - 1);
      RenamedLinesConcat(Start, d[..n - 1], [d[n - 1]], from, to);
      AtIs(d, n - 1);
      OneUnrenamed(At(d, n - 1), d[n - 1], from, to);
    }
  }

  lemma {:induction false} OneUnrenamed(c: Ctl, line: string, from: string, to: string)
    requires !Declares(c, ViewOf(line), from)
    ensures RenamedLines(c, [line], from, to) == [line]
  {
    hide ViewOf, Next, RenameText;
    assert [line][1..] == [];
  }

  /** On the files the loop goes through, a pass renames one line, or there is none left. */
  lemma {:induction false} PassRenames(d: seq<string>, from: string, to: string)
    requires Renaming(d, from, to) && NamesOk(from, to)
    ensures RenameIdxs(ScanOf(d, from)) != [] ==>
              && Renaming(Pass(d, from, to), from, to)
              && RenamedLines(Start, Pass(d, from, to), from, to) == RenamedLines(Start, d, from, to)
              && Declarations(Start, Pass(d, from, to), from) < Declarations(Start, d, from)
    ensures RenameIdxs(ScanOf(d, from)) == [] ==> RenamedLines(Start, d, from, to) == d
  {
    hide ViewOf, Walk, SlipCount, Gone, ScanTo, RenamedLines, Declarations, RenameSafe, RenameText, Declares, Pick, NewNameOk, Naming, NoNaming;
    NoSinglesIff(d, from);
    PkgLineFacts(d, |d|, from);
    var t := ScanOf(d, from);
    OnlyPkgLine(t);
    if t.pkgLine.Some? {
      var i := t.pkgLine.value.idx;
      RecordedDeclares(d, t, from);
      RenameOne(d, i, from, to);
      OneIdx(d, i, from, to);
    } else {
      forall i | 0 <= i < |d| ensures !Declares(At(d, i), ViewOf(d[i]), from) {
        NoneDeclared(d, i, from);
      }
      RenamedNothing(d, |d|, from, to);
      TakeAll(d);
    }
  }

  lemma {:induction false} OnlyPkgLine(t: Target)
    requires Singles(t.threads) == []
    ensures RenameIdxs(t) == if t.pkgLine.Some? then [t.pkgLine.value.idx] else []
  {
  }

  lemma {:induction false} OneIdx(d: seq<string>, i: nat, from: string, to: string)
    requires i < |d|
    ensures RenameAt(d, [i], from, to) == d[i := RenameText(d[i], from, to)]
  {
    hide RenameText;
    assert [i][1..] == [];
  }

  lemma {:induction false} RecordedDeclares(d: seq<string>, t: Target, pkg: string)
    requires PkgLineMeans(d, |d|, t, pkg) && t.pkgLine.Some?
    ensures t.pkgLine.value.idx < |d| && Declares(At(d, t.pkgLine.value.idx), ViewOf(d[t.pkgLine.value.idx]), pkg)
  {
    hide ViewOf, Walk;
  }
}
