/** What the recorded package line and block bounds mean, on files whose lines do not fail. */
module ScanFacts {
  import opened Text
  import opened RuleSyntax
  import opened Loader
  import opened Scan
  import opened ScanSim

  /** An outer line, other than a single-line rule, that names `pkg` or opens its block. */
  predicate Naming(c: Ctl, v: View, pkg: string) {
    && v.Text? && !c.inBlock
    && match v.outer
       case Rule(pg, _, _) => pg == pkg
       case BareOpen(pg) => pg == pkg || (pg == "" && c.pending == pkg)
       case _ => false
  }

  /** A line that opens a block of `pkg`. */
  predicate Opening(c: Ctl, v: View, pkg: string) {
    !c.inBlock && Next(c, v).inBlock && Next(c, v).cur == pkg
  }

  predicate NoNaming(lines: seq<string>, n: nat, pkg: string)
    requires n <= |lines|
  {
    forall i | 0 <= i < n :: !Naming(At(lines, i), ViewOf(lines[i]), pkg)
  }

  predicate NoOpening(lines: seq<string>, n: nat, pkg: string)
    requires n <= |lines|
  {
    forall i | 0 <= i < n :: !Opening(At(lines, i), ViewOf(lines[i]), pkg)
  }

  predicate FirstNaming(lines: seq<string>, i: nat, pkg: string) {
    && i < |lines| && NoNaming(lines, i, pkg)
    && Naming(At(lines, i), ViewOf(lines[i]), pkg)
  }

  /** Line `p` leaves the name waiting until line `o`; only skipped lines lie between. */
  predicate Waits(lines: seq<string>, p: nat, o: nat, pkg: string) {
    && p < o <= |lines|
    && At(lines, p) == Start
    && ViewOf(lines[p]).Text? && ViewOf(lines[p]).outer == Pending(pkg)
    && forall i | p < i < o :: ViewOf(lines[i]).Skip?
  }

  /** The meaning of the recorded package line. */
  predicate PkgLineMeans(lines: seq<string>, n: nat, t: Target, pkg: string)
    requires n <= |lines|
  {
    match t.pkgLine
    case None => NoNaming(lines, n, pkg)
    case Some(Standalone(i)) =>
      i < n && FirstNaming(lines, i, pkg) && ViewOf(lines[i]).outer.Rule? && !ViewOf(lines[i]).outer.open
    case Some(OpenInline(i)) =>
      i < n && FirstNaming(lines, i, pkg) && ViewOf(lines[i]).outer.Rule? && ViewOf(lines[i]).outer.open
    case Some(OpenBare(i)) =>
      i < n && FirstNaming(lines, i, pkg) && ViewOf(lines[i]).outer == BareOpen(pkg)
    case Some(OpenPending(p)) =>
      exists o :: p < o < n && PendingOpens(lines, p, o, pkg)
  }

  predicate PendingOpens(lines: seq<string>, p: nat, o: nat, pkg: string)
    requires p < o < |lines|
  {
    FirstNaming(lines, o, pkg) && Waits(lines, p, o, pkg) && ViewOf(lines[o]).outer == BareOpen("")
  }

  /** The lines from `lo` on, up to `hi`, are all read inside a block of `pkg`. */
  predicate Within(lines: seq<string>, lo: nat, hi: nat, pkg: string)
    requires hi <= |lines|
  {
    forall i | lo <= i <= hi :: At(lines, i) == Ctl(true, pkg, "")
  }

  /** The meaning of the recorded block bounds: the first block of `pkg`. */
  predicate BlockMeans(lines: seq<string>, n: nat, t: Target, pkg: string)
    requires n <= |lines|
  {
    match (t.blockOpen, t.blockClose)
    case (None, None) => NoOpening(lines, n, pkg)
    case (Some(o), None) =>
      && o < n && NoOpening(lines, o, pkg) && Opening(At(lines, o), ViewOf(lines[o]), pkg)
      && Within(lines, o + 1, n, pkg)
    case (Some(o), Some(cl)) =>
      && o < cl < n && NoOpening(lines, o, pkg) && Opening(At(lines, o), ViewOf(lines[o]), pkg)
      && Within(lines, o + 1, cl, pkg) && !Next(At(lines, cl), ViewOf(lines[cl])).inBlock
    case (None, Some(_)) => false
  }

  // ---- the loader's state stays in shape

  lemma {:induction false} AtShape(lines: seq<string>, n: nat)
    requires n <= |lines|
    ensures At(lines, n).inBlock ==> At(lines, n).pending == ""
    ensures !At(lines, n).inBlock ==> At(lines, n).cur == ""
  {
    hide ViewOf;
    if n > 0 {
      AtShape(lines, n - 1);
      AtNext(lines, n - 1);
    }
  }

  /** The line a waiting name came from. */
  lemma {:induction false} WaitingFrom(lines: seq<string>, n: nat, pkg: string)
    requires n <= |lines| && pkg != "" && Calm(lines)
    requires At(lines, n).pending != ""
    ensures ScanTo(lines, n, pkg).pending.Some?
    ensures Waits(lines, ScanTo(lines, n, pkg).pending.value, n, At(lines, n).pending)
  {
    hide ViewOf, Next, Slips, Step;
    assert n > 0 by { assert lines[..0] == []; }
    var m := n - 1;
    AtNext(lines, m);
    AtShape(lines, m);
    CalmAt(lines, m);
    ScanSimulates(lines, m, pkg);
    var c, v, s := At(lines, m), ViewOf(lines[m]), ScanTo(lines, m, pkg);
    WaitingStep(c, v);
    StepPending(lines, s, m, pkg);
    if v.Skip? {
      WaitingFrom(lines, m, pkg);
    }
  }

  lemma {:induction false} WaitingStep(c: Ctl, v: View)
    requires !Slips(c, v) && Next(c, v).pending != "" && (c.inBlock ==> c.pending == "")
    requires !c.inBlock ==> c.cur == ""
    ensures v.Skip? ==> Next(c, v) == c
    ensures v.Text? ==> c == Start && v.outer == Pending(Next(c, v).pending)
  {
  }

  lemma {:induction false} StepPending(lines: seq<string>, s: State, n: nat, pkg: string)
    requires n < |lines|
    ensures ViewOf(lines[n]).Skip? ==> Step(lines, s, n, pkg).pending == s.pending
    ensures ViewOf(lines[n]).Text? && !s.inBlock && ViewOf(lines[n]).outer.Pending?
            ==> Step(lines, s, n, pkg).pending == Some(n)
  {
    hide ViewOf;
  }

  // ---- the package line

  lemma {:induction false} PkgLineKept(lines: seq<string>, n: nat, t: Target, t': Target, pkg: string)
    requires n < |lines| && PkgLineMeans(lines, n, t, pkg) && t'.pkgLine == t.pkgLine
    requires t.pkgLine.Some? || !Naming(At(lines, n), ViewOf(lines[n]), pkg)
    ensures PkgLineMeans(lines, n + 1, t', pkg)
  {
    hide ViewOf, Naming, At, FirstNaming, PendingOpens;
  }

  /** How one line changes the recorded package line. */
  lemma {:induction false} StepPkgLine(lines: seq<string>, s: State, n: nat, c: Ctl, pkg: string)
    requires n < |lines| && pkg != "" && c == At(lines, n) && Sim(lines, n, c, s, pkg)
    requires !Orphan(c, ViewOf(lines[n]), s)
    ensures var v := ViewOf(lines[n]); var t' := Step(lines, s, n, pkg).t;
            if s.t.pkgLine.Some? || !Naming(c, v, pkg) then t'.pkgLine == s.t.pkgLine
            else match v.outer
                 case Rule(_, _, open) => t'.pkgLine == Some(if open then OpenInline(n) else Standalone(n))
                 case BareOpen(pg) =>
                   if pg == pkg then t'.pkgLine == Some(OpenBare(n))
                   else pg == "" && c.pending == pkg && s.pending.Some? && t'.pkgLine == Some(OpenPending(s.pending.value))
                 case _ => false
  {
    hide ViewOf, At;
  }

  lemma {:induction false} PkgLineFacts(lines: seq<string>, n: nat, pkg: string)
    requires n <= |lines| && pkg != "" && Calm(lines)
    ensures PkgLineMeans(lines, n, ScanTo(lines, n, pkg).t, pkg)
  {
    hide ViewOf, Next, Slips, Step, At, Waits;
    if n > 0 {
      var m := n - 1;
      PkgLineFacts(lines, m, pkg);
      ScanSimulates(lines, m, pkg);
      NoOrphan(lines, m, ScanTo(lines, m, pkg), pkg);
      var c, v, s := At(lines, m), ViewOf(lines[m]), ScanTo(lines, m, pkg);
      StepPkgLine(lines, s, m, c, pkg);
      if s.t.pkgLine.Some? || !Naming(c, v, pkg) {
        PkgLineKept(lines, m, s.t, ScanTo(lines, n, pkg).t, pkg);
      } else {
        assert FirstNaming(lines, m, pkg);
        if v.outer.BareOpen? && v.outer.pkg != pkg {
          WaitingFrom(lines, m, pkg);
          PendingAtIdx(lines, s.pending.value, m, pkg);
        }
      }
    }
  }

  /** On any file: the recorded package line is that of the first naming line, with its kind. */
  predicate PkgLineKind(lines: seq<string>, n: nat, t: Target, pkg: string)
    requires n <= |lines|
  {
    match t.pkgLine
    case None => NoNaming(lines, n, pkg)
    case Some(Standalone(i)) =>
      i < n && FirstNaming(lines, i, pkg) && ViewOf(lines[i]).outer.Rule? && !ViewOf(lines[i]).outer.open
    case Some(OpenInline(i)) =>
      i < n && FirstNaming(lines, i, pkg) && ViewOf(lines[i]).outer.Rule? && ViewOf(lines[i]).outer.open
    case Some(OpenBare(i)) => i < n && FirstNaming(lines, i, pkg) && ViewOf(lines[i]).outer == BareOpen(pkg)
    case Some(OpenPending(_)) =>
      exists o | 0 <= o < n :: FirstNaming(lines, o, pkg) && ViewOf(lines[o]).outer == BareOpen("")
  }

  lemma {:induction false} PkgLineAny(lines: seq<string>, n: nat, pkg: string)
    requires n <= |lines| && pkg != "" && (NoBareEq(lines) || Calm(lines))
    ensures PkgLineKind(lines, n, ScanTo(lines, n, pkg).t, pkg)
  {
    hide ViewOf, Next, Slips, Step, At, Orphan;
    if n > 0 {
      var m := n - 1;
      PkgLineAny(lines, m, pkg);
      ScanSimulates(lines, m, pkg);
      var c, v, s := At(lines, m), ViewOf(lines[m]), ScanTo(lines, m, pkg);
      NoOrphan(lines, m, s, pkg);
      StepPkgLine(lines, s, m, c, pkg);
      if s.t.pkgLine.None? && Naming(c, v, pkg) {
        assert FirstNaming(lines, m, pkg);
      }
    }
  }

  lemma {:induction false} PendingAtIdx(lines: seq<string>, p: nat, o: nat, pkg: string)
    requires o < |lines| && Waits(lines, p, o, pkg)
    requires FirstNaming(lines, o, pkg) && ViewOf(lines[o]).outer == BareOpen("")
    ensures p < o && PendingOpens(lines, p, o, pkg)
  {
    hide ViewOf, At;
  }

  // ---- the block bounds

  /** How one line changes the recorded block bounds. */
  lemma {:induction false} StepBlock(lines: seq<string>, s: State, n: nat, c: Ctl, pkg: string)
    requires n < |lines| && pkg != "" && c == At(lines, n) && Sim(lines, n, c, s, pkg)
    requires !Orphan(c, ViewOf(lines[n]), s)
    ensures var v := ViewOf(lines[n]); var t, t' := s.t, Step(lines, s, n, pkg).t;
            && t'.blockOpen == (if t.blockClose.None? && Opening(c, v, pkg) then Some(n) else t.blockOpen)
            && t'.blockClose == (if t.blockClose.None? && c.inBlock && c.cur == pkg && !Next(c, v).inBlock
                                 then Some(n) else t.blockClose)
  {
    hide ViewOf, At;
  }

  lemma {:induction false} BlockFacts(lines: seq<string>, n: nat, pkg: string)
    requires n <= |lines| && pkg != "" && (NoBareEq(lines) || Calm(lines))
    ensures BlockMeans(lines, n, ScanTo(lines, n, pkg).t, pkg)
  {
    hide ViewOf, Next, Slips, Step, At;
    if n > 0 {
      var m := n - 1;
      BlockFacts(lines, m, pkg);
      ScanSimulates(lines, m, pkg);
      NoOrphan(lines, m, ScanTo(lines, m, pkg), pkg);
      AtNext(lines, m);
      AtShape(lines, n);
      AtShape(lines, m);
      var c, v, s := At(lines, m), ViewOf(lines[m]), ScanTo(lines, m, pkg);
      StepBlock(lines, s, m, c, pkg);
      if s.t.blockOpen.None? {
        NotInside(lines, m, pkg);
      }
      BlockStep(lines, m, s.t, ScanTo(lines, n, pkg).t, pkg);
    }
  }

  /** Without an opening line there is no block. */
  lemma {:induction false} NotInside(lines: seq<string>, n: nat, pkg: string)
    requires n <= |lines| && NoOpening(lines, n, pkg)
    ensures !(At(lines, n).inBlock && At(lines, n).cur == pkg)
  {
    hide ViewOf, Next, At;
    if n == 0 {
      AtStart(lines);
    } else {
      NotInside(lines, n - 1, pkg);
      AtNext(lines, n - 1);
      var c, v := At(lines, n - 1), ViewOf(lines[n - 1]);
      assert !Opening(c, v, pkg);
      if c.inBlock && Next(c, v).inBlock {
        InsideNext(c, v);
      }
    }
  }

  lemma {:induction false} AtStart(lines: seq<string>)
    ensures At(lines, 0) == Start
  {
    assert lines[..0] == [];
  }

  lemma {:induction false} InsideNext(c: Ctl, v: View)
    requires c.inBlock && Next(c, v).inBlock
    ensures Next(c, v) == c
  {
  }

  lemma {:induction false} BlockStep(lines: seq<string>, n: nat, t: Target, t': Target, pkg: string)
    requires n < |lines| && pkg != "" && BlockMeans(lines, n, t, pkg)
    requires var c, v := At(lines, n), ViewOf(lines[n]);
             && At(lines, n + 1) == Next(c, v)
             && (Next(c, v).inBlock ==> Next(c, v).pending == "") && (!c.inBlock ==> c.cur == "")
             && t'.blockOpen == (if t.blockClose.None? && Opening(c, v, pkg) then Some(n) else t.blockOpen)
             && t'.blockClose == (if t.blockClose.None? && c.inBlock && c.cur == pkg && !Next(c, v).inBlock
                                  then Some(n) else t.blockClose)
    requires t.blockOpen.None? ==> !(At(lines, n).inBlock && At(lines, n).cur == pkg)
    ensures BlockMeans(lines, n + 1, t', pkg)
  {
    hide ViewOf, Next, At;
    var c, v := At(lines, n), ViewOf(lines[n]);
    if c.inBlock && Next(c, v).inBlock {
      InsideNext(c, v);
    }
  }
}
