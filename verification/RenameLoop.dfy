/**
 * The passes of the renaming: every recorded position names the old package, and where the lines
 * are exchanged for lines of the same kind, each pass lowers the number of lines that name it.
 */
module RenameLoop {
  import opened Seqs
  import opened Text
  import opened RuleSyntax
  import opened LineRename
  import opened LineReown
  import opened LineSteady
  import opened Scan
  import opened ScanRange
  import opened Prune
  import opened Rename

  // ---- where blocks begin and end does not depend on names

  datatype Outline = Outline(inBlock: bool, pending: bool)

  function NextOutline(o: Outline, v: View): Outline {
    if v.Skip? then o
    else if o.inBlock then
      if v.inner.Close? || (v.inner.Entry? && v.inner.closed) || (v.inner.Noise? && v.inner.closes)
      then o.(inBlock := false) else o
    else
      match v.outer
      case Single(_, _, _, open) => Outline(open, false)
      case Rule(_, _, open) => Outline(open, false)
      case BareOpen(pkg) => if pkg != "" || o.pending then Outline(true, false) else o
      case Pending(_) => Outline(false, true)
      case Junk => Outline(false, false)
  }

  function OutlineTo(lines: seq<string>, n: nat): Outline
    requires n <= |lines|
  {
    if n == 0 then Outline(false, false) else NextOutline(OutlineTo(lines, n - 1), ViewOf(lines[n - 1]))
  }

  predicate Names(lines: seq<string>, i: nat, pkg: string) {
    && i < |lines| && !OutlineTo(lines, i).inBlock
    && ViewOf(lines[i]).Text? && Owner(ViewOf(lines[i]).outer) == Some(pkg)
  }

  /** How many of the first `n` lines name `pkg`. */
  function NamingLines(lines: seq<string>, n: nat, pkg: string): nat
    requires n <= |lines|
  {
    if n == 0 then 0 else NamingLines(lines, n - 1, pkg) + (if Names(lines, n - 1, pkg) then 1 else 0)
  }

  // ---- every recorded position names the package

  predicate Recorded(lines: seq<string>, n: nat, s: State, pkg: string)
    requires n <= |lines|
  {
    && s.inBlock == OutlineTo(lines, n).inBlock && s.pending.Some? == OutlineTo(lines, n).pending
    && (s.pending.Some? ==> s.pending.value < |lines| && !OutlineTo(lines, s.pending.value).inBlock
                            && ViewOf(lines[s.pending.value]).Text?)
    && (s.t.pkgLine.Some? ==> Names(lines, s.t.pkgLine.value.idx, pkg) && !ViewOf(lines[s.t.pkgLine.value.idx]).outer.Single?)
    && (forall l | l in Singles(s.t.threads) :: Names(lines, l.idx, pkg) && ViewOf(lines[l.idx]).outer.Single?)
  }

  lemma {:induction false} MoreSingles(locs: seq<Loc>, l: Loc)
    ensures Singles(locs + [l]) == Singles(locs) + (if l.single then [l] else [])
  {
    hide Pick;
    PickConcat(locs, [l], SinglesOnly);
    PickOne(l, SinglesOnly);
  }

  lemma {:induction false} RecordedInside(lines: seq<string>, n: nat, s: State, pkg: string)
    requires n < |lines| && Recorded(lines, n, s, pkg) && s.inBlock && ViewOf(lines[n]).Text?
    ensures Recorded(lines, n + 1, StepInside(s, ViewOf(lines[n]).inner, n), pkg)
  {
    hide ViewOf, Pick;
    var v := ViewOf(lines[n]);
    if v.inner.Entry? {
      MoreSingles(s.t.threads, Loc(v.inner.name, n, false, v.inner.closed, false));
    }
  }

  lemma {:induction false} RecordedOutside(lines: seq<string>, n: nat, s: State, pkg: string)
    requires n < |lines| && Recorded(lines, n, s, pkg) && !s.inBlock && ViewOf(lines[n]).Text?
    ensures Recorded(lines, n + 1, StepOutside(s, ViewOf(lines[n]).outer, WaitingName(lines, s.pending), n, pkg), pkg)
  {
    hide ViewOf, Pick;
    var v := ViewOf(lines[n]);
    if v.outer.Single? {
      MoreSingles(s.t.threads, Loc(v.outer.thread, n, true, false, v.outer.open));
    }
  }

  lemma {:induction false} ScanRecords(lines: seq<string>, n: nat, pkg: string)
    requires n <= |lines|
    ensures Recorded(lines, n, ScanTo(lines, n, pkg), pkg)
  {
    hide ViewOf, StepInside, StepOutside, Recorded, WaitingName;
    if n == 0 {
      NothingRecorded(lines, pkg);
    } else {
      ScanRecords(lines, n - 1, pkg);
      var s := ScanTo(lines, n - 1, pkg);
      if ViewOf(lines[n - 1]).Skip? {
        RecordedSkip(lines, n - 1, s, pkg);
      } else if s.inBlock {
        RecordedInside(lines, n - 1, s, pkg);
      } else {
        RecordedOutside(lines, n - 1, s, pkg);
      }
    }
  }

  lemma {:induction false} NothingRecorded(lines: seq<string>, pkg: string)
    ensures Recorded(lines, 0, Fresh, pkg)
  {
    hide ViewOf;
  }

  lemma {:induction false} RecordedSkip(lines: seq<string>, n: nat, s: State, pkg: string)
    requires n < |lines| && Recorded(lines, n, s, pkg) && ViewOf(lines[n]).Skip?
    ensures Recorded(lines, n + 1, s, pkg)
  {
    hide ViewOf, Pick;
  }

  /** The positions of one pass: each names the package, none comes twice. */
  predicate FreshIdxs(lines: seq<string>, idxs: seq<nat>, pkg: string) {
    && (forall k | 0 <= k < |idxs| :: Names(lines, idxs[k], pkg))
    && (forall j, k | 0 <= j < k < |idxs| :: idxs[j] != idxs[k])
  }

  lemma {:induction false} LocIdxsAre(locs: seq<Loc>)
    ensures |LocIdxs(locs)| == |locs| && forall k | 0 <= k < |locs| :: LocIdxs(locs)[k] == locs[k].idx
    decreases |locs|
  {
    if locs != [] {
      LocIdxsAre(locs[1..]);
      assert forall k | 0 < k < |locs| :: locs[k] == locs[1..][k - 1] && LocIdxs(locs)[k] == LocIdxs(locs[1..])[k - 1];
    }
  }

  lemma {:induction false} PassIdxs(lines: seq<string>, pkg: string)
    ensures FreshIdxs(lines, RenameIdxs(ScanOf(lines, pkg)), pkg)
    ensures RenameIdxs(ScanOf(lines, pkg)) == [] <==> !AnyLine(ScanOf(lines, pkg))
  {
    hide ScanTo, Pick, ViewOf, OutlineTo, LocIdxs;
    var t := ScanOf(lines, pkg);
    ScanRecords(lines, |lines|, pkg);
    ScanInRange(lines, |lines|, pkg);
    PickBelow(t.threads, SinglesOnly, |lines|);
    var singles := Singles(t.threads);
    LocIdxsAre(singles);
    assert forall k | 0 <= k < |singles| :: singles[k] in Singles(t.threads);
  }

  // ---- renaming one named line

  /** The lines that name `from` can take the new name. */
  predicate Renamable(lines: seq<string>, from: string, to: string) {
    forall i | 0 <= i < |lines| && Names(lines, i, from) && !ViewOf(lines[i]).outer.Single? ::
      RenameLineOk(lines[i], from, to)
  }

  /** The line is no single-line rule and is exchanged for one of the same kind. */
  predicate Exchangeable(raw: string, from: string, to: string) {
    var w := ViewOf(RenameText(raw, from, to));
    ViewOf(raw).Text? && !ViewOf(raw).outer.Single? && w.Text? && Exchanged(ViewOf(raw).outer, w.outer, from)
  }

  predicate Steady(lines: seq<string>, from: string, to: string) {
    forall i | 0 <= i < |lines| && Names(lines, i, from) :: Exchangeable(lines[i], from, to)
  }

  lemma {:induction false} AlikeNext(o: Outline, v: View, w: View)
    requires !o.inBlock && v.Text? && w.Text? && Owner(v.outer).Some? && Owner(v.outer) != Some("")
    requires Alike(v.outer, w.outer)
    ensures NextOutline(o, w) == NextOutline(o, v)
  {
  }

  /** Renaming a line leaves every block where it is. */
  lemma {:induction false} OutlineKept(lines: seq<string>, lines': seq<string>, i: nat, w: string, n: nat)
    requires i < |lines| && lines' == lines[i := w] && n <= |lines|
    requires NextOutline(OutlineTo(lines, i), ViewOf(w)) == NextOutline(OutlineTo(lines, i), ViewOf(lines[i]))
    ensures OutlineTo(lines', n) == OutlineTo(lines, n)
  {
    hide ViewOf, NextOutline;
    if n > 0 {
      OutlineKept(lines, lines', i, w, n - 1);
    }
  }

  /** One line fewer names the old package; all other lines name what they named. */
  lemma {:induction false} RenameNames(lines: seq<string>, i: nat, from: string, to: string)
    requires Names(lines, i, from) && from != "" && Steady(lines, from, to)
    ensures var lines' := lines[i := RenameText(lines[i], from, to)];
            && !Names(lines', i, from)
            && (forall k | 0 <= k < |lines| && k != i :: Names(lines', k, from) == Names(lines, k, from))
            && Steady(lines', from, to)
  {
    hide ViewOf, RenameText, NextOutline, OutlineTo, Alike, NamedBy;
    var w := RenameText(lines[i], from, to);
    var lines' := lines[i := w];
    assert Exchangeable(lines[i], from, to);
    AlikeNext(OutlineTo(lines, i), ViewOf(lines[i]), ViewOf(w));
    forall k | 0 <= k < |lines| ensures OutlineTo(lines', k) == OutlineTo(lines, k) {
      OutlineKept(lines, lines', i, w, k);
    }
  }

  lemma {:induction false} CountDrops(lines: seq<string>, lines': seq<string>, i: nat, n: nat, pkg: string)
    requires |lines'| == |lines| && n <= |lines| && Names(lines, i, pkg) && !Names(lines', i, pkg)
    requires forall k | 0 <= k < |lines| && k != i :: Names(lines', k, pkg) == Names(lines, k, pkg)
    ensures NamingLines(lines', n, pkg) + (if i < n then 1 else 0) == NamingLines(lines, n, pkg)
  {
    hide Names;
    if n > 0 {
      CountDrops(lines, lines', i, n - 1, pkg);
    }
  }

  // ---- a pass, and all passes

  lemma {:induction false} PassDrops(lines: seq<string>, idxs: seq<nat>, from: string, to: string)
    requires FreshIdxs(lines, idxs, from) && from != "" && Steady(lines, from, to)
    ensures var lines' := RenameAt(lines, idxs, from, to);
            && |lines'| == |lines| && Steady(lines', from, to)
            && NamingLines(lines', |lines'|, from) + |idxs| == NamingLines(lines, |lines|, from)
    decreases |idxs|
  {
    hide Names, Steady, RenameText, NamingLines;
    if idxs != [] {
      assert Names(lines, idxs[0], from);
      NamesInside(lines, idxs[0], from);
      var next := lines[idxs[0] := RenameText(lines[idxs[0]], from, to)];
      RenameNames(lines, idxs[0], from, to);
      CountDrops(lines, next, idxs[0], |lines|, from);
      RestFresh(lines, next, idxs, from);
      PassDrops(next, idxs[1..], from, to);
    }
  }

  lemma {:induction false} NamesInside(lines: seq<string>, i: nat, pkg: string)
    requires Names(lines, i, pkg)
    ensures i < |lines|
  {
  }

  lemma {:induction false} RestFresh(lines: seq<string>, next: seq<string>, idxs: seq<nat>, pkg: string)
    requires idxs != [] && FreshIdxs(lines, idxs, pkg) && |next| == |lines|
    requires forall k | 0 <= k < |lines| && k != idxs[0] :: Names(next, k, pkg) == Names(lines, k, pkg)
    ensures FreshIdxs(next, idxs[1..], pkg)
  {
    hide ViewOf, OutlineTo;
    assert forall k | 0 <= k < |idxs| - 1 :: idxs[1..][k] == idxs[k + 1];
    forall k | 0 <= k < |idxs| - 1 ensures Names(next, idxs[1..][k], pkg) {
      assert Names(lines, idxs[k + 1], pkg);
    }
  }

  /** On a steady file every pass that has something to rename lowers the count. */
  lemma {:induction false} PassShrinks(lines: seq<string>, from: string, to: string)
    requires from != "" && Steady(lines, from, to)
    ensures var next := Pass(lines, from, to);
            && Steady(next, from, to) && |next| == |lines|
            && (AnyLine(ScanOf(lines, from)) ==> NamingLines(next, |next|, from) < NamingLines(lines, |lines|, from))
  {
    hide ScanTo, Names, Steady, NamingLines, RenameIdxs, FreshIdxs;
    PassIdxs(lines, from);
    PassDrops(lines, RenameIdxs(ScanOf(lines, from)), from, to);
  }

  // ---- single positions of a pass

  /** A position that a pass does not treat stays, one that it does is renamed. */
  lemma {:induction false} RenamedAt(lines: seq<string>, idxs: seq<nat>, from: string, to: string, i: nat)
    requires i < |lines| && forall j, k | 0 <= j < k < |idxs| :: idxs[j] != idxs[k]
    ensures |RenameAt(lines, idxs, from, to)| == |lines|
    ensures RenameAt(lines, idxs, from, to)[i] == if i in idxs then RenameText(lines[i], from, to) else lines[i]
    decreases |idxs|
  {
    hide RenameText;
    if idxs != [] {
      var next := if idxs[0] < |lines| then lines[idxs[0] := RenameText(lines[idxs[0]], from, to)] else lines;
      assert forall k | 0 <= k < |idxs| - 1 :: idxs[1..][k] == idxs[k + 1];
      RenamedAt(next, idxs[1..], from, to, i);
      Uncons(idxs);
    }
  }

  /** What a pass does to one line: it stays, or it names the package and is renamed. */
  lemma {:induction false} PassAt(lines: seq<string>, from: string, to: string, i: nat)
    requires i < |lines|
    ensures |Pass(lines, from, to)| == |lines|
    ensures Pass(lines, from, to)[i] == lines[i]
            || (Names(lines, i, from) && Pass(lines, from, to)[i] == RenameText(lines[i], from, to))
    ensures var t := ScanOf(lines, from);
            t.pkgLine.Some? && t.pkgLine.value.idx == i ==> Pass(lines, from, to)[i] == RenameText(lines[i], from, to)
  {
    hide ScanTo, Names, RenameText, RenameAt;
    var idxs := RenameIdxs(ScanOf(lines, from));
    PassIdxs(lines, from);
    RenamedAt(lines, idxs, from, to, i);
    LastIn(ScanOf(lines, from));
  }

  lemma {:induction false} LastIn(t: Target)
    ensures t.pkgLine.Some? ==> t.pkgLine.value.idx in RenameIdxs(t)
  {
    hide LocIdxs;
    var a := LocIdxs(Singles(t.threads));
    if t.pkgLine.Some? {
      assert RenameIdxs(t)[|a|] == t.pkgLine.value.idx;
    }
  }
}
