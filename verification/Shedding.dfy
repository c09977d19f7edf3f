/** Taking lines of one package out of a sound file. */
module Shedding {
  import opened Seqs
  import opened RuleSyntax
  import opened Loader
  import opened RuleSets
  import opened ScanSim
  import opened ScanFacts
  import opened PruneMeans
  import opened Splice
  import opened NormalizeProof
  import opened NormalForm
  import opened Upsert
  import opened UpsertPkg
  import opened UpsertMain
  import opened Delete

  // ---- what the removed lines held

  predicate AllOf(rs: seq<RawRule>, pkg: string) {
    forall r | r in rs :: r.pkg == pkg
  }

  lemma {:induction false} InsideOwned(c: Ctl, v: View)
    requires c.inBlock
    ensures AllOf(Attempt(c, v), c.cur)
  {
  }

  /** Lines read inside one block: all their rules are the owner's. */
  lemma {:induction false} StretchOwned(lines: seq<string>, lo: nat, hi: nat, pkg: string)
    requires lo <= hi <= |lines| && forall i | lo <= i < hi :: AllOf(Attempt(At(lines, i), ViewOf(lines[i])), pkg)
    ensures AllOf(Attempts(At(lines, lo), lines[lo..hi]), pkg)
    ensures Walk(At(lines, lo), lines[lo..hi]) == At(lines, hi)
  {
    hide ViewOf, Attempt, Next;
    if lo < hi {
      StretchOwned(lines, lo, hi - 1, pkg);
      assert lines[lo..hi] == lines[lo..hi - 1] + [lines[hi - 1]];
      AttemptsConcat(At(lines, lo), lines[lo..hi - 1], [lines[hi - 1]]);
      WalkConcat(At(lines, lo), lines[lo..hi - 1], [lines[hi - 1]]);
      OneLine(At(lines, hi - 1), lines[hi - 1]);
      AtNext(lines, hi - 1);
    }
  }

  /** The first block of the package, whole. */
  lemma {:induction false} BlockOwned(lines: seq<string>, o: nat, cl: nat, pkg: string)
    requires Calm(lines) && pkg != "" && o < cl < |lines| && Opening(At(lines, o), ViewOf(lines[o]), pkg)
    requires Within(lines, o + 1, cl, pkg) && !Next(At(lines, cl), ViewOf(lines[cl])).inBlock
    ensures At(lines, cl + 1) == Start
    ensures AllOf(Attempts(At(lines, o), lines[o..cl + 1]), pkg)
    ensures Walk(At(lines, o), lines[o..cl + 1]) == Start
  {
    hide ViewOf, Attempt, Next, At;
    forall i | o <= i < cl + 1 ensures AllOf(Attempt(At(lines, i), ViewOf(lines[i])), pkg) {
      if i == o {
        OpenerOwned(At(lines, o), ViewOf(lines[o]), pkg);
      } else {
        InsideOwned(At(lines, i), ViewOf(lines[i]));
      }
    }
    StretchOwned(lines, o, cl + 1, pkg);
    AtNext(lines, cl);
    LeavesClean(In(pkg), ViewOf(lines[cl]));
  }

  lemma {:induction false} OpenerOwned(c: Ctl, v: View, pkg: string)
    requires Opening(c, v, pkg)
    ensures AllOf(Attempt(c, v), pkg)
  {
  }

  lemma {:induction false} LeavesClean(c: Ctl, v: View)
    requires c.inBlock && c.pending == "" && !Next(c, v).inBlock
    ensures Next(c, v) == Start
  {
  }

  // ---- one round on a sound, normalised file

  /** One file comes from another by removing only lines of `pkg`. */
  predicate Shed(after: seq<string>, was: seq<string>, pkg: string) {
    && Sound(after) && NoSingles(Start, after, pkg)
    && Select(Rules(after), OtherPkgs(pkg)) == Select(Rules(was), OtherPkgs(pkg))
    && (forall r | r in Rules(after) :: r in Rules(was))
  }

  /** Lines whose rules all belong to the package are replaced by lines without rules. */
  lemma {:induction false} ShedLines(a: seq<string>, x: seq<string>, y: seq<string>, b: seq<string>, pkg: string)
    requires Sound(a + x + b) && NoSingles(Start, a + x + b, pkg)
    requires Walk(Walk(Start, a), y) == Walk(Walk(Start, a), x) && SlipCount(Walk(Start, a), y) == 0
    requires AllOf(Attempts(Walk(Start, a), x), pkg) && Attempts(Walk(Start, a), y) == []
    requires NoSingles(Walk(Start, a), y, pkg)
    ensures Shed(a + y + b, a + x + b, pkg)
  {
    hide ViewOf, Attempts, Walk, SlipCount, Select, Gone;
    var before, after := Replace(a, x, y, b);
    ReplaceNoSingles(a, x, y, b, pkg);
    InsertedPart(before, Attempts(Walk(Start, a), x), after, OtherPkgs(pkg));
    NilMiddle(before, after);
  }

  /** The file without the stretch from `lo` to `hi`. */
  lemma {:induction false} ShedStretch(n: seq<string>, lo: nat, hi: nat, pkg: string)
    requires Sound(n) && NoSingles(Start, n, pkg) && lo <= hi <= |n|
    requires At(n, hi) == At(n, lo) && AllOf(Attempts(At(n, lo), n[lo..hi]), pkg)
    requires Walk(At(n, lo), n[lo..hi]) == At(n, hi)
    ensures Shed(n[..lo] + n[hi..], n, pkg)
  {
    hide ViewOf, Attempts, Walk, SlipCount, Gone, Shed, Sound;
    assert n == n[..lo] + n[lo..hi] + n[hi..];
    NoLine(At(n, lo));
    AtIs(n, lo);
    NoGone(At(n, lo), pkg);
    ShedLines(n[..lo], n[lo..hi], [], n[hi..], pkg);
    NilLeft(n[..lo]);
  }

  lemma {:induction false} NoGone(c: Ctl, pkg: string)
    ensures NoSingles(c, [], pkg)
  {
  }

  lemma {:induction false} ShedTrans(a: seq<string>, b: seq<string>, c: seq<string>, pkg: string)
    requires Shed(a, b, pkg) && Shed(b, c, pkg)
    ensures Shed(a, c, pkg)
  {
    hide Sound, Gone, Select, Attempts;
  }

  lemma {:induction false} ShedSelf(a: seq<string>, pkg: string)
    requires Sound(a) && NoSingles(Start, a, pkg)
    ensures Shed(a, a, pkg)
  {
    hide Sound, Gone, Select, Attempts;
  }

  /** A standalone line goes. */
  lemma {:induction false} ShedStandalone(n: seq<string>, i: nat, pkg: string)
    requires Sound(n) && NoSingles(Start, n, pkg) && i < |n| && At(n, i) == Start
    requires ViewOf(n[i]).Text? && ViewOf(n[i]).outer.Rule? && ViewOf(n[i]).outer.pkg == pkg && !ViewOf(n[i]).outer.open
    ensures Shed(n[..i] + n[i + 1..], n, pkg)
  {
    hide ViewOf, Attempts, Walk, Gone, Shed, Sound;
    RuleStays(ViewOf(n[i]));
    AtNext(n, i);
    OneLine(Start, n[i]);
    RuleAttempt(pkg, ViewOf(n[i]));
    assert n[i..i + 1] == [n[i]];
    ShedStretch(n, i, i + 1, pkg);
  }

  /** A block goes, header and closer included. */
  lemma {:induction false} ShedBlock(n: seq<string>, o: nat, cl: nat, pkg: string)
    requires Sound(n) && NoSingles(Start, n, pkg) && pkg != "" && o < cl < |n| && At(n, o) == Start
    requires Opening(At(n, o), ViewOf(n[o]), pkg)
    requires Within(n, o + 1, cl, pkg) && !Next(At(n, cl), ViewOf(n[cl])).inBlock
    ensures Shed(n[..o] + n[cl + 1..], n, pkg)
  {
    hide ViewOf, Attempts, Walk, Gone, Shed, Ends, Next, Opening, Within;
    BlockOwned(n, o, cl, pkg);
    ShedStretch(n, o, cl + 1, pkg);
  }

  /** The name line and its block go; the skipped lines between them stay. */
  lemma {:induction false} ShedPending(n: seq<string>, p: nat, o: nat, cl: nat, pkg: string)
    requires Sound(n) && NoSingles(Start, n, pkg) && pkg != "" && p < o < cl < |n| && PendingOpens(n, p, o, pkg)
    requires Opening(At(n, o), ViewOf(n[o]), pkg)
    requires Within(n, o + 1, cl, pkg) && !Next(At(n, cl), ViewOf(n[cl])).inBlock
    ensures Shed(n[..p] + n[p + 1..o] + n[cl + 1..], n, pkg)
  {
    hide ViewOf, Attempts, Walk, SlipCount, Gone, Shed, Ends, Next, Opening, Within, FirstNaming, At, Attempt;
    var mid := n[p + 1..o];
    forall i | 0 <= i < |mid| ensures ViewOf(mid[i]).Skip? {
      assert mid[i] == n[p + 1 + i];
    }
    BlockOwned(n, o, cl, pkg);
    NameHeld(n, p, o, pkg);
    assert n == n[..p] + n[p..cl + 1] + n[cl + 1..];
    StretchSplit(n, p, o, cl + 1, pkg);
    AtIs(n, p);
    SkipsRun(Start, mid);
    SkipsNoSingles(Start, mid, pkg);
    ShedLines(n[..p], n[p..cl + 1], mid, n[cl + 1..], pkg);
  }

  lemma {:induction false} NameHeld(n: seq<string>, p: nat, o: nat, pkg: string)
    requires p < o < |n| && Waits(n, p, o, pkg)
    ensures forall i | p <= i < o :: AllOf(Attempt(At(n, i), ViewOf(n[i])), pkg)
  {
    hide ViewOf, At;
  }

  lemma {:induction false} StretchSplit(n: seq<string>, p: nat, o: nat, hi: nat, pkg: string)
    requires p <= o <= hi <= |n| && forall i | p <= i < o :: AllOf(Attempt(At(n, i), ViewOf(n[i])), pkg)
    requires AllOf(Attempts(At(n, o), n[o..hi]), pkg) && Walk(At(n, o), n[o..hi]) == At(n, hi)
    ensures AllOf(Attempts(At(n, p), n[p..hi]), pkg) && Walk(At(n, p), n[p..hi]) == At(n, hi)
  {
    hide ViewOf, At, Attempts, Walk, Attempt;
    StretchOwned(n, p, o, pkg);
    assert n[p..hi] == n[p..o] + n[o..hi];
    AttemptsConcat(At(n, p), n[p..o], n[o..hi]);
    WalkConcat(At(n, p), n[p..o], n[o..hi]);
  }

  lemma {:induction false} SkipsNoSingles(c: Ctl, lines: seq<string>, pkg: string)
    requires forall i | 0 <= i < |lines| :: ViewOf(lines[i]).Skip?
    ensures NoSingles(c, lines, pkg)
    decreases |lines|
  {
    hide ViewOf;
    if lines != [] {
      assert forall i | 0 <= i < |lines| - 1 :: lines[1..][i] == lines[i + 1];
      SkipsNoSingles(c, lines[1..], pkg);
    }
  }
}
