/**
 * How many name lines deleting a package leaves behind, read off the file in one pass: each
 * standalone rule of the package pays for one of the blocks behind it, and a block that is paid
 * for leaves its name line if it is opened by a brace of its own.
 */
module DeleteTally {
  import opened Seqs
  import opened RuleSyntax
  import opened SpecTheorems
  import opened Loader
  import opened Scan
  import opened ScanSim
  import opened ScanFacts
  import opened PruneMeans
  import opened NormalForm
  import opened Upsert
  import opened UpsertPkg

  datatype Tally = Tally(credit: nat, left: nat)

  /** A rule of the package on a line of its own. */
  predicate Lone(c: Ctl, v: View, pkg: string) {
    v.Text? && !c.inBlock && v.outer.Rule? && !v.outer.open && v.outer.pkg == pkg
  }

  function TallyLine(t: Tally, c: Ctl, line: string, pkg: string): Tally {
    if Opening(c, ViewOf(line), pkg) then
      if t.credit == 0 then t else Tally(t.credit - 1, t.left + (if IsBareBrace(line) then 1 else 0))
    else if Lone(c, ViewOf(line), pkg) then Tally(t.credit + 1, t.left)
    else t
  }

  function TallyFrom(t: Tally, c: Ctl, lines: seq<string>, pkg: string): Tally
    decreases |lines|
  {
    if lines == [] then t
    else TallyFrom(TallyLine(t, c, lines[0], pkg), Next(c, ViewOf(lines[0])), lines[1..], pkg)
  }

  /** The name lines that deleting `pkg` leaves behind. */
  function NamesStranded(lines: seq<string>, pkg: string): nat {
    TallyFrom(Tally(0, 0), Start, lines, pkg).left
  }

  // ---- stretches of lines

  lemma {:induction false} TallyConcat(t: Tally, c: Ctl, a: seq<string>, b: seq<string>, pkg: string)
    ensures TallyFrom(t, c, a + b, pkg) == TallyFrom(TallyFrom(t, c, a, pkg), Walk(c, a), b, pkg)
    decreases |a|
  {
    hide ViewOf, Next, TallyLine;
    if a == [] {
      NilLeft(b);
    } else {
      ConsDrop(a, b);
      TallyConcat(TallyLine(t, c, a[0], pkg), Next(c, ViewOf(a[0])), a[1..], b, pkg);
    }
  }

  lemma {:induction false} TallyOne(t: Tally, c: Ctl, line: string, pkg: string)
    ensures TallyFrom(t, c, [line], pkg) == TallyLine(t, c, line, pkg)
  {
    hide ViewOf, Next, TallyLine;
    assert [line][1..] == [];
  }

  /** Neither opens a block of the package nor is a rule of it on its own. */
  predicate Quiet(lines: seq<string>, i: nat, pkg: string)
    requires i < |lines|
  {
    !Opening(At(lines, i), ViewOf(lines[i]), pkg) && !Lone(At(lines, i), ViewOf(lines[i]), pkg)
  }

  lemma {:induction false} StretchSnoc(t: Tally, lines: seq<string>, lo: nat, hi: nat, pkg: string)
    requires lo < hi <= |lines|
    ensures TallyFrom(t, At(lines, lo), lines[lo..hi], pkg)
         == TallyLine(TallyFrom(t, At(lines, lo), lines[lo..hi - 1], pkg), At(lines, hi - 1), lines[hi - 1], pkg)
  {
    hide ViewOf, Walk, TallyLine;
    var a := lines[lo..hi - 1];
    assert lines[lo..hi] == a + [lines[hi - 1]];
    TallyConcat(t, At(lines, lo), a, [lines[hi - 1]], pkg);
    assert lines[..hi - 1] == lines[..lo] + a;
    WalkConcat(Start, lines[..lo], a);
    TallyOne(TallyFrom(t, At(lines, lo), a, pkg), At(lines, hi - 1), lines[hi - 1], pkg);
  }

  lemma {:induction false} StretchQuiet(t: Tally, lines: seq<string>, lo: nat, hi: nat, pkg: string)
    requires lo <= hi <= |lines| && forall i | lo <= i < hi :: Quiet(lines, i, pkg)
    ensures TallyFrom(t, At(lines, lo), lines[lo..hi], pkg) == t
    decreases hi
  {
    hide ViewOf, Walk, Opening, Lone;
    if lo < hi {
      StretchQuiet(t, lines, lo, hi - 1, pkg);
      StretchSnoc(t, lines, lo, hi, pkg);
      assert Quiet(lines, hi - 1, pkg);
    }
  }

  /** Without an opening the credit only grows, and no name is left. */
  lemma {:induction false} StretchShift(t: Tally, lines: seq<string>, lo: nat, hi: nat, pkg: string)
    requires lo <= hi <= |lines| && forall i | lo <= i < hi :: !Opening(At(lines, i), ViewOf(lines[i]), pkg)
    ensures var a := TallyFrom(t, At(lines, lo), lines[lo..hi], pkg);
            TallyFrom(Tally(t.credit + 1, t.left), At(lines, lo), lines[lo..hi], pkg) == Tally(a.credit + 1, a.left)
            && a.left == t.left
    decreases hi
  {
    hide ViewOf, Walk, Opening, Lone;
    if lo < hi {
      StretchShift(t, lines, lo, hi - 1, pkg);
      StretchSnoc(t, lines, lo, hi, pkg);
      StretchSnoc(Tally(t.credit + 1, t.left), lines, lo, hi, pkg);
    }
  }

  /** What was left before is left in the end. */
  lemma {:induction false} TallyAdds(t: Tally, e: nat, c: Ctl, lines: seq<string>, pkg: string)
    ensures TallyFrom(Tally(t.credit, t.left + e), c, lines, pkg).left == TallyFrom(t, c, lines, pkg).left + e
    decreases |lines|
  {
    hide ViewOf, Next, TallyLine;
    if lines != [] {
      LineAdds(t, e, c, lines[0], pkg);
      TallyAdds(TallyLine(t, c, lines[0], pkg), e, Next(c, ViewOf(lines[0])), lines[1..], pkg);
    }
  }

  lemma {:induction false} LineAdds(t: Tally, e: nat, c: Ctl, line: string, pkg: string)
    ensures var a := TallyLine(t, c, line, pkg);
            TallyLine(Tally(t.credit, t.left + e), c, line, pkg) == Tally(a.credit, a.left + e)
  {
    hide ViewOf, Opening, Lone, IsBareBrace;
  }

  lemma {:induction false} InsideQuiet(c: Ctl, v: View, pkg: string)
    requires c.inBlock || v.Skip?
    ensures !Opening(c, v, pkg) && !Lone(c, v, pkg)
  {
  }

  lemma {:induction false} SkipsQuiet(t: Tally, c: Ctl, lines: seq<string>, pkg: string)
    requires forall i | 0 <= i < |lines| :: ViewOf(lines[i]).Skip?
    ensures TallyFrom(t, c, lines, pkg) == t && Walk(c, lines) == c
    decreases |lines|
  {
    hide ViewOf, Opening, Lone;
    if lines != [] {
      InsideQuiet(c, ViewOf(lines[0]), pkg);
      assert forall i | 0 <= i < |lines| - 1 :: lines[1..][i] == lines[i + 1];
      SkipNext(c, ViewOf(lines[0]));
      SkipsQuiet(t, c, lines[1..], pkg);
    }
  }

  lemma {:induction false} SkipNext(c: Ctl, v: View)
    requires v.Skip?
    ensures Next(c, v) == c
  {
  }

  /** Before the first naming line nothing counts. */
  lemma {:induction false} NotNamingQuiet(n: seq<string>, i: nat, pkg: string)
    requires pkg != "" && NoSingles(Start, n, pkg) && i < |n| && !Naming(At(n, i), ViewOf(n[i]), pkg)
    ensures Quiet(n, i, pkg)
  {
    hide ViewOf, Walk, Gone;
    if Opening(At(n, i), ViewOf(n[i]), pkg) {
      OpeningNames(n, i, pkg);
    }
  }

  lemma {:induction false} BeforeQuiet(n: seq<string>, i: nat, pkg: string)
    requires pkg != "" && NoSingles(Start, n, pkg) && i <= |n| && NoNaming(n, i, pkg)
    ensures TallyFrom(Tally(0, 0), Start, n[..i], pkg) == Tally(0, 0)
  {
    hide ViewOf, Walk, Gone, Naming, Quiet;
    forall k | 0 <= k < i ensures Quiet(n, k, pkg) {
      NotNamingQuiet(n, k, pkg);
    }
    StretchQuiet(Tally(0, 0), n, 0, i, pkg);
    TakeAll(n);
    AtStart(n);
    assert n[0..i] == n[..i];
  }

  lemma {:induction false} AtStart(n: seq<string>)
    ensures At(n, 0) == Start
  {
    assert n[..0] == [];
  }

  /** A block: only its opening line counts, and the loader is outside again. */
  lemma {:induction false} BlockTally(t: Tally, n: seq<string>, o: nat, cl: nat, pkg: string)
    requires o < cl < |n| && Within(n, o + 1, cl, pkg) && Opening(At(n, o), ViewOf(n[o]), pkg)
    ensures TallyFrom(t, At(n, o), n[o..cl + 1], pkg)
         == if t.credit == 0 then t else Tally(t.credit - 1, t.left + (if IsBareBrace(n[o]) then 1 else 0))
  {
    hide ViewOf, Walk, Opening, Lone, IsBareBrace;
    forall i | o + 1 <= i < cl + 1 ensures Quiet(n, i, pkg) {
      InsideQuiet(At(n, i), ViewOf(n[i]), pkg);
    }
    assert n[o..cl + 1] == [n[o]] + n[o + 1..cl + 1];
    TallyConcat(t, At(n, o), [n[o]], n[o + 1..cl + 1], pkg);
    TallyOne(t, At(n, o), n[o], pkg);
    AtNext(n, o);
    OneLine(At(n, o), n[o]);
    StretchQuiet(TallyLine(t, At(n, o), n[o], pkg), n, o + 1, cl + 1, pkg);
  }

  // ---- the rounds

  lemma {:induction false} NoneLeft(n: seq<string>, pkg: string)
    requires pkg != "" && NoSingles(Start, n, pkg) && NoNaming(n, |n|, pkg)
    ensures NamesStranded(n, pkg) == 0
  {
    hide ViewOf, Gone, Naming, NoNaming;
    BeforeQuiet(n, |n|, pkg);
    TakeAll(n);
  }

  /** The first naming line opens its block: nothing is paid for, and nothing is left. */
  lemma {:induction false} TallyOpen(n: seq<string>, i: nat, cl: nat, pkg: string)
    requires i < cl < |n| && Within(n, i + 1, cl, pkg) && Opening(At(n, i), ViewOf(n[i]), pkg)
    requires pkg != "" && NoSingles(Start, n, pkg) && NoNaming(n, i, pkg) && At(n, i) == Start && At(n, cl + 1) == Start
    ensures NamesStranded(n[..i] + n[cl + 1..], pkg) == NamesStranded(n, pkg)
  {
    hide ViewOf, Gone, Naming, NoNaming, Opening, Within, TallyFrom, Walk;
    BeforeQuiet(n, i, pkg);
    BlockTally(Tally(0, 0), n, i, cl, pkg);
    assert n == n[..i] + (n[i..cl + 1] + n[cl + 1..]);
    TallyThree(Tally(0, 0), n, i, cl + 1, pkg);
    TallyConcat(Tally(0, 0), Start, n[..i], n[cl + 1..], pkg);
    AtIs(n, i);
  }

  /** Prefix, stretch and rest. */
  lemma {:induction false} TallyThree(t: Tally, n: seq<string>, lo: nat, hi: nat, pkg: string)
    requires lo <= hi <= |n|
    ensures var a := TallyFrom(t, Start, n[..lo], pkg); var b := TallyFrom(a, At(n, lo), n[lo..hi], pkg);
            TallyFrom(t, Start, n, pkg) == TallyFrom(b, At(n, hi), n[hi..], pkg)
  {
    hide ViewOf, TallyFrom, Walk;
    SplitAt(n, hi);
    assert n[..hi] == n[..lo] + n[lo..hi];
    TallyConcat(t, Start, n[..hi], n[hi..], pkg);
    TallyConcat(t, Start, n[..lo], n[lo..hi], pkg);
    AtIs(n, lo);
    AtIs(n, hi);
  }

  /** A name line with its block: the same. */
  lemma {:induction false} TallyPending(n: seq<string>, p: nat, o: nat, cl: nat, pkg: string)
    requires p < o < cl < |n| && Within(n, o + 1, cl, pkg) && Opening(At(n, o), ViewOf(n[o]), pkg)
    requires pkg != "" && NoSingles(Start, n, pkg) && PendingOpens(n, p, o, pkg) && At(n, cl + 1) == Start
    ensures NamesStranded(n[..p] + n[p + 1..o] + n[cl + 1..], pkg) == NamesStranded(n, pkg)
  {
    hide ViewOf, Gone, Naming, Opening, Within, TallyFrom, Walk;
    BeforeQuiet(n, o, pkg);
    NamingPrefix(n, p, o, pkg);
    BeforeQuiet(n, p, pkg);
    BlockTally(Tally(0, 0), n, o, cl, pkg);
    TallyThree(Tally(0, 0), n, o, cl + 1, pkg);
    var mid := SkipsThere(n, p, o, pkg);
    SkipsQuiet(Tally(0, 0), Start, mid, pkg);
    TallyConcat(Tally(0, 0), Start, n[..p] + mid, n[cl + 1..], pkg);
    TallyConcat(Tally(0, 0), Start, n[..p], mid, pkg);
    WalkConcat(Start, n[..p], mid);
    AtIs(n, p);
  }

  lemma {:induction false} NamingPrefix(n: seq<string>, p: nat, o: nat, pkg: string)
    requires p <= o <= |n| && NoNaming(n, o, pkg)
    ensures NoNaming(n, p, pkg)
  {
    hide ViewOf, Walk, Naming;
  }

  lemma {:induction false} SkipsThere(n: seq<string>, p: nat, o: nat, pkg: string) returns (mid: seq<string>)
    requires Waits(n, p, o, pkg)
    ensures mid == n[p + 1..o] && forall i | 0 <= i < |mid| :: ViewOf(mid[i]).Skip?
    ensures At(n, p) == Start && ViewOf(n[p]).Text? && ViewOf(n[p]).outer == Pending(pkg)
  {
    hide ViewOf, Walk;
    mid := n[p + 1..o];
    forall i | 0 <= i < |mid| ensures ViewOf(mid[i]).Skip? {
      assert mid[i] == n[p + 1 + i];
    }
  }

  /** A rule on its own and no block: nothing is left either way. */
  lemma {:induction false} TallyLone(n: seq<string>, i: nat, pkg: string)
    requires i < |n| && NoOpening(n, |n|, pkg) && At(n, i) == Start && At(n, i + 1) == Start
    ensures NamesStranded(n[..i] + n[i + 1..], pkg) == NamesStranded(n, pkg)
  {
    hide ViewOf, Opening, TallyFrom, Walk, Lone;
    NothingLeft(Tally(0, 0), n, 0, |n|, pkg);
    NothingLeft(Tally(0, 0), n, 0, i, pkg);
    var a := TallyFrom(Tally(0, 0), Start, n[..i], pkg);
    AtStart(n);
    assert n[0..|n|] == n && n[0..i] == n[..i];
    NothingLeft(a, n, i + 1, |n|, pkg);
    assert n[i + 1..|n|] == n[i + 1..];
    TallyConcat(Tally(0, 0), Start, n[..i], n[i + 1..], pkg);
    AtIs(n, i);
  }

  lemma {:induction false} NothingLeft(t: Tally, n: seq<string>, lo: nat, hi: nat, pkg: string)
    requires lo <= hi <= |n| && NoOpening(n, |n|, pkg)
    ensures TallyFrom(t, At(n, lo), n[lo..hi], pkg).left == t.left
  {
    hide ViewOf, Opening, TallyFrom, Walk, Lone;
    StretchShift(t, n, lo, hi, pkg);
  }

  /** A rule on its own at `i`, and the first block from `o` to `cl`, as the rounds meet them. */
  predicate PaidBlock(n: seq<string>, i: nat, o: nat, cl: nat, pkg: string) {
    && pkg != "" && NoSingles(Start, n, pkg) && i < o < cl < |n|
    && NoNaming(n, i, pkg) && Lone(At(n, i), ViewOf(n[i]), pkg) && At(n, i) == Start
    && NoOpening(n, o, pkg) && Opening(At(n, o), ViewOf(n[o]), pkg) && Within(n, o + 1, cl, pkg)
    && At(n, cl + 1) == Start
  }

  /** What the tally is behind a paid block. */
  lemma {:induction false} TallyPaid(n: seq<string>, i: nat, o: nat, cl: nat, pkg: string) returns (k: nat)
    requires PaidBlock(n, i, o, cl, pkg)
    ensures At(n, i + 1) == Start
    ensures TallyFrom(Tally(0, 0), Start, n[i + 1..o], pkg) == Tally(k, 0)
    ensures NamesStranded(n, pkg)
         == TallyFrom(Tally(k, 0), Start, n[cl + 1..], pkg).left + (if IsBareBrace(n[o]) then 1 else 0)
  {
    hide ViewOf, Gone, Naming, Opening, Within, TallyFrom, Walk, IsBareBrace, NoNaming, Next;
    BeforeQuiet(n, i, pkg);
    LoneNext(At(n, i), ViewOf(n[i]), pkg);
    AtNext(n, i);
    TallyThree(Tally(0, 0), n, i, i + 1, pkg);
    assert n[i..i + 1] == [n[i]];
    TallyOne(Tally(0, 0), Start, n[i], pkg);
    StretchShift(Tally(0, 0), n, i + 1, o, pkg);
    k := TallyFrom(Tally(0, 0), Start, n[i + 1..o], pkg).credit;
    BlockTally(Tally(k + 1, 0), n, o, cl, pkg);
    SplitRange(n, i + 1, o);
    TallyConcat(Tally(1, 0), Start, n[i + 1..o], n[o..], pkg);
    WalkBetween(n, i + 1, o);
    SplitRange(n, o, cl + 1);
    TallyConcat(Tally(k + 1, 0), At(n, o), n[o..cl + 1], n[cl + 1..], pkg);
    WalkBetween(n, o, cl + 1);
    TallyAdds(Tally(k, 0), if IsBareBrace(n[o]) then 1 else 0, Start, n[cl + 1..], pkg);
  }

  lemma {:induction false} SplitRange(n: seq<string>, lo: nat, hi: nat)
    requires lo <= hi <= |n|
    ensures n[lo..] == n[lo..hi] + n[hi..]
  {
  }

  lemma {:induction false} WalkBetween(n: seq<string>, lo: nat, hi: nat)
    requires lo <= hi <= |n|
    ensures Walk(At(n, lo), n[lo..hi]) == At(n, hi)
  {
    hide Walk;
    assert n[..hi] == n[..lo] + n[lo..hi];
    WalkConcat(Start, n[..lo], n[lo..hi]);
  }

  lemma {:induction false} LoneNext(c: Ctl, v: View, pkg: string)
    requires c == Start && Lone(c, v, pkg)
    ensures Next(c, v) == Start && !Opening(c, v, pkg)
  {
  }

  /** Rule and block gone, and what lies between them kept or read alike. */
  lemma {:induction false} TallyAfter(n: seq<string>, i: nat, mid: seq<string>, hi: nat, k: nat, pkg: string)
    requires pkg != "" && NoSingles(Start, n, pkg) && i < hi <= |n| && NoNaming(n, i, pkg) && At(n, i) == Start
    requires TallyFrom(Tally(0, 0), Start, mid, pkg) == Tally(k, 0) && Walk(Start, mid) == Start
    ensures NamesStranded(n[..i] + mid + n[hi..], pkg) == TallyFrom(Tally(k, 0), Start, n[hi..], pkg).left
  {
    hide ViewOf, Gone, Naming, TallyFrom, Walk, NoNaming;
    BeforeQuiet(n, i, pkg);
    TallyConcat(Tally(0, 0), Start, n[..i] + mid, n[hi..], pkg);
    TallyConcat(Tally(0, 0), Start, n[..i], mid, pkg);
    WalkConcat(Start, n[..i], mid);
    AtIs(n, i);
  }

  /** The block has a header of its own: it goes whole. */
  lemma {:induction false} TallyHeaded(n: seq<string>, i: nat, o: nat, cl: nat, pkg: string)
    requires PaidBlock(n, i, o, cl, pkg) && At(n, o) == Start && !IsBareBrace(n[o])
    ensures NamesStranded(n[..i] + n[i + 1..o] + n[cl + 1..], pkg) == NamesStranded(n, pkg)
  {
    hide ViewOf, Gone, Naming, Opening, Within, TallyFrom, Walk, IsBareBrace, NoNaming, NoOpening, Lone;
    var k := TallyPaid(n, i, o, cl, pkg);
    WalkBetween(n, i + 1, o);
    TallyAfter(n, i, n[i + 1..o], cl + 1, k, pkg);
  }

  /** The block is opened by a brace of its own: its name line is left, one in all. */
  lemma {:induction false} TallyStrand(n: seq<string>, i: nat, p: nat, o: nat, cl: nat, pkg: string)
    requires PaidBlock(n, i, o, cl, pkg) && i < p < o && Waits(n, p, o, pkg) && IsBareBrace(n[o])
    ensures NamesStranded(n[..i] + (n[i + 1..p] + ([""] + n[p + 1..o])) + n[cl + 1..], pkg) + 1 == NamesStranded(n, pkg)
  {
    hide ViewOf, Gone, Naming, Opening, Within, TallyFrom, Walk, IsBareBrace, NoNaming, NoOpening, Lone;
    var k := TallyPaid(n, i, o, cl, pkg);
    var skips := SkipsThere(n, p, o, pkg);
    var a := TallyFrom(Tally(0, 0), Start, n[i + 1..p], pkg);
    assert n[i + 1..o] == n[i + 1..p] + ([n[p]] + skips);
    WalkBetween(n, i + 1, p);
    TallyConcat(Tally(0, 0), Start, n[i + 1..p], [n[p]] + skips, pkg);
    NameQuiet(a, n[p], skips, pkg);
    TallyConcat(Tally(0, 0), Start, n[i + 1..p], [""] + skips, pkg);
    WalkConcat(Start, n[i + 1..p], [""] + skips);
    TallyAfter(n, i, n[i + 1..p] + ([""] + skips), cl + 1, k, pkg);
  }

  /** A waiting name and a blank line count alike. */
  lemma {:induction false} NameQuiet(t: Tally, name: string, skips: seq<string>, pkg: string)
    requires ViewOf(name).Text? && ViewOf(name).outer == Pending(pkg)
    requires forall i | 0 <= i < |skips| :: ViewOf(skips[i]).Skip?
    ensures TallyFrom(t, Start, [name] + skips, pkg) == t
    ensures TallyFrom(t, Start, [""] + skips, pkg) == t && Walk(Start, [""] + skips) == Start
  {
    hide ViewOf, TallyFrom, Walk;
    BlankSkips();
    TallyConcat(t, Start, [name], skips, pkg);
    TallyOne(t, Start, name, pkg);
    OneLine(Start, name);
    SkipsQuiet(t, Walk(Start, [name]), skips, pkg);
    assert forall i | 0 <= i < |[""] + skips| :: ([""] + skips)[i] == if i == 0 then "" else skips[i - 1];
    SkipsQuiet(t, Start, [""] + skips, pkg);
  }

  /** A file in which no rule on its own stands before a block opened by a brace of its own. */
  predicate BracesFirst(lines: seq<string>, pkg: string) {
    forall i, o | 0 <= i < o < |lines| ::
      Lone(At(lines, i), ViewOf(lines[i]), pkg) && Opening(At(lines, o), ViewOf(lines[o]), pkg) ==> !IsBareBrace(lines[o])
  }

  lemma {:induction false} NoCredit(lines: seq<string>, n: nat, pkg: string)
    requires n <= |lines| && BracesFirst(lines, pkg)
    ensures var t := TallyFrom(Tally(0, 0), Start, lines[..n], pkg);
            t.left == 0 && (t.credit > 0 ==> exists i | 0 <= i < n :: Lone(At(lines, i), ViewOf(lines[i]), pkg))
    decreases n
  {
    hide ViewOf, Walk, Opening, Lone, IsBareBrace;
    if n > 0 {
      NoCredit(lines, n - 1, pkg);
      StretchSnoc(Tally(0, 0), lines, 0, n, pkg);
      AtStart(lines);
      assert lines[0..n] == lines[..n] && lines[0..n - 1] == lines[..n - 1];
    }
  }

  lemma {:induction false} BracesFirstKeep(lines: seq<string>, pkg: string)
    requires BracesFirst(lines, pkg)
    ensures NamesStranded(lines, pkg) == 0
  {
    hide BracesFirst, TallyFrom;
    NoCredit(lines, |lines|, pkg);
    TakeAll(lines);
  }
}
