/** Replacing some lines of a file by others that leave the loader in the same state. */
module Splice {
  import opened Seqs
  import opened CpuSpec
  import opened Loader
  import opened RuleSets
  import opened ScanSim

  /** The file ends outside of blocks with no name waiting. */
  predicate Ends(lines: seq<string>) {
    !Walk(Start, lines).inBlock && Walk(Start, lines).pending == ""
  }

  /** No line fails on its own account and the file ends properly. */
  predicate Sound(lines: seq<string>) {
    Calm(lines) && Ends(lines)
  }

  function Rules(lines: seq<string>): seq<RawRule> { Attempts(Start, lines) }

  /** A file that loads without a single failure. */
  predicate Good(topo: Topology, lines: seq<string>) {
    Load(topo, lines).fails == 0
  }

  lemma {:induction false} KeptAll(topo: Topology, rs: seq<RawRule>)
    ensures |Kept(topo, rs)| == |rs| <==> forall r | r in rs :: Accepts(topo, r)
    ensures |Kept(topo, rs)| == |rs| ==> Kept(topo, rs) == rs
    decreases |rs|
  {
    hide Accepts;
    if rs != [] {
      Uncons(rs);
      KeptAll(topo, rs[1..]);
      KeptShorter(topo, rs[1..]);
    }
  }

  /** A file is good when its lines are sound and every rule it holds is accepted. */
  lemma {:induction false} GoodIs(topo: Topology, lines: seq<string>)
    ensures Good(topo, lines) <==> Sound(lines) && forall r | r in Rules(lines) :: Accepts(topo, r)
    ensures Good(topo, lines) ==> Load(topo, lines).rules == Rules(lines)
  {
    hide Accepts, Attempts, Walk, SlipCount, Kept;
    KeptAll(topo, Rules(lines));
    KeptShorter(topo, Rules(lines));
  }

  lemma {:induction false} ThreeParts(a: seq<string>, m: seq<string>, b: seq<string>)
    ensures var c := Walk(Start, a); var d := Walk(c, m);
            && Walk(Start, a + m + b) == Walk(d, b)
            && Rules(a + m + b) == Rules(a) + Attempts(c, m) + Attempts(d, b)
            && SlipCount(Start, a + m + b) == SlipCount(Start, a) + SlipCount(c, m) + SlipCount(d, b)
  {
    hide Attempts, Walk, SlipCount;
    WalkConcat(Start, a + m, b);
    WalkConcat(Start, a, m);
    AttemptsConcat(Start, a + m, b);
    AttemptsConcat(Start, a, m);
    SlipsConcat(Start, a + m, b);
    SlipsConcat(Start, a, m);
  }

  /** Replace `x` by `y` between `a` and `b`: soundness stays, and only their rules differ. */
  lemma {:induction false} Replace(a: seq<string>, x: seq<string>, y: seq<string>, b: seq<string>)
    returns (before: seq<RawRule>, after: seq<RawRule>)
    requires Walk(Walk(Start, a), y) == Walk(Walk(Start, a), x)
    requires Calm(a + x + b) ==> SlipCount(Walk(Start, a), y) == 0
    ensures Sound(a + x + b) ==> Sound(a + y + b)
    ensures Rules(a + x + b) == before + Attempts(Walk(Start, a), x) + after
    ensures Rules(a + y + b) == before + Attempts(Walk(Start, a), y) + after
    ensures before == Rules(a) && after == Attempts(Walk(Walk(Start, a), x), b)
    ensures Walk(Start, a + y + b) == Walk(Start, a + x + b)
  {
    hide Attempts, Walk, SlipCount;
    ThreeParts(a, x, b);
    ThreeParts(a, y, b);
    before, after := Rules(a), Attempts(Walk(Walk(Start, a), x), b);
  }

  /** `g` inserted somewhere: as a multiset it is added, and parts without `g` stay. */
  lemma {:induction false} InsertedPart(before: seq<RawRule>, g: seq<RawRule>, after: seq<RawRule>, p: Part)
    requires forall r | r in g :: !Holds(p, r)
    ensures Select(before + g + after, p) == Select(before + after, p)
  {
    hide Select, Holds;
    SelectConcat(before + g, after, p);
    SelectConcat(before, g, p);
    SelectConcat(before, after, p);
    SelectNone(g, p);
    assert Select(before, p) + [] == Select(before, p);
  }

  /** Moving thread rules of `pkg` within the file. */
  lemma {:induction false} MovedRules(all: seq<RawRule>, rest: seq<RawRule>, before: seq<RawRule>,
                                      g: seq<RawRule>, after: seq<RawRule>, pkg: string)
    requires rest == before + after
    requires multiset(all) == multiset(rest) + multiset(g)
    requires forall r | r in g :: r.pkg == pkg && r.thread != ""
    requires Select(rest, OtherPkgs(pkg)) == Select(all, OtherPkgs(pkg))
    requires Select(rest, PkgRules(pkg)) == Select(all, PkgRules(pkg))
    ensures SameFor(before + g + after, all, pkg)
  {
    hide Select;
    InsertedPart(before, g, after, OtherPkgs(pkg));
    InsertedPart(before, g, after, PkgRules(pkg));
    assert multiset(before + g + after) == multiset(before) + multiset(g) + multiset(after);
  }
}
