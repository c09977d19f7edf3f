/** What pruning does to the loaded rules, on lines that do not fail. */
module PruneMeans {
  import opened Seqs
  import opened RuleSyntax
  import opened LinePrint
  import opened LineParts
  import opened Loader
  import opened RuleSets
  import opened Scan
  import opened ScanSim
  import opened Prune

  /** The rules of the pruned lines, in order. */
  function Gone(c: Ctl, lines: seq<string>, pkg: string, sel: Sel): seq<RawRule>
    decreases |lines|
  {
    if lines == [] then []
    else
      var v := ViewOf(lines[0]);
      (if Pick(LocOf(c, v, 0, pkg), sel) != [] then Attempt(c, v) else [])
      + Gone(Next(c, v), lines[1..], pkg, sel)
  }

  /** One pruned or kept line leaves the loader where it was. */
  lemma {:induction false} PruneLineWalk(c: Ctl, line: string, pkg: string, sel: Sel)
    requires pkg != "" && !Slips(c, ViewOf(line))
    ensures Walk(c, PruneLine(c, line, pkg, sel)) == Next(c, ViewOf(line))
    ensures SlipCount(c, PruneLine(c, line, pkg, sel)) == 0
    ensures Attempts(c, PruneLine(c, line, pkg, sel))
         == if Pick(LocOf(c, ViewOf(line), 0, pkg), sel) != [] then [] else Attempt(c, ViewOf(line))
  {
    hide ViewOf, WithComment, BareOpenLine, Walk, Attempts, SlipCount, BareOk, HeaderOk;
    var v := ViewOf(line);
    var locs := Pick(LocOf(c, v, 0, pkg), sel);
    if locs == [] {
      OneLine(c, line);
    } else {
      PickedShape(c, v, pkg, sel);
      NoLine(c);
      if locs[0].open {
        ViewNames(line);
        HeaderIsBare(pkg);
        BareOpenPrinted(pkg, line);
        OneLine(c, WithComment(BareOpenLine(pkg), line));
      } else if locs[0].closed {
        CloserLine(line);
        OneLine(c, WithComment("}", line));
      }
    }
  }

  lemma {:induction false} HeaderIsBare(pkg: string)
    requires HeaderOk(pkg)
    ensures BareOk(pkg)
  {
  }

  lemma {:induction false} NoLine(c: Ctl)
    ensures Walk(c, []) == c && Attempts(c, []) == [] && SlipCount(c, []) == 0
  {
  }

  /** A picked line: where it stands and what it opens or closes. */
  lemma {:induction false} PickedShape(c: Ctl, v: View, pkg: string, sel: Sel)
    requires Pick(LocOf(c, v, 0, pkg), sel) != []
    ensures var l := Pick(LocOf(c, v, 0, pkg), sel)[0];
            && v.Text?
            && (l.open ==> !c.inBlock && v.outer.Single? && v.outer.open && v.outer.pkg == pkg)
            && (!l.open ==> if c.inBlock then v.inner.Entry? && v.inner.closed == l.closed
                            else !l.closed && v.outer.Single? && !v.outer.open)
  {
  }

  lemma {:induction false} OneLine(c: Ctl, line: string)
    ensures Walk(c, [line]) == Next(c, ViewOf(line))
    ensures Attempts(c, [line]) == Attempt(c, ViewOf(line))
    ensures SlipCount(c, [line]) == if Slips(c, ViewOf(line)) then 1 else 0
  {
    hide ViewOf, Next, Attempt, Slips;
    assert [line][1..] == [];
    assert Attempt(c, ViewOf(line)) + [] == Attempt(c, ViewOf(line));
  }

  /** The rule on a recorded line is a thread rule of the package, under the recorded name. */
  lemma {:induction false} PickedRule(c: Ctl, line: string, pkg: string, sel: Sel)
    requires Pick(LocOf(c, ViewOf(line), 0, pkg), sel) != []
    ensures |Attempt(c, ViewOf(line))| == 1
    ensures var r := Attempt(c, ViewOf(line))[0];
            r.pkg == pkg && r.thread != "" && (sel.Named? ==> r.thread == sel.name)
  {
    hide ViewOf;
  }

  lemma {:induction false} UnpickedRule(c: Ctl, line: string, pkg: string, name: string)
    requires name != "" && Pick(LocOf(c, ViewOf(line), 0, pkg), Named(name)) == []
    ensures forall r | r in Attempt(c, ViewOf(line)) :: Holds(AllBut(pkg, name), r)
  {
    hide ViewOf;
  }

  lemma {:induction false} PruneWalk(c: Ctl, lines: seq<string>, pkg: string, sel: Sel)
    requires pkg != "" && SlipCount(c, lines) == 0
    ensures Walk(c, Pruned(c, lines, pkg, sel)) == Walk(c, lines)
    ensures SlipCount(c, Pruned(c, lines, pkg, sel)) == 0
    decreases |lines|
  {
    hide ViewOf, Next, Slips, PruneLine;
    if lines != [] {
      var c' := Next(c, ViewOf(lines[0]));
      var here, rest := PruneLine(c, lines[0], pkg, sel), Pruned(c', lines[1..], pkg, sel);
      PruneLineWalk(c, lines[0], pkg, sel);
      PruneWalk(c', lines[1..], pkg, sel);
      WalkConcat(c, here, rest);
      SlipsConcat(c, here, rest);
    }
  }

  /** What one step of pruning contributes. */
  lemma {:induction false} PruneAttemptsStep(c: Ctl, lines: seq<string>, pkg: string, sel: Sel)
    requires pkg != "" && lines != [] && SlipCount(c, lines) == 0
    ensures var v := ViewOf(lines[0]); var here := Pick(LocOf(c, v, 0, pkg), sel) != [];
            var c' := Next(c, v); var tail := Pruned(c', lines[1..], pkg, sel);
            && SlipCount(c', lines[1..]) == 0 && Attempts(c, lines) == Attempt(c, v) + Attempts(c', lines[1..])
            && Attempts(c, Pruned(c, lines, pkg, sel)) == (if here then [] else Attempt(c, v)) + Attempts(c', tail)
            && Gone(c, lines, pkg, sel) == (if here then Attempt(c, v) else []) + Gone(c', lines[1..], pkg, sel)
  {
    hide ViewOf, Next, Slips, PruneLine, Attempt, LocOf, Picked;
    var c' := Next(c, ViewOf(lines[0]));
    var here, rest := PruneLine(c, lines[0], pkg, sel), Pruned(c', lines[1..], pkg, sel);
    PruneLineWalk(c, lines[0], pkg, sel);
    AttemptsConcat(c, here, rest);
  }

  /** Pruning takes away exactly the rules of the pruned lines. */
  lemma {:induction false} PruneAttempts(c: Ctl, lines: seq<string>, pkg: string, sel: Sel)
    requires pkg != "" && SlipCount(c, lines) == 0
    ensures multiset(Attempts(c, lines))
         == multiset(Attempts(c, Pruned(c, lines, pkg, sel))) + multiset(Gone(c, lines, pkg, sel))
    ensures forall r | r in Gone(c, lines, pkg, sel) ::
              r.pkg == pkg && r.thread != "" && (sel.Named? ==> r.thread == sel.name)
    decreases |lines|
  {
    hide ViewOf, Next, Attempt, Attempts, SlipCount, LocOf, Pruned, Gone, Slips, Pick;
    if lines == [] {
      NoPrune(c, pkg, sel);
    } else {
      PruneAttemptsStep(c, lines, pkg, sel);
      var v := ViewOf(lines[0]);
      PruneAttempts(Next(c, v), lines[1..], pkg, sel);
      if Pick(LocOf(c, v, 0, pkg), sel) != [] {
        PickedRule(c, lines[0], pkg, sel);
      }
    }
  }

  lemma {:induction false} NoPrune(c: Ctl, pkg: string, sel: Sel)
    ensures Pruned(c, [], pkg, sel) == [] && Gone(c, [], pkg, sel) == [] && Attempts(c, []) == []
  {
  }

  lemma {:induction false} PickedApart(c: Ctl, line: string, pkg: string, sel: Sel, p: Part)
    requires Pick(LocOf(c, ViewOf(line), 0, pkg), sel) != []
    requires p in {OtherPkgs(pkg), PkgRules(pkg)} || (sel.Named? && p == AllBut(pkg, sel.name))
    ensures forall r | r in Attempt(c, ViewOf(line)) :: !Holds(p, r)
  {
    hide ViewOf, LocOf, Pick, Attempt;
    PickedRule(c, line, pkg, sel);
  }

  /** Any part without thread rules of the package stays as it is, in order. */
  lemma {:induction false} PruneKeepsPart(c: Ctl, lines: seq<string>, pkg: string, sel: Sel, p: Part)
    requires pkg != "" && SlipCount(c, lines) == 0
    requires p in {OtherPkgs(pkg), PkgRules(pkg)} || (sel.Named? && p == AllBut(pkg, sel.name))
    ensures Select(Attempts(c, Pruned(c, lines, pkg, sel)), p) == Select(Attempts(c, lines), p)
    decreases |lines|
  {
    hide ViewOf, Next, Attempt, LocOf, Pruned, Slips, Pick, Select, Holds;
    if lines == [] {
      NoPrune(c, pkg, sel);
    } else {
      PruneAttemptsStep(c, lines, pkg, sel);
      var v := ViewOf(lines[0]);
      var c' := Next(c, v);
      PruneKeepsPart(c', lines[1..], pkg, sel, p);
      SelectConcat(Attempt(c, v), Attempts(c', lines[1..]), p);
      if Pick(LocOf(c, v, 0, pkg), sel) != [] {
        PickedApart(c, lines[0], pkg, sel, p);
        SelectNone(Attempt(c, v), p);
        NilLeft(Attempts(c', Pruned(c', lines[1..], pkg, sel)));
        NilLeft(Select(Attempts(c', lines[1..]), p));
      } else {
        SelectConcat(Attempt(c, v), Attempts(c', Pruned(c', lines[1..], pkg, sel)), p);
      }
    }
  }

  /** Pruning every position of a thread leaves no rule for it. */
  lemma {:induction false} PruneNamed(c: Ctl, lines: seq<string>, pkg: string, name: string)
    requires pkg != "" && name != "" && SlipCount(c, lines) == 0
    ensures forall r | r in Attempts(c, Pruned(c, lines, pkg, Named(name))) :: Holds(AllBut(pkg, name), r)
    decreases |lines|
  {
    hide ViewOf, Next, Attempt, LocOf, Pruned, Slips, Pick, Holds;
    if lines == [] {
      NoPrune(c, pkg, Named(name));
    } else {
      PruneAttemptsStep(c, lines, pkg, Named(name));
      var v := ViewOf(lines[0]);
      PruneNamed(Next(c, v), lines[1..], pkg, name);
      if Pick(LocOf(c, v, 0, pkg), Named(name)) == [] {
        UnpickedRule(c, lines[0], pkg, name);
      }
    }
  }
}
