/** Normalising a package keeps the meaning of the file. */
module NormalizeProof {
  import opened Text
  import opened RuleSyntax
  import opened LineShape
  import opened LinePrint
  import opened LineHeader
  import opened LineParts
  import opened Loader
  import opened Scan
  import opened ScanSim
  import opened PruneMeans
  import opened Normalize

  /** Inside a block of `pkg`. */
  function In(pkg: string): Ctl { Ctl(true, pkg, "") }

  /** A single-line rule can be printed inside a block. */
  predicate Printable(r: RawRule) {
    EntryNameOk(r.thread) && SpecLike(r.spec)
  }

  lemma {:induction false} SinglePicked(c: Ctl, line: string, pkg: string)
    requires Pick(LocOf(c, ViewOf(line), 0, pkg), SinglesOnly) != []
    ensures var v := ViewOf(line);
            && v.Text? && !c.inBlock && v.outer.Single? && v.outer.pkg == pkg
            && Attempt(c, v) == [RawRule(pkg, v.outer.thread, v.outer.cpus)]
  {
    hide ViewOf;
  }

  lemma {:induction false} ItemIs(line: string)
    requires ViewOf(line).Text? && ViewOf(line).outer.Single?
    ensures ItemOf(line) == Some(WithComment(EntryLine(ViewOf(line).outer.thread, ViewOf(line).outer.cpus), Trim(line)))
  {
    hide ViewOf, WithComment, EntryLine, SplitSingle, OpenBody, Trim, CloseLike;
    var lead, b, t := Decompose(line);
  }

  /** The printed line is the same rule, read inside the block. */
  lemma {:induction false} ItemReads(c: Ctl, line: string, pkg: string)
    requires Pick(LocOf(c, ViewOf(line), 0, pkg), SinglesOnly) != []
    requires forall r | r in Attempt(c, ViewOf(line)) :: Printable(r)
    ensures ItemOf(line).Some?
    ensures Walk(In(pkg), [ItemOf(line).value]) == In(pkg)
    ensures SlipCount(In(pkg), [ItemOf(line).value]) == 0
    ensures Attempts(In(pkg), [ItemOf(line).value]) == Attempt(c, ViewOf(line))
  {
    hide ViewOf, WithComment, EntryLine, SpecLike, EntryNameOk, Trim;
    SinglePicked(c, line, pkg);
    var o := ViewOf(line).outer;
    ItemIs(line);
    ViewNames(line);
    assert RawRule(pkg, o.thread, o.cpus) in Attempt(c, ViewOf(line));
    SpecIsPlain(o.cpus);
    WithCommentEntry(o.thread, o.cpus, line);
    OneLine(In(pkg), ItemOf(line).value);
  }

  /** The printed rules, run inside the block, are the removed rules. */
  lemma {:induction false} ItemsRun(c: Ctl, lines: seq<string>, pkg: string)
    requires forall r | r in Gone(c, lines, pkg, SinglesOnly) :: Printable(r)
    ensures Walk(In(pkg), ItemsOf(c, lines, pkg)) == In(pkg)
    ensures SlipCount(In(pkg), ItemsOf(c, lines, pkg)) == 0
    ensures Attempts(In(pkg), ItemsOf(c, lines, pkg)) == Gone(c, lines, pkg, SinglesOnly)
    ensures Gone(c, lines, pkg, SinglesOnly) == [] <==> ItemsOf(c, lines, pkg) == []
    decreases |lines|
  {
    hide ViewOf, Next, LocOf, ItemOf, Attempt, Printable, Pick, Slips;
    if lines != [] {
      var v := ViewOf(lines[0]);
      ItemsRun(Next(c, v), lines[1..], pkg);
      var rest := ItemsOf(Next(c, v), lines[1..], pkg);
      if Pick(LocOf(c, v, 0, pkg), SinglesOnly) != [] {
        ItemReads(c, lines[0], pkg);
        var here := [ItemOf(lines[0]).value];
        WalkConcat(In(pkg), here, rest);
        SlipsConcat(In(pkg), here, rest);
        AttemptsConcat(In(pkg), here, rest);
        PickedRule(c, lines[0], pkg, SinglesOnly);
      } else {
        assert ItemsOf(c, lines, pkg) == rest;
      }
    }
  }

  // ---- the three places the rules can go

  lemma {:induction false} CloserRuns(pkg: string)
    ensures Walk(In(pkg), ["}"]) == Start && SlipCount(In(pkg), ["}"]) == 0 && Attempts(In(pkg), ["}"]) == []
  {
    hide ViewOf;
    CloserBody();
    assert "" + "}" + "" == "}";
    LineShows("}", "", "}", "");
    ShowsCloser(ViewOf("}"));
    OneLine(In(pkg), "}");
  }

  /** A header, entries and a closer, run from outside. */
  lemma {:induction false} BlockRuns(c: Ctl, header: string, items: seq<string>, pkg: string)
    requires !c.inBlock && c.cur == "" && c.pending == "" && !Slips(c, ViewOf(header))
    requires Next(c, ViewOf(header)) == In(pkg)
    requires Walk(In(pkg), items) == In(pkg) && SlipCount(In(pkg), items) == 0
    ensures Walk(c, [header] + items + ["}"]) == c
    ensures SlipCount(c, [header] + items + ["}"]) == 0
    ensures Attempts(c, [header] + items + ["}"])
         == Attempt(c, ViewOf(header)) + Attempts(In(pkg), items)
  {
    hide ViewOf, Slips, Next, Attempt;
    OneLine(c, header);
    CloserRuns(pkg);
    var y := [header] + items;
    WalkConcat(c, [header], items);
    AttemptsConcat(c, [header], items);
    SlipsConcat(c, [header], items);
    WalkConcat(c, y, ["}"]);
    AttemptsConcat(c, y, ["}"]);
    SlipsConcat(c, y, ["}"]);
    assert Attempts(c, y) + [] == Attempts(c, y);
  }

  lemma {:induction false} PrintedShowsBare(pkg: string)
    requires BareOk(pkg)
    ensures ViewOf(BareOpenLine(pkg)).Text? && ViewOf(BareOpenLine(pkg)).outer == BareOpen(pkg)
  {
    hide ViewOf;
    BareOpenBody(pkg);
    var b := BareOpenLine(pkg);
    assert "" + b + "" == b;
    LineShows(b, "", b, "");
  }
}
