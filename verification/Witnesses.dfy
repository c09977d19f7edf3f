/** Small files on which the code does not do what one might expect. */
module Witnesses {
  import opened Seqs
  import opened Text
  import opened RuleSyntax
  import opened LineShape
  import opened LinePrint
  import opened LineHeader
  import opened LineParts
  import opened LineSingle
  import opened LineReown
  import opened LineLighter
  import opened CpuSpec
  import opened Loader
  import opened RuleSets
  import opened Scan
  import opened ScanSim
  import opened Prune
  import opened PruneMeans
  import opened Splice
  import opened Normalize
  import opened NormalizeProof
  import opened NormalizeMain
  import opened NormalForm
  import opened Upsert
  import opened UpsertMain
  import opened DeletePkg
  import opened DeletePkgMain
  import opened Rename
  import opened RenameEnds
  import opened RenameForever
  import opened Limits

  // ---- single lines

  lemma {:induction false} BareEqLine()
    ensures ViewOf("=").Text? && ViewOf("=").outer == Pending("")
  {
    hide ViewOf;
    PrintedShows("=");
    TrimBlank("");
    assert RFind("=", '=') == Some(0);
    assert ParseBody("=") == Pending("");
  }

  lemma {:induction false} BraceLine()
    ensures ViewOf("{").Text? && ViewOf("{").outer == BareOpen("")
  {
    hide ViewOf;
    PrintedShows("{");
    TrimBlank("");
    assert OpenBody("{") == (true, "");
    assert RFind("", '=').None?;
    assert ParseBody("{") == BareOpen("");
  }

  lemma {:induction false} NameLine()
    ensures ViewOf("p").Text? && ViewOf("p").outer == Pending("p")
  {
    hide ViewOf;
    PrintedShows("p");
    assert RFind("p", '=').None?;
    assert ParseBody("p") == Pending("p");
  }

  lemma {:induction false} ZeroSpec()
    ensures SpecLike("0") && Trimmed("0")
  {
    TrimOfTrimmed("0");
    var parts := Split("0", ',');
    assert parts == ["0"] && Trim(parts[0]) == "0";
    assert PartLike("0");
  }

  lemma {:induction false} PkgNameOk()
    ensures RulePkgOk("p") && IsBody("p")
  {
    assert SplitTarget("p").None?;
  }

  lemma {:induction false} ThreadNameOk()
    ensures EntryNameOk("t")
  {
    assert "t="[0] == 't';
  }

  lemma {:induction false} EntryView()
    ensures ViewOf("\tt=0").Text? && ViewOf("\tt=0").inner == Entry("t", "0", false)
  {
    hide ViewOf, EntryNameOk, SpecLike;
    ZeroSpec();
    SpecIsPlain("0");
    ThreadNameOk();
    EntryLineShows("t", "0", "");
    assert EntryLine("t", "0") == "\tt=0";
    NilLeft("\tt=0");
  }

  lemma {:induction false} RuleView()
    ensures ViewOf("p=0").Text? && ViewOf("p=0").outer == Rule("p", "0", false)
  {
    hide ViewOf, RulePkgOk, SpecLike;
    ZeroSpec();
    PkgNameOk();
    RuleLineShows("p", "0");
    assert RuleLine("p", "0") == "p=0";
  }

  lemma {:induction false} CloserView()
    ensures ViewOf("}").Text? && ViewOf("}").inner == Close
  {
    hide ViewOf;
    CloserBody();
    PrintedShows("}");
    ShowsCloser(ViewOf("}"));
  }

  // ---- a bare `=` parts the scan from the loader

  lemma {:induction false} BareEqParts()
    ensures !Agrees(["=", "{"], 2, "p")
  {
    hide ViewOf;
    var lines := ["=", "{"];
    BareEqLine();
    BraceLine();
    TakeAll(lines);
    assert At(lines, 0) == Start;
    AtNext(lines, 0);
    AtNext(lines, 1);
    assert lines[0] == "=" && lines[1] == "{";
    assert ScanTo(lines, 1, "p") == Step(lines, Fresh, 0, "p");
    assert ScanTo(lines, 2, "p") == Step(lines, ScanTo(lines, 1, "p"), 1, "p");
  }

  // ---- deleting a package can strand a name line

  const Stranding := ["p=0", "p", "{", "\tt=0", "}"]

  lemma {:induction false} StrandingViews()
    ensures ViewOf(Stranding[0]).Text? && ViewOf(Stranding[0]).outer == Rule("p", "0", false)
    ensures ViewOf(Stranding[1]).Text? && ViewOf(Stranding[1]).outer == Pending("p")
    ensures ViewOf(Stranding[2]).Text? && ViewOf(Stranding[2]).outer == BareOpen("")
    ensures ViewOf(Stranding[3]).Text? && ViewOf(Stranding[3]).inner == Entry("t", "0", false)
    ensures ViewOf(Stranding[4]).Text? && ViewOf(Stranding[4]).inner == Close
  {
    hide ViewOf;
    RuleView();
    NameLine();
    BraceLine();
    EntryView();
    CloserView();
  }

  lemma {:induction false} StrandingSteps()
    ensures var s := Stranding; var w := Ctl(false, "", "p");
            && Next(Start, ViewOf(s[0])) == Start && Next(Start, ViewOf(s[1])) == w && Next(w, ViewOf(s[2])) == In("p")
            && Next(In("p"), ViewOf(s[3])) == In("p") && Next(In("p"), ViewOf(s[4])) == Start
            && Attempt(Start, ViewOf(s[0])) == [RawRule("p", "", "0")] && Attempt(Start, ViewOf(s[1])) == []
            && Attempt(w, ViewOf(s[2])) == [] && Attempt(In("p"), ViewOf(s[3])) == [RawRule("p", "t", "0")]
            && Attempt(In("p"), ViewOf(s[4])) == []
            && !Slips(Start, ViewOf(s[0])) && !Slips(Start, ViewOf(s[1])) && !Slips(w, ViewOf(s[2]))
            && !Slips(In("p"), ViewOf(s[3])) && !Slips(In("p"), ViewOf(s[4]))
  {
    hide ViewOf;
    StrandingViews();
  }

  lemma {:induction false} StrandingRules()
    ensures Rules(Stranding) == [RawRule("p", "", "0"), RawRule("p", "t", "0")] && Sound(Stranding)
  {
    hide ViewOf, Walk, Attempts, SlipCount, Next, Slips, Attempt;
    StrandingSteps();
    var s := Stranding;
    forall k | 0 <= k < 5 ensures s[k..] == [s[k]] + s[k + 1..] {
    }
    RunCons(Start, s[0], s[1..]);
    RunCons(Start, s[1], s[2..]);
    RunCons(Ctl(false, "", "p"), s[2], s[3..]);
    RunCons(In("p"), s[3], s[4..]);
    RunCons(In("p"), s[4], s[5..]);
    NoLine(Start);
    assert s[0..] == s && s[5..] == [];
  }

  lemma {:induction false} ZeroCpus(topo: Topology)
    requires topo.present == {0}
    ensures SpecCpus("0", topo) != {}
  {
    TrimOfTrimmed("0");
    var parts := Split("0", ',');
    assert parts == ["0"] && parts[1..] == [];
    assert DigitsValue("0") == 0;
    assert ParseUsize("0") == Some(0);
    assert 0 in Span(0, 0, Some(topo.present));
    assert RangesCpus("0", Some(topo.present)) == PartCpus("0", Some(topo.present)) + PartsCpus([], Some(topo.present));
    assert 0 in SegmentCpus("0", topo);
  }

  lemma {:induction false} StrandingGood(topo: Topology)
    requires topo.present == {0}
    ensures Good(topo, Stranding)
  {
    hide Attempts, Walk, SlipCount, SpecLike, SpecCpus;
    StrandingRules();
    GoodIs(topo, Stranding);
    ZeroSpec();
    ZeroCpus(topo);
    ShortNames();
  }

  lemma {:induction false} ShortNames()
    ensures PkgOk("p") && ThreadOk("t") && ThreadOk("")
  {
  }

  lemma {:induction false} StrandingScan()
    ensures ScanOf(Stranding, "p")
         == Target(Some(Standalone(0)), Some(2), Some(4), [Loc("t", 3, false, false, false)])
  {
    hide ViewOf;
    StrandingViews();
    var l := Stranding;
    assert ScanTo(l, 1, "p") == Step(l, Fresh, 0, "p");
    assert ScanTo(l, 2, "p") == Step(l, ScanTo(l, 1, "p"), 1, "p");
    assert ScanTo(l, 3, "p") == Step(l, ScanTo(l, 2, "p"), 2, "p");
    assert ScanTo(l, 4, "p") == Step(l, ScanTo(l, 3, "p"), 3, "p");
    assert ScanTo(l, 5, "p") == Step(l, ScanTo(l, 4, "p"), 4, "p");
  }

  /** A file that loads without a failure and does not any more once its only package is deleted. */
  lemma {:induction false} DeleteStrandsName(topo: Topology)
    requires topo.present == {0}
    ensures Good(topo, Stranding)
    ensures var e := DeletedPkg(Stranding, "p"); e.Ok? && Load(topo, e.lines).rules == [] && !Good(topo, e.lines)
  {
    hide Load, ScanTo, Normalized, NamesLeft, Round, Rounds, Gone, ViewOf, IsBareBrace, Attempts;
    StrandingGood(topo);
    StrandingScan();
    StrandingViews();
    var t := ScanOf(Stranding, "p");
    assert t.threads[1..] == [];
    assert Singles(t.threads) == [];
    NoSinglesSame(Stranding, "p");
    NoneToPrint(Stranding, "p");
    BareBraceThere();
    DeletePkgExact(topo, Stranding, "p");
    LeftAtLeastOne(Stranding, "p");
    StrandingRules();
    GoodIs(topo, Stranding);
    OthersOfP();
  }

  lemma {:induction false} OthersOfP()
    ensures Select([RawRule("p", "", "0"), RawRule("p", "t", "0")], OtherPkgs("p")) == []
  {
    SelectNone([RawRule("p", "", "0"), RawRule("p", "t", "0")], OtherPkgs("p"));
  }

  lemma {:induction false} BareBraceThere()
    ensures IsBareBrace(Stranding[2])
  {
    hide ParseOuter, Trim, InnerView;
    StrandingViews();
  }

  lemma {:induction false} LeftAtLeastOne(lines: seq<string>, pkg: string)
    requires AnyLine(ScanOf(lines, pkg)) && LeavesName(lines, pkg)
    ensures NamesLeft(lines, pkg) >= 1
  {
    hide ScanTo, Round, LeavesName, AnyLine;
    RoundShrinks(lines, pkg);
  }

  lemma {:induction false} NoneToPrint(lines: seq<string>, pkg: string)
    requires pkg != "" && Singles(ScanOf(lines, pkg).threads) == [] && Calm(lines)
    ensures NormalizeSafe(lines, pkg)
  {
    hide ScanTo, Gone, SlipCount, HeaderFree, Cut;
    NoSinglesIff(lines, pkg);
  }

  // ---- renamings that never end

  lemma {:induction false} MarkFree(s: string)
    requires s != "" && !IsWs(s[0]) && !IsWs(s[|s| - 1]) && '#' !in s && '/' !in s
    ensures IsBody(s)
  {
    assert forall i | 0 <= i < |s| :: s[i] != '#' && s[i] != '/';
  }

  lemma {:induction false} BracedName()
    ensures IsBody("p{x") && Head("p{x") == "p" && !CloseLike("p")
  {
    hide Trim, IsBody;
    MarkFree("p{x");
    assert "p{x" == "p" + "{" + "x";
    HeadOf("p", "x");
    TrimOfTrimmed("p");
  }

  /** A file that is not well formed: the name `p{x` passes every check and the renaming does not end. */
  lemma {:induction false} RenameNeverEnds()
    ensures !Halts(["p{t}=0", "p {"], "p", "p{x")
  {
    hide IsBody, Head, Over, Normalized, Terminates, Twice, FirstBack, ThirdBack;
    BracedName();
    HeadBody("p{x", "p");
    TwicePasses("p", "p{x");
    NeverEnds(Twice("p"), "p", "p{x");
    TwiceIs();
  }

  lemma {:induction false} TwiceIs()
    ensures Twice("p") == ["p{t}=0", "p {"]
  {
    assert "p" + "{t}=0" == "p{t}=0" && "p" + " {" == "p {";
  }

  lemma {:induction false} RuleName()
    ensures IsBody("p{y}=z") && Head("p{y}=z") == "p" && SplitSingle("p{y}=z").Some? && "p{y}=z" != "p"
  {
    hide Trim, TrimEnd, SplitTarget, SplitSingle, BehindBrace, IsBody;
    MarkFree("p{y}=z");
    assert "p{y}=z" == "p" + "{" + "y}=z";
    HeadOf("p", "y}=z");
    TrimOfTrimmed("p");
    RuleBehind();
    SplitBehind("p", "y}=z");
  }

  lemma {:induction false} RuleBehind()
    ensures BehindBrace("y}=z").Some?
  {
    hide BehindBrace;
    BehindOf("y", "z");
    assert "y" + "}=" + "z" == "y}=z";
  }

  /** A file that loads without a failure, and a new name that holds a whole rule. */
  lemma {:induction false} RenameLoadableNeverEnds(topo: Topology)
    ensures Good(topo, ["p { #", "}"]) && NormalizeSafe(["p { #", "}"], "p")
    ensures !Halts(["p { #", "}"], "p", "p{y}=z")
  {
    hide IsBody, Head, Over, Normalized, Terminates, Good, NormalizeSafe, Sound, SplitSingle, Gone, Pick, ScanTo;
    RuleName();
    HeadBody("p{y}=z", "p");
    assert "p" + " { #" == "p { #";
    RuleLoopsOn("p", "p{y}=z");
    HashHeader("p{y}=z");
    HashLoads(topo);
    NoSinglesSame(["p { #", "}"], "p");
    EmptyBlock("p { #", "p", "p{y}=z");
  }

  lemma {:induction false} HashHeader(to: string)
    requires to != "p"
    ensures ViewOf("p { #").Text? && ViewOf("p { #").outer == BareOpen("p")
    ensures Singles(ScanOf(["p { #", "}"], "p").threads) == [] && Over(["p { #", "}"], to)
  {
    hide ViewOf, Over, ScanTo, Pick, IsBody, NamesIt, RulePkgOk;
    PkgNameOk();
    assert "p" + " { #" == "p { #";
    HashOpen("p");
    CloserIs();
    EmptyScan("p { #", "p");
    NamesNo("p { #", "}", to);
    OverUnlessNamed(["p { #", "}"], to);
  }

  lemma {:induction false} NamesNo(a: string, b: string, to: string)
    requires ViewOf(a).Text? && ViewOf(a).outer == BareOpen("p") && ViewOf(b).Text? && ViewOf(b).outer == Junk && to != "p"
    ensures !NamesIt(a, to) && !NamesIt(b, to)
  {
    hide ViewOf;
  }

  lemma {:induction false} HashLoads(topo: Topology)
    ensures Good(topo, ["p { #", "}"]) && NormalizeSafe(["p { #", "}"], "p")
  {
    hide ViewOf, ScanTo, Pick, Gone, Attempts, Walk, SlipCount, HeaderFree, Cut;
    HashHeader("q");
    EmptyBlock("p { #", "p", "q");
    EmptyRules("p { #", "p");
    GoodIs(topo, ["p { #", "}"]);
    NoGone(["p { #", "}"], "p");
  }

  lemma {:induction false} NoGone(lines: seq<string>, pkg: string)
    requires NoSingles(Start, lines, pkg) && Singles(ScanOf(lines, pkg).threads) == []
    ensures NormalizeSafe(lines, pkg)
  {
    hide ScanTo, Pick, Gone, HeaderFree, Cut;
  }

  lemma {:induction false} EmptyRules(l0: string, pkg: string)
    requires ViewOf(l0).Text? && ViewOf(l0).outer == BareOpen(pkg) && pkg != ""
    ensures Rules([l0, "}"]) == []
  {
    hide ViewOf, Walk, Attempts, SlipCount;
    CloserIs();
    assert [l0, "}"] == [l0] + ["}"];
    RunCons(Start, l0, ["}"]);
    RunCons(In(pkg), "}", []);
    NilLeft(["}"]);
    NoLine(Start);
  }

  // ---- a thread name that looks like a comment is lost in a block

  const Hashed := "p{#x}=0"

  lemma {:induction false} HashedBehind()
    ensures BehindBrace("#x}=0") == Some(("#x", "0"))
  {
    hide BehindBrace;
    BehindOf("#x", "0");
    assert "#x" + "}=" + "0" == "#x}=0";
  }

  lemma {:induction false} HashedBody()
    ensures ParseBody(Hashed) == Single("p", "#x", "0", false)
  {
    hide Trim, ParseBody, BehindBrace;
    assert Hashed == "p" + "{" + "#x}=0";
    TrimOfTrimmed("p");
    HashedBehind();
    ParseBehind("p", "#x}=0");
  }

  lemma {:induction false} HashedIsBody()
    ensures IsBody(Hashed) && CommentAt(Hashed).None?
  {
    assert FirstComment(Hashed, 0).None?;
  }

  lemma {:induction false} HashedView()
    ensures ViewOf(Hashed).Text? && ViewOf(Hashed).outer == Single("p", "#x", "0", false)
    ensures Trim(Hashed) == Hashed && CommentAt(Hashed).None?
  {
    hide ViewOf, ParseBody, Trim;
    HashedBody();
    HashedIsBody();
    PrintedShows(Hashed);
    TrimOfTrimmed(Hashed);
  }

  lemma {:induction false} HashedEntry()
    ensures ViewOf("\t#x=0") == Skip
  {
    hide Trim;
    NilLeft("\t#x=0");
    TrimUnique("\t", "#x=0", "");
    assert "\t" + "#x=0" + "" == "\t#x=0";
  }

  lemma {:induction false} HashedScan()
    ensures ScanOf([Hashed], "p") == Target(None, None, None, [Loc("#x", 0, true, false, false)])
    ensures ScanOf([], "p") == Target(None, None, None, [])
  {
    hide ViewOf;
    HashedView();
    assert ScanTo([Hashed], 1, "p") == Step([Hashed], Fresh, 0, "p");
  }

  lemma {:induction false} HashedNormal()
    ensures Normalized([Hashed], "p") == ["p {", "\t#x=0", "}"]
  {
    hide ViewOf, ScanTo, Trim, ItemOf, CommentAt;
    HashedScan();
    HashedView();
    var l := Loc("#x", 0, true, false, false);
    assert [l][1..] == [];
    assert Singles([l]) == [l];
    ItemIs(Hashed);
    assert EntryLine("#x", "0") == "\t#x=0";
    assert ItemOf(Hashed) == Some("\t#x=0");
    assert Items([Hashed], [l]) == ["\t#x=0"];
    assert RemoveAll([Hashed], "p", [l]) == RemoveAt([Hashed], "p", l) by {
      assert [l][..0] == [];
    }
    assert RemoveAt([Hashed], "p", l) == [];
    assert BareOpenLine("p") == "p {";
  }

  /** A file with one rule, whose normal form loads without a failure and holds none. */
  lemma {:induction false} NormalizeLosesRule(topo: Topology)
    ensures Rules([Hashed]) == [RawRule("p", "#x", "0")] && Sound([Hashed])
    ensures Rules(Normalized([Hashed], "p")) == [] && Good(topo, Normalized([Hashed], "p"))
  {
    hide ViewOf, Walk, Attempts, SlipCount, ScanTo, Normalized;
    HashedView();
    OneLine(Start, Hashed);
    HashedNormal();
    HashedEntry();
    NoLine(In("p"));
    OneLine(In("p"), "\t#x=0");
    PkgNameOk();
    PrintedShowsBare("p");
    assert BareOpenLine("p") == "p {";
    SkippedInside(ViewOf("\t#x=0"));
    BlockRuns(Start, "p {", ["\t#x=0"], "p");
    assert ["p {"] + ["\t#x=0"] + ["}"] == ["p {", "\t#x=0", "}"];
    GoodIs(topo, Normalized([Hashed], "p"));
  }

  lemma {:induction false} SkippedInside(v: View)
    requires v.Skip?
    ensures Next(In("p"), v) == In("p") && Attempt(In("p"), v) == [] && !Slips(In("p"), v)
  {
  }

  // ---- a thread name that no block can carry, and a file that keeps its rule all the same

  const Braced := ["} {", "} {} a}=0", "} {} a}=0"]

  lemma {:induction false} BracedParts()
    ensures IsBody("}") && IsBody("} {") && IsBody("} {} a}=0") && IsBody("} a") && !EntryNameOk("} a")
    ensures CloseLike("} {} a}=0") && CloseLike("} a=0")
  {
    assert ("} a" + "=")[0] == '}' && ("} a" + "=")[1] == ' ';
    MarkFree("} {");
    MarkFree("} {} a}=0");
    MarkFree("} a");
    MarkFree("}");
  }

  lemma {:induction false} BracedViews()
    ensures var v := ViewOf("} {"); v.Text? && v.outer == BareOpen("}")
    ensures var v := ViewOf("} {} a}=0"); v.Text? && v.inner == Close && v.outer == Single("}", "} a", "0", false)
    ensures var v := ViewOf("\t} a=0"); v.Text? && v.inner == Close
  {
    hide ViewOf, IsBody, CloseLike, ParseBody, EntryNameOk, BehindBrace;
    BracedParts();
    PrintedShows("} {");
    PrintedShows("} {} a}=0");
    BracedHeader();
    BracedRule();
    NilLeft("\t} a=0");
    MarkFree("} a=0");
    EmptyTail();
    assert "\t" + "} a=0" + "" == "\t} a=0";
    LineShows("\t} a=0", "\t", "} a=0", "");
  }

  lemma {:induction false} BracedHeader()
    ensures ParseBody("} {") == BareOpen("}")
  {
    hide IsBody;
    BracedParts();
    assert "}" + " " + "{" == "} {";
    OpenBodyOf("}", " ");
    OpenContent("}");
    ByContent("} {");
  }

  lemma {:induction false} BracedRule()
    ensures ParseBody("} {} a}=0") == Single("}", "} a", "0", false)
  {
    hide Trim, ParseBody, BehindBrace;
    assert "} {} a}=0" == "} " + "{" + "} a}=0";
    BracedBehind();
    assert "" + "}" + " " == "} ";
    TrimUnique("", "}", " ");
    ParseBehind("} ", "} a}=0");
  }

  lemma {:induction false} BracedBehind()
    ensures BehindBrace("} a}=0") == Some(("} a", "0"))
  {
    hide BehindBrace;
    BehindOf("} a", "0");
    assert "} a" + "}=" + "0" == "} a}=0";
  }

  lemma {:induction false} BracedScan()
    ensures ScanOf(Braced, "}") == Target(Some(OpenBare(0)), Some(0), Some(1), [Loc("} a", 2, true, false, false)])
    ensures ScanOf(["} {", "} {} a}=0"], "}") == Target(Some(OpenBare(0)), Some(0), Some(1), [])
  {
    hide ViewOf;
    BracedViews();
    var f := Braced;
    assert ScanTo(f, 1, "}") == Step(f, Fresh, 0, "}");
    assert ScanTo(f, 2, "}") == Step(f, ScanTo(f, 1, "}"), 1, "}");
    assert ScanTo(f, 3, "}") == Step(f, ScanTo(f, 2, "}"), 2, "}");
    var g := ["} {", "} {} a}=0"];
    assert ScanTo(g, 1, "}") == Step(g, Fresh, 0, "}");
    assert ScanTo(g, 2, "}") == Step(g, ScanTo(g, 1, "}"), 1, "}");
  }

  lemma {:induction false} BracedNormal()
    ensures Normalized(Braced, "}") == ["} {", "\t} a=0", "} {} a}=0"]
  {
    hide ViewOf, ScanTo, Trim, ItemOf, CommentAt, ParseBody, IsBody;
    BracedScan();
    BracedViews();
    BracedParts();
    var l := Loc("} a", 2, true, false, false);
    assert [l][1..] == [];
    assert Singles([l]) == [l];
    var line := "} {} a}=0";
    BodyUncommented(line);
    ItemIs(line);
    assert EntryLine("} a", "0") == "\t} a=0";
    assert ItemOf(line) == Some("\t} a=0");
    assert Items(Braced, [l]) == ["\t} a=0"];
    assert RemoveAll(Braced, "}", [l]) == RemoveAt(Braced, "}", l) by {
      assert [l][..0] == [];
    }
    assert RemoveAt(Braced, "}", l) == ["} {", "} {} a}=0"];
  }

  lemma {:induction false} BodyUncommented(b: string)
    requires IsBody(b)
    ensures Trim(b) == b && CommentAt(b).None?
  {
    hide Trim;
    TrimOfTrimmed(b);
    assert FirstComment(b, 0).None?;
  }

  /**
   * That the file still loads with the same rules is not enough to tell that normalising was safe:
   * the rule that no block can carry was put in front of a line that then becomes that rule.
   */
  lemma {:induction false} UnsafeKeepsRules()
    ensures Sound(Braced) && !NormalizeSafe(Braced, "}")
    ensures Sound(Normalized(Braced, "}")) && Rules(Normalized(Braced, "}")) == Rules(Braced) == [RawRule("}", "} a", "0")]
  {
    hide ViewOf, Walk, Attempts, SlipCount, ScanTo, Normalized, EntryNameOk, IsBody, CloseLike, HeaderFree;
    BracedViews();
    BracedParts();
    BracedNormal();
    BracedRun(Braced[0], Braced[1], Braced[2]);
    BracedRun("} {", "\t} a=0", "} {} a}=0");
    BracedGone();
    assert Braced == [Braced[0], Braced[1], Braced[2]];
  }

  /** A block of the package, closed at once, and a single-line rule behind it. */
  lemma {:induction false} BracedRun(a: string, b: string, c: string)
    requires ViewOf(a).Text? && ViewOf(a).outer == BareOpen("}")
    requires ViewOf(b).Text? && ViewOf(b).inner == Close
    requires ViewOf(c).Text? && ViewOf(c).outer == Single("}", "} a", "0", false)
    ensures Sound([a, b, c]) && Rules([a, b, c]) == [RawRule("}", "} a", "0")]
  {
    hide ViewOf, Walk, Attempts, SlipCount;
    RunCons(Start, a, [b, c]);
    RunCons(In("}"), b, [c]);
    RunCons(Start, c, []);
    NoLine(Start);
    assert [a] + [b, c] == [a, b, c] && [b] + [c] == [b, c] && [c] + [] == [c];
  }

  lemma {:induction false} BracedGone()
    ensures !NamesPrintable(Braced, "}")
  {
    hide ViewOf, Attempt, EntryNameOk, IsBody, CloseLike;
    BracedViews();
    BracedParts();
    var f := Braced;
    assert f == [f[0]] + [f[1], f[2]] && [f[1], f[2]] == [f[1]] + [f[2]];
    var last := Gone(Start, [f[2]], "}", SinglesOnly);
    LastGone(f[2]);
    NextOf(f[0], f[1]);
    GoneConcat(Start, [f[0], f[1]], [f[2]], "}", SinglesOnly);
    assert [f[0], f[1]] + [f[2]] == f;
    var r := RawRule("}", "} a", "0");
    assert r in last;
    assert r in Gone(Start, f, "}", SinglesOnly);
  }

  lemma {:induction false} LastGone(line: string)
    requires ViewOf(line).Text? && ViewOf(line).outer == Single("}", "} a", "0", false)
    ensures Gone(Start, [line], "}", SinglesOnly) == [RawRule("}", "} a", "0")]
  {
    hide ViewOf;
    assert [line][1..] == [];
    PickOne(Loc("} a", 0, true, false, false), SinglesOnly);
  }

  lemma {:induction false} NextOf(a: string, b: string)
    requires ViewOf(a).Text? && ViewOf(a).outer == BareOpen("}") && ViewOf(b).Text? && ViewOf(b).inner == Close
    ensures Walk(Start, [a, b]) == Start
  {
    hide ViewOf, Walk;
    RunCons(Start, a, [b]);
    OneLine(In("}"), b);
    assert [a] + [b] == [a, b];
  }
}
