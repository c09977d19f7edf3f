/**
 * Rule files by their text: a file written in the documented forms loads to exactly the rules it
 * spells out, and every line that does not fit costs what it should.
 */
module Written {
  import opened Seqs
  import opened Text
  import opened RuleSyntax
  import opened LineShape
  import opened LinePrint
  import opened LineHeader
  import opened SpecTheorems
  import opened LineMarks
  import opened CpuSpec
  import opened Loader
  import opened PruneMeans
  import opened Splice

  // ---- the documented forms

  /** How a block is opened: by a name, a package rule or a thread rule with a brace, or by a brace of its own. */
  datatype Opener = Bare | WithRule(spec: string) | WithThread(thread: string, spec: string) | NextLine

  /** Whether the closing brace has a line of its own or stands behind the last rule. */
  datatype Closer = OwnLine | LastLine

  datatype Item =
    | PkgItem(pkg: string, spec: string)
    | ThreadItem(pkg: string, thread: string, spec: string)
    | Block(pkg: string, opener: Opener, entries: seq<(string, string)>, closer: Closer)

  predicate PkgText(s: string) { IsBody(s) && '{' !in s && '}' !in s && '=' !in s }

  predicate ThreadText(s: string) { IsBody(s) && '}' !in s }

  predicate SpecText(s: string) { s != "" && PlainSpec(s) && '{' !in s }

  predicate OpenerOk(o: Opener) {
    match o
    case Bare => true
    case WithRule(spec) => SpecText(spec)
    case WithThread(thread, spec) => ThreadText(thread) && SpecText(spec)
    case NextLine => true
  }

  predicate EntriesOk(es: seq<(string, string)>) {
    forall i | 0 <= i < |es| :: ThreadText(es[i].0) && SpecText(es[i].1)
  }

  predicate ItemOk(i: Item) {
    && PkgText(i.pkg)
    && match i
       case PkgItem(_, spec) => SpecText(spec)
       case ThreadItem(_, thread, spec) => ThreadText(thread) && SpecText(spec)
       case Block(_, opener, entries, closer) =>
         OpenerOk(opener) && EntriesOk(entries) && (closer == LastLine ==> entries != [])
  }

  // ---- what is written, and what it says

  function Opening(pkg: string, o: Opener): seq<string> {
    match o
    case Bare => [pkg + " {"]
    case WithRule(spec) => [pkg + "=" + spec + " {"]
    case WithThread(thread, spec) => [pkg + "{" + (thread + "}=" + spec + " {")]
    case NextLine => [pkg, "{"]
  }

  function Inside(es: seq<(string, string)>, closer: Closer): seq<string> {
    if es == [] then (if closer == OwnLine then ["}"] else [])
    else if |es| == 1 && closer == LastLine then ["\t" + (es[0].0 + "=" + es[0].1 + " }")]
    else ["\t" + (es[0].0 + "=" + es[0].1)] + Inside(es[1..], closer)
  }

  function ItemText(i: Item): seq<string> {
    match i
    case PkgItem(pkg, spec) => [pkg + "=" + spec]
    case ThreadItem(pkg, thread, spec) => [pkg + "{" + (thread + "}=" + spec)]
    case Block(pkg, opener, entries, closer) => Opening(pkg, opener) + Inside(entries, closer)
  }

  function FileText(items: seq<Item>): seq<string> {
    if items == [] then [] else ItemText(items[0]) + FileText(items[1..])
  }

  function OpeningSays(pkg: string, o: Opener): seq<RawRule> {
    match o
    case Bare => []
    case WithRule(spec) => [RawRule(pkg, "", spec)]
    case WithThread(thread, spec) => [RawRule(pkg, thread, spec)]
    case NextLine => []
  }

  function EntriesSay(pkg: string, es: seq<(string, string)>): seq<RawRule> {
    if es == [] then [] else [RawRule(pkg, es[0].0, es[0].1)] + EntriesSay(pkg, es[1..])
  }

  function ItemSays(i: Item): seq<RawRule> {
    match i
    case PkgItem(pkg, spec) => [RawRule(pkg, "", spec)]
    case ThreadItem(pkg, thread, spec) => [RawRule(pkg, thread, spec)]
    case Block(pkg, opener, entries, _) => OpeningSays(pkg, opener) + EntriesSay(pkg, entries)
  }

  function FileSays(items: seq<Item>): seq<RawRule> {
    if items == [] then [] else ItemSays(items[0]) + FileSays(items[1..])
  }

  /** From one state to another the lines add these rules, and none of them fails. */
  predicate Runs(c: Ctl, lines: seq<string>, rs: seq<RawRule>, d: Ctl) {
    Walk(c, lines) == d && Attempts(c, lines) == rs && SlipCount(c, lines) == 0
  }

  lemma {:induction false} RunsOn(c: Ctl, a: seq<string>, rs: seq<RawRule>, d: Ctl, b: seq<string>, qs: seq<RawRule>, e: Ctl)
    requires Runs(c, a, rs, d) && Runs(d, b, qs, e)
    ensures Runs(c, a + b, rs + qs, e)
  {
    hide ViewOf, Walk, Attempts, SlipCount;
    WalkConcat(c, a, b);
    AttemptsConcat(c, a, b);
    SlipsConcat(c, a, b);
  }

  lemma {:induction false} BodyFacts(b: string)
    requires IsBody(b)
    ensures b != "" && Trimmed(b) && NoComment(b)
  {
  }

  lemma {:induction false} SpecFacts(s: string)
    requires SpecText(s)
    ensures Trimmed(s) && NoComment(s)
  {
  }

  lemma {:induction false} VisibleSigns()
    ensures !IsWs('=') && !IsWs('}') && !IsWs('#') && !IsWs('/')
  {
  }

  lemma {:induction false} SpaceBlank()
    ensures AllWs(" ")
  {
  }

  // ---- outer lines

  lemma {:induction false} PkgTextFacts(pkg: string)
    requires PkgText(pkg)
    ensures RulePkgOk(pkg) && HeaderOk(pkg) && BareOk(pkg) && pkg != ""
    ensures ParseBody(pkg) == Pending(pkg)
  {
    hide IsWs, TrimEndLen, NoComment;
    assert pkg[0] in pkg && pkg[|pkg| - 1] in pkg && (pkg + "=")[0] == pkg[0];
    assert RFind(pkg, '=').None?;
  }

  lemma {:induction false} OuterRuns(b: string, c: Ctl)
    requires IsBody(b) && !c.inBlock
    ensures Walk(c, [b]) == Next(c, View.Text(Close, ParseBody(b)))
    ensures Attempts(c, [b]) == Attempt(c, View.Text(Close, ParseBody(b)))
    ensures SlipCount(c, [b]) == if Slips(c, View.Text(Close, ParseBody(b))) then 1 else 0
  {
    hide ViewOf, IsBody, ParseBody, InnerOfBody, Walk, Attempts, SlipCount;
    PrintedShows(b);
    OneLine(c, b);
  }

  lemma {:induction false} PkgRuns(pkg: string, spec: string)
    requires PkgText(pkg) && SpecText(spec)
    ensures Runs(Start, [pkg + "=" + spec], [RawRule(pkg, "", spec)], Start)
  {
    hide ParseBody, IsBody, PlainSpec, RulePkgOk, Walk, Attempts, SlipCount;
    PkgTextFacts(pkg);
    RuleBody(pkg, spec);
    OuterRuns(pkg + "=" + spec, Start);
  }

  lemma {:induction false} SingleIsBody(pkg: string, thread: string, spec: string)
    requires PkgText(pkg) && ThreadText(thread) && SpecText(spec)
    ensures IsBody(pkg + "{" + (thread + "}=" + spec)) && IsBody(pkg + "{" + (thread + "}=" + spec + " {"))
  {
    hide PlainSpec;
    var s, t := pkg + "{" + (thread + "}=" + spec), pkg + "{" + (thread + "}=" + spec + " {");
    BracedBody(pkg, thread);
    SpecFacts(spec);
    JoinBody(pkg + "{" + thread + "}", spec);
    assert s == (pkg + "{" + thread + "}") + "=" + spec;
    assert t == s + " " + "{";
    OpenIsBody(s, " ");
  }

  lemma {:induction false} BracedBody(pkg: string, thread: string)
    requires IsBody(pkg) && IsBody(thread)
    ensures IsBody(pkg + "{" + thread + "}")
  {
    var s := pkg + "{" + thread + "}";
    var n := |pkg| + 1;
    forall i | 0 <= i < |s| ensures !CommentStart(s, i) {
      if i < |pkg| {
        assert s[i] == pkg[i] && (i > 0 ==> s[i - 1] == pkg[i - 1]) && (i + 1 < |pkg| ==> s[i + 1] == pkg[i + 1]);
        assert !CommentStart(pkg, i);
      } else if n < i < n + |thread| {
        assert s[i] == thread[i - n] && s[i - 1] == thread[i - n - 1];
        assert i + 1 < n + |thread| ==> s[i + 1] == thread[i - n + 1];
        assert !CommentStart(thread, i - n);
      }
    }
    assert s[0] == pkg[0] && !MarkAt(pkg, 0) && (|pkg| > 1 ==> s[1] == pkg[1]);
  }

  lemma {:induction false} ThreadTextFacts(thread: string, spec: string)
    requires ThreadText(thread) && SpecText(spec)
    ensures EntryNameOk(thread) && Trimmed(thread) && thread != ""
    ensures Trimmed(spec) && '=' !in spec && '{' !in spec && '}' !in spec && spec[|spec| - 1] != '{'
  {
    hide IsWs, TrimEndLen, NoComment;
    assert thread[0] in thread && (thread + "=")[0] == thread[0];
    assert spec[|spec| - 1] in spec;
  }

  lemma {:induction false} ThreadRuns(pkg: string, thread: string, spec: string)
    requires PkgText(pkg) && ThreadText(thread) && SpecText(spec)
    ensures Runs(Start, [pkg + "{" + (thread + "}=" + spec)], [RawRule(pkg, thread, spec)], Start)
    ensures Runs(Start, [pkg + "{" + (thread + "}=" + spec + " {")], [RawRule(pkg, thread, spec)], Ctl(true, pkg, ""))
  {
    hide ParseBody, IsBody, PlainSpec, EntryNameOk, Walk, Attempts, SlipCount, Trimmed;
    SingleIsBody(pkg, thread, spec);
    ThreadTextFacts(thread, spec);
    SingleReads(pkg, thread, spec);
    SingleOpens(pkg, thread, spec);
    OuterRuns(pkg + "{" + (thread + "}=" + spec), Start);
    OuterRuns(pkg + "{" + (thread + "}=" + spec + " {"), Start);
  }

  lemma {:induction false} BraceBody()
    ensures IsBody("{") && ParseBody("{") == BareOpen("")
  {
    assert "{"[..0] == "";
    assert TrimEnd("") == "";
    assert OpenBody("{") == (true, "");
  }

  lemma {:induction false} OpeningRuns(pkg: string, o: Opener)
    requires PkgText(pkg) && OpenerOk(o)
    ensures Runs(Start, Opening(pkg, o), OpeningSays(pkg, o), Ctl(true, pkg, ""))
  {
    hide ParseBody, IsBody, PlainSpec, RulePkgOk, HeaderOk, BareOk, Walk, Attempts, SlipCount;
    PkgTextFacts(pkg);
    match o {
      case Bare =>
        BareOpenBody(pkg);
        OuterRuns(pkg + " {", Start);
      case WithRule(spec) =>
        RuleOpenBody(pkg, spec);
        OuterRuns(pkg + "=" + spec + " {", Start);
      case WithThread(thread, spec) =>
        ThreadRuns(pkg, thread, spec);
      case NextLine =>
        BraceBody();
        var waiting := Ctl(false, "", pkg);
        assert IsBody(pkg);
        OuterRuns(pkg, Start);
        OuterRuns("{", waiting);
        RunsOn(Start, [pkg], [], waiting, ["{"], [], Ctl(true, pkg, ""));
        assert [pkg] + ["{"] == [pkg, "{"];
    }
  }

  // ---- lines in a block

  lemma {:induction false} EntryRun(c: Ctl, thread: string, spec: string)
    requires c.inBlock && ThreadText(thread) && SpecText(spec)
    ensures Runs(c, ["\t" + (thread + "=" + spec)], [RawRule(c.cur, thread, spec)], c)
  {
    hide ViewOf, IsBody, PlainSpec, EntryNameOk, Walk, Attempts, SlipCount;
    ThreadTextFacts(thread, spec);
    EntryLineShows(thread, spec, "");
    var line := "\t" + (thread + "=" + spec);
    assert EntryLine(thread, spec) + "" == line;
    OneLine(c, line);
  }

  lemma {:induction false} LastBody(thread: string, spec: string)
    requires ThreadText(thread) && SpecText(spec)
    ensures var b := thread + "=" + spec + " }"; IsBody(b) && !CloseLike(b) && SplitBody(b) == Some((thread, spec, true))
  {
    hide IsBody, PlainSpec, EntryNameOk, CommentStart, IsWs, Trim;
    ThreadTextFacts(thread, spec);
    EntryBody(thread, spec);
    var a := thread + "=" + spec;
    var b := a + " }";
    ClosedIsBody(a);
    BodyFacts(thread);
    assert a[0] == b[0] && thread[0] == a[0] && thread[0] in thread;
    var n := |a| + 1;
    assert b[..n] == a + " " == thread + "=" + (spec + " ");
    assert '=' !in spec + " ";
    KvJoin(thread, spec + " ");
    TrimOfTrimmed(thread);
    SpaceBlank();
    TrimMore(spec, " ");
    TrimOfTrimmed(spec);
    forall i | 0 <= i < n ensures !ClosesAt(b, i) {
      NoBraceHere(thread, spec, i);
    }
    ClosingAt(b, 0, n);
  }

  lemma {:induction false} NoBraceHere(thread: string, spec: string, i: nat)
    requires '}' !in thread && '}' !in spec && i <= |thread + "=" + spec|
    ensures (thread + "=" + spec + " }")[i] != '}'
  {
    var b := thread + "=" + spec + " }";
    assert i < |thread| ==> b[i] == thread[i] && thread[i] in thread;
    assert |thread| < i <= |thread| + |spec| ==> b[i] == spec[i - |thread| - 1] && spec[i - |thread| - 1] in spec;
  }

  lemma {:induction false} ClosingAt(b: string, from: nat, at: nat)
    requires from <= at < |b| && ClosesAt(b, at) && forall i | from <= i < at :: !ClosesAt(b, i)
    ensures ClosingBrace(b, from) == Some(at)
    decreases at - from
  {
    hide ClosesAt;
    if from < at {
      ClosingAt(b, from + 1, at);
    }
  }

  lemma {:induction false} ClosedIsBody(a: string)
    requires IsBody(a)
    ensures IsBody(a + " }")
  {
    hide IsWs;
    var s := a + " }";
    forall i | 0 <= i < |s| ensures !CommentStart(s, i) {
      if i < |a| {
        assert s[i] == a[i] && (i > 0 ==> s[i - 1] == a[i - 1]) && (i + 1 < |a| ==> s[i + 1] == a[i + 1]);
        assert !CommentStart(a, i);
      }
    }
    assert s[0] == a[0] && !MarkAt(a, 0) && (|a| > 1 ==> s[1] == a[1]);
    VisibleSigns();
  }

  lemma {:induction false} LastRun(c: Ctl, thread: string, spec: string)
    requires c.inBlock && c.pending == "" && ThreadText(thread) && SpecText(spec)
    ensures Runs(c, ["\t" + (thread + "=" + spec + " }")], [RawRule(c.cur, thread, spec)], Start)
  {
    hide ViewOf, IsBody, PlainSpec, Walk, Attempts, SlipCount, SplitBody, CloseLike, IsTail;
    var b := thread + "=" + spec + " }";
    var line := "\t" + b;
    LastBody(thread, spec);
    EmptyTail();
    assert line == "\t" + b + "";
    assert AllWs("\t");
    LineShows(line, "\t", b, "");
    ShowsEntry(ViewOf(line), b);
    OneLine(c, line);
  }

  lemma {:induction false} CloserRun(c: Ctl)
    requires c.inBlock && c.pending == ""
    ensures Runs(c, ["}"], [], Start)
  {
    hide ViewOf, Walk, Attempts, SlipCount;
    CloserBody();
    PrintedShows("}");
    OneLine(c, "}");
  }

  lemma {:induction false} InsideRuns(pkg: string, es: seq<(string, string)>, closer: Closer)
    requires EntriesOk(es) && (closer == LastLine ==> es != [])
    ensures Runs(Ctl(true, pkg, ""), Inside(es, closer), EntriesSay(pkg, es), Start)
    decreases |es|
  {
    hide Runs, ThreadText, SpecText;
    var c := Ctl(true, pkg, "");
    if es == [] {
      CloserRun(c);
    } else if |es| == 1 && closer == LastLine {
      var r := RawRule(pkg, es[0].0, es[0].1);
      assert EntriesSay(pkg, es[1..]) == [] && EntriesSay(pkg, es) == [r];
      LastRun(c, es[0].0, es[0].1);
    } else {
      var line, r := "\t" + (es[0].0 + "=" + es[0].1), RawRule(pkg, es[0].0, es[0].1);
      EntryRun(c, es[0].0, es[0].1);
      InsideRuns(pkg, es[1..], closer);
      RunsOn(c, [line], [r], c, Inside(es[1..], closer), EntriesSay(pkg, es[1..]), Start);
    }
  }

  // ---- whole files

  lemma {:induction false} ItemRuns(i: Item)
    requires ItemOk(i)
    ensures Runs(Start, ItemText(i), ItemSays(i), Start)
  {
    hide Runs, PkgText, ThreadText, SpecText, Opening, Inside, EntriesSay, OpeningSays;
    match i {
      case PkgItem(pkg, spec) => PkgRuns(pkg, spec);
      case ThreadItem(pkg, thread, spec) => ThreadRuns(pkg, thread, spec);
      case Block(pkg, opener, entries, closer) =>
        OpeningRuns(pkg, opener);
        InsideRuns(pkg, entries, closer);
        RunsOn(Start, Opening(pkg, opener), OpeningSays(pkg, opener), Ctl(true, pkg, ""),
               Inside(entries, closer), EntriesSay(pkg, entries), Start);
    }
  }

  lemma {:induction false} FileRuns(items: seq<Item>)
    requires forall i | i in items :: ItemOk(i)
    ensures Runs(Start, FileText(items), FileSays(items), Start)
    decreases |items|
  {
    hide ItemOk, ItemText, ItemSays;
    if items == [] {
      NoLine(Start);
    } else {
      hide Runs;
      ItemRuns(items[0]);
      FileRuns(items[1..]);
      RunsOn(Start, ItemText(items[0]), ItemSays(items[0]), Start, FileText(items[1..]), FileSays(items[1..]), Start);
    }
  }

  /** A file in the documented forms loads to the accepted rules it spells out, in order, and fails once per rejected one. */
  lemma {:induction false} FileLoads(topo: Topology, items: seq<Item>)
    requires forall i | i in items :: ItemOk(i)
    ensures var says, l := FileSays(items), Load(topo, FileText(items));
            && l.rules == Kept(topo, says) && l.fails == |says| - |Kept(topo, says)|
            && (l.fails == 0 <==> forall r | r in says :: Accepts(topo, r)) && (l.fails == 0 ==> l.rules == says)
  {
    hide ItemOk, FileText, FileSays, Accepts;
    FileRuns(items);
    KeptAll(topo, FileSays(items));
  }

  // ---- what changes nothing

  /** A line that leaves the loader where it was, and adds no rule: put anywhere, it only costs its own failure. */
  lemma {:induction false} LineCosts(topo: Topology, a: seq<string>, line: string, b: seq<string>)
    requires var c := Walk(Start, a); Next(c, ViewOf(line)) == c && Attempt(c, ViewOf(line)) == []
    ensures Load(topo, a + [line] + b).rules == Load(topo, a + b).rules
    ensures Load(topo, a + [line] + b).fails == Load(topo, a + b).fails + (if Slips(Walk(Start, a), ViewOf(line)) then 1 else 0)
  {
    hide ViewOf, Walk, Attempts, SlipCount, Kept, Next, Attempt, Slips;
    var c := Walk(Start, a);
    OneLine(c, line);
    ThreeParts(a, [line], b);
    ThreeParts(a, [], b);
    NoLine(c);
    assert a + [] + b == a + b;
    KeptShorter(topo, Rules(a + b));
    NilLeft(Rules(a));
  }

  /** Lines with the same meaning wherever they stand load alike. */
  lemma {:induction false} SameLine(topo: Topology, a: seq<string>, x: string, y: string, b: seq<string>)
    requires var c, v, w := Walk(Start, a), ViewOf(x), ViewOf(y);
             Next(c, v) == Next(c, w) && Attempt(c, v) == Attempt(c, w) && Slips(c, v) == Slips(c, w)
    ensures Load(topo, a + [x] + b) == Load(topo, a + [y] + b)
  {
    hide ViewOf, Walk, Attempts, SlipCount, Next, Attempt, Slips, Kept;
    var c := Walk(Start, a);
    OneLine(c, x);
    OneLine(c, y);
    ThreeParts(a, [x], b);
    ThreeParts(a, [y], b);
  }

  lemma {:induction false} SkippedFree(topo: Topology, a: seq<string>, line: string, b: seq<string>)
    requires ViewOf(line) == Skip
    ensures Load(topo, a + [line] + b) == Load(topo, a + b)
  {
    hide ViewOf, Walk, Load;
    LineCosts(topo, a, line, b);
  }

  /** A blank line may stand anywhere. */
  lemma {:induction false} BlankFree(topo: Topology, a: seq<string>, line: string, b: seq<string>)
    requires AllWs(line)
    ensures Load(topo, a + [line] + b) == Load(topo, a + b)
  {
    hide Load, IsWs, InnerView, ParseOuter, Trim;
    TrimBlank(line);
    SkippedFree(topo, a, line, b);
  }

  /** And so may a line that is a comment. */
  lemma {:induction false} CommentFree(topo: Topology, a: seq<string>, lead: string, mark: string, text: string, b: seq<string>)
    requires AllWs(lead) && mark in {"#", "//"}
    ensures Load(topo, a + [lead + (mark + text)] + b) == Load(topo, a + b)
  {
    hide Load, IsWs, ViewOf;
    CommentSkipped(lead, mark, text);
    SkippedFree(topo, a, lead + (mark + text), b);
  }

  /** A comment behind a line changes nothing, as long as it holds no closing brace. */
  lemma {:induction false} RemarkFree(topo: Topology, a: seq<string>, line: string, gap: string, mark: string, text: string, b: seq<string>)
    requires IsBody(line) && gap != "" && AllWs(gap) && mark in {"#", "//"} && '}' !in text
    ensures Load(topo, a + [line + (gap + mark + text)] + b) == Load(topo, a + [line] + b)
  {
    hide Load, IsWs, ViewOf, IsBody;
    RemarkView(line, gap, mark, text);
    SameLine(topo, a, line + (gap + mark + text), line, b);
  }

  lemma {:induction false} RemarkView(line: string, gap: string, mark: string, text: string)
    requires IsBody(line) && gap != "" && AllWs(gap) && mark in {"#", "//"} && '}' !in text
    ensures ViewOf(line + (gap + mark + text)) == ViewOf(line)
  {
    hide IsWs, IsBody, InnerOfBody, ParseBody, SplitRuleLine, CloseLike, IsTail, Trim;
    var t := gap + mark + text;
    CommentIgnored(line, gap, mark, text);
    PrintedShows(line);
    MarkedTail(gap, mark, text);
    EmptyLead(line, t);
    EmptyLead(line, "");
    EmptyTail();
    TrimLine(line + t, "", line, t);
    TrimLine(line, "", line, "");
    assert TrimEnd("") == "";
    NoBraceIn(gap, mark, text);
    NoiseSame(line + t, line, line);
  }

  lemma {:induction false} NoBraceIn(gap: string, mark: string, text: string)
    requires AllWs(gap) && mark in {"#", "//"} && '}' !in text
    ensures '}' !in TrimEnd(gap + mark + text)
  {
    var t := gap + mark + text;
    forall i | 0 <= i < |t| ensures t[i] != '}' {
      assert i < |gap| ==> t[i] == gap[i] && IsWs(gap[i]);
      assert i >= |gap| + |mark| ==> t[i] == text[i - |gap| - |mark|] && t[i] in text;
    }
  }

  /** Two readings of one body differ at most in whether a line that is no rule closes the block. */
  lemma {:induction false} NoiseSame(x: string, y: string, b: string)
    requires Shows(ViewOf(x), b) && Shows(ViewOf(y), b) && ('}' in Trim(x) <==> '}' in Trim(y))
    ensures ViewOf(x) == ViewOf(y)
  {
    hide ParseBody, SplitBody, SplitRuleLine, CloseLike, Trim, ParseOuter;
  }

  /** A name with an empty spec is a name. */
  lemma {:induction false} SpecMissing(topo: Topology, a: seq<string>, pkg: string, b: seq<string>)
    requires PkgText(pkg) && !Walk(Start, a).inBlock
    ensures Load(topo, a + [pkg + "="] + b) == Load(topo, a + [pkg] + b)
    ensures Load(topo, a + [pkg + "= {"] + b) == Load(topo, a + [pkg + " {"] + b)
  {
    hide Load, ViewOf, Walk, IsBody, ParseBody;
    EmptySpecReads(pkg);
    SameOuter(topo, a, pkg + "=", pkg, b);
    SameOuter(topo, a, pkg + "= {", pkg + " {", b);
  }

  lemma {:induction false} SameOuter(topo: Topology, a: seq<string>, x: string, y: string, b: seq<string>)
    requires IsBody(x) && IsBody(y) && ParseBody(x) == ParseBody(y) && !Walk(Start, a).inBlock
    ensures Load(topo, a + [x] + b) == Load(topo, a + [y] + b)
  {
    hide Load, ViewOf, Walk, IsBody, ParseBody;
    PrintedShows(x);
    PrintedShows(y);
    SameLine(topo, a, x, y, b);
  }

  lemma {:induction false} EmptySpecReads(pkg: string)
    requires PkgText(pkg)
    ensures IsBody(pkg) && IsBody(pkg + "=") && IsBody(pkg + "= {") && IsBody(pkg + " {")
    ensures ParseBody(pkg + "=") == ParseBody(pkg) && ParseBody(pkg + "= {") == ParseBody(pkg + " {") == BareOpen(pkg)
  {
    hide IsBody, Trim, IsWs;
    PkgTextFacts(pkg);
    EmptyTrim();
    assert Trimmed("") && NoComment("");
    JoinBody(pkg, "");
    assert pkg + "=" + "" == pkg + "=";
    BareOpenBody(pkg);
    OpenIsBody(pkg + "=", " ");
    assert (pkg + "=") + " " + "{" == pkg + "= {";
    OpenBodyOf(pkg + "=", " ");
    KvEq(pkg);
    BodyFacts(pkg);
    SplitSingleJoin(pkg, "");
    TrimOfTrimmed(pkg);
    assert pkg[0] in pkg && (pkg + "=")[0] == pkg[0];
    var s := pkg + "=";
    assert s[..|pkg|] == pkg && s[|pkg| + 1..] == "";
  }

  lemma {:induction false} KvEq(pkg: string)
    ensures RFind(pkg + "=", '=') == Some(|pkg|)
  {
    RFindUnique(pkg, '=', "");
    assert pkg + "=" + "" == pkg + "=";
  }
}
