/** Lines that do not fit: what each of them costs when the file is loaded, wherever it stands. */
module StrayLines {
  import opened Seqs
  import opened Text
  import opened RuleSyntax
  import opened LineShape
  import opened LinePrint
  import opened LineHeader
  import opened SpecTheorems
  import opened CpuSpec
  import opened Loader
  import opened PruneMeans
  import opened Splice
  import opened Written

  // ---- outside of blocks

  /** A name that is not followed by its brace is forgotten, and costs one failure unless the next line fails anyway. */
  lemma {:induction false} NameForgotten(topo: Topology, a: seq<string>, name: string, line: string, b: seq<string>)
    requires !Walk(Start, a).inBlock && Walk(Start, a).pending == ""
    requires PkgText(name) && IsBody(line) && ParseBody(line) != BareOpen("")
    requires ParseBody(line).BareOpen? || ParseBody(line).Pending? ==> ParseBody(line).pkg != ""
    ensures Load(topo, a + [name] + [line] + b).rules == Load(topo, a + [line] + b).rules
    ensures Load(topo, a + [name] + [line] + b).fails == Load(topo, a + [line] + b).fails + (if ParseBody(line).Junk? then 0 else 1)
  {
    hide ViewOf, Walk, Attempts, SlipCount, ParseBody, IsBody, Kept, RulePkgOk, HeaderOk, BareOk, PkgText;
    var c := Walk(Start, a);
    PkgTextFacts(name);
    NameIsBody(name);
    OuterRuns(name, c);
    OuterRuns(line, c);
    OuterRuns(line, c.(pending := name));
    SameAfter(c, name, ParseBody(line));
    TwoLines(a, name, line, b);
    ThreeParts(a, [line], b);
    NilLeft(Attempts(c, [line]));
  }

  lemma {:induction false} NameIsBody(name: string)
    requires PkgText(name)
    ensures IsBody(name)
  {
  }

  lemma {:induction false} SameAfter(c: Ctl, name: string, o: Outer)
    requires !c.inBlock && c.pending == "" && name != "" && o != BareOpen("")
    requires o.BareOpen? || o.Pending? ==> o.pkg != ""
    ensures var d, v := c.(pending := name), View.Text(Close, o);
            && Next(d, v) == Next(c, v) && Attempt(d, v) == Attempt(c, v)
            && Slips(d, v) && (Slips(c, v) <==> o.Junk?)
  {
  }

  lemma {:induction false} TwoLines(a: seq<string>, x: string, y: string, b: seq<string>)
    ensures var c := Walk(Start, a); var d := Walk(c, [x]);
            && Walk(Start, a + [x] + [y] + b) == Walk(Walk(d, [y]), b)
            && Rules(a + [x] + [y] + b) == Rules(a) + (Attempts(c, [x]) + Attempts(d, [y])) + Attempts(Walk(d, [y]), b)
            && SlipCount(Start, a + [x] + [y] + b) == SlipCount(Start, a) + SlipCount(c, [x]) + SlipCount(d, [y]) + SlipCount(Walk(d, [y]), b)
  {
    hide ViewOf, Walk, Attempts, SlipCount;
    ThreeParts(a, [x] + [y], b);
    var c := Walk(Start, a);
    WalkConcat(c, [x], [y]);
    AttemptsConcat(c, [x], [y]);
    SlipsConcat(c, [x], [y]);
    assert a + ([x] + [y]) + b == a + [x] + [y] + b;
  }

  /** A brace without a name in front of it costs one failure and opens nothing. */
  lemma {:induction false} LoneBrace(topo: Topology, a: seq<string>, b: seq<string>)
    requires !Walk(Start, a).inBlock && Walk(Start, a).pending == ""
    ensures Load(topo, a + ["{"] + b).rules == Load(topo, a + b).rules
    ensures Load(topo, a + ["{"] + b).fails == Load(topo, a + b).fails + 1
  {
    hide ViewOf, Walk, Load, IsBody, ParseBody;
    BraceBody();
    PrintedShows("{");
    LineCosts(topo, a, "{", b);
  }

  /** Outside of blocks a closing brace costs one failure and does nothing else, unless a name is waiting. */
  lemma {:induction false} StrayCloser(topo: Topology, a: seq<string>, b: seq<string>)
    requires !Walk(Start, a).inBlock && Walk(Start, a).pending == ""
    ensures Load(topo, a + ["}"] + b).rules == Load(topo, a + b).rules
    ensures Load(topo, a + ["}"] + b).fails == Load(topo, a + b).fails + 1
  {
    hide ViewOf, Walk, Load;
    CloserBody();
    PrintedShows("}");
    LineCosts(topo, a, "}", b);
  }

  // ---- inside of a block

  lemma {:induction false} InnerReads(line: string)
    requires IsBody(line)
    ensures ViewOf(line).Text?
    ensures ViewOf(line).inner == InnerOfBody(line, '}' in line)
  {
    hide ParseOuter, Trim;
    TrimOfTrimmed(line);
    assert FirstComment(line, 0).None?;
    assert line[..|line|] == line;
  }

  /** Inside a block a line without `=` and without a closing brace costs one failure and does nothing else. */
  lemma {:induction false} NoiseCosts(topo: Topology, a: seq<string>, line: string, b: seq<string>)
    requires Walk(Start, a).inBlock && IsBody(line) && '=' !in line && '}' !in line
    ensures Load(topo, a + [line] + b).rules == Load(topo, a + b).rules
    ensures Load(topo, a + [line] + b).fails == Load(topo, a + b).fails + 1
  {
    hide ViewOf, Walk, IsBody, Load, SplitBody;
    NoRule(line);
    BodyFacts(line);
    assert line[0] in line;
    InnerReads(line);
    LineCosts(topo, a, line, b);
  }

  /** A spec without a name costs one failure and is no rule. */
  lemma {:induction false} NamelessCosts(topo: Topology, a: seq<string>, spec: string, b: seq<string>)
    requires Walk(Start, a).inBlock && SpecText(spec)
    ensures Load(topo, a + ["=" + spec] + b).rules == Load(topo, a + b).rules
    ensures Load(topo, a + ["=" + spec] + b).fails == Load(topo, a + b).fails + 1
  {
    hide ViewOf, Walk, Load, IsBody, Kv, ClosesAt, PlainSpec;
    NamelessReads(spec);
    InnerReads("=" + spec);
    LineCosts(topo, a, "=" + spec, b);
  }

  lemma {:induction false} NamelessReads(spec: string)
    requires SpecText(spec)
    ensures var s := "=" + spec; IsBody(s) && '}' !in s && !CloseLike(s) && SplitBody(s).None?
  {
    hide Kv, Trim, IsWs;
    var s := "=" + spec;
    NilLeft(s);
    EmptyTrim();
    assert "" + "=" + spec == s;
    JoinNoComment("", spec);
    KvJoin("", spec);
    VisibleSigns();
    assert s[|s| - 1] == spec[|spec| - 1];
    assert ClosingBrace(s, 0).None?;
  }

  /** A line that is no rule but holds a closing brace costs one failure and closes the block. */
  lemma {:induction false} NoiseCloses(topo: Topology, a: seq<string>, line: string, b: seq<string>)
    requires Walk(Start, a).inBlock && IsBody(line) && '=' !in line && '}' in line && line[0] != '}'
    ensures Load(topo, a + [line] + b).rules == Load(topo, a + ["}"] + b).rules
    ensures Load(topo, a + [line] + b).fails == Load(topo, a + ["}"] + b).fails + 1
  {
    hide ViewOf, Walk, Attempts, SlipCount, IsBody, SplitBody, Kept;
    var c := Walk(Start, a);
    NoRule(line);
    InnerReads(line);
    CloserBody();
    InnerReads("}");
    OneLine(c, line);
    OneLine(c, "}");
    ThreeParts(a, [line], b);
    ThreeParts(a, ["}"], b);
  }

  lemma {:induction false} NoRule(line: string)
    requires '=' !in line
    ensures SplitBody(line).None?
  {
    hide Trim;
    assert RFind(line, '=').None?;
    forall i | 0 <= i < |line| ensures !ClosesAt(line, i) {
      assert RFind(line[..i], '=').None?;
    }
    assert ClosingBrace(line, 0).None?;
  }

  /** A brace in front closes the block without a failure, alone or with white space or a comment mark behind it. */
  lemma {:induction false} CloserCloses(topo: Topology, a: seq<string>, rest: string, b: seq<string>)
    requires Walk(Start, a).inBlock && (rest == "" || IsWs(rest[0]) || MarkAt(rest, 0))
    ensures Load(topo, a + ["}" + rest] + b) == Load(topo, a + ["}"] + b)
  {
    hide ViewOf, Walk, Load, MarkAt, IsWs;
    CloserReads(rest);
    CloserReads("");
    assert "}" + "" == "}";
    SameLine(topo, a, "}" + rest, "}", b);
  }

  lemma {:induction false} CloserReads(rest: string)
    requires rest == "" || IsWs(rest[0]) || MarkAt(rest, 0)
    ensures ViewOf("}" + rest).Text? && ViewOf("}" + rest).inner == Close
  {
    hide ParseOuter, SplitRuleLine, TrimEndLen, TrimStartLen, IsWs;
    var s := "}" + rest;
    VisibleSigns();
    TrimStartUnique("", s);
    NilLeft(s);
    var p := TrimEnd(s);
    assert Trim(s) == p;
    assert TrimEndLen(s) > 0 && p[0] == '}';
    assert TrimEndLen(s) <= |s| && forall i | 0 <= i < |p| :: p[i] == s[i];
    KeptMark(rest);
  }

  /** Trimming at the end leaves a mark whole. */
  lemma {:induction false} KeptMark(rest: string)
    requires rest == "" || IsWs(rest[0]) || MarkAt(rest, 0)
    ensures CloseLike(TrimEnd("}" + rest))
  {
    hide IsWs;
    VisibleSigns();
    var s := "}" + rest;
    var n := TrimEndLen(s);
    assert forall i | 0 <= i < |rest| :: s[i + 1] == rest[i];
    assert forall i | n <= i < |s| :: IsWs(s[i]);
    assert s[0] == '}';
    assert n > 0;
  }

  // ---- rules and the end of the file

  /** A rule that is not accepted costs one failure; one that is accepted costs none and is kept. */
  lemma {:induction false} RuleCosts(topo: Topology, a: seq<string>, line: string, b: seq<string>, r: RawRule)
    requires var c := Walk(Start, a); Next(c, ViewOf(line)) == c && Attempt(c, ViewOf(line)) == [r] && !Slips(c, ViewOf(line))
    ensures Load(topo, a + [line] + b).fails == Load(topo, a + b).fails + (if Accepts(topo, r) then 0 else 1)
    ensures r in Load(topo, a + [line] + b).rules || !Accepts(topo, r)
    ensures |Load(topo, a + [line] + b).rules| == |Load(topo, a + b).rules| + (if Accepts(topo, r) then 1 else 0)
  {
    hide ViewOf, Walk, Attempts, SlipCount, Next, Attempt, Slips, Accepts;
    var c := Walk(Start, a);
    OneLine(c, line);
    ThreeParts(a, [line], b);
    ThreeParts(a, [], b);
    NoLine(c);
    assert a + [] + b == a + b;
    var x, y := Rules(a), Attempts(c, b);
    NilLeft(x);
    KeptConcat(topo, x + [r], y);
    KeptConcat(topo, x, [r]);
    KeptConcat(topo, x, y);
    assert [r][1..] == [];
    assert Accepts(topo, r) ==> Kept(topo, [r]) == [r] && r in Kept(topo, [r]);
    KeptShorter(topo, x + [r] + y);
    KeptShorter(topo, x + y);
  }


  /** A name or a block left open at the end costs one failure. */
  lemma {:induction false} Unfinished(topo: Topology, a: seq<string>, pkg: string)
    requires Ends(a) && PkgText(pkg)
    ensures Load(topo, a + [pkg]).rules == Load(topo, a).rules && Load(topo, a + [pkg]).fails == Load(topo, a).fails + 1
    ensures Load(topo, a + [pkg + " {"]).rules == Load(topo, a).rules
    ensures Load(topo, a + [pkg + " {"]).fails == Load(topo, a).fails + 1
  {
    hide ViewOf, Walk, Attempts, SlipCount, ParseBody, IsBody, Kept, RulePkgOk, HeaderOk, BareOk, PkgText;
    var c := Walk(Start, a);
    PkgTextFacts(pkg);
    NameIsBody(pkg);
    BareOpenBody(pkg);
    NoEqInName(pkg);
    OuterRuns(pkg, c);
    OuterRuns(pkg + " {", c);
    LastLines(a, pkg);
    LastLines(a, pkg + " {");
    assert Rules(a) + [] == Rules(a);
  }

  lemma {:induction false} NoEqInName(pkg: string)
    requires PkgText(pkg)
    ensures BareOpenLine(pkg) == pkg + " {"
  {
  }

  lemma {:induction false} LastLines(a: seq<string>, line: string)
    ensures var c := Walk(Start, a);
            && Walk(Start, a + [line]) == Walk(c, [line]) && Rules(a + [line]) == Rules(a) + Attempts(c, [line])
            && SlipCount(Start, a + [line]) == SlipCount(Start, a) + SlipCount(c, [line])
  {
    hide ViewOf, Walk, Attempts, SlipCount;
    WalkConcat(Start, a, [line]);
    AttemptsConcat(Start, a, [line]);
    SlipsConcat(Start, a, [line]);
  }
}
