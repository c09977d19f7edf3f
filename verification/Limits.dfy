/** Exactly when the hypotheses of the theorems are needed. */
module Limits {
  import opened Seqs
  import opened Text
  import opened RuleSyntax
  import opened LineShape
  import opened LinePrint
  import opened LineHeader
  import opened LineParts
  import opened LineRename
  import opened CpuSpec
  import opened Loader
  import opened RuleSets
  import opened Scan
  import opened ScanSim
  import opened ScanFacts
  import opened PruneMeans
  import opened Splice
  import opened Normalize
  import opened NormalizeProof
  import opened NormalizeMain
  import opened NormalForm
  import opened Upsert
  import opened UpsertMain
  import opened Delete

  // ---- the scan and the loader

  predicate Agrees(lines: seq<string>, n: nat, pkg: string)
    requires n <= |lines|
  {
    Sim(lines, n, At(lines, n), ScanTo(lines, n, pkg), pkg)
  }

  predicate OrphanAt(lines: seq<string>, n: nat, pkg: string)
    requires n < |lines|
  {
    Orphan(At(lines, n), ViewOf(lines[n]), ScanTo(lines, n, pkg))
  }

  lemma {:induction false} OrphanParts(lines: seq<string>, n: nat, pkg: string)
    requires n < |lines| && OrphanAt(lines, n, pkg) && Agrees(lines, n, pkg)
    ensures !Agrees(lines, n + 1, pkg)
  {
    hide ViewOf, Walk;
    AtNext(lines, n);
  }

  lemma {:induction false} AgreesTo(lines: seq<string>, n: nat, pkg: string)
    requires n <= |lines| && pkg != "" && forall k | 0 <= k < n :: !OrphanAt(lines, k, pkg)
    ensures Agrees(lines, n, pkg)
  {
    hide ViewOf, Next, Step, Orphan;
    if n == 0 {
      TakeAll(lines);
    } else {
      AgreesTo(lines, n - 1, pkg);
      assert !OrphanAt(lines, n - 1, pkg);
      SimStep(lines, n - 1, At(lines, n - 1), ScanTo(lines, n - 1, pkg), pkg);
      AtNext(lines, n - 1);
    }
  }

  /** The two machines agree after every line exactly when no `{` on its own follows a bare `=`. */
  lemma {:induction false} ScanAgreesIff(lines: seq<string>, pkg: string)
    requires pkg != ""
    ensures (forall n | 0 <= n <= |lines| :: Agrees(lines, n, pkg))
       <==> (forall n | 0 <= n < |lines| :: !OrphanAt(lines, n, pkg))
  {
    hide Agrees, OrphanAt;
    if forall n | 0 <= n < |lines| :: !OrphanAt(lines, n, pkg) {
      forall n | 0 <= n <= |lines| ensures Agrees(lines, n, pkg) {
        AgreesTo(lines, n, pkg);
      }
    } else {
      var n :| 0 <= n < |lines| && OrphanAt(lines, n, pkg);
      if Agrees(lines, n, pkg) {
        OrphanParts(lines, n, pkg);
      }
    }
  }

  // ---- a comment on the line that becomes a block's header

  /** Read outside of blocks, a printed entry opens nothing. */
  predicate OpensNothing(line: string) {
    var v := ViewOf(line);
    v.Text? ==> !v.outer.BareOpen? && (v.outer.Rule? || v.outer.Single? ==> !v.outer.open)
  }

  lemma {:induction false} EntryOpensNothing(name: string, spec: string, t: string)
    requires EntryNameOk(name) && SpecLike(spec) && Trimmed(spec) && IsTail(t)
    ensures OpensNothing(EntryLine(name, spec) + t)
  {
    hide ViewOf, IsTail, SpecLike, ParseBody, EntryNameOk;
    SpecIsPlain(spec);
    var b := name + "=" + spec;
    EntryBody(name, spec);
    TabJoin(name, spec, t);
    LineShows("\t" + b + t, "\t", b, t);
    EntryOuter(name, spec);
  }

  lemma {:induction false} ClosedNext(c: Ctl, line: string)
    requires !c.inBlock && OpensNothing(line)
    ensures !Next(c, ViewOf(line)).inBlock
  {
    hide ViewOf;
  }

  lemma {:induction false} EntryOuter(name: string, spec: string)
    requires spec != "" && SpecChars(spec) && '=' !in spec
    ensures var o := ParseBody(name + "=" + spec);
            !o.BareOpen? && (o.Rule? || o.Single? ==> !o.open)
  {
    hide Trim, SplitSingle, CloseLike;
    var b := name + "=" + spec;
    assert b[|b| - 1] == spec[|spec| - 1];
    assert !OpenBody(b).0;
  }

  lemma {:induction false} CommentEntryOpensNothing(name: string, spec: string, prev: string)
    requires EntryNameOk(name) && SpecLike(spec) && Trimmed(spec) && ViewOf(prev).Text?
    ensures OpensNothing(WithComment(EntryLine(name, spec), Trim(prev)))
  {
    hide ViewOf, IsTail, IsBody, EntryNameOk, Trim, CommentAt, TrimEnd, EntryLine, OpensNothing, SpecLike, Trimmed;
    var lead, pb, t := Decompose(prev);
    TrimLine(prev, lead, pb, t);
    var p, u := Trim(prev), TrimEnd(t);
    CommentAtLine(p, "", pb, u);
    assert p[|pb|..] == u;
    EmptyTail();
    EntryOpensNothing(name, spec, if TrimStartLen(u) == |u| then "" else u);
    NilLeft(EntryLine(name, spec));
  }

  predicate AllOpenNothing(items: seq<string>) {
    forall k | 0 <= k < |items| :: OpensNothing(items[k])
  }

  lemma {:induction false} ItemsOpenNothing(c: Ctl, lines: seq<string>, pkg: string)
    requires forall r | r in Gone(c, lines, pkg, SinglesOnly) :: Printable(r)
    ensures AllOpenNothing(ItemsOf(c, lines, pkg))
    decreases |lines|
  {
    hide ViewOf, Next, LocOf, ItemOf, Attempt, Pick, OpensNothing, EntryNameOk, SpecLike;
    if lines != [] {
      var v := ViewOf(lines[0]);
      ItemsOpenNothing(Next(c, v), lines[1..], pkg);
      if Pick(LocOf(c, v, 0, pkg), SinglesOnly) != [] {
        SinglePicked(c, lines[0], pkg);
        ItemIs(lines[0]);
        ViewNames(lines[0]);
        assert RawRule(pkg, v.outer.thread, v.outer.cpus) in Attempt(c, v);
        assert RawRule(pkg, v.outer.thread, v.outer.cpus) in Gone(c, lines, pkg, SinglesOnly);
        CommentEntryOpensNothing(v.outer.thread, v.outer.cpus, lines[0]);
      }
    }
  }

  lemma {:induction false} StaysOutside(c: Ctl, items: seq<string>)
    requires !c.inBlock && AllOpenNothing(items)
    ensures !Walk(c, items).inBlock
    decreases |items|
  {
    hide ViewOf, Next, OpensNothing;
    if items != [] {
      assert OpensNothing(items[0]);
      assert forall k | 0 <= k < |items| - 1 :: items[1..][k] == items[k + 1];
      ClosedNext(c, items[0]);
      StaysOutside(Next(c, ViewOf(items[0])), items[1..]);
    }
  }

  lemma {:induction false} CloserSlips(c: Ctl)
    requires !c.inBlock
    ensures Slips(c, ViewOf("}"))
  {
    hide ViewOf;
    CloserBody();
    PrintedShows("}");
  }

  /** Behind a header that was swallowed by a comment, the block's closer fails. */
  lemma {:induction false} HeaderBreaks(cut: seq<string>, i: nat, items: seq<string>, pkg: string)
    requires i < |cut| && At(cut, i) == Start && AllOpenNothing(items)
    requires ViewOf(cut[i]).Text? && ViewOf(cut[i]).outer.Rule? && !ViewOf(cut[i]).outer.open && CommentAt(cut[i]).Some?
    ensures !Calm(cut[..i] + ([TrimEnd(cut[i]) + " {"] + items + ["}"]) + cut[i + 1..])
  {
    hide ViewOf, Walk, SlipCount, AllOpenNothing, TrimEnd, CommentAt, Slips;
    var header := TrimEnd(cut[i]) + " {";
    AppendOpen(cut[i]);
    OneLine(Start, header);
    RuleStays(ViewOf(header));
    StaysOutside(Start, items);
    var c := Walk(Start, items);
    CloserSlips(c);
    OneLine(c, "}");
    SlipsConcat(Start, [header] + items, ["}"]);
    WalkConcat(Start, [header], items);
    AtIs(cut, i);
    ThreeParts(cut[..i], [header] + items + ["}"], cut[i + 1..]);
  }

  /** Putting rules into the file keeps it sound exactly when the header line has no comment. */
  lemma {:induction false} InsertedSoundIff(cut: seq<string>, pkg: string, items: seq<string>, g: seq<RawRule>, at: nat)
    requires Sound(cut) && pkg != "" && RunsIn(pkg, items, g) && AllOpenNothing(items)
    requires NewBlock(ScanOf(cut, pkg)) ==> BareOk(pkg)
    requires at <= |cut| && At(cut, at) == Start
    ensures Sound(Inserted(cut, ScanOf(cut, pkg), pkg, items, at)) <==> HeaderFree(cut, ScanOf(cut, pkg))
  {
    hide ViewOf, Walk, SlipCount, AllOpenNothing, TrimEnd, CommentAt, ScanTo, RunsIn, BareOk, NoNaming, Naming, Ends, BareOpenLine;
    var t := ScanOf(cut, pkg);
    if HeaderFree(cut, t) {
      var before, after := InsertMeans(cut, pkg, items, g, at);
    } else {
      PkgLineFacts(cut, |cut|, pkg);
      var i := t.pkgLine.value.idx;
      StandaloneAt(cut, i, pkg);
      HeaderBreaks(cut, i, items, pkg);
    }
  }

  /**
   * Normalising a loadable file whose single-line rules have printable names gives a loadable
   * file exactly when the standalone line that becomes the block's header has no comment.
   */
  lemma {:induction false} NormalizeGoodIff(topo: Topology, lines: seq<string>, pkg: string)
    requires Good(topo, lines) && pkg != "" && NamesPrintable(lines, pkg)
    ensures Good(topo, Normalized(lines, pkg)) <==> NormalizeSafe(lines, pkg)
  {
    hide ViewOf, Attempts, Gone, ItemsOf, ScanTo, Printable, Inserted, HeaderFree, SpecsLike, Cut, Items, Pick, Gives, BareOk, Walk, SlipCount, Accepts, AllOpenNothing, EntryNameOk, SameFor;
    GoodIs(topo, lines);
    AcceptedSpecs(topo, Rules(lines));
    CutIsPruned(lines, pkg);
    NeverGives(lines, pkg);
    GoodIs(topo, Normalized(lines, pkg));
    if NormalizeSafe(lines, pkg) {
      NormalizeMeans(lines, pkg);
      SameGood(topo, Rules(Normalized(lines, pkg)), Rules(lines), pkg);
    } else {
      GonePrintable(lines, pkg);
      ItemsRun(Start, lines, pkg);
      CutFacts(lines, pkg);
      SinglesHaveItems(lines, pkg);
      ItemsOpenNothing(Start, lines, pkg);
      InsertedSoundIff(Cut(lines, pkg), pkg, ItemsOf(Start, lines, pkg), Gone(Start, lines, pkg, SinglesOnly),
                       Singles(ScanOf(lines, pkg).threads)[0].idx);
    }
  }

  lemma {:induction false} SameGood(topo: Topology, a: seq<RawRule>, b: seq<RawRule>, pkg: string)
    requires SameFor(a, b, pkg) && forall r | r in b :: Accepts(topo, r)
    ensures forall r | r in a :: Accepts(topo, r)
  {
    hide Accepts, Select;
    SameAccepted(topo, a, b);
  }

  lemma {:induction false} AcceptedSpecs(topo: Topology, rs: seq<RawRule>)
    requires forall r | r in rs :: Accepts(topo, r)
    ensures SpecsLike(rs)
  {
    hide SpecLike, SpecCpus, PkgOk, ThreadOk;
  }

  lemma {:induction false} SinglesHaveItems(lines: seq<string>, pkg: string)
    requires pkg != "" && Calm(lines) && Singles(ScanOf(lines, pkg).threads) != []
    requires Gone(Start, lines, pkg, SinglesOnly) == [] <==> ItemsOf(Start, lines, pkg) == []
    ensures ItemsOf(Start, lines, pkg) != []
  {
    hide ScanTo, Pick, LocsOf, Gone, SlipCount, ItemsOf;
    NoSinglesIff(lines, pkg);
  }

  // ---- new names with `=`

  /** A line can take a new name exactly when it is not a bare name with a comment, or the name has no `=`. */
  lemma {:induction false} RenameLineExact(raw: string, from: string, to: string)
    requires ViewOf(raw).Text? && NamedBy(ViewOf(raw).outer) == Some(from) && from != "" && NewNameOk(to)
    ensures ViewOf(RenameText(raw, from, to)).Text? && ViewOf(RenameText(raw, from, to)).outer == Renamed(ViewOf(raw).outer, to)
       <==> RenameLineOk(raw, from, to)
  {
    hide ViewOf, RenameText, RenameLineOk, NewNameOk;
    if RenameLineOk(raw, from, to) {
      RenameShows(raw, from, to);
    } else {
      RenameFails(raw, from, to);
    }
  }

  lemma {:induction false} RenameFails(raw: string, from: string, to: string)
    requires ViewOf(raw).Text? && NamedBy(ViewOf(raw).outer) == Some(from) && from != "" && NewNameOk(to)
    requires !RenameLineOk(raw, from, to)
    ensures ViewOf(RenameText(raw, from, to)).Text? ==> ViewOf(RenameText(raw, from, to)).outer != Renamed(ViewOf(raw).outer, to)
  {
    hide ViewOf, ParseBody, IsBody, IsTail, Trim, StripComment, CommentAt, TrimStartLen;
    var lead, b, t := Decompose(raw);
    TrimLine(raw, lead, b, t);
    var u := TrimEnd(t);
    TrimmedTail(t);
    CommentAtLine(raw, lead, b, t);
    MarkStays(t);
    var g := BareRest(b, from);
    RenameBareFails(b, u, from, to, g);
  }

  lemma {:induction false} RenameBareFails(b: string, u: string, from: string, to: string, g: string)
    requires IsBody(b) && IsTail(u) && from <= b && NewNameOk(to) && '=' in to && AllWs(g)
    requires exists k | 0 <= k < |u| :: u[k] in {'#', '/'}
    requires b[|from|..] == g + "{" || b == from
    ensures var v := ViewOf(to + RenameTail(to, (b + u)[|from|..])); v.Text? ==> NamedBy(v.outer) != Some(to)
  {
    hide ViewOf, ParseBody, IsBody, IsTail, Trim;
    var r := b[|from|..];
    SliceJoin(b, u, from);
    MarkVisible(r, u);
    NewNameBody(to);
    GapOrNothing(r, g);
    RenameKept(from, r, u, to);
    EqNameSplits(to, g);
    NilLeft(to);
    Assoc3(to, g, "{");
  }

  lemma {:induction false} GapOrNothing(r: string, g: string)
    requires AllWs(g) && (r == g + "{" || r == "")
    ensures r == "" || IsWs(r[0]) || r[0] == '=' || r[0] == '{'
  {
  }

  lemma {:induction false} SliceJoin(b: string, u: string, from: string)
    requires from <= b
    ensures b == from + b[|from|..] && (b + u)[|from|..] == b[|from|..] + u
    ensures b == from ==> b[|from|..] == ""
  {
  }

  /** A body without `=` behind the name: the name alone, or with the brace of its block. */
  lemma {:induction false} BareRest(b: string, from: string) returns (g: string)
    requires IsBody(b) && NamedBy(ParseBody(b)) == Some(from) && from != ""
    requires !(|from| <= |b| && '=' in b[|from|..])
    ensures from <= b && AllWs(g) && !ParseBody(b).Rule?
    ensures if ParseBody(b).BareOpen? then b[|from|..] == g + "{" else b == from
  {
    hide ParseBody, Trim, IsBody;
    g := "";
    if ParseBody(b).Rule? {
      var gap, y, z := RuleRest(b, from);
      EqBehind(b, from, gap, y + z);
      assert false;
    } else if ParseBody(b).BareOpen? {
      var gap;
      gap, g := OpenRest(b, from);
      EqBehind(b, from, gap, g + "{");
      Assoc3(gap + "=", g, "{");
      BehindName(b, from, g + "{");
    } else {
      var gap := PendingRest(b, from);
      EqBehind(b, from, gap, "");
      NilLeft(gap + "=");
    }
  }

  lemma {:induction false} EqBehind(b: string, from: string, gap: string, y: string)
    ensures b == from + (gap + "=" + y) ==> |from| <= |b| && '=' in b[|from|..]
  {
    var s := from + (gap + "=" + y);
    assert s[|from|..][|gap|] == '=';
  }

  lemma {:induction false} BehindName(b: string, from: string, r: string)
    ensures b == from + r ==> from <= b && b[|from|..] == r
  {
  }

  /** The mark of a comment survives trimming. */
  lemma {:induction false} MarkStays(t: string)
    requires IsTail(t) && TrimStartLen(t) < |t|
    ensures exists k | 0 <= k < |TrimEnd(t)| :: TrimEnd(t)[k] in {'#', '/'}
  {
    var k := TrimStartLen(t);
    assert k < |TrimEnd(t)| && TrimEnd(t)[k] == t[k];
  }

  lemma {:induction false} MarkVisible(r: string, u: string)
    requires exists k | 0 <= k < |u| :: u[k] in {'#', '/'}
    ensures Trim(r + u) !in {"", "=", "{"}
  {
    hide Trim;
    var k :| 0 <= k < |u| && u[k] in {'#', '/'};
    assert (r + u)[|r| + k] == u[k];
    TrimKeeps(r + u, |r| + k);
  }

  /** A bare name with `=` in it is split at that `=`. */
  lemma {:induction false} EqNameSplits(to: string, g: string)
    requires NewNameOk(to) && '=' in to && AllWs(g)
    ensures NamedBy(ParseBody(to)) != Some(to) && NamedBy(ParseBody(to + g + "{")) != Some(to)
  {
    NewNameFacts(to, g);
    OpenBodyOf(to, g);
    EqContent(to, false);
    EqContent(to, true);
  }

  lemma {:induction false} EqContent(to: string, open: bool)
    requires NewNameOk(to) && '=' in to
    ensures NamedBy(ParseContent(open, to)) != Some(to)
  {
    hide Trim, IsBody;
    var eq := RFind(to, '=').value;
    NoBraceSingle(to, eq);
    var lead, tail := TrimParts(to[..eq]);
    assert |Trim(to[..eq])| <= eq < |to|;
  }

  lemma {:induction false} NoBraceSingle(to: string, eq: nat)
    requires '}' !in to && RFind(to, '=') == Some(eq)
    ensures SplitSingle(to).None?
  {
    var l := TrimEnd(to[..eq]);
    assert forall i | 0 <= i < |l| :: l[i] == to[i];
  }
}
