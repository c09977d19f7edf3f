/** Normalising any file, loadable or not: it brings in no bare `=`. */
module NormalizeAny {
  import opened Seqs
  import opened Text
  import opened RuleSyntax
  import opened LineShape
  import opened LinePrint
  import opened LineHeader
  import opened LineParts
  import opened LineReown
  import opened LineLighter
  import opened Scan
  import opened ScanSim
  import opened Prune
  import opened Normalize
  import opened RenameLoop

  // ---- printed lines are no bare `=`

  /** What is kept of any line's comment is a tail. */
  lemma {:induction false} KeptTail(prev: string)
    requires CommentAt(prev).Some?
    ensures IsTail(prev[CommentAt(prev).value..])
  {
    hide IsWs;
    var i := FirstComment(prev, 0).value;
    var q := prev[..i];
    var n := TrimEndLen(q);
    assert q[i - 1] == prev[i - 1];
    var t := prev[n..];
    assert t == q[n..] + prev[i..];
    assert prev[i..][0] == prev[i];
    assert !IsWs(prev[i]) by { MarkVisible(prev, i); }
    TrimStartUnique(q[n..], prev[i..]);
    assert t[i - n] == prev[i] && (i + 1 < |prev| ==> t[i - n + 1] == prev[i + 1]);
  }

  lemma {:induction false} MarkVisible(s: string, i: nat)
    requires i < |s| && MarkAt(s, i)
    ensures !IsWs(s[i])
  {
  }

  /** A line printed in place of any other is read as the new text. */
  lemma {:induction false} PrintedOver(b: string, prev: string)
    requires IsBody(b)
    ensures Shows(ViewOf(WithComment(b, prev)), b)
  {
    hide ViewOf, IsBody, IsTail, CommentAt, Shows;
    if CommentAt(prev).None? {
      PrintedShows(b);
    } else {
      KeptTail(prev);
      var t := prev[CommentAt(prev).value..];
      EmptyLead(b, t);
      LineShows(b + t, "", b, t);
    }
  }

  lemma {:induction false} ShowsOuter(v: View, b: string)
    requires Shows(v, b)
    ensures v.Text? && v.outer == ParseBody(b)
  {
  }

  lemma {:induction false} HeaderNoEq(pkg: string, prev: string)
    requires IsBody(pkg)
    ensures NoEq(WithComment(BareOpenLine(pkg), prev)) && NoEq(BareOpenLine(pkg))
  {
    hide ViewOf, IsBody, WithComment, Shows, ParseContent;
    var b := BareOpenLine(pkg);
    BareOpenBody(pkg);
    PrintedOver(b, prev);
    PrintedShows(b);
    ShowsOuter(ViewOf(WithComment(b, prev)), b);
    ShowsOuter(ViewOf(b), b);
    assert OpenBody(b).0;
    ByContent(b);
    NeverPending(OpenBody(b).1);
  }

  lemma {:induction false} NeverPending(s: string)
    ensures !ParseContent(true, s).Pending?
  {
    hide Trim, SplitSingle;
  }

  lemma {:induction false} CloserNoEq(prev: string)
    ensures NoEq(WithComment("}", prev)) && NoEq("}")
  {
    hide ViewOf, WithComment, Shows;
    CloserBody();
    PrintedOver("}", prev);
    PrintedShows("}");
    ShowsOuter(ViewOf(WithComment("}", prev)), "}");
    ShowsOuter(ViewOf("}"), "}");
  }

  /** A printed rule: a comment, or a text that does not stop at its `=`. */
  lemma {:induction false} EntryNoEq(name: string, spec: string, prev: string)
    requires name != "" && Trimmed(name) && NoComment(name) && Trimmed(spec) && NoComment(spec) && '=' !in spec
    ensures NoEq(WithComment(EntryLine(name, spec), prev))
  {
    hide ViewOf, IsTail, CommentAt;
    var t := if CommentAt(prev).None? then "" else prev[CommentAt(prev).value..];
    if CommentAt(prev).Some? {
      KeptTail(prev);
    } else {
      EmptyTail();
    }
    NilLeft(EntryLine(name, spec));
    var b := name + "=" + spec;
    TabJoin(name, spec, t);
    if StartsComment(name) {
      MarkedLine(name, spec, t);
    } else {
      JoinBody(name, spec);
      LineShows("\t" + b + t, "\t", b, t);
      EntryContent(name, spec);
    }
  }

  lemma {:induction false} MarkedLine(name: string, spec: string, t: string)
    requires Trimmed(name) && StartsComment(name) && IsTail(t)
    ensures ViewOf("\t" + (name + "=" + spec) + t).Skip?
  {
    hide IsTail, TrimEndLen, TrimStartLen, ParseOuter, InnerView;
    var b := name + "=" + spec;
    var s := "\t" + b + t;
    assert s == "\t" + (b + t);
    assert (b + t)[0] == name[0] && (|name| > 1 ==> (b + t)[1] == name[1]);
    TrimStartUnique("\t", b + t);
    StartKept(b + t);
  }

  /** Trimming a text that begins visibly keeps a mark at its beginning. */
  lemma {:induction false} StartKept(s: string)
    requires s != "" && !IsWs(s[0])
    ensures TrimEnd(s) != "" && TrimEnd(s)[0] == s[0]
    ensures MarkAt(s, 0) ==> StartsComment(TrimEnd(s))
  {
    var n := TrimEndLen(s);
    assert n > 0;
    if s[0] == '/' && |s| > 1 && s[1] == '/' {
      assert n > 1;
    }
  }

  lemma {:induction false} EntryContent(name: string, spec: string)
    requires name != "" && Trimmed(name) && '=' !in spec
    ensures ParseBody(name + "=" + spec) != Pending("")
  {
    hide Trim, SplitSingle, CloseLike;
    var b := name + "=" + spec;
    KvJoin(name, spec);
    TrimOfTrimmed(name);
    assert b[..|name|] == name;
    if !OpenBody(b).0 {
      assert RFind(b, '=') == Some(|name|);
    }
  }

  /** The names and the spec of any single-line rule hold no comment, and the spec no `=`. */
  lemma {:induction false} SingleParts(raw: string)
    requires ViewOf(raw).Text? && ViewOf(raw).outer.Single?
    ensures var o := ViewOf(raw).outer;
            && o.thread != "" && Trimmed(o.thread) && NoComment(o.thread)
            && Trimmed(o.cpus) && NoComment(o.cpus) && '=' !in o.cpus && IsBody(o.pkg)
  {
    hide ViewOf, ParseBody, IsBody, Trim, NoComment, Trimmed, StartsComment;
    var lead, b, t := Decompose(raw);
    ViewNames(raw);
    var left, ob := SingleOf(b);
    BodyClean(b);
    SubNoComment(b, ob + 1, |left|);
    assert left[ob + 1..] == b[ob + 1..|left|];
    TrimNoComment(left[ob + 1..]);
    SpecText(b);
    HeaderBody(ViewOf(raw).outer.pkg);
  }

  lemma {:induction false} HeaderBody(pkg: string)
    requires HeaderOk(pkg)
    ensures IsBody(pkg)
  {
  }

  lemma {:induction false} BodyClean(b: string)
    requires IsBody(b)
    ensures NoComment(b)
  {
  }

  lemma {:induction false} SpecText(b: string)
    requires NoComment(b) && ParseBody(b).Single?
    ensures NoComment(ParseBody(b).cpus) && Trimmed(ParseBody(b).cpus) && '=' !in ParseBody(b).cpus
  {
    hide Trim, NoComment, TrimEndLen, SplitTarget, CloseLike;
    var body := OpenBody(b).1;
    var eq := RFind(body, '=').value;
    BodyPrefix(b);
    assert body[eq + 1..] == b[eq + 1..|body|];
    SubNoComment(b, eq + 1, |body|);
    TrimNoComment(body[eq + 1..]);
    var y := body[eq + 1..];
    assert forall k | 0 <= k < |y| :: y[k] == body[eq + 1 + k];
  }

  // ---- appending a brace

  lemma {:induction false} BraceNoEq(raw: string)
    requires NoEq(raw)
    ensures NoEq(TrimEnd(raw) + " {")
  {
    hide ViewOf, IsBody, TrimEnd, ParseBody, IsTail, StartsComment, Trim;
    if ViewOf(raw).Text? {
      var lead, b, t := Decompose(raw);
      if TrimStartLen(t) == |t| {
        AppendPlain(raw, lead, b, t);
        LineShows(TrimEnd(raw) + " {", lead, b + " " + "{", "");
        OpenBodyOf(b, " ");
        ByContent(b + " " + "{");
        NeverPending(b);
      } else {
        TailLength(t);
        AppendAfterComment(raw, lead, b, t);
        LineShows(TrimEnd(raw) + " {", lead, b, TrimEnd(t) + " {");
      }
    } else {
      SkipBrace(raw);
    }
  }

  lemma {:induction false} TailLength(t: string)
    ensures TrimStartLen(t) <= |t|
  {
  }

  lemma {:induction false} SkipBrace(raw: string)
    requires ViewOf(raw).Skip?
    ensures NoEq(TrimEnd(raw) + " {")
  {
    hide ParseOuter, InnerView;
    var p := Trim(raw);
    var lead, tail := TrimParts(raw);
    if p == "" {
      BlankBrace(raw, lead, tail);
    } else {
      CommentBrace(raw, lead, p, tail);
    }
  }

  lemma {:induction false} BlankBrace(raw: string, lead: string, tail: string)
    requires raw == lead + "" + tail && AllWs(lead) && AllWs(tail)
    ensures NoEq(TrimEnd(raw) + " {")
  {
    hide ViewOf, Trim;
    assert raw == "" + raw;
    TrimEndUnique("", raw);
    assert "" + " {" == " " + "{" + "";
    MarkFreeBrace();
    EmptyTail();
    LineShows(" " + "{" + "", " ", "{", "");
  }

  lemma {:induction false} MarkFreeBrace()
    ensures IsBody("{") && ParseBody("{") == BareOpen("")
  {
    assert OpenBody("{") == (true, "");
    assert RFind("", '=').None?;
  }

  lemma {:induction false} CommentBrace(raw: string, lead: string, p: string, tail: string)
    requires raw == lead + p + tail && AllWs(lead) && AllWs(tail) && p != "" && Trimmed(p) && StartsComment(p)
    ensures ViewOf(TrimEnd(raw) + " {").Skip?
  {
    hide ParseOuter, InnerView, Trim, TrimEndLen;
    assert (lead + p)[|lead + p| - 1] == p[|p| - 1];
    TrimEndUnique(lead + p, tail);
    var q := p + " {";
    assert q[0] == p[0] && (|p| > 1 ==> q[1] == p[1]) && q[|q| - 1] == '{';
    assert TrimEnd(raw) + " {" == lead + q + "";
    TrimUnique(lead, q, "");
  }

  // ---- the whole edit

  /** The new lines are old ones or no bare `=`. */
  lemma {:induction false} RemoveNoEq(lines: seq<string>, pkg: string, locs: seq<Loc>)
    requires NoEqLine(lines) && IsBody(pkg)
    ensures NoEqLine(RemoveAll(lines, pkg, locs))
    decreases |locs|
  {
    hide ViewOf, IsBody, WithComment, BareOpenLine;
    if locs != [] {
      var l := locs[|locs| - 1];
      if l.idx < |lines| {
        HeaderNoEq(pkg, lines[l.idx]);
        CloserNoEq(lines[l.idx]);
        ThreeNoEq(lines[..l.idx], LineWithout(lines[l.idx], pkg, l), lines[l.idx + 1..], lines);
      }
      RemoveNoEq(RemoveAt(lines, pkg, l), pkg, locs[..|locs| - 1]);
    }
  }

  lemma {:induction false} ThreeNoEq(a: seq<string>, m: seq<string>, b: seq<string>, was: seq<string>)
    requires NoEqLine(was) && NoEqLine(m) && (forall l | l in a :: l in was) && (forall l | l in b :: l in was)
    ensures NoEqLine(a + m + b)
  {
    hide ViewOf;
  }

  lemma {:induction false} ItemsNoEq(lines: seq<string>, locs: seq<Loc>, pkg: string)
    requires forall l | l in locs :: l.idx < |lines| && ViewOf(lines[l.idx]).Text? && ViewOf(lines[l.idx]).outer.Single?
    ensures NoEqLine(Items(lines, locs))
    decreases |locs|
  {
    hide ViewOf, ItemOf, NoEq;
    if locs != [] {
      Uncons(locs);
      ItemNoEq(lines[locs[0].idx]);
      ItemsNoEq(lines, locs[1..], pkg);
    }
  }

  lemma {:induction false} ItemNoEq(line: string)
    requires ViewOf(line).Text? && ViewOf(line).outer.Single?
    ensures ItemOf(line).Some? ==> NoEq(ItemOf(line).value)
  {
    hide ViewOf, NoEq, WithComment, EntryLine, NoComment, Trimmed, IsBody;
    SingleParts(line);
    ItemParts(line);
    EntryNoEq(ViewOf(line).outer.thread, ViewOf(line).outer.cpus, Trim(line));
  }

  lemma {:induction false} ItemParts(line: string)
    requires ViewOf(line).Text? && ViewOf(line).outer.Single?
    ensures var o := ViewOf(line).outer; ItemOf(line) == Some(WithComment(EntryLine(o.thread, o.cpus), Trim(line)))
  {
    hide Trim, StripComment, SplitSingle, OpenBody, CloseLike, InnerView, WithComment;
  }

  lemma {:induction false} InsertNoEq(cut: seq<string>, t: Target, pkg: string, items: seq<string>, at: nat)
    requires NoEqLine(cut) && NoEqLine(items) && IsBody(pkg)
    ensures NoEqLine(Inserted(cut, t, pkg, items, at))
  {
    hide ViewOf, IsBody, NoEq, BareOpenLine, TrimEnd;
    HeaderNoEq(pkg, "");
    CloserNoEq("");
    match t.blockClose {
      case Some(close) =>
        if close <= |cut| {
          ThreeNoEq(cut[..close], items, cut[close..], cut);
        }
      case None =>
        if t.pkgLine.Some? && t.pkgLine.value.Standalone? && t.pkgLine.value.idx < |cut| {
          var i := t.pkgLine.value.idx;
          assert cut[i] in cut;
          BraceNoEq(cut[i]);
          ThreeNoEq(cut[..i], [TrimEnd(cut[i]) + " {"] + items + ["}"], cut[i + 1..], cut);
        } else {
          var a := if at < |cut| then at else |cut|;
          ThreeNoEq(cut[..a], [BareOpenLine(pkg)] + items + ["}"], cut[a..], cut);
        }
    }
  }

  /** Normalising keeps a file free of bare `=`. */
  lemma {:induction false} NoEqNormal(lines: seq<string>, pkg: string)
    requires NoEqLine(lines)
    ensures NoEqLine(Normalized(lines, pkg))
  {
    hide ViewOf, ScanTo, Pick, Items, Cut, Inserted, Gives, NoEq, OutlineTo, IsBody;
    var t := ScanOf(lines, pkg);
    var singles := Singles(t.threads);
    ScanRecords(lines, |lines|, pkg);
    if singles != [] {
      var l := singles[0];
      assert l in singles;
      SingleParts(lines[l.idx]);
      ItemsNoEq(lines, singles, pkg);
      RemoveNoEq(lines, pkg, singles);
      CutIs(lines, pkg);
      InsertNoEq(Cut(lines, pkg), ScanOf(Cut(lines, pkg), pkg), pkg, Items(lines, singles), l.idx);
    } else {
      NoItems(lines);
    }
  }

  lemma {:induction false} CutIs(lines: seq<string>, pkg: string)
    ensures Cut(lines, pkg) == RemoveAll(lines, pkg, Singles(ScanOf(lines, pkg).threads))
  {
    hide ScanTo, Pick, RemoveAll;
  }

  lemma {:induction false} NoItems(lines: seq<string>)
    ensures Items(lines, []) == []
  {
  }
}
