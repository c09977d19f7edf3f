/** Outer lines the editor prints: package rules, block headers, closers; and what a valid spec may contain. */
module LineHeader {
  import opened Seqs
  import opened Text
  import opened RuleSyntax
  import opened LineShape
  import opened LinePrint

  // ---- valid specs

  predicate SpecChar(c: char) {
    IsWs(c) || IsDigit(c) || c in {',', '-', 'a', 'c', 'e', 'h', 'l', 'o', 'p', 'r'}
  }

  predicate SpecChars(s: string) {
    forall i | 0 <= i < |s| :: SpecChar(s[i])
  }

  lemma {:induction false} TierChars(t: string)
    requires t in TierNames
    ensures SpecChars(t)
  {
  }

  lemma {:induction false} TrimmedPartChars(t: string)
    requires PartLike(t)
    ensures SpecChars(t)
  {
    if t in TierNames {
      TierChars(t);
    } else if !AllDigits(t) {
      var i := Find(t, '-').value;
      assert forall k | 0 <= k < i :: t[k] == t[..i][k];
      assert forall k | i < k < |t| :: t[k] == t[i + 1..][k - i - 1];
    }
  }

  lemma {:induction false} AroundChars(lead: string, t: string, tail: string)
    requires AllWs(lead) && SpecChars(t) && AllWs(tail)
    ensures SpecChars(lead + t + tail)
  {
    var p, n := lead + t + tail, |lead|;
    assert forall k | 0 <= k < |p| ::
        p[k] == if k < n then lead[k] else if k < n + |t| then t[k - n] else tail[k - n - |t|];
  }

  lemma {:induction false} PartChars(p: string)
    requires Trim(p) == "" || PartLike(Trim(p))
    ensures SpecChars(p)
  {
    hide Trim, PartLike, SpecChar;
    var lead, tail := TrimParts(p);
    if Trim(p) != "" {
      TrimmedPartChars(Trim(p));
    }
    AroundChars(lead, Trim(p), tail);
  }

  lemma {:induction false} SplitChars(s: string)
    requires forall i | 0 <= i < |Split(s, ',')| :: SpecChars(Split(s, ',')[i])
    ensures SpecChars(s)
    decreases |s|
  {
    var parts := Split(s, ',');
    match Find(s, ',') {
      case None => assert parts[0] == s;
      case Some(i) =>
        var rest := Split(s[i + 1..], ',');
        assert parts == [s[..i]] + rest;
        assert forall k | 0 <= k < |rest| :: rest[k] == parts[k + 1];
        SplitChars(s[i + 1..]);
        assert SpecChars(parts[0]);
        assert forall k | 0 <= k < |s| ::
            s[k] == if k < i then s[..i][k] else if k == i then ',' else s[i + 1..][k - i - 1];
    }
  }

  /** What a valid spec cannot contain; trimmed, it is plain and not empty. */
  lemma {:induction false} SpecIsPlain(s: string)
    requires SpecLike(s)
    ensures SpecChars(s)
    ensures Trimmed(s) ==> PlainSpec(s)
    ensures s != ""
  {
    hide Trim, PartLike, Split, SpecChar;
    var parts := Split(s, ',');
    forall i | 0 <= i < |parts| ensures SpecChars(parts[i]) {
      PartChars(parts[i]);
    }
    SplitChars(s);
    NoEmptySpec();
    if Trimmed(s) {
      CharsArePlain(s);
    }
  }

  lemma {:induction false} CharsArePlain(s: string)
    requires SpecChars(s) && Trimmed(s)
    ensures PlainSpec(s)
  {
  }

  lemma {:induction false} NoEmptySpec()
    ensures !SpecLike("")
  {
    TrimOfTrimmed("");
    assert Split("", ',') == [""];
  }

  // ---- `pkg=spec`, `pkg=spec {`, `pkg {`, `}`

  lemma {:induction false} SplitSingleJoin(pkg: string, cpus: string)
    requires Trimmed(pkg) && '=' !in cpus
    ensures SplitTarget(pkg).None? <==> SplitSingle(pkg + "=" + cpus).None?
  {
    KvJoin(pkg, cpus);
    var s := pkg + "=" + cpus;
    assert s[..|pkg|] == pkg;
    assert pkg + "" == pkg;
    TrimEndUnique(pkg, "");
  }

  lemma {:induction false} ContentRule(pkg: string, cpus: string, open: bool)
    requires HeaderOk(pkg) && PlainSpec(cpus) && cpus != ""
    requires open || RulePkgOk(pkg)
    ensures ParseContent(open, pkg + "=" + cpus) == Rule(pkg, cpus, open)
  {
    var s := pkg + "=" + cpus;
    SplitSingleJoin(pkg, cpus);
    CloseLikeBeforeEq(pkg, cpus);
    KvJoin(pkg, cpus);
    assert s[..|pkg|] == pkg && s[|pkg| + 1..] == cpus;
    TrimOfTrimmed(pkg);
    TrimOfTrimmed(cpus);
  }

  lemma {:induction false} OpenBodyOf(body: string, gap: string)
    requires IsBody(body) && AllWs(gap)
    ensures OpenBody(body + gap + "{") == (true, body)
  {
    var s := body + gap + "{";
    assert s[..|s| - 1] == body + gap;
    TrimEndUnique(body, gap);
  }

  lemma {:induction false} OpenIsBody(body: string, gap: string)
    requires IsBody(body) && AllWs(gap)
    ensures IsBody(body + gap + "{")
  {
    var s := body + gap + "{";
    var n := |body|;
    assert forall k | 0 <= k < n :: s[k] == body[k];
    assert forall k | n <= k < n + |gap| :: s[k] == gap[k - n];
    forall i | 0 <= i < |s| ensures !CommentStart(s, i) {
      if i < n {
        assert !CommentStart(body, i);
        assert i + 1 == n ==> s[n] != '/';
      }
    }
    assert !MarkAt(body, 0);
  }

  lemma {:induction false} RuleBody(pkg: string, cpus: string)
    requires RulePkgOk(pkg) && PlainSpec(cpus) && cpus != "" && '{' !in cpus
    ensures IsBody(RuleLine(pkg, cpus)) && ParseBody(RuleLine(pkg, cpus)) == Rule(pkg, cpus, false)
  {
    var b := pkg + "=" + cpus;
    JoinBody(pkg, cpus);
    assert b[|b| - 1] == cpus[|cpus| - 1];
    ContentRule(pkg, cpus, false);
  }

  lemma {:induction false} RuleOpenBody(pkg: string, cpus: string)
    requires HeaderOk(pkg) && PlainSpec(cpus) && cpus != ""
    ensures IsBody(RuleOpenLine(pkg, cpus)) && ParseBody(RuleOpenLine(pkg, cpus)) == Rule(pkg, cpus, true)
  {
    var body := pkg + "=" + cpus;
    JoinBody(pkg, cpus);
    assert RuleOpenLine(pkg, cpus) == body + " " + "{";
    OpenBodyOf(body, " ");
    OpenIsBody(body, " ");
    ContentRule(pkg, cpus, true);
  }

  /** The header of a block without a spec reads back exactly when `=` and a `{..}` target are not combined. */
  lemma {:induction false} BareOpenBody(pkg: string)
    requires IsBody(pkg)
    ensures IsBody(BareOpenLine(pkg))
    ensures ParseBody(BareOpenLine(pkg)) == BareOpen(pkg) <==> BareOk(pkg)
  {
    var b := BareOpenLine(pkg);
    if '=' in pkg {
      var body := pkg + "=" + "";
      assert b == body + " " + "{";
      JoinBody(pkg, "");
      OpenBodyOf(body, " ");
      OpenIsBody(body, " ");
      SplitSingleJoin(pkg, "");
      KvJoin(pkg, "");
      TrimOfTrimmed(pkg);
      assert body[..|pkg|] == pkg && body[|pkg| + 1..] == "";
      TrimOfTrimmed("");
    } else {
      assert b == pkg + " " + "{";
      OpenBodyOf(pkg, " ");
      OpenIsBody(pkg, " ");
    }
  }

  lemma {:induction false} CloserBody()
    ensures IsBody("}") && CloseLike("}") && ParseBody("}") == Junk
  {
    assert RFind("}", '=').None?;
  }

  /** Behind a body the editor may put back the tail of the line it replaces. */
  lemma {:induction false} WithCommentShows(b: string, prev: string)
    requires IsBody(b) && ViewOf(prev).Text?
    ensures Shows(ViewOf(WithComment(b, prev)), b)
  {
    var lead, pb, t := Decompose(prev);
    CommentAtLine(prev, lead, pb, t);
    if TrimStartLen(t) == |t| {
      EmptyLead(b, "");
      assert b + "" == b;
      LineShows(b, "", b, "");
    } else {
      assert prev[|lead| + |pb|..] == t;
      EmptyLead(b, t);
      LineShows(b + t, "", b, t);
    }
  }

  /** The rest of a line behind its body, as `WithComment` keeps it. */
  lemma {:induction false} WithCommentEntry(name: string, spec: string, prev: string)
    requires EntryNameOk(name) && PlainSpec(spec) && ViewOf(prev).Text?
    ensures ViewOf(WithComment(EntryLine(name, spec), Trim(prev))).Text?
    ensures ViewOf(WithComment(EntryLine(name, spec), Trim(prev))).inner == Entry(name, spec, false)
  {
    hide ViewOf, IsTail, IsBody, EntryNameOk, PlainSpec, Trim, CommentAt, TrimEnd, EntryLine;
    var lead, pb, t := Decompose(prev);
    TrimLine(prev, lead, pb, t);
    var p, u := Trim(prev), TrimEnd(t);
    CommentAtLine(p, "", pb, u);
    assert p[|pb|..] == u;
    EmptyTail();
    EntryLineShows(name, spec, if TrimStartLen(u) == |u| then "" else u);
    NilLeft(EntryLine(name, spec));
  }

  lemma {:induction false} EmptyTail()
    ensures IsTail("")
  {
  }

  /** A line with no comment can be turned into a block header by appending ` {`. */
  lemma {:induction false} AppendOpen(raw: string)
    requires ViewOf(raw).Text? && ViewOf(raw).outer.Rule? && !ViewOf(raw).outer.open
    ensures ViewOf(TrimEnd(raw) + " {").Text?
    ensures CommentAt(raw).None? ==>
              ViewOf(TrimEnd(raw) + " {").outer == Rule(ViewOf(raw).outer.pkg, ViewOf(raw).outer.cpus, true)
    ensures CommentAt(raw).Some? ==> ViewOf(TrimEnd(raw) + " {").outer == ViewOf(raw).outer
  {
    hide ViewOf, ParseBody, CommentAt, TrimStartLen, TrimEnd;
    var lead, b, t := Decompose(raw);
    CommentAtLine(raw, lead, b, t);
    if TrimStartLen(t) == |t| {
      AppendPlain(raw, lead, b, t);
      AppendedBody(b);
      LineShows(TrimEnd(raw) + " {", lead, b + " " + "{", "");
    } else {
      AppendAfterComment(raw, lead, b, t);
      LineShows(TrimEnd(raw) + " {", lead, b, TrimEnd(t) + " {");
    }
  }

  lemma {:induction false} AppendPlain(raw: string, lead: string, b: string, t: string)
    requires IsLine(raw, lead, b, t) && TrimStartLen(t) == |t|
    ensures IsLine(TrimEnd(raw) + " {", lead, b + " " + "{", "")
  {
    OpenIsBody(b, " ");
    EmptyTail();
    assert (lead + b)[|lead + b| - 1] == b[|b| - 1];
    TrimEndUnique(lead + b, t);
    assert lead + b + " {" == lead + (b + " " + "{") + "";
  }

  lemma {:induction false} AppendedBody(b: string)
    requires IsBody(b) && ParseBody(b).Rule? && !ParseBody(b).open
    ensures ParseBody(b + " " + "{") == Rule(ParseBody(b).pkg, ParseBody(b).cpus, true)
  {
    hide Trim, SplitTarget, CloseLike, TrimEndLen;
    OpenBodyOf(b, " ");
  }

  lemma {:induction false} AppendAfterComment(raw: string, lead: string, b: string, t: string)
    requires IsLine(raw, lead, b, t) && TrimStartLen(t) < |t|
    ensures IsLine(TrimEnd(raw) + " {", lead, b, TrimEnd(t) + " {")
  {
    CommentTail(t);
    CommentTailEnd(lead + b, t);
    assert lead + b + TrimEnd(t) + " {" == lead + b + (TrimEnd(t) + " {");
  }

  lemma {:induction false} CommentTailEnd(a: string, t: string)
    requires TrimStartLen(t) < |t|
    ensures TrimEnd(a + t) == a + TrimEnd(t)
  {
    var u := TrimEnd(t);
    var rest := t[|u|..];
    assert !IsWs(t[TrimStartLen(t)]);
    assert u != "" && u[|u| - 1] == t[|u| - 1];
    assert t == u + rest;
    assert a + t == (a + u) + rest;
    TrimEndUnique(a + u, rest);
  }

  /** A comment stays a comment when its end is cut and text is added. */
  lemma {:induction false} CommentTail(t: string)
    requires IsTail(t) && TrimStartLen(t) < |t|
    ensures IsTail(TrimEnd(t) + " {")
  {
    var k, n := TrimStartLen(t), TrimEndLen(t);
    assert !IsWs(t[k]) && k < n;
    if t[k] == '/' { assert !IsWs(t[k + 1]) && k + 1 < n; }
    var w := TrimEnd(t) + " {";
    assert w == t[..k] + (t[k..n] + " {");
    TrimStartUnique(t[..k], t[k..n] + " {");
    assert w[k] == t[k];
    assert k + 1 < n ==> w[k + 1] == t[k + 1];
  }
}
