/** What the names and specs in parsed lines look like. */
module LineParts {
  import opened Seqs
  import opened Text
  import opened RuleSyntax
  import opened LineShape
  import opened LinePrint
  import opened LineHeader
  import opened SpecTheorems

  lemma {:induction false} TargetOf(l: string) returns (left: string, ob: nat)
    requires SplitTarget(l).Some?
    ensures left <= l && ob < |left| && left[ob] == '{' && '{' !in left[..ob]
    ensures SplitTarget(l).value.0 == Trim(left[..ob]) != ""
    ensures SplitTarget(l).value.1 == Trim(left[ob + 1..]) != ""
  {
    hide Trim;
    left := TrimEnd(l[..|l| - 1]);
    ob := Find(left, '{').value;
    assert forall i | 0 <= i < ob :: left[..ob][i] == left[i];
  }

  /** Where the names of a single-line rule stand. */
  lemma {:induction false} SingleOf(b: string) returns (left: string, ob: nat)
    requires ParseBody(b).Single?
    ensures left <= b && ob < |left| && left[ob] == '{' && '{' !in left[..ob]
    ensures ParseBody(b).pkg == Trim(left[..ob]) != ""
    ensures ParseBody(b).thread == Trim(left[ob + 1..]) != ""
  {
    hide Trim, SplitTarget, TrimEndLen, CloseLike;
    var body := OpenBody(b).1;
    var l := TrimEnd(body[..RFind(body, '=').value]);
    assert l <= body <= b;
    left, ob := TargetOf(l);
  }

  lemma {:induction false} SingleNames(b: string)
    requires IsBody(b) && ParseBody(b).Single?
    ensures HeaderOk(ParseBody(b).pkg)
    ensures IsBody(ParseBody(b).thread) || StartsComment(ParseBody(b).thread)
    ensures Trimmed(ParseBody(b).cpus)
  {
    hide ParseBody, Trim, IsBody, HeaderOk, StartsComment;
    var left, ob := SingleOf(b);
    EmptyTrim();
    SinglePkg(b, left[..ob]);
    var th := left[ob + 1..];
    SingleThread(b, left, ob + 1);
    SingleSpec(b);
  }

  lemma {:induction false} SinglePkg(b: string, a: string)
    requires IsBody(b) && a <= b && a != "" && '{' !in a && Trim(a) != ""
    ensures HeaderOk(Trim(a))
  {
    assert a[0] == b[0] && !IsWs(a[0]);
    TrimPrefix(a);
    var k := a[..TrimEndLen(a)];
    OuterKey(b, k);
    NoBrace(k, a);
  }

  lemma {:induction false} NoBrace(k: string, a: string)
    requires k <= a && '{' !in a && k != "" && !IsWs(k[|k| - 1])
    ensures SplitTarget(k).None?
  {
    if k[|k| - 1] == '}' {
      var left := TrimEnd(k[..|k| - 1]);
      assert forall i | 0 <= i < |left| :: left[i] == a[i];
    }
  }

  lemma {:induction false} SingleThread(b: string, left: string, i: nat)
    requires IsBody(b) && left <= b && i <= |left| && Trim(left[i..]) != ""
    ensures IsBody(Trim(left[i..])) || StartsComment(Trim(left[i..]))
  {
    var th := left[i..];
    assert th == b[i..|left|];
    SubNoComment(b, i, |left|);
    TrimNoComment(th);
  }

  lemma {:induction false} SingleSpec(b: string)
    requires ParseBody(b).Single?
    ensures Trimmed(ParseBody(b).cpus)
  {
    var body := OpenBody(b).1;
    var l, t := TrimParts(body[RFind(body, '=').value + 1..]);
  }

  lemma {:induction false} RuleSpec(b: string)
    requires ParseBody(b).Rule?
    ensures Trimmed(ParseBody(b).cpus)
  {
    var body := OpenBody(b).1;
    var l, t := TrimParts(body[RFind(body, '=').value + 1..]);
  }

  /** The names and specs of any line. */
  lemma {:induction false} ViewNames(raw: string)
    requires ViewOf(raw).Text?
    ensures var v := ViewOf(raw);
            && (v.inner.Entry? ==> EntryNameOk(v.inner.name) && PlainSpec(v.inner.spec))
            && (v.outer.Single? ==> HeaderOk(v.outer.pkg) && Trimmed(v.outer.cpus)
                                    && (IsBody(v.outer.thread) || StartsComment(v.outer.thread)))
            && (v.outer.Rule? ==> Trimmed(v.outer.cpus))
  {
    hide ViewOf, ParseBody, EntryNameOk, PlainSpec, HeaderOk, IsBody;
    var lead, b, t := Decompose(raw);
    if ViewOf(raw).inner.Entry? {
      EntryShown(ViewOf(raw), b);
      ParsedEntry(b);
    }
    if ViewOf(raw).outer.Single? {
      SingleNames(b);
    }
    if ViewOf(raw).outer.Rule? {
      RuleSpec(b);
    }
  }

  /**
   * A trimmed line that is no comment and no closer and holds a rule: printed again, it is no
   * comment and no closer either, and it holds the same name and spec and closes nothing.
   */
  lemma {:induction false} EntryReprints(p: string)
    requires p != "" && Trimmed(p) && !StartsComment(p) && !CloseLike(p) && SplitRuleLine(p).Some?
    ensures var e := SplitRuleLine(p).value; var q := Trim(EntryLine(e.0, e.1));
            q != "" && !StartsComment(q) && !CloseLike(q) && SplitRuleLine(q) == Some((e.0, e.1, false))
  {
    hide ViewOf, Trim, ParseOuter, EntryNameOk, PlainSpec, CloseLike, SplitRuleLine, EntryLine, IsTail;
    TrimOfTrimmed(p);
    var e := SplitRuleLine(p).value;
    RuleShown(p);
    ViewNames(p);
    EmptyTail();
    EntryLineShows(e.0, e.1, "");
    NilLeft(EntryLine(e.0, e.1));
    RuleShown(EntryLine(e.0, e.1));
  }

  lemma {:induction false} RuleShown(raw: string)
    ensures var p := Trim(raw); var v := ViewOf(raw);
            p != "" && !StartsComment(p) && !CloseLike(p) && SplitRuleLine(p).Some? ==>
              v.Text? && v.inner == Entry(SplitRuleLine(p).value.0, SplitRuleLine(p).value.1, SplitRuleLine(p).value.2)
    ensures var p := Trim(raw); var v := ViewOf(raw);
            v.Text? && v.inner.Entry? ==>
              && p != "" && !StartsComment(p) && !CloseLike(p)
              && SplitRuleLine(p) == Some((v.inner.name, v.inner.spec, v.inner.closed))
  {
    hide Trim, ParseOuter, CloseLike, SplitRuleLine, StartsComment;
  }

  lemma {:induction false} ShowsCloser(v: View)
    requires Shows(v, "}")
    ensures v.inner == Close
  {
    CloserBody();
  }

  /** A closer keeps the comment of the rule it replaces. */
  lemma {:induction false} CloserLine(prev: string)
    requires ViewOf(prev).Text?
    ensures ViewOf(WithComment("}", prev)).Text? && ViewOf(WithComment("}", prev)).inner == Close
  {
    hide ViewOf;
    CloserBody();
    WithCommentShows("}", prev);
    ShowsCloser(ViewOf(WithComment("}", prev)));
  }

  /** So does a block header. */
  lemma {:induction false} BareOpenPrinted(pkg: string, prev: string)
    requires ViewOf(prev).Text? && BareOk(pkg)
    ensures ViewOf(WithComment(BareOpenLine(pkg), prev)).Text?
    ensures ViewOf(WithComment(BareOpenLine(pkg), prev)).outer == BareOpen(pkg)
  {
    hide ViewOf;
    BareOpenBody(pkg);
    WithCommentShows(BareOpenLine(pkg), prev);
  }
}
