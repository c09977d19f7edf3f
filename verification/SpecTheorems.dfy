/** The spec replacement as a lens, and exactly when it is one. */
module SpecTheorems {
  import opened Seqs
  import opened Text
  import opened RuleSyntax
  import opened LineShape
  import opened LinePrint
  import opened LineHeader
  import opened SpecSwapping
  import opened SpecLens

  /** The text of a line: trimmed, without its comment. */
  function BodyOf(raw: string): string { StripComment(Trim(raw)) }

  lemma {:induction false} EntryShown(v: View, b: string)
    requires Shows(v, b) && v.inner.Entry?
    ensures !CloseLike(b) && SplitBody(b) == Some((v.inner.name, v.inner.spec, v.inner.closed))
  {
  }

  lemma {:induction false} ShowsEntry(v: View, b: string)
    requires Shows(v, b) && !CloseLike(b) && SplitBody(b).Some?
    ensures var e := SplitBody(b).value; v.inner == Entry(e.0, e.1, e.2)
  {
  }

  /** In a block: same name, same closing, the new spec. */
  lemma {:induction false} SwapEntry(raw: string, cpus: string)
    requires ViewOf(raw).Text? && ViewOf(raw).inner.Entry? && SpecLike(ViewOf(raw).inner.spec)
    requires SwapSafe(BodyOf(raw)) && SpecLike(cpus) && Trimmed(cpus)
    ensures ViewOf(SpecSwap(raw, cpus)).Text?
    ensures ViewOf(SpecSwap(raw, cpus)).inner
         == Entry(ViewOf(raw).inner.name, cpus, ViewOf(raw).inner.closed)
  {
    hide ViewOf, SpecSwap, IsTail, TrimStartLen, SpecLike, KeepFrame, SplitBody, StripComment, Trim;
    var lead, b, t := Decompose(raw);
    EntryShown(ViewOf(raw), b);
    var a, y, z := EntryForm(b);
    KeyShape(a, b);
    var b1, y1, z1, t1 := SwapLine(raw, lead, b, t, a, y, z, cpus);
    SpecNoMarks(y1);
    FormEntry(a, y1, z1);
    LineShows(SpecSwap(raw, cpus), lead, b1, t1);
    ShowsEntry(ViewOf(SpecSwap(raw, cpus)), b1);
  }

  lemma {:induction false} KeyShape(a: string, b: string)
    requires a != "" && IsBody(b) && a[0] == b[0]
    ensures !IsWs(a[0])
  {
  }

  /** The key, spec text and opening brace of an outer rule. */
  lemma {:induction false} OuterForm(b: string) returns (a: string, y: string, z: string)
    requires IsBody(b) && ParseBody(b).Rule? && ParseBody(b).pkg != ""
    ensures b == a + "=" + (y + z) && a != "" && a[0] == b[0] && '=' !in y && '=' !in z
    ensures Trim(a) == ParseBody(b).pkg && Trim(y) == ParseBody(b).cpus && Trim(y) != ""
    ensures z == if ParseBody(b).open then "{" else ""
    ensures NoComment(a) && !StartsComment(a) && SplitTarget(TrimEnd(a)).None?
    ensures z == "" ==> !CloseLike(a + "=")
    ensures z == "" ==> y != "" && !IsWs(y[|y| - 1]) && y[|y| - 1] != '{'
  {
    hide IsBody, Trim, TrimEndLen, SplitTarget, CloseLike, TrimEnd;
    var (open, body) := OpenBody(b);
    var eq := RFind(body, '=').value;
    a := body[..eq];
    var y0 := body[eq + 1..];
    EmptyTrim();
    if open {
      OpenShorter(b);
      var gap := b[|body|..|b| - 1];
      y, z := y0 + gap, "{";
      OpenGap(b, body, gap);
      OpenJoin(b, body, eq, gap);
      TrimMore(y0, gap);
    } else {
      y, z := y0, "";
      CloseLikeBeforeEq(a, y0);
      PlainJoin(b, eq);
    }
    OuterKey(b, a);
  }

  lemma {:induction false} OpenShorter(b: string)
    requires OpenBody(b).0
    ensures |OpenBody(b).1| < |b| && OpenBody(b).1 == TrimEnd(b[..|b| - 1]) && b[|b| - 1] == '{'
  {
  }

  lemma {:induction false} OpenJoin(b: string, body: string, eq: nat, gap: string)
    requires b == body + gap + "{" && eq < |body| && body[eq] == '='
    ensures b == body[..eq] + "=" + ((body[eq + 1..] + gap) + "{") && body[..eq] <= b
    ensures AllWs(gap) && '=' !in body[eq + 1..] ==> '=' !in body[eq + 1..] + gap
  {
  }

  lemma {:induction false} PlainJoin(b: string, eq: nat)
    requires IsBody(b) && eq < |b| && b[eq] == '=' && (b[|b| - 1] != '{') && Trim(b[eq + 1..]) != ""
    ensures b == b[..eq] + "=" + (b[eq + 1..] + "") && b[..eq] <= b && b == b[..eq] + "=" + b[eq + 1..]
    ensures var y := b[eq + 1..]; y != "" && !IsWs(y[|y| - 1]) && y[|y| - 1] != '{'
  {
    var y := b[eq + 1..];
    EmptyTrim();
    assert y != "" && y[|y| - 1] == b[|b| - 1];
  }

  lemma {:induction false} EmptyTrim()
    ensures Trim("") == ""
  {
    TrimBlank("");
  }

  lemma {:induction false} BlankSkips()
    ensures ViewOf("") == Skip
  {
    EmptyTrim();
  }

  lemma {:induction false} OuterKey(b: string, a: string)
    requires IsBody(b) && a != "" && a <= b
    ensures a[0] == b[0] && NoComment(a) && !StartsComment(a)
  {
    assert a == b[0..|a|];
    SubNoComment(b, 0, |a|);
    assert |a| > 1 ==> a[1] == b[1];
    assert !MarkAt(b, 0);
  }

  lemma {:induction false} OpenGap(b: string, body: string, gap: string)
    requires b != "" && b[|b| - 1] == '{' && body == TrimEnd(b[..|b| - 1]) && gap == b[|body|..|b| - 1]
    ensures AllWs(gap) && b == body + gap + "{"
  {
    var c := b[..|b| - 1];
    assert c == body + gap;
    assert forall i | 0 <= i < |gap| :: gap[i] == c[|body| + i];
  }

  lemma {:induction false} TrimMore(y: string, gap: string)
    requires AllWs(gap)
    ensures Trim(y + gap) == Trim(y)
  {
    var lead, tail := TrimParts(y);
    var c := Trim(y);
    if c == "" {
      TrimBlank(y + gap);
    } else {
      assert y + gap == lead + c + (tail + gap);
      TrimUnique(lead, c, tail + gap);
    }
  }

  lemma {:induction false} FrameBrace()
    ensures TrimEnd(KeepFrame("{")) == "{"
  {
    assert KeepFrame("{") == "{";
    assert "{" + "" == "{";
    TrimEndUnique("{", "");
  }

  /** Outside a block: same package, same opening, the new spec. */
  lemma {:induction false} SwapRule(raw: string, cpus: string)
    requires ViewOf(raw).Text? && ViewOf(raw).outer.Rule?
    requires ViewOf(raw).outer.pkg != "" && SpecLike(ViewOf(raw).outer.cpus)
    requires SpecLike(cpus) && Trimmed(cpus)
    ensures ViewOf(SpecSwap(raw, cpus)).Text?
    ensures ViewOf(SpecSwap(raw, cpus)).outer
         == Rule(ViewOf(raw).outer.pkg, cpus, ViewOf(raw).outer.open)
  {
    hide ViewOf, SpecSwap, IsTail, TrimStartLen, SpecLike, KeepFrame, ParseBody, StripComment, Trim, TrimEndLen, SplitTarget;
    var lead, b, t := Decompose(raw);
    var a, y, z := OuterForm(b);
    KeyShape(a, b);
    var b1, y1, z1, t1 := SwapLine(raw, lead, b, t, a, y, z, cpus);
    FrameBrace();
    SpecNoMarks(y1);
    SpecNotBlank(cpus);
    FormOuter(a, y1, z1);
    LineShows(SpecSwap(raw, cpus), lead, b1, t1);
  }

  lemma {:induction false} SpecNotBlank(s: string)
    requires SpecLike(s) && Trimmed(s)
    ensures s != ""
  {
    SpecIsPlain(s);
  }

  // ---- the lens laws

  /** The replacement keeps everything up to the value and everything from the comment on. */
  lemma {:induction false} SwapFrame(raw: string, cpus: string) returns (kept: nat)
    requires '=' in raw[..CutAt(raw)]
    ensures var r := SpecSwap(raw, cpus); var tail := raw[CutAt(raw)..];
            && kept <= CutAt(raw) && '=' in raw[..kept]
            && raw[..kept] + cpus <= r && |raw[..kept] + cpus| + |tail| <= |r| && r[|r| - |tail|..] == tail
  {
    hide TrimStartLen, SwapTail, CutAt, SpecSwap, SwapFrom;
    var cut := CutAt(raw);
    var eq := RFind(raw[..cut], '=').value;
    var rhs := raw[eq + 1..cut];
    var lead := TrimStartLen(rhs);
    kept := eq + 1 + lead;
    SwapUnfold(raw, eq, cpus);
    SwapFromIs(raw, cut, eq, lead, rhs[lead..], cpus);
    FrameParts(raw[..kept], cpus, SwapTail(rhs[lead..]), raw[cut..]);
    assert raw[..kept][eq] == '=';
  }

  lemma {:induction false} FrameParts(p: string, c: string, m: string, tail: string)
    ensures var r := p + c + m + tail; p + c <= r && |p + c| + |tail| <= |r| && r[|r| - |tail|..] == tail
  {
  }

  /** After one replacement another is safe. */
  lemma {:induction false} SwapStaysSafe(raw: string, cpus: string)
    requires ViewOf(raw).Text? && ViewOf(raw).inner.Entry? && SpecLike(ViewOf(raw).inner.spec)
    requires SwapSafe(BodyOf(raw)) && SpecLike(cpus) && Trimmed(cpus)
    ensures SwapSafe(BodyOf(SpecSwap(raw, cpus)))
  {
    hide ViewOf, SpecSwap, IsTail, TrimStartLen, SpecLike, KeepFrame, SplitBody, StripComment, Trim, SwapSafe, CloseLike, ClosesAt, TrimEndLen;
    var lead, b, t := Decompose(raw);
    EntryShown(ViewOf(raw), b);
    var a, y, z := EntryForm(b);
    KeyShape(a, b);
    var b1, y1, z1, t1 := SwapLine(raw, lead, b, t, a, y, z, cpus);
    SpecNoMarks(y1);
    NoEqInFrame(z, z1);
    BodyIs(SpecSwap(raw, cpus), lead, b1, t1);
    FormSafe(a, y1, z1);
  }

  lemma {:induction false} NoEqInFrame(z: string, z1: string)
    requires z == "" ==> z1 == ""
    requires z != "" ==> z1 == TrimEnd(KeepFrame(z))
    ensures '=' !in z1
  {
    hide TrimEndLen;
    KeepFrameChars(z);
  }

  lemma {:induction false} BodyIs(raw: string, lead: string, b: string, t: string)
    requires IsLine(raw, lead, b, t)
    ensures BodyOf(raw) == b
  {
    hide IsBody, IsTail, CommentAt;
    TrimLine(raw, lead, b, t);
    CommentAtLine(Trim(raw), "", b, TrimEnd(t));
    TrimmedTail(t);
    PrefixOf(b, TrimEnd(t));
    NilLeft(b);
  }

  lemma {:induction false} FormSafe(a: string, y: string, z: string)
    requires '=' !in y && '=' !in z && forall i | 0 <= i < |a| :: !ClosesAt(a, i)
    ensures SwapSafe(a + "=" + (y + z))
  {
    hide Kv;
    var b := a + "=" + (y + z);
    match ClosingBrace(b, 0) {
      case None =>
      case Some(cb) =>
        assert cb < |a| ==> b[..cb] == a[..cb] && b[cb] == a[cb];
        assert cb < |a| ==> !ClosesAt(a, cb);
        forall i | 0 <= i < |b| - cb ensures b[cb..][i] != '=' {
          LaterChar(a, y, z, cb + i);
        }
    }
  }

  lemma {:induction false} LaterChar(a: string, y: string, z: string, i: nat)
    requires |a| < i < |a + "=" + (y + z)|
    ensures (a + "=" + (y + z))[i] in y + z
  {
    assert (a + "=" + (y + z))[i] == (y + z)[i - |a| - 1];
  }

  /** Inside a block a second replacement wins over the first. */
  lemma {:induction false} SwapEntryTwice(raw: string, first: string, second: string)
    requires ViewOf(raw).Text? && ViewOf(raw).inner.Entry? && SpecLike(ViewOf(raw).inner.spec) && SwapSafe(BodyOf(raw))
    requires SpecLike(first) && Trimmed(first) && SpecLike(second) && Trimmed(second)
    ensures ViewOf(SpecSwap(SpecSwap(raw, first), second)).Text? && ViewOf(SpecSwap(raw, second)).Text?
    ensures ViewOf(SpecSwap(SpecSwap(raw, first), second)).inner == ViewOf(SpecSwap(raw, second)).inner
  {
    hide ViewOf, SpecSwap, SpecLike, SwapSafe, BodyOf, Trimmed;
    SwapEntry(raw, first);
    SwapStaysSafe(raw, first);
    SwapEntry(SpecSwap(raw, first), second);
    SwapEntry(raw, second);
  }

  /** So it does outside. */
  lemma {:induction false} SwapRuleTwice(raw: string, first: string, second: string)
    requires ViewOf(raw).Text? && ViewOf(raw).outer.Rule? && ViewOf(raw).outer.pkg != "" && SpecLike(ViewOf(raw).outer.cpus)
    requires SpecLike(first) && Trimmed(first) && SpecLike(second) && Trimmed(second)
    ensures ViewOf(SpecSwap(SpecSwap(raw, first), second)).Text? && ViewOf(SpecSwap(raw, second)).Text?
    ensures ViewOf(SpecSwap(SpecSwap(raw, first), second)).outer == ViewOf(SpecSwap(raw, second)).outer
  {
    hide ViewOf, SpecSwap, SpecLike, Trimmed;
    SwapRule(raw, first);
    SwapRule(SpecSwap(raw, first), second);
    SwapRule(raw, second);
  }
}
