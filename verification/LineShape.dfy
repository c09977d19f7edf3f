/**
 * Every line that is not blank and not a comment is lead + body + tail: white space,
 * the text that is parsed, then white space or an inline comment. Both readings of the
 * line depend on the body alone, so the editor may keep the tail verbatim.
 */
module LineShape {
  import opened Seqs
  import opened Text
  import opened RuleSyntax

  predicate IsBody(b: string) {
    b != "" && Trimmed(b) && NoComment(b) && !StartsComment(b)
  }

  /** Nothing, white space, or white space and then an inline comment. */
  predicate IsTail(t: string) {
    var k := TrimStartLen(t);
    t == "" || (k > 0 && (k == |t| || MarkAt(t, k)))
  }

  predicate IsLine(raw: string, lead: string, b: string, t: string) {
    raw == lead + b + t && AllWs(lead) && IsBody(b) && IsTail(t)
  }

  function InnerOfBody(b: string, closes: bool): Inner {
    if CloseLike(b) then Close
    else
      match SplitBody(b)
      case Some(e) => Entry(e.0, e.1, e.2)
      case None => Noise(closes)
  }

  /** `v` is what a line with body `b` means. */
  predicate Shows(v: View, b: string) {
    && v.Text?
    && v.outer == ParseBody(b)
    && exists closes :: v.inner == InnerOfBody(b, closes)
  }

  /** No comment starts before the tail. */
  lemma {:induction false} NoMarkBeforeTail(lead: string, b: string, t: string, i: nat)
    requires AllWs(lead) && IsBody(b) && IsTail(t)
    requires i < |lead| + |b| + TrimStartLen(t)
    ensures !CommentStart(lead + b + t, i)
  {
    var raw := lead + b + t;
    if i < |lead| {
      assert raw[i] == lead[i];
    } else if i < |lead| + |b| {
      var j := i - |lead|;
      assert raw[i] == b[j];
      assert j > 0 ==> raw[i - 1] == b[j - 1];
      assert j + 1 < |b| ==> raw[i + 1] == b[j + 1];
      assert j + 1 == |b| && i + 1 < |raw| ==> raw[i + 1] == t[0];
      assert t != "" ==> IsWs(t[0]);
      assert !CommentStart(b, j) && !MarkAt(b, 0);
    } else {
      assert raw[i] == t[i - |lead| - |b|];
    }
  }

  lemma {:induction false} FirstCommentIs(s: string, from: nat, at: nat)
    requires from <= at < |s| && CommentStart(s, at)
    requires forall i | from <= i < at :: !CommentStart(s, i)
    ensures FirstComment(s, from) == Some(at)
  {
    var r := FirstComment(s, from);
    assert r.Some?;
  }

  lemma {:induction false} CommentAtLine(raw: string, lead: string, b: string, t: string)
    requires IsLine(raw, lead, b, t)
    ensures TrimStartLen(t) == |t| ==> CommentAt(raw) == None
    ensures TrimStartLen(t) < |t| ==> CommentAt(raw) == Some(|lead| + |b|)
  {
    var k := TrimStartLen(t);
    var at := |lead| + |b| + k;
    forall i | 0 <= i < at ensures !CommentStart(raw, i) { NoMarkBeforeTail(lead, b, t, i); }
    if k < |t| {
      assert raw[at] == t[k] && raw[at - 1] == t[k - 1];
      assert k + 1 < |t| ==> raw[at + 1] == t[k + 1];
      FirstCommentIs(raw, 0, at);
      assert raw[..at] == (lead + b) + t[..k];
      TrimEndUnique(lead + b, t[..k]);
    } else {
      assert FirstComment(raw, 0).None?;
    }
  }

  /** Trimming a tail leaves a tail. */
  lemma {:induction false} TrimmedTail(t: string)
    requires IsTail(t)
    ensures IsTail(TrimEnd(t))
    ensures TrimStartLen(TrimEnd(t)) == |TrimEnd(t)| ==> TrimEnd(t) == ""
  {
    var k, n := TrimStartLen(t), TrimEndLen(t);
    var u := TrimEnd(t);
    if k == |t| {
      assert "" + t == t;
      TrimEndUnique("", t);
    } else {
      assert !IsWs(t[k]) && n > k;
      assert u == t[..k] + t[k..n];
      TrimStartUnique(t[..k], t[k..n]);
      if t[k] == '/' {
        assert !IsWs(t[k + 1]) && n > k + 1;
      }
    }
  }

  lemma {:induction false} TrimLine(raw: string, lead: string, b: string, t: string)
    requires IsLine(raw, lead, b, t)
    ensures Trim(raw) == b + TrimEnd(t) && IsLine(Trim(raw), "", b, TrimEnd(t))
  {
    var u := TrimEnd(t);
    var rest := t[|u|..];
    TrimmedTail(t);
    BodyWithTail(b, t);
    assert t == u + rest;
    SplitTail(lead, b, u, rest);
    TrimUnique(lead, b + u, rest);
    EmptyLead(b, u);
  }

  lemma {:induction false} EmptyLead(b: string, u: string)
    ensures "" + b + u == b + u
  {
    assert "" + b == b;
  }

  lemma {:induction false} SplitTail(lead: string, b: string, u: string, rest: string)
    ensures lead + b + (u + rest) == lead + (b + u) + rest
  {
  }

  lemma {:induction false} BodyWithTail(b: string, t: string)
    requires IsBody(b)
    ensures b + TrimEnd(t) != "" && Trimmed(b + TrimEnd(t))
  {
    var u := TrimEnd(t);
    assert (b + u)[0] == b[0];
    assert u != "" ==> (b + u)[|b + u| - 1] == t[|u| - 1];
  }

  lemma {:induction false} CloseLikeOfTail(b: string, u: string)
    requires IsBody(b) && IsTail(u)
    ensures CloseLike(b + u) == CloseLike(b)
    ensures StartsComment(b + u) == false
  {
    var p := b + u;
    assert p[0] == b[0];
    assert |b| > 1 ==> p[1] == b[1];
    assert |b| > 2 ==> p[2] == b[2];
    assert u != "" ==> IsWs(u[0]) && p[|b|] == u[0];
    assert !MarkAt(b, 0);
  }

  /** The reading of a composed line depends only on its body. */
  lemma {:induction false} LineShows(raw: string, lead: string, b: string, t: string)
    requires IsLine(raw, lead, b, t)
    ensures Shows(ViewOf(raw), b)
  {
    var p, u := Trim(raw), TrimEnd(t);
    TrimLine(raw, lead, b, t);
    CommentAtLine(p, "", b, u);
    TrimmedTail(t);
    CloseLikeOfTail(b, u);
    assert p[..|b|] == b;
    assert StripComment(p) == b;
    assert InnerView(p) == InnerOfBody(b, '}' in p);
  }

  /** A printed line without a comment. */
  lemma {:induction false} PrintedShows(b: string)
    requires IsBody(b)
    ensures Shows(ViewOf(b), b)
  {
    assert "" + b + "" == b;
    LineShows(b, "", b, "");
  }

  /** Every line with content decomposes. */
  lemma {:induction false} Decompose(raw: string) returns (lead: string, b: string, t: string)
    requires ViewOf(raw).Text?
    ensures IsLine(raw, lead, b, t) && Shows(ViewOf(raw), b)
    ensures b == StripComment(Trim(raw))
  {
    TextTrimmed(raw);
    hide ViewOf, Trim, IsBody, IsTail, StripComment, StartsComment, Shows;
    var trail;
    lead, trail := TrimParts(raw);
    b, t := DecomposeTrimmed(Trim(raw), trail);
    Assoc3(lead, Trim(raw), trail);
    Assoc3(lead, b, t);
    LineShows(raw, lead, b, t);
  }

  lemma {:induction false} TextTrimmed(raw: string)
    requires ViewOf(raw).Text?
    ensures Trim(raw) != "" && !StartsComment(Trim(raw))
  {
    hide Trim, ParseOuter, InnerView;
  }

  lemma {:induction false} BlankTailIs(t: string)
    requires AllWs(t)
    ensures IsTail(t)
  {
    NilLeft(t);
    TrimStartUnique(t, "");
  }

  lemma {:induction false} DecomposeTrimmed(p: string, trail: string) returns (b: string, t: string)
    requires p != "" && Trimmed(p) && !StartsComment(p) && AllWs(trail)
    ensures p + trail == b + t && IsBody(b) && IsTail(t) && b == StripComment(p)
  {
    hide IsTail, IsWs;
    var n := CutAt(p);
    b, t := p[..n], p[n..] + trail;
    match FirstComment(p, 0) {
      case None =>
        assert b == p && t == trail;
        BlankTailIs(trail);
      case Some(i) =>
        assert IsWs(p[i - 1]) && !IsWs(p[0]);
        assert i > 1;
        var q := p[..i];
        assert q[0] == p[0] && q[i - 1] == p[i - 1];
        assert n == TrimEndLen(q) && 0 < n < i;
        assert b[n - 1] == q[n - 1];
        CutTail(p, trail, n, i);
    }
    forall i | 0 <= i < |b| ensures !CommentStart(b, i) {
      assert !CommentStart(p, i);
    }
    assert b[0] == p[0];
    assert |b| > 1 ==> b[1] == p[1];
  }

  lemma {:induction false} CutTail(p: string, trail: string, n: nat, i: nat)
    requires 0 < n < i < |p| && CommentStart(p, i) && n == TrimEndLen(p[..i]) && AllWs(trail)
    ensures IsTail(p[n..] + trail)
  {
    var q := p[..i];
    var t := p[n..] + trail;
    assert t == q[n..] + (p[i..] + trail);
    assert (p[i..] + trail)[0] == p[i];
    assert !IsWs(p[i]);
    TrimStartUnique(q[n..], p[i..] + trail);
    assert t[i - n] == p[i];
    assert i + 1 < |p| ==> t[i - n + 1] == p[i + 1];
  }
}
