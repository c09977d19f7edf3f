/** Exactly when replacing the spec of an in-block rule does what it should. */
module SpecExact {
  import opened Text
  import opened RuleSyntax
  import opened LineShape
  import opened LineHeader
  import opened SpecSwapping
  import opened SpecLens
  import opened SpecTheorems

  /** The replaced line, for any text behind the last `=`. */
  lemma {:induction false} SwapAny(raw: string, lead: string, b: string, t: string, k: string, x: string, c: string)
    returns (ws: string, f: string, t2: string)
    requires IsLine(raw, lead, b, t) && b == k + "=" + x && '=' !in x
    ensures SpecSwap(raw, c) == lead + (k + "=" + (ws + (c + f))) + t2
    ensures AllWs(ws) && (forall i | 0 <= i < |f| :: FrameChar(f[i])) && IsTail(t2)
  {
    hide SpecSwap, SwapFrom, CutAt, IsBody, IsTail, KeepFrame, ValueEnd, IsWs, FrameChar, SwapTail, TrimStartLen;
    var t1;
    t1, t2 := CutParts(raw, lead, b, t);
    TailOf(t, t1, t2);
    SwapHead(raw[..CutAt(raw)], lead, k, x, t1);
    SwapUnfold(raw, |lead| + |k|, c);
    ws, f := SwapAnyFrom(raw, CutAt(raw), lead, k, x + t1, c);
    AnyJoin(SpecSwap(raw, c), lead, k, ws, c, f, t2);
  }

  lemma {:induction false} SwapAnyFrom(raw: string, cut: nat, lead: string, k: string, rhs: string, c: string)
    returns (ws: string, f: string)
    requires cut <= |raw| && |lead| + |k| < cut
    requires raw[..cut][..|lead| + |k| + 1] == lead + k + "="
    requires raw[..cut][|lead| + |k| + 1..] == rhs
    ensures SwapFrom(raw, cut, |lead| + |k|, c) == (lead + k + "=" + ws) + c + f + raw[cut..]
    ensures AllWs(ws) && (forall i | 0 <= i < |f| :: FrameChar(f[i]))
  {
    hide SwapFrom, TrimStartLen, IsWs, KeepFrame, FrameChar, SwapTail, ValueEnd;
    var eq := |lead| + |k|;
    var val;
    ws, val := AnyRhs(raw, cut, eq, rhs);
    f := SwapTail(val);
    SwapLead(raw, raw[..cut], lead, k, ws, val);
    TailFrames(val);
    SwapFromIs(raw, cut, eq, |ws|, val, c);
  }

  lemma {:induction false} AnyRhs(raw: string, cut: nat, eq: nat, rhs: string) returns (ws: string, val: string)
    requires cut <= |raw| && eq < cut && raw[..cut][eq + 1..] == rhs
    ensures rhs == ws + val && AllWs(ws)
    ensures TrimStartLen(raw[eq + 1..cut]) == |ws| && raw[eq + 1..cut][|ws|..] == val
  {
    hide IsWs;
    var n := TrimStartLen(rhs);
    ws, val := rhs[..n], rhs[n..];
    RhsIs(raw, cut, eq, rhs);
  }

  lemma {:induction false} RhsIs(raw: string, cut: nat, eq: nat, rhs: string)
    requires cut <= |raw| && eq < cut && raw[..cut][eq + 1..] == rhs
    ensures raw[eq + 1..cut] == rhs
  {
  }

  lemma {:induction false} TailFrames(val: string)
    ensures forall i | 0 <= i < |SwapTail(val)| :: FrameChar(SwapTail(val)[i])
  {
    hide FrameChar;
    KeepFrameChars(val[ValueEnd(val)..]);
  }

  lemma {:induction false} AnyJoin(r: string, lead: string, k: string, ws: string, c: string, f: string, t2: string)
    requires r == (lead + k + "=" + ws) + c + f + t2
    ensures r == lead + (k + "=" + (ws + (c + f))) + t2
  {
    var p := lead + k + "=" + ws;
    assert p + c + f + t2 == p + (c + f) + t2;
    assert p + (c + f) == lead + (k + "=" + (ws + (c + f)));
  }

  /** What is left of a tail whose white space was used up is a tail. */
  lemma {:induction false} TailOf(t: string, t1: string, t2: string)
    requires IsTail(t) && t == t1 + t2 && t2 in {"", t}
    ensures IsTail(t2)
  {
  }

  /** Behind a closing brace the replacement changes nothing that is read. */
  lemma {:induction false} SwapBehindClose(raw: string, cpus: string)
    requires ViewOf(raw).Text? && ViewOf(raw).inner.Entry? && !SwapSafe(BodyOf(raw))
    requires SpecLike(cpus) && Trimmed(cpus)
    ensures ViewOf(SpecSwap(raw, cpus)).Text? && ViewOf(SpecSwap(raw, cpus)).inner == ViewOf(raw).inner
  {
    hide ViewOf, SpecSwap, IsTail, TrimStartLen, SpecLike, KeepFrame, SplitBody, StripComment, Trim, CloseLike, FrameChar;
    var lead, b, t := Decompose(raw);
    EntryShown(ViewOf(raw), b);
    var k, x := LastEq(b);
    KeyShape(k, b);
    SpecIsPlain(cpus);
    var ws, f, t2 := SwapAny(raw, lead, b, t, k, x, cpus);
    var g, f' := FrameLead(f);
    var y, z, u := Swapped(ws, cpus, g, f', t2);
    LineRegroup(lead, k, ws + (cpus + f), t2, y + z, u);
    FormBody(k, y + z);
    LineShows(SpecSwap(raw, cpus), lead, k + "=" + (y + z), u);
    SameHead(b, k, y + z);
    ShowsEntry(ViewOf(SpecSwap(raw, cpus)), k + "=" + (y + z));
  }

  /** The last `=` stands behind the closing brace. */
  lemma {:induction false} LastEq(b: string) returns (k: string, x: string)
    requires IsBody(b) && SplitBody(b).Some? && !SwapSafe(b)
    ensures b == k + "=" + x && '=' !in x && k != "" && k[0] == b[0] && NoComment(k) && !StartsComment(k)
    ensures ClosingBrace(b, 0).Some? && ClosingBrace(b, 0).value < |k|
  {
    hide Kv, IsBody;
    var eq := RFind(b, '=').value;
    k, x := b[..eq], b[eq + 1..];
    assert b == k + "=" + x;
    var cb := ClosingBrace(b, 0).value;
    assert '=' in b[cb..];
    var i :| 0 <= i < |b| - cb && b[cb..][i] == '=';
    assert b[cb + i] == '=';
    OuterKey(b, k);
  }

  lemma {:induction false} FrameLead(f: string) returns (g: string, r: string)
    requires forall i | 0 <= i < |f| :: FrameChar(f[i])
    ensures f == g + r && AllWs(g) && (r == "" || !IsWs(r[0])) && forall i | 0 <= i < |r| :: FrameChar(r[i])
  {
    hide FrameChar, IsWs;
    var n := TrimStartLen(f);
    g, r := f[..n], f[n..];
    assert forall i | 0 <= i < |r| :: r[i] == f[n + i];
  }

  /** A body read up to its closing brace: what stands behind does not matter. */
  lemma {:induction false} SameHead(b: string, k: string, x: string)
    requires k <= b && ClosingBrace(b, 0).Some? && ClosingBrace(b, 0).value < |k| && !CloseLike(b)
    requires |k| < |b| && b[|k|] == '='
    ensures SplitBody(k + "=" + x) == SplitBody(b) && !CloseLike(k + "=" + x)
  {
    hide Kv;
    var s := k + "=" + x;
    var cb := ClosingBrace(b, 0).value;
    assert s[..cb] == b[..cb] && s[cb] == b[cb];
    forall i | 0 <= i < cb ensures !ClosesAt(s, i) {
      assert s[..i] == b[..i] && s[i] == b[i];
      assert !ClosesAt(b, i);
    }
    ClosingBraceIs(s, cb);
    assert s[..|k| + 1] == b[..|k| + 1];
    assert s[0] == b[0] && s[1] == b[1];
    assert |k| > 1 ==> s[2] == b[2];
  }

  /**
   * Replacing the spec of an in-block rule reads back as the new spec exactly when no `=`
   * stands behind the closing brace, or there was nothing to change.
   */
  lemma {:induction false} SwapEntryExact(raw: string, cpus: string)
    requires ViewOf(raw).Text? && ViewOf(raw).inner.Entry? && SpecLike(ViewOf(raw).inner.spec)
    requires SpecLike(cpus) && Trimmed(cpus)
    ensures ViewOf(SpecSwap(raw, cpus)).Text?
    ensures ViewOf(SpecSwap(raw, cpus)).inner == ViewOf(raw).inner.(spec := cpus)
       <==> SwapSafe(BodyOf(raw)) || cpus == ViewOf(raw).inner.spec
  {
    hide ViewOf, SpecSwap, SpecLike, SwapSafe, BodyOf, Trimmed;
    if SwapSafe(BodyOf(raw)) {
      SwapEntry(raw, cpus);
    } else {
      SwapBehindClose(raw, cpus);
    }
  }
}
