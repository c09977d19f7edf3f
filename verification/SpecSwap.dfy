/**
 * Replacing the spec of a line is a lens: the name, the braces, the comment and the rest
 * of the file's reading stay, and the new spec is what is read.
 */
module SpecSwapping {
  import opened Seqs
  import opened Text
  import opened RuleSyntax
  import opened LineShape

  predicate FrameChar(c: char) { IsWs(c) || c == '{' || c == '}' }

  /** A rule body: key, `=`, white space, value, then white space or a brace. */
  predicate Form(b: string, a: string, ws: string, v: string, rest: string) {
    && b == a + "=" + (ws + (v + rest))
    && AllWs(ws) && v != "" && !FrameChar(v[0])
    && (rest == "" || FrameChar(rest[0]))
    && '=' !in ws + (v + rest)
  }

  lemma {:induction false} ValueEndUnique(v: string, n: nat)
    requires n <= |v| && forall i | 0 <= i < n :: !FrameChar(v[i])
    requires n < |v| ==> FrameChar(v[n])
    ensures ValueEnd(v) == n
  {
    var m := ValueEnd(v);
    assert m < |v| ==> FrameChar(v[m]);
  }

  lemma {:induction false} ValueEndPrefix(v: string, rest: string)
    requires rest == "" || FrameChar(rest[0])
    ensures ValueEnd(v + rest) == ValueEnd(v)
  {
    var n := ValueEnd(v);
    var s := v + rest;
    assert forall i | 0 <= i < n :: s[i] == v[i];
    assert n < |s| ==> s[n] == if n < |v| then v[n] else rest[0];
    ValueEndUnique(s, n);
  }

  lemma {:induction false} KeepFrameSplit(x: string, y: string)
    ensures KeepFrame(x + y) == KeepFrame(x) + KeepFrame(y)
    decreases |x|
  {
    hide IsWs;
    if x == "" {
      NilLeft(y);
      NilLeft(KeepFrame(y));
    } else {
      ConsDrop(x, y);
      KeepFrameSplit(x[1..], y);
      Assoc3(if IsWs(x[0]) || x[0] == '{' || x[0] == '}' then [x[0]] else "", KeepFrame(x[1..]), KeepFrame(y));
    }
  }

  lemma {:induction false} KeepFrameWs(t: string)
    requires AllWs(t)
    ensures KeepFrame(t) == t
    decreases |t|
  {
    if t != "" {
      KeepFrameWs(t[1..]);
      Uncons(t);
    }
  }

  lemma {:induction false} KeepFrameChars(s: string)
    ensures forall i | 0 <= i < |KeepFrame(s)| :: FrameChar(KeepFrame(s)[i])
    ensures '{' !in s && '}' !in s ==> AllWs(KeepFrame(s))
    decreases |s|
  {
    if s != "" {
      KeepFrameChars(s[1..]);
      Uncons(s);
    }
  }

  /** Where the editor cuts a line, in terms of its parts. */
  lemma {:induction false} CutParts(raw: string, lead: string, b: string, t: string) returns (t1: string, t2: string)
    requires IsLine(raw, lead, b, t)
    ensures t == t1 + t2 && AllWs(t1) && t2 in {"", t}
    ensures raw[..CutAt(raw)] == lead + b + t1 && raw[CutAt(raw)..] == t2
  {
    CommentAtLine(raw, lead, b, t);
    if TrimStartLen(t) == |t| {
      t1, t2 := t, "";
    } else {
      t1, t2 := "", t;
    }
    var c := CutAt(raw);
    assert c == |lead| + |b| + |t1|;
    assert raw == (lead + b + t1) + t2;
  }

  lemma {:induction false} SwapText(raw: string, lead: string, b: string, t: string,
                                    a: string, ws: string, v: string, rest: string, cpus: string)
    requires IsLine(raw, lead, b, t) && Form(b, a, ws, v, rest)
    ensures SpecSwap(raw, cpus)
         == lead + (a + "=" + (ws + (cpus + KeepFrame(v[ValueEnd(v)..] + rest)))) + t
  {
    hide SpecSwap, SwapFrom, TrimStartLen, CutAt, IsBody, IsTail, KeepFrame, ValueEnd;
    var t1, t2 := CutParts(raw, lead, b, t);
    var cut := CutAt(raw);
    var y := ws + (v + rest);
    SwapHead(raw[..cut], lead, a, y, t1);
    Assoc3(ws, v + rest, t1);
    SwapUnfold(raw, |lead| + |a|, cpus);
    SwapPieces(raw, cut, lead, a, ws, v, rest, t1, cpus);
    SwapJoin(SpecSwap(raw, cpus), lead, a, ws, cpus, KeepFrame(v[ValueEnd(v)..] + rest), t1, t2);
  }

  lemma {:induction false} SwapUnfold(raw: string, eq: nat, cpus: string)
    requires RFind(raw[..CutAt(raw)], '=') == Some(eq)
    ensures SpecSwap(raw, cpus) == SwapFrom(raw, CutAt(raw), eq, cpus)
  {
  }

  lemma {:induction false} SwapJoin(r: string, lead: string, a: string, ws: string, c: string,
                                    k: string, t1: string, t2: string)
    requires r == (lead + a + "=" + ws) + c + (k + t1) + t2
    ensures r == lead + (a + "=" + (ws + (c + k))) + (t1 + t2)
  {
    Regroup(lead + a, ws, c, k, t1, t2);
    Regroup2(lead, a, ws + (c + k), t1 + t2);
  }

  lemma {:induction false} SwapPieces(raw: string, cut: nat, lead: string, a: string, ws: string,
                                      v: string, rest: string, t1: string, cpus: string)
    requires cut <= |raw| && |lead| + |a| < cut
    requires AllWs(ws) && AllWs(t1) && v != "" && !FrameChar(v[0]) && (rest == "" || FrameChar(rest[0]))
    requires raw[..cut][..|lead| + |a| + 1] == lead + a + "="
    requires raw[..cut][|lead| + |a| + 1..] == ws + (v + rest + t1)
    ensures SwapFrom(raw, cut, |lead| + |a|, cpus)
         == (lead + a + "=" + ws) + cpus + (KeepFrame(v[ValueEnd(v)..] + rest) + t1) + raw[cut..]
  {
    hide SwapFrom, TrimStartLen, IsWs, KeepFrame;
    var eq := |lead| + |a|;
    var val := v + rest + t1;
    SwapRhs(raw, cut, eq, ws, val);
    SwapValue(v, rest, t1);
    SwapLead(raw, raw[..cut], lead, a, ws, val);
    hide SwapFrom, KeepFrame, SwapTail, FrameChar, ValueEnd;
    SwapFromIs(raw, cut, eq, |ws|, val, cpus);
  }

  lemma {:induction false} SwapRhs(raw: string, cut: nat, eq: nat, ws: string, val: string)
    requires cut <= |raw| && eq < cut && raw[..cut][eq + 1..] == ws + val
    requires AllWs(ws) && val != "" && !IsWs(val[0])
    ensures TrimStartLen(raw[eq + 1..cut]) == |ws| && raw[eq + 1..cut][|ws|..] == val
  {
    assert raw[eq + 1..cut] == raw[..cut][eq + 1..];
    TrimStartUnique(ws, val);
  }

  lemma {:induction false} SwapFromIs(raw: string, cut: nat, eq: nat, n: nat, val: string, cpus: string)
    requires eq < cut <= |raw|
    requires TrimStartLen(raw[eq + 1..cut]) == n && raw[eq + 1..cut][n..] == val
    ensures SwapFrom(raw, cut, eq, cpus) == raw[..eq + 1 + n] + cpus + SwapTail(val) + raw[cut..]
  {
    hide TrimStartLen, SwapTail;
  }

  lemma {:induction false} Regroup(l: string, ws: string, c: string, k: string, t1: string, t2: string)
    ensures (l + "=" + ws) + c + (k + t1) + t2 == l + "=" + (ws + (c + k)) + (t1 + t2)
  {
    var p := l + "=" + ws;
    assert p + c + (k + t1) + t2 == p + (c + k) + (t1 + t2);
    assert p + (c + k) == l + "=" + (ws + (c + k));
  }

  lemma {:induction false} Regroup2(lead: string, a: string, y: string, t: string)
    ensures lead + a + "=" + y + t == lead + (a + "=" + y) + t
  {
  }

  lemma {:induction false} SwapHead(head: string, lead: string, a: string, y: string, t1: string)
    requires head == lead + (a + "=" + y) + t1 && '=' !in y && AllWs(t1)
    ensures RFind(head, '=') == Some(|lead| + |a|)
    ensures |lead| + |a| + 1 <= |head|
    ensures head[..|lead| + |a| + 1] == lead + a + "="
    ensures head[|lead| + |a| + 1..] == y + t1
  {
    Regroup3(lead, a, y, t1);
    RFindUnique(lead + a, '=', y + t1);
  }

  lemma {:induction false} Regroup3(lead: string, a: string, y: string, t: string)
    ensures lead + (a + "=" + y) + t == (lead + a) + ['='] + (y + t)
  {
  }

  lemma {:induction false} SwapValue(v: string, rest: string, t1: string)
    requires (rest == "" || FrameChar(rest[0])) && AllWs(t1)
    ensures var val := v + rest + t1;
            SwapTail(val) == KeepFrame(v[ValueEnd(v)..] + rest) + t1
  {
    var ve := ValueEnd(v);
    Assoc3(v, rest, t1);
    ValueEndPrefix(v, rest + t1);
    var val := v + rest + t1;
    assert val[ve..] == (v[ve..] + rest) + t1;
    KeepFrameSplit(v[ve..] + rest, t1);
    KeepFrameWs(t1);
  }

  lemma {:induction false} SwapLead(raw: string, head: string, lead: string, a: string, ws: string, val: string)
    requires head <= raw && |lead| + |a| + 1 <= |head|
    requires head[..|lead| + |a| + 1] == lead + a + "="
    requires head[|lead| + |a| + 1..] == ws + val
    ensures |lead| + |a| + 1 + |ws| <= |head|
    ensures raw[..|lead| + |a| + 1 + |ws|] == lead + a + "=" + ws
  {
    var n := |lead| + |a| + 1;
    assert raw[..n + |ws|] == head[..n] + head[n..][..|ws|];
  }
}
