/** Replacing a spec and reading the line again: the in-block and the outer case. */
module SpecLens {
  import opened Seqs
  import opened Text
  import opened RuleSyntax
  import opened LineShape
  import opened LinePrint
  import opened LineHeader
  import opened SpecSwapping

  predicate NoMarks(x: string) {
    '#' !in x && '/' !in x
  }

  lemma {:induction false} FormBody(a: string, x: string)
    requires a != "" && !IsWs(a[0]) && NoComment(a) && !StartsComment(a)
    requires NoMarks(x) && x != "" && !IsWs(x[|x| - 1])
    ensures IsBody(a + "=" + x)
  {
    var s := a + "=" + x;
    assert NoComment(x);
    JoinNoComment(a, x);
    assert s[0] == a[0] && s[|s| - 1] == x[|x| - 1];
    assert s[1] == if |a| > 1 then a[1] else '=';
    assert !MarkAt(a, 0);
  }

  /** Key, `=`, spec, and possibly a closing brace with more behind it. */
  lemma {:induction false} FormEntry(a: string, y: string, z: string)
    requires a != "" && Trim(a) != "" && !CloseLike(a + "=")
    requires forall i | 0 <= i < |a| :: !ClosesAt(a, i)
    requires '=' !in y && '}' !in y && (z == "" || z[0] == '}')
    ensures !CloseLike(a + "=" + (y + z))
    ensures SplitBody(a + "=" + (y + z)) == Some((Trim(a), Trim(y), z != ""))
  {
    hide Trim, Kv, CloseLike, ClosesAt;
    var s := a + "=" + (y + z);
    CloseLikeBeforeEq(a, y + z);
    KvJoin(a, y);
    NoClosingBrace(a, y);
    var q := a + "=" + y;
    if z == "" {
      assert s == q;
    } else {
      assert s == q + z;
      ClosedForm(s, q, z);
    }
  }

  /** A rule followed by a brace: the brace closes. */
  lemma {:induction false} ClosedForm(s: string, q: string, z: string)
    requires s == q + z && z != "" && z[0] == '}' && ClosingBrace(q, 0).None? && Kv(q).Some?
    ensures ClosingBrace(s, 0) == Some(|q|) && s[..|q|] == q
  {
    hide Kv;
    var n := |q|;
    assert s[..n] == q && s[n] == '}';
    forall i | 0 <= i < n ensures !ClosesAt(s, i) {
      assert s[..i] == q[..i] && s[i] == q[i];
      assert !ClosesAt(q, i);
    }
    ClosingBraceIs(s, n);
  }

  lemma {:induction false} ClosingBraceIs(s: string, n: nat)
    requires n < |s| && ClosesAt(s, n) && forall i | 0 <= i < n :: !ClosesAt(s, i)
    ensures ClosingBrace(s, 0) == Some(n)
  {
    assert ClosingBrace(s, 0).Some?;
  }

  /** Key, `=`, spec, and possibly the brace that opens a block. */
  lemma {:induction false} FormOuter(a: string, y: string, z: string)
    requires a != "" && SplitTarget(TrimEnd(a)).None? && (z == "" || z == "{")
    requires '=' !in y && Trim(y) != ""
    requires z == "" ==> !CloseLike(a + "=") && y != "" && !IsWs(y[|y| - 1]) && y[|y| - 1] != '{'
    ensures ParseBody(a + "=" + (y + z)) == Rule(Trim(a), Trim(y), z != "")
  {
    hide Trim, SplitTarget, CloseLike, SplitSingle, TrimEndLen, ParseContent;
    var s := a + "=" + (y + z);
    if z == "" {
      assert y + z == y;
      assert s[|s| - 1] == y[|y| - 1];
      FormContent(a, y, false);
    } else {
      var u := TrimEnd(y);
      TrimEndNonBlank(y);
      OpenForm(s, a, y, u);
      TrimOfTrimEnd(y);
      FormContent(a, u, true);
    }
  }

  lemma {:induction false} OpenForm(s: string, a: string, y: string, u: string)
    requires s == a + "=" + (y + "{") && u != "" && u <= y && AllWs(y[|u|..]) && !IsWs(u[|u| - 1])
    ensures OpenBody(s) == (true, a + "=" + u)
  {
    assert s == (a + "=" + y) + "{";
    assert s[..|s| - 1] == a + "=" + y;
    assert a + "=" + y == (a + "=" + u) + y[|u|..];
    assert (a + "=" + u)[|a| + |u|] == u[|u| - 1];
    TrimEndUnique(a + "=" + u, y[|u|..]);
  }

  lemma {:induction false} TrimEndNonBlank(y: string)
    requires Trim(y) != ""
    ensures TrimEnd(y) != "" && AllWs(y[|TrimEnd(y)|..]) && !IsWs(TrimEnd(y)[|TrimEnd(y)| - 1])
    ensures TrimEnd(y) <= y
  {
    if TrimEndLen(y) == 0 {
      TrimBlank(y);
    }
  }

  lemma {:induction false} TrimOfTrimEnd(y: string)
    requires Trim(y) != ""
    ensures Trim(TrimEnd(y)) == Trim(y)
  {
    var lead, tail := TrimParts(y);
    var c := Trim(y);
    assert y == (lead + c) + tail && (lead + c)[|lead + c| - 1] == c[|c| - 1];
    TrimEndUnique(lead + c, tail);
    assert lead + c == lead + c + "";
    TrimUnique(lead, c, "");
  }

  lemma {:induction false} FormContent(a: string, y: string, open: bool)
    requires a != "" && SplitTarget(TrimEnd(a)).None? && '=' !in y && Trim(y) != ""
    requires !open ==> !CloseLike(a + "=")
    ensures ParseContent(open, a + "=" + y) == Rule(Trim(a), Trim(y), open)
  {
    var s := a + "=" + y;
    KvJoin(a, y);
    CloseLikeBeforeEq(a, y);
    assert s[..|a|] == a && s[|a| + 1..] == y;
  }

  // ---- taking a parsed line apart

  lemma {:induction false} SpecCharsJoin(ws: string, v: string, w: string)
    requires AllWs(ws) && SpecChars(v) && AllWs(w)
    ensures SpecChars(ws + v + w)
  {
    var y := ws + v + w;
    assert forall i | 0 <= i < |y| ::
        y[i] == if i < |ws| then ws[i] else if i < |ws| + |v| then v[i - |ws|] else w[i - |ws| - |v|];
  }

  /** The spec inside `y`, with the white space around it. */
  lemma {:induction false} AroundSpec(y: string) returns (ws: string, w: string)
    requires SpecLike(Trim(y))
    ensures AllWs(ws) && AllWs(w) && y == ws + (Trim(y) + w)
    ensures Trim(y) != "" && !FrameChar(Trim(y)[0]) && SpecChars(Trim(y))
    ensures SpecChars(y)
  {
    hide Trim, SpecLike;
    ws, w := TrimParts(y);
    SpecIsPlain(Trim(y));
    Assoc3(ws, Trim(y), w);
    SpecCharsJoin(ws, Trim(y), w);
  }

  /** No `=` behind the brace that closes the block. */
  predicate SwapSafe(b: string) {
    match ClosingBrace(b, 0)
    case None => true
    case Some(cb) => '=' !in b[cb..]
  }

  /** The key, spec text and rest of an in-block rule. */
  lemma {:induction false} EntryForm(b: string) returns (a: string, y: string, z: string)
    requires IsBody(b) && !CloseLike(b) && SplitBody(b).Some? && SwapSafe(b)
    ensures b == a + "=" + (y + z) && a != "" && a[0] == b[0] && '=' !in y && '=' !in z
    ensures Trim(a) == SplitBody(b).value.0 && Trim(y) == SplitBody(b).value.1 && Trim(a) != ""
    ensures z == "" || z[0] == '}'
    ensures z != "" <==> SplitBody(b).value.2
    ensures forall i | 0 <= i < |a| :: !ClosesAt(a, i)
    ensures NoComment(a) && !StartsComment(a) && !CloseLike(a + "=")
  {
    var q := match ClosingBrace(b, 0) case Some(cb) => b[..cb] case None => b;
    var eq := RFind(q, '=').value;
    EntryKey(b, q);
    a, y, z := q[..eq], q[eq + 1..], b[|q|..];
    EntryJoin(b, q, eq);
    CloseLikeBeforeEq(a, y + z);
  }

  lemma {:induction false} EntryJoin(b: string, q: string, eq: nat)
    requires q <= b && eq < |q| && q[eq] == '='
    ensures b == q[..eq] + "=" + (q[eq + 1..] + b[|q|..])
  {
    assert q == q[..eq] + "=" + q[eq + 1..];
    assert b == q + b[|q|..];
  }

  lemma {:induction false} EntryKey(b: string, q: string)
    requires IsBody(b) && q <= b && Kv(q).Some?
    requires forall i | 0 <= i < |q| :: !ClosesAt(b, i)
    ensures var eq := RFind(q, '=').value; var a := q[..eq];
            && a != "" && a[0] == b[0] && NoComment(a) && !StartsComment(a)
            && forall i | 0 <= i < |a| :: !ClosesAt(a, i)
  {
    var eq := RFind(q, '=').value;
    var a := q[..eq];
    assert q[0] == b[0];
    ParsedKv(q);
    assert a == b[0..eq];
    SubNoComment(b, 0, eq);
    assert a[0] == b[0] && (|a| > 1 ==> a[1] == b[1]);
    assert !MarkAt(b, 0);
    forall i | 0 <= i < |a| ensures !ClosesAt(a, i) {
      assert a[..i] == b[..i] && a[i] == b[i];
      assert !ClosesAt(b, i);
    }
  }

  // ---- putting the swapped line together

  lemma {:induction false} TailPrefix(g: string, t: string)
    requires AllWs(g) && IsTail(t)
    ensures IsTail(g + t)
  {
    var k := TrimStartLen(t);
    var s := g + t;
    assert s == (g + t[..k]) + t[k..];
    TrimStartUnique(g + t[..k], t[k..]);
    if k < |t| {
      assert s[|g| + k] == t[k];
      assert k + 1 < |t| ==> s[|g| + k + 1] == t[k + 1];
    }
  }

  lemma {:induction false} FrameNoMarks(z: string)
    requires forall i | 0 <= i < |z| :: FrameChar(z[i])
    ensures NoMarks(z)
  {
  }

  lemma {:induction false} JoinNoMarks(x: string, y: string)
    requires NoMarks(x) && NoMarks(y)
    ensures NoMarks(x + y)
  {
  }

  lemma {:induction false} SpecNoMarks(y: string)
    requires SpecChars(y)
    ensures NoMarks(y) && '=' !in y && '{' !in y && '}' !in y
  {
  }

  /** The text after the key once `c` is in place: spec, kept braces, and white space that joins the tail. */
  lemma {:induction false} Swapped(ws: string, c: string, g: string, f: string, t: string)
    returns (y: string, z: string, u: string)
    requires AllWs(ws) && AllWs(g) && IsTail(t) && c != "" && Trimmed(c) && SpecChars(c)
    requires forall i | 0 <= i < |f| :: FrameChar(f[i])
    requires f == "" || !IsWs(f[0])
    ensures (ws + (c + (g + f))) + t == (y + z) + u && IsTail(u)
    ensures Trim(y) == c && y != "" && SpecChars(y) && NoMarks(y + z)
    ensures y + z != "" && !IsWs((y + z)[|y + z| - 1])
    ensures if f == "" then z == "" && y == ws + c else z == TrimEnd(f) && z != "" && z[0] == f[0]
  {
    hide Trim, SpecChar, IsTail, IsWs, TrimEndLen;
    SpecCharsTrim(ws, c, if f == "" then "" else g);
    if f == "" {
      y, z, u := ws + c, "", g + t;
      assert ws + c + "" == ws + c;
      assert g + f == g;
      SwappedPlain(ws, c, g, t);
    } else {
      y, z, u := ws + c + g, TrimEnd(f), f[TrimEndLen(f)..] + t;
      SwappedBrace(ws, c, g, f, t);
    }
    SpecNoMarks(y);
    JoinNoMarks(y, z);
  }

  lemma {:induction false} SpecCharsTrim(ws: string, c: string, g: string)
    requires AllWs(ws) && AllWs(g) && c != "" && Trimmed(c) && SpecChars(c)
    ensures Trim(ws + c + g) == c && SpecChars(ws + c + g)
  {
    SpecCharsJoin(ws, c, g);
    TrimUnique(ws, c, g);
  }

  lemma {:induction false} SwappedPlain(ws: string, c: string, g: string, t: string)
    requires AllWs(ws) && AllWs(g) && IsTail(t) && c != "" && Trimmed(c)
    ensures (ws + (c + g)) + t == (ws + c + "") + (g + t) && IsTail(g + t)
    ensures !IsWs((ws + c + "")[|ws + c + ""| - 1])
  {
    TailPrefix(g, t);
    assert (ws + c + "")[|ws + c| - 1] == c[|c| - 1];
  }

  lemma {:induction false} SwappedBrace(ws: string, c: string, g: string, f: string, t: string)
    requires IsTail(t) && f != "" && !IsWs(f[0])
    requires forall i | 0 <= i < |f| :: FrameChar(f[i])
    ensures var y := ws + c + g; var z := TrimEnd(f); var u := f[TrimEndLen(f)..] + t;
            && (ws + (c + (g + f))) + t == (y + z) + u && IsTail(u) && NoMarks(z)
            && z != "" && z[0] == f[0] && !IsWs((y + z)[|y + z| - 1])
  {
    hide IsTail, IsWs;
    var n := TrimEndLen(f);
    assert n > 0 by { assert !IsWs(f[0]); }
    TailPrefix(f[n..], t);
    SwappedJoin(ws, c, g, f, n, t);
    LastOfJoin(ws + c + g, f[..n]);
    FrameNoMarks(f[..n]);
  }

  lemma {:induction false} LastOfJoin(y: string, f: string)
    requires f != ""
    ensures (y + f)[|y + f| - 1] == f[|f| - 1]
  {
  }

  lemma {:induction false} SwappedJoin(ws: string, c: string, g: string, f: string, n: nat, t: string)
    requires n <= |f|
    ensures (ws + (c + (g + f))) + t == ((ws + c + g) + f[..n]) + (f[n..] + t)
  {
    assert f == f[..n] + f[n..];
    var p := ws + c + g;
    assert ws + (c + (g + f)) == p + f;
  }

  lemma {:induction false} LineRegroup(lead: string, a: string, x: string, t: string, x1: string, t1: string)
    requires x + t == x1 + t1
    ensures lead + (a + "=" + x) + t == lead + (a + "=" + x1) + t1
  {
    assert lead + (a + "=" + x) + t == (lead + a + "=") + (x + t);
    assert lead + (a + "=" + x1) + t1 == (lead + a + "=") + (x1 + t1);
  }

  lemma {:induction false} SwapFormOf(b: string, a: string, ws: string, v: string, w: string, z: string, y: string)
    requires b == a + "=" + (y + z) && y == ws + (v + w) && AllWs(ws) && AllWs(w)
    requires v != "" && !FrameChar(v[0]) && '=' !in y && '=' !in z
    requires z == "" || z[0] == '{' || z[0] == '}'
    ensures Form(b, a, ws, v, w + z)
  {
    assert y + z == ws + (v + (w + z));
  }

  lemma {:induction false} RestFrame(v: string, w: string, ve: nat)
    requires ve <= |v| && SpecChars(v) && AllWs(w)
    ensures AllWs(KeepFrame(v[ve..] + w))
  {
    var s := v[ve..] + w;
    assert SpecChars(s);
    SpecNoMarks(s);
    KeepFrameChars(s);
  }

  lemma {:induction false} KeepFrameHead(z: string)
    requires z == "" || z[0] == '{' || z[0] == '}'
    ensures if z == "" then KeepFrame(z) == ""
            else KeepFrame(z) != "" && KeepFrame(z)[0] == z[0] && !IsWs(z[0])
  {
  }

  /** The swapped line, taken apart again. */
  lemma {:induction false} SwapLine(raw: string, lead: string, b: string, t: string,
                                    a: string, y: string, z: string, c: string)
    returns (b1: string, y1: string, z1: string, t1: string)
    requires IsLine(raw, lead, b, t) && b == a + "=" + (y + z) && '=' !in z
    requires SpecLike(Trim(y)) && SpecLike(c) && Trimmed(c)
    requires z == "" || z[0] == '{' || z[0] == '}'
    requires a != "" && !IsWs(a[0]) && NoComment(a) && !StartsComment(a)
    ensures IsLine(SpecSwap(raw, c), lead, b1, t1)
    ensures b1 == a + "=" + (y1 + z1)
    ensures Trim(y1) == c && SpecChars(y1)
    ensures if z == "" then z1 == "" && !IsWs(y1[|y1| - 1]) else z1 == TrimEnd(KeepFrame(z)) && z1 != "" && z1[0] == z[0]
    ensures y1 != ""
  {
    hide SpecSwap, IsTail, IsBody, SpecLike, ValueEnd, NoComment, StartsComment, SpecChar, Form, KeepFrame, Trim, NoMarks;
    var ws, w := AroundSpec(y);
    var v := Trim(y);
    SpecNoMarks(y);
    SwapFormOf(b, a, ws, v, w, z, y);
    SwapText(raw, lead, b, t, a, ws, v, w + z, c);
    var ve := ValueEnd(v);
    var g, f := KeepFrame(v[ve..] + w), KeepFrame(z);
    Assoc3(v[ve..], w, z);
    KeepFrameSplit(v[ve..] + w, z);
    RestFrame(v, w, ve);
    KeepFrameChars(z);
    KeepFrameHead(z);
    SpecIsPlain(c);
    y1, z1, t1 := Swapped(ws, c, g, f, t);
    NilLeft(y1);
    b1 := a + "=" + (y1 + z1);
    LineRegroup(lead, a, ws + (c + (g + f)), t, y1 + z1, t1);
    FormBody(a, y1 + z1);
  }
}
