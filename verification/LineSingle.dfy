/** A single-line rule behind its package name: the name can be exchanged, the rest is read alike. */
module LineSingle {
  import opened Seqs
  import opened Text
  import opened RuleSyntax
  import opened LineShape
  import opened SpecTheorems
  import opened LineParts
  import opened LineRename

  /** Trimming stops at a visible character. */
  lemma {:induction false} TrimEndBehind(a: string, y: string)
    requires a != "" && !IsWs(a[|a| - 1])
    ensures TrimEnd(a + y) == a + TrimEnd(y)
  {
    var u := TrimEnd(y);
    Assoc3(a, u, y[|u|..]);
    SplitAt(y, |u|);
    LastOf(a, u);
    TrimEndUnique(a + u, y[|u|..]);
  }

  lemma {:induction false} LastOf(a: string, u: string)
    requires a != ""
    ensures (a + u)[|a + u| - 1] == if u == "" then a[|a| - 1] else u[|u| - 1]
  {
  }

  /** What the text behind `pkg{` says: thread and spec. */
  function BehindBrace(x: string): Option<(string, string)> {
    match RFind(x, '=')
    case None => None
    case Some(e) =>
      var l := TrimEnd(x[..e]);
      if l == "" || l[|l| - 1] != '}' then None
      else
        var thread := Trim(TrimEnd(l[..|l| - 1]));
        if thread == "" then None else Some((thread, Trim(x[e + 1..])))
  }

  /** `thread}=spec` says thread and spec. */
  lemma {:induction false} BehindOf(thread: string, spec: string)
    requires thread != "" && Trimmed(thread) && Trimmed(spec) && '=' !in spec
    ensures BehindBrace(thread + "}=" + spec) == Some((thread, spec))
  {
    hide Trim, TrimEnd, IsWs;
    var l := thread + "}";
    RFindUnique(l, '=', spec);
    assert thread + "}=" + spec == l + ['='] + spec;
    PrefixOf(l, ['='] + spec);
    Assoc3(l, ['='], spec);
    PrefixOf(l + ['='], spec);
    PrefixOf(thread, "}");
    NoTail(l);
    NoTail(thread);
    TrimOfTrimmed(thread);
    TrimOfTrimmed(spec);
  }

  lemma {:induction false} NoTail(s: string)
    ensures s != "" && !IsWs(s[|s| - 1]) ==> TrimEnd(s) == s
    ensures !IsWs('}')
  {
    if s != "" && !IsWs(s[|s| - 1]) {
      TrimEndUnique(s, "");
      NilLeft(s);
    }
  }

  lemma {:induction false} LastEqBehind(h: string, x: string)
    ensures '=' in x ==> RFind(h + x, '=') == Some(|h| + RFind(x, '=').value)
    ensures '=' !in x && RFind(h + x, '=').Some? ==> RFind(h + x, '=') == RFind(h, '=')
  {
    hide RFind;
    if '=' in x {
      var e := RFind(x, '=').value;
      SplitAround(x, e);
      JoinAround(h, x[..e], '=', x[e + 1..]);
      RFindUnique(h + x[..e], '=', x[e + 1..]);
    } else if '=' in h {
      var e := RFind(h, '=').value;
      SplitAround(h, e);
      JoinBehind(h[..e], '=', h[e + 1..], x);
      RFindUnique(h[..e], '=', h[e + 1..] + x);
    }
  }

  lemma {:induction false} JoinAround(h: string, a: string, c: char, d: string)
    ensures h + (a + [c] + d) == (h + a) + [c] + d && |h + a| == |h| + |a|
  {
  }

  lemma {:induction false} JoinBehind(a: string, c: char, d: string, x: string)
    ensures (a + [c] + d) + x == a + [c] + (d + x)
  {
  }

  lemma {:induction false} FirstBrace(p: string, y: string)
    requires '{' !in p
    ensures Find(p + "{" + y, '{') == Some(|p|)
    ensures (p + "{" + y)[..|p|] == p && (p + "{" + y)[|p| + 1..] == y
  {
    FindUnique(p, '{', y);
  }

  lemma {:induction false} TargetBehind(p: string, l: string)
    requires '{' !in p
    ensures SplitTarget(p + "{" + l)
         == if l == "" || l[|l| - 1] != '}' || Trim(p) == "" || Trim(TrimEnd(l[..|l| - 1])) == "" then None
            else Some((Trim(p), Trim(TrimEnd(l[..|l| - 1]))))
  {
    hide Trim, TrimEnd, IsWs;
    var h := p + "{";
    var s := h + l;
    LastOf(h, l);
    if l != "" && l[|l| - 1] == '}' {
      assert s[..|s| - 1] == h + l[..|l| - 1];
      BraceVisible(p);
      TrimEndBehind(h, l[..|l| - 1]);
      FirstBrace(p, TrimEnd(l[..|l| - 1]));
    }
  }

  lemma {:induction false} BraceVisible(p: string)
    ensures p + "{" != "" && !IsWs((p + "{")[|p + "{"| - 1])
  {
  }

  /** The split of a single-line rule depends on the name only through the name. */
  lemma {:induction false} SplitBehind(p: string, x: string)
    requires '{' !in p
    ensures SplitSingle(p + "{" + x)
         == if BehindBrace(x).Some? && Trim(p) != "" then Some((Trim(p), BehindBrace(x).value.0, BehindBrace(x).value.1))
            else None
  {
    hide Trim, TrimEnd, IsWs, SplitTarget;
    var h := p + "{";
    LastEqBehind(h, x);
    BraceVisible(p);
    if '=' in x {
      var e := RFind(x, '=').value;
      TrimEndBehind(h, x[..e]);
      TargetBehind(p, TrimEnd(x[..e]));
      assert (h + x)[..|h| + e] == h + x[..e] && (h + x)[|h| + e + 1..] == x[e + 1..];
    } else if '=' in h + x {
      NoTargetBefore(p, h + x);
    }
  }

  lemma {:induction false} NoTargetBefore(p: string, s: string)
    requires '{' !in p && RFind(s, '=').Some? && p <= s && RFind(s, '=').value <= |p|
    ensures SplitSingle(s).None?
  {
    hide Trim;
    var l := TrimEnd(s[..RFind(s, '=').value]);
    assert forall i | 0 <= i < |l| :: l[i] == p[i];
    if l != "" && l[|l| - 1] == '}' {
      var left := TrimEnd(l[..|l| - 1]);
      assert forall i | 0 <= i < |left| :: left[i] == p[i];
      assert Find(left, '{').None?;
    }
  }

  /** The brace that opens a block, behind a single-line rule. */
  function OpenBehind(x: string): (bool, string) {
    if x != "" && x[|x| - 1] == '{' then (true, TrimEnd(x[..|x| - 1])) else (false, x)
  }

  lemma {:induction false} OpenBodyBehind(p: string, x: string)
    requires x != ""
    ensures OpenBody(p + "{" + x) == (OpenBehind(x).0, p + "{" + OpenBehind(x).1)
  {
    hide TrimEnd, IsWs;
    var h := p + "{";
    var s := h + x;
    LastOf(h, x);
    BraceVisible(p);
    if x[|x| - 1] == '{' {
      assert s[..|s| - 1] == h + x[..|x| - 1];
      TrimEndBehind(h, x[..|x| - 1]);
    }
  }

  lemma {:induction false} ParseBehind(p: string, x: string)
    requires '{' !in p && x != "" && Trim(p) != ""
    ensures var (open, y) := OpenBehind(x);
            if BehindBrace(y).Some?
            then ParseBody(p + "{" + x) == Single(Trim(p), BehindBrace(y).value.0, BehindBrace(y).value.1, open)
            else !ParseBody(p + "{" + x).Single?
  {
    hide Trim, SplitSingle, OpenBody, OpenBehind, CloseLike, BehindBrace;
    OpenBodyBehind(p, x);
    SplitBehind(p, OpenBehind(x).1);
  }

  /** How a single-line rule goes on behind its package name. */
  lemma {:induction false} SingleRest(b: string) returns (gap: string, x: string)
    requires IsBody(b) && ParseBody(b).Single?
    ensures var from := ParseBody(b).pkg; AllWs(gap) && '{' !in from + gap && x != "" && b == (from + gap) + "{" + x
    ensures Trim(ParseBody(b).pkg + gap) == ParseBody(b).pkg != ""
  {
    hide ParseBody, Trim, IsWs;
    var left, ob := SingleOf(b);
    var a := left[..ob];
    x := b[ob + 1..];
    EmptyTrim();
    VisibleStart(b, a);
    gap := KeyOf(a);
    assert b == a + "{" + x;
    BraceAlone(b, a, x);
  }

  lemma {:induction false} VisibleStart(b: string, a: string)
    requires IsBody(b) && a <= b && a != ""
    ensures !IsWs(a[0])
  {
  }

  lemma {:induction false} BraceAlone(b: string, a: string, x: string)
    requires b == a + "{" + x && '{' !in a && ParseBody(b).Single?
    ensures x != ""
  {
    hide Trim, CloseLike, TrimEndLen;
    if x == "" {
      assert b[..|b| - 1] == a;
      var body := OpenBody(b).1;
      assert forall i | 0 <= i < |body| :: body[i] == a[i];
      if RFind(body, '=').Some? {
        NoTargetBefore(a, body + "");
      }
    }
  }

  /** Renaming a single-line rule. */
  lemma {:induction false} RenameSingle(b: string, u: string, from: string, to: string)
    requires IsBody(b) && IsTail(u) && ParseBody(b).Single? && ParseBody(b).pkg == from && NewNameOk(to)
    ensures from <= b
    ensures ViewOf(to + RenameTail(to, (b + u)[|from|..])).Text?
    ensures ViewOf(to + RenameTail(to, (b + u)[|from|..])).outer
         == Single(to, ParseBody(b).thread, ParseBody(b).cpus, ParseBody(b).open)
  {
    hide ViewOf, ParseBody, IsBody, IsTail, Trim, OpenBehind, BehindBrace, AllWs;
    var gap, x := SingleRest(b);
    var r := gap + "{" + x;
    assert b == from + r && (b + u)[|from|..] == r + u;
    ParseBehind(from + gap, x);
    NewNameFacts(to, gap);
    NewNameBody(to);
    NoBraceIn(to, gap, from);
    ParseBehind(to + gap, x);
    assert (to + gap) + "{" + x == to + r;
    GapStart(gap, x);
    RenameKept(from, r, u, to);
    VisibleTwo(gap, x, u, from, b);
  }

  lemma {:induction false} NoBraceIn(to: string, gap: string, from: string)
    requires NewNameOk(to) && '{' !in from + gap
    ensures '{' !in to + gap
  {
    assert forall i | 0 <= i < |gap| :: gap[i] == (from + gap)[|from| + i];
  }

  lemma {:induction false} GapStart(gap: string, x: string)
    requires AllWs(gap)
    ensures var r := gap + "{" + x; r != "" && (IsWs(r[0]) || r[0] == '{')
  {
  }

  lemma {:induction false} VisibleTwo(gap: string, x: string, u: string, from: string, b: string)
    requires IsBody(b) && x != "" && b == (from + gap) + "{" + x
    ensures |Trim(gap + "{" + x + u)| >= 2
  {
    var s := gap + "{" + x + u;
    assert s[|gap|] == '{' && s[|gap| + |x|] == x[|x| - 1] == b[|b| - 1];
    TrimKeepsTwo(s, |gap|, |gap| + |x|);
  }
}
