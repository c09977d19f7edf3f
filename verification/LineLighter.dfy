/** Kind by kind, what a line that named `from` names after a renaming to any text. */
module LineLighter {
  import opened Seqs
  import opened Text
  import opened RuleSyntax
  import opened LineShape
  import opened LineHeader
  import opened SpecTheorems
  import opened LineRename
  import opened LineSingle
  import opened LineReown

  predicate Opens(o: Outer) {
    o.BareOpen? || ((o.Rule? || o.Single?) && o.open)
  }

  function Behind(b: string, from: string): string {
    if |from| <= |b| then b[|from|..] else ""
  }

  /** There is a `=` behind the name. */
  predicate HasEq(b: string, from: string) {
    '=' in Behind(b, from)
  }

  /** The body of the renamed line; `u` is the line's comment. */
  function NewBody(b: string, u: string, from: string, to: string): string {
    to + NewRest(Behind(b, from), u, to)
  }

  // ---- how a line goes on behind its name

  lemma {:induction false} EqKind(b: string, from: string) returns (gap: string, y: string, z: string)
    requires IsBody(b) && NamedBy(ParseBody(b)) == Some(from) && from != "" && HasEq(b, from)
    ensures b == from + (gap + "=" + (y + z)) && AllWs(gap) && '=' !in y && (z == "" || z == "{")
    ensures z == "" ==> y == "" || (!IsWs(y[|y| - 1]) && y[|y| - 1] != '{')
    ensures (z != "") == Opens(ParseBody(b)) && (Trim(y) != "") == ParseBody(b).Rule?
    ensures ParseBody(b).Rule? ==> Trim(y) == ParseBody(b).cpus
  {
    hide ParseBody, Trim, IsBody;
    if ParseBody(b).Rule? {
      gap, y, z := RuleRest(b, from);
    } else if ParseBody(b).BareOpen? {
      gap, y := OpenRest(b, from);
      z := "{";
      NoEqInGap(b, from, y);
      TrimBlank(y);
      Assoc3(gap + "=", y, "{");
    } else {
      gap := PendingRest(b, from);
      y, z := "", "";
      EmptyTrim();
      NilLeft(gap + "=");
      NilLeft(y);
    }
  }

  lemma {:induction false} NoEqInGap(b: string, from: string, g: string)
    requires AllWs(g)
    ensures '=' !in g && (b == from + (g + "{") ==> !HasEq(b, from))
  {
    var r := g + "{";
    assert (from + r)[|from|..] == r;
  }

  /** Without a `=` behind the name the line is the bare name, perhaps with a brace. */
  lemma {:induction false} BareKind(b: string, from: string) returns (g: string)
    requires IsBody(b) && NamedBy(ParseBody(b)) == Some(from) && from != "" && !HasEq(b, from)
    ensures AllWs(g) && '=' !in from && IsBody(from) && !ParseBody(b).Rule?
    ensures if ParseBody(b).BareOpen? then b == from + (g + "{") else b == from && !CloseLike(from) && !OpenBody(from).0
  {
    hide ParseBody, Trim, IsBody, CloseLike;
    g := "";
    if ParseBody(b).Rule? {
      var gap, y, z := RuleRest(b, from);
      EqThen(b, from, gap, y + z);
      assert false;
    } else if ParseBody(b).BareOpen? {
      var gap;
      gap, g := OpenRest(b, from);
      Assoc3(gap + "=", g, "{");
      EqThen(b, from, gap, g + "{");
      OpenName(b, from);
    } else {
      var gap := PendingRest(b, from);
      NilLeft(gap + "=");
      EqThen(b, from, gap, "");
      PendingName(b, from);
    }
  }

  lemma {:induction false} EqThen(b: string, from: string, gap: string, x: string)
    ensures b == from + (gap + "=" + x) ==> HasEq(b, from)
  {
    var s := from + (gap + "=" + x);
    assert s[|from|..][|gap|] == '=';
  }

  lemma {:induction false} OpenName(b: string, from: string)
    requires IsBody(b) && ParseBody(b) == BareOpen(from) && from != "" && !HasEq(b, from)
    ensures '=' !in from && IsBody(from)
  {
    hide Trim, SplitSingle, IsBody, CloseLike;
    if '=' in OpenBody(b).1 {
      NamedBehind(b, from);
    } else {
      OpenIsPrefix(b);
    }
  }

  lemma {:induction false} PendingName(b: string, from: string)
    requires IsBody(b) && ParseBody(b) == Pending(from) && b == from
    ensures !CloseLike(from) && !OpenBody(from).0
    ensures '=' in from ==> HasEq(b, from)
  {
    hide Trim, SplitSingle, IsBody, CloseLike;
    if '=' in from {
      var eq := RFind(b, '=').value;
      TrimShorter(b, eq);
    }
  }

  lemma {:induction false} TrimShorter(b: string, eq: nat)
    requires eq < |b|
    ensures Trim(b[..eq]) != b
  {
    var lead, tail := TrimParts(b[..eq]);
  }

  // ---- a line with `=` behind its name

  lemma {:induction false} ReownEq(b: string, u: string, from: string, to: string) returns (gap: string)
    requires IsBody(b) && NamedBy(ParseBody(b)) == Some(from) && from != "" && HasEq(b, from) && IsBody(to)
    ensures from <= b && AllWs(gap)
    ensures var r := Behind(b, from); r == "" || IsWs(r[0]) || r[0] == '=' || r[0] == '{'
    ensures var o := ParseBody(b); var n := ParseBody(NewBody(b, u, from, to));
            if SplitTarget(to).Some? then n.Single? && n.pkg == Head(to) && n.open == Opens(o)
            else n == Renamed(o, to) || (n == Junk && !Opens(o) && CloseLike(to + gap + "="))
  {
    hide ParseBody, Trim, IsBody, SplitTarget, CloseLike;
    var g, y, z := EqKind(b, from);
    gap := EqRest(g, y, z, u, to);
    EqForm(to, gap, y, z);
    PrefixOf(from, g + "=" + (y + z));
    EqStart(g, y + z);
    if SplitTarget(to).Some? {
      TargetHead(to);
    }
  }

  lemma {:induction false} EqStart(gap: string, x: string)
    requires AllWs(gap)
    ensures var r := gap + "=" + x; r != "" && (IsWs(r[0]) || r[0] == '=')
  {
  }

  // ---- a bare name

  lemma {:induction false} TailVisible(g: string, z: string, u: string)
    requires AllWs(g) && IsTail(u) && (u == "" || TrimStartLen(u) < |u|) && (z == "" || z == "{") && (z == "" ==> g == "")
    ensures u == "" ==> Trim(g + z + u) == z
    ensures u != "" ==> Trim(g + z + u) !in {"", "=", "{"}
  {
    hide Trim;
    if u == "" {
      NilLeft(g + z);
      if z == "" {
        EmptyTrim();
      } else {
        BraceTrim(g);
      }
    } else {
      var k := TrimStartLen(u);
      var s := g + z + u;
      assert s[|g| + |z| + k] == u[k];
      assert u[k] in {'#', '/'};
      TrimKeeps(s, |g| + |z| + k);
    }
  }

  /** A bare header: with `=` in the new name and no comment it gets a `=`, else the name stands before the brace. */
  lemma {:induction false} ReownBare(b: string, u: string, from: string, to: string)
    requires IsBody(b) && ParseBody(b) == BareOpen(from) && from != "" && !HasEq(b, from) && IsBody(to)
    requires IsTail(u) && (u == "" || TrimStartLen(u) < |u|)
    ensures from <= b && '=' !in from
    ensures var r := Behind(b, from); r == "" || IsWs(r[0]) || r[0] == '=' || r[0] == '{'
    ensures ParseBody(NewBody(b, u, from, to))
         == if '=' in to && u == "" then ParseContent(true, to + "=") else ParseContent(true, to)
    ensures '=' in to && u != "" ==> OpenBody(NewBody(b, u, from, to)).1 == to
  {
    hide ParseBody, Trim, IsBody, ParseContent, IsTail;
    var g := BareKind(b, from);
    PrefixOf(from, g + "{");
    BareOrNot(g);
    TailVisible(g, "{", u);
    Assoc3(to, g, "{");
    if '=' in to && u == "" {
      EqBody(to);
      OpenBodyOf(to + "=", " ");
      OpenedEq(to);
    } else {
      OpenBodyOf(to, g);
    }
    ByContent(NewBody(b, u, from, to));
  }

  lemma {:induction false} BareOrNot(g: string)
    requires AllWs(g)
    ensures var r := g + "{"; r != "" && (IsWs(r[0]) || r[0] == '{')
  {
  }

  lemma {:induction false} OpenedEq(to: string)
    ensures to + "=" + " " + "{" == to + "= {"
  {
  }

  lemma {:induction false} ByContent(b: string)
    ensures ParseBody(b) == ParseContent(OpenBody(b).0, OpenBody(b).1)
  {
  }

  /** A bare name line. */
  lemma {:induction false} ReownPending(b: string, u: string, from: string, to: string)
    requires IsBody(b) && ParseBody(b) == Pending(from) && from != "" && !HasEq(b, from) && IsBody(to)
    requires IsTail(u) && (u == "" || TrimStartLen(u) < |u|)
    ensures from <= b && Behind(b, from) == "" && '=' !in from && !CloseLike(from)
    ensures NewBody(b, u, from, to) == if '=' in to && u == "" then to + "=" else to
  {
    hide ParseBody, Trim, IsBody, IsTail;
    var g := BareKind(b, from);
    NilLeft(from);
    NilLeft(to);
    NilLeft(u);
    TailVisible("", "", u);
    assert "" + "" + u == u;
  }

  // ---- a single-line rule

  lemma {:induction false} BehindMore(m: string, y: string)
    requires m != "" && !IsWs(m[|m| - 1]) && BehindBrace(y).Some?
    ensures BehindBrace(m + y).Some?
  {
    hide Trim, TrimEnd, IsWs;
    LastEqBehind(m, y);
    var e := RFind(y, '=').value;
    var l := TrimEnd(y[..e]);
    assert (m + y)[..|m| + e] == m + y[..e];
    TrimEndBehind(m, y[..e]);
    LastOf(m, l);
    assert (m + l)[..|m + l| - 1] == m + l[..|l| - 1];
    TrimEndBehind(m, l[..|l| - 1]);
    VisibleTrim(m, TrimEnd(l[..|l| - 1]));
  }

  lemma {:induction false} VisibleTrim(m: string, x: string)
    requires m != "" && !IsWs(m[|m| - 1])
    ensures Trim(m + x) != ""
  {
    TrimKeeps(m + x, |m| - 1);
  }

  lemma {:induction false} OpenMore(m: string, x: string)
    requires m != "" && !IsWs(m[|m| - 1]) && x != ""
    ensures OpenBehind(m + x) == (OpenBehind(x).0, m + OpenBehind(x).1)
  {
    hide TrimEnd, IsWs;
    LastOf(m, x);
    if x[|x| - 1] == '{' {
      assert (m + x)[..|m + x| - 1] == m + x[..|x| - 1];
      TrimEndBehind(m, x[..|x| - 1]);
    }
  }

  /** A single-line rule stays one; it then belongs to the head of the new text. */
  lemma {:induction false} ReownSingle(b: string, u: string, from: string, to: string)
    requires IsBody(b) && ParseBody(b).Single? && ParseBody(b).pkg == from && IsBody(to)
    ensures from <= b && '{' !in from
    ensures var r := Behind(b, from); r != "" && (IsWs(r[0]) || r[0] == '{') && NewRest(r, u, to) == r
    ensures var n := ParseBody(NewBody(b, u, from, to));
            Head(to) != "" ==> n.Single? && n.pkg == Head(to)
  {
    hide ParseBody, IsBody, Trim, OpenBehind, BehindBrace, AllWs, Head, IsWs;
    var gap, x := SingleRest(b);
    var r := gap + "{" + x;
    SplitRest(b, from, gap, x);
    GapStart(gap, x);
    VisibleTwo(gap, x, u, from, b);
    ParseBehind(from + gap, x);
    if Head(to) != "" {
      if '{' in to {
        HeadMakes(to, gap, x);
      } else {
        BodyGap(to, gap);
        BraceFree(to, gap, from);
        HeadFree(to);
        ParseBehind(to + gap, x);
        assert (to + gap) + "{" + x == to + r;
      }
    }
  }

  lemma {:induction false} SplitRest(b: string, from: string, gap: string, x: string)
    requires b == (from + gap) + "{" + x && '{' !in from + gap
    ensures from <= b && b[|from|..] == gap + "{" + x && '{' !in from
  {
    assert b == from + (gap + "{" + x);
    assert forall i | 0 <= i < |from| :: from[i] == (from + gap)[i];
  }

  lemma {:induction false} BraceFree(to: string, gap: string, from: string)
    requires '{' !in to && '{' !in from + gap
    ensures '{' !in to + gap
  {
    assert forall i | 0 <= i < |gap| :: gap[i] == (from + gap)[|from| + i];
  }

  lemma {:induction false} HeadFree(to: string)
    requires '{' !in to
    ensures Head(to) == to
  {
  }

  /** Behind a text with a brace: its head owns the rule. */
  lemma {:induction false} HeadMakes(to: string, gap: string, x: string)
    requires '{' in to && Head(to) != "" && x != "" && BehindBrace(OpenBehind(x).1).Some?
    ensures ParseBody(to + (gap + "{" + x)).Single? && ParseBody(to + (gap + "{" + x)).pkg == Head(to)
  {
    hide ParseBody, Trim, OpenBehind, BehindBrace, IsWs;
    var i := Find(to, '{').value;
    var p, x0 := to[..i], to[i + 1..];
    SplitAround(to, i);
    assert [to[i]] == "{";
    HeadOf(p, x0);
    var m := x0 + gap + "{";
    BraceEnds(x0 + gap);
    OpenMore(m, x);
    BehindMore(m, OpenBehind(x).1);
    ParseBehind(p, m + x);
    assert to + (gap + "{" + x) == p + "{" + (m + x);
  }

  lemma {:induction false} BraceEnds(a: string)
    ensures a + "{" != "" && !IsWs((a + "{")[|a + "{"| - 1])
  {
  }

  // ---- weights

  /**
   * How often a line can still be renamed: twice if a bare name may become one with a spec or a
   * brace first, once if it names the package, else not at all.
   */
  function BodyWeight(b: string, from: string, to: string): nat {
    var o := ParseBody(b);
    if Owner(o) != Some(from) then 0
    else if !o.Single? && !HasEq(b, from) && (o.Pending? || '=' in to) then 2
    else 1
  }

  lemma {:induction false} WeightIs(b: string, from: string, to: string)
    requires IsBody(b) && from != ""
    ensures Owner(ParseBody(b)) != Some(from) ==> BodyWeight(b, from, to) == 0
    ensures '=' in OpenBody(b).1 || (Opens(ParseBody(b)) && '=' !in to) ==> BodyWeight(b, from, to) <= 1
  {
    hide ParseBody, IsBody, OpenBody;
    if NamedBy(ParseBody(b)) == Some(from) && '=' in OpenBody(b).1 {
      NamedBehind(b, from);
    }
  }

  lemma {:induction false} LighterSingle(b: string, u: string, from: string, to: string)
    requires IsBody(b) && ParseBody(b).Single? && ParseBody(b).pkg == from && from != ""
    requires IsBody(to) && Head(to) != from && IsBody(NewBody(b, u, from, to))
    ensures Owner(ParseBody(NewBody(b, u, from, to))) != Some(from)
  {
    hide ParseBody, IsBody, Head, NewRest;
    ReownSingle(b, u, from, to);
    if Head(to) == "" {
      Headless(to, NewRest(Behind(b, from), u, to), from);
    }
  }

  /** A name that begins with a brace names nothing without one. */
  lemma {:induction false} Headless(to: string, r: string, from: string)
    requires IsBody(to) && IsBody(to + r) && Head(to) == "" && from != "" && '{' !in from
    ensures Owner(ParseBody(to + r)) != Some(from)
  {
    hide ParseBody, IsBody, Head;
    var n := to + r;
    BraceFirst(to);
    BodyNotEmpty(to);
    if ParseBody(n).Single? {
      SingleHead(n);
      HeadMore(to, r);
    } else if NamedBy(ParseBody(n)) == Some(from) {
      NamedStart(n, from);
      FirstShared(n, to, from);
    }
  }

  lemma {:induction false} FirstShared(n: string, a: string, b: string)
    requires a != "" && b != "" && a <= n && b <= n
    ensures a[0] == b[0]
  {
  }

  lemma {:induction false} BraceFirst(to: string)
    requires IsBody(to) && Head(to) == ""
    ensures '{' in to && to[0] == '{'
  {
    hide Trim;
    if '{' in to {
      var i := Find(to, '{').value;
      if i > 0 {
        TrimKeeps(to[..i], 0);
      }
    }
  }

  lemma {:induction false} NamedStart(b: string, from: string)
    requires IsBody(b) && NamedBy(ParseBody(b)) == Some(from) && from != ""
    ensures from <= b
  {
    hide ParseBody, IsBody, Trim;
    if HasEq(b, from) {
      var gap, y, z := EqKind(b, from);
    } else {
      var g := BareKind(b, from);
    }
  }

  /** Unless the head of the new name is the old name, a renamed line weighs less. */
  lemma {:induction false} BodyLighter(b: string, u: string, from: string, to: string)
    requires IsBody(b) && Owner(ParseBody(b)) == Some(from) && from != ""
    requires IsBody(to) && to != from && Head(to) != from && IsTail(u) && (u == "" || TrimStartLen(u) < |u|)
    requires IsBody(NewBody(b, u, from, to))
    ensures BodyWeight(NewBody(b, u, from, to), from, to) < BodyWeight(b, from, to)
  {
    hide ParseBody, IsBody, Head, NewRest, IsTail, SplitTarget, CloseLike, ParseContent, OpenBody;
    var o := ParseBody(b);
    var n := NewBody(b, u, from, to);
    WeightIs(n, from, to);
    if o.Single? {
      LighterSingle(b, u, from, to);
    } else if HasEq(b, from) {
      var gap := ReownEq(b, u, from, to);
    } else if o.BareOpen? {
      ReownBare(b, u, from, to);
      LighterBare(b, u, from, to);
    } else {
      BareIsPending(b, from);
      LighterPending(b, u, from, to);
    }
  }

  lemma {:induction false} BareIsPending(b: string, from: string)
    requires IsBody(b) && NamedBy(ParseBody(b)) == Some(from) && from != "" && !HasEq(b, from) && !ParseBody(b).BareOpen?
    ensures ParseBody(b) == Pending(from)
  {
    hide ParseBody, IsBody;
    var g := BareKind(b, from);
  }

  /** The name alone before a brace: without `=` it is the name, with one it is split there. */
  lemma {:induction false} OpenContent(to: string)
    requires IsBody(to)
    ensures '=' !in to ==> ParseContent(true, to) == BareOpen(to)
    ensures ParseContent(true, to).Single? <==> SplitSingle(to).Some?
    ensures Opens(ParseContent(true, to))
  {
    hide SplitTarget, Trim, IsBody;
  }

  lemma {:induction false} LighterBare(b: string, u: string, from: string, to: string)
    requires IsBody(b) && ParseBody(b) == BareOpen(from) && from != "" && !HasEq(b, from)
    requires IsBody(to) && to != from && Head(to) != from && IsTail(u) && (u == "" || TrimStartLen(u) < |u|)
    requires IsBody(NewBody(b, u, from, to))
    ensures BodyWeight(NewBody(b, u, from, to), from, to) < BodyWeight(b, from, to)
  {
    hide ParseBody, IsBody, Head, NewRest, IsTail, SplitTarget, CloseLike, ParseContent, OpenBody, Trim;
    ReownBare(b, u, from, to);
    var n := NewBody(b, u, from, to);
    WeightIs(n, from, to);
    OpenContent(to);
    if '=' in to && u == "" {
      EqContent(to, "", "", true);
      NilLeft(to);
      NilLeft(to + "=");
      EmptyTrim();
      if SplitTarget(to).Some? {
        TargetHead(to);
      }
    }
  }

  lemma {:induction false} LighterPending(b: string, u: string, from: string, to: string)
    requires IsBody(b) && ParseBody(b) == Pending(from) && from != "" && !HasEq(b, from)
    requires IsBody(to) && to != from && Head(to) != from && IsTail(u) && (u == "" || TrimStartLen(u) < |u|)
    requires IsBody(NewBody(b, u, from, to))
    ensures BodyWeight(NewBody(b, u, from, to), from, to) < BodyWeight(b, from, to)
  {
    hide ParseBody, IsBody, Head, NewRest, IsTail, SplitTarget, CloseLike, ParseContent, OpenBody, Trim;
    ReownPending(b, u, from, to);
    var n := NewBody(b, u, from, to);
    WeightIs(n, from, to);
    if '=' in to && u == "" {
      EqForm(to, "", "", "");
      NilLeft(to);
      NilLeft(to + "=");
      NilLeft("");
      EmptyTrim();
      if SplitTarget(to).Some? {
        TargetHead(to);
      }
    } else if '=' in to {
      EqInside(to);
    } else {
      PlainContent(to);
    }
  }

  /** A final brace does not hide the `=` of a name. */
  lemma {:induction false} EqInside(to: string)
    requires IsBody(to) && '=' in to
    ensures '=' in OpenBody(to).1
  {
    hide TrimEndLen;
    var i := RFind(to, '=').value;
    if OpenBody(to).0 {
      var c := to[..|to| - 1];
      assert i < |c| && c[i] == '=';
      assert i < TrimEndLen(c);
    }
  }

  lemma {:induction false} PlainContent(to: string)
    requires IsBody(to) && '=' !in to
    ensures ParseBody(to) == Pending(to) || ParseBody(to) == Junk || ParseBody(to).BareOpen?
  {
    hide Trim;
    var body := OpenBody(to).1;
    assert forall i | 0 <= i < |body| :: body[i] == to[i];
    assert RFind(body, '=').None?;
  }

  // ---- the whole line

  lemma {:induction false} RestStart(b: string, from: string)
    requires IsBody(b) && Owner(ParseBody(b)) == Some(from) && from != ""
    ensures from <= b
    ensures var r := Behind(b, from); r == "" || IsWs(r[0]) || r[0] == '=' || r[0] == '{'
  {
    hide ParseBody, IsBody, Trim, IsWs;
    if ParseBody(b).Single? {
      var gap, x := SingleRest(b);
      SplitRest(b, from, gap, x);
      GapStart(gap, x);
    } else if HasEq(b, from) {
      var gap, y, z := EqKind(b, from);
      PrefixOf(from, gap + "=" + (y + z));
      EqStart(gap, y + z);
    } else {
      var g := BareKind(b, from);
      PrefixOf(from, g + "{");
      NilLeft(from);
      BareOrNot(g);
    }
  }

  /** The renamed line has the new body; `u` is the comment of the old one. */
  lemma {:induction false} RenameBody(raw: string, from: string, to: string) returns (u: string)
    requires ViewOf(raw).Text? && Owner(ViewOf(raw).outer) == Some(from) && from != "" && IsBody(to)
    ensures IsTail(u) && (u == "" || TrimStartLen(u) < |u|) && Trim(raw) == BodyOf(raw) + u
    ensures IsBody(BodyOf(raw)) && ParseBody(BodyOf(raw)) == ViewOf(raw).outer
    ensures var w := RenameText(raw, from, to); var n := NewBody(BodyOf(raw), u, from, to);
            ViewOf(w).Text? && IsBody(n) && BodyOf(w) == n && ViewOf(w).outer == ParseBody(n)
  {
    hide IsBody, IsTail, ParseBody, Trim, TrimStartLen, RenameTail, NewRest, IsWs;
    var lead, b, t := Decompose(raw);
    TrimLine(raw, lead, b, t);
    TrimmedTail(t);
    u := TrimEnd(t);
    StartBound(u);
    RestStart(b, from);
    var r := Behind(b, from);
    PrefixJoin(b, from);
    Carried(b, u, from, r, to);
    OuterOf(RenameText(raw, from, to));
  }

  lemma {:induction false} StartBound(u: string)
    ensures TrimStartLen(u) <= |u|
  {
  }

  lemma {:induction false} PrefixJoin(b: string, from: string)
    requires from <= b
    ensures b == from + Behind(b, from)
  {
  }

  lemma {:induction false} OuterOf(raw: string)
    requires ViewOf(raw).Text?
    ensures ViewOf(raw).outer == ParseBody(BodyOf(raw))
  {
    hide Trim, ParseBody, InnerView, StripComment;
  }
}
