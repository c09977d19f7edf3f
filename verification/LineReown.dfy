/**
 * What a line says after its package name was exchanged for any text without a comment, braces
 * included. A `{` in the new text can turn the line into a single-line rule of another package:
 * the one before that brace.
 */
module LineReown {
  import opened Seqs
  import opened Text
  import opened RuleSyntax
  import opened LineShape
  import opened LinePrint
  import opened LineHeader
  import opened SpecTheorems
  import opened LineParts
  import opened LineRename
  import opened LineSingle

  /** The package a single-line rule beginning with `to` names. */
  function Head(to: string): string {
    match Find(to, '{') case None => to case Some(i) => Trim(to[..i])
  }

  /** The package an outer line names, single-line rules included. */
  function Owner(o: Outer): Option<string> {
    if o.Single? then Some(o.pkg) else NamedBy(o)
  }

  lemma {:induction false} HeadOf(p: string, x: string)
    requires '{' !in p
    ensures Head(p + "{" + x) == Trim(p)
  {
    hide Trim;
    FindUnique(p, '{', x);
    PrefixOf(p, "{" + x);
    Assoc3(p, "{", x);
  }

  /** The head of a longer text. */
  lemma {:induction false} HeadMore(a: string, x: string)
    requires '{' in a
    ensures Head(a + x) == Head(a)
  {
    hide Trim;
    var i := Find(a, '{').value;
    SplitAround(a, i);
    JoinBehind(a[..i], '{', a[i + 1..], x);
    HeadOf(a[..i], a[i + 1..]);
    HeadOf(a[..i], a[i + 1..] + x);
  }

  lemma {:induction false} HeadAt(s: string, left: string, ob: nat)
    requires left <= s && ob < |left| && left[ob] == '{' && '{' !in left[..ob]
    ensures '{' in s && Head(s) == Trim(left[..ob])
  {
    hide Trim;
    var a := left[..ob];
    assert s[ob] == '{' && s[..ob] == a;
    forall k | 0 <= k < ob ensures s[k] != '{' {
      assert s[k] == a[k];
    }
  }

  lemma {:induction false} TargetHead(s: string)
    requires SplitTarget(s).Some?
    ensures '{' in s && SplitTarget(s).value.0 == Head(s)
  {
    hide Trim, TrimEnd, SplitTarget, Head;
    var left, ob := TargetOf(s);
    HeadAt(s, left, ob);
  }

  /** A single-line rule belongs to the head of its text. */
  lemma {:induction false} SingleHead(b: string)
    requires ParseBody(b).Single?
    ensures '{' in b && ParseBody(b).pkg == Head(b) != ""
  {
    hide Trim, ParseBody, Head;
    var left, ob := SingleOf(b);
    HeadAt(b, left, ob);
  }

  // ---- `to`, white space, `=` and what follows

  lemma {:induction false} BodyGap(to: string, gap: string)
    requires IsBody(to) && AllWs(gap)
    ensures Trim(to + gap) == to && TrimEnd(to + gap) == to
  {
    hide Trim, TrimEndLen, IsWs, NoComment, StartsComment;
    TrimEndUnique(to, gap);
    EmptyLead(to, gap);
    TrimUnique("", to, gap);
  }

  lemma {:induction false} EqContent(to: string, gap: string, y: string, open: bool)
    requires IsBody(to) && AllWs(gap) && '=' !in y
    ensures ParseContent(open, to + gap + "=" + y)
         == if SplitTarget(to).Some? then Single(SplitTarget(to).value.0, SplitTarget(to).value.1, Trim(y), open)
            else if !open && CloseLike(to + gap + "=") then Junk
            else if Trim(y) == "" then (if open then BareOpen(to) else Pending(to))
            else Rule(to, Trim(y), open)
  {
    hide Trim, SplitTarget, CloseLike, TrimEndLen, TrimEnd, IsBody;
    var a := to + gap;
    BodyGap(to, gap);
    RFindUnique(a, '=', y);
    var s := a + ['='] + y;
    assert s == to + gap + "=" + y;
    assert s[..|a|] == a && s[|a| + 1..] == y;
    EmptyTrim();
    BodyNotEmpty(to);
    EmptyBlank(a);
    CloseLikeBeforeEq(a, y);
  }

  lemma {:induction false} BodyNotEmpty(to: string)
    requires IsBody(to)
    ensures to != "" && !IsWs(to[0]) && !IsWs(to[|to| - 1])
  {
  }

  lemma {:induction false} EmptyBlank(a: string)
    requires Trim(a) != ""
    ensures a != ""
  {
    EmptyTrim();
  }

  /** What `to = y`, perhaps with a final brace, is read as. */
  lemma {:induction false} EqForm(to: string, gap: string, y: string, z: string)
    requires IsBody(to) && AllWs(gap) && '=' !in y && (z == "" || z == "{")
    requires z == "" ==> y == "" || (!IsWs(y[|y| - 1]) && y[|y| - 1] != '{')
    ensures ParseBody(to + gap + "=" + (y + z))
         == if SplitTarget(to).Some? then Single(SplitTarget(to).value.0, SplitTarget(to).value.1, Trim(y), z != "")
            else if z == "" && CloseLike(to + gap + "=") then Junk
            else if Trim(y) == "" then (if z != "" then BareOpen(to) else Pending(to))
            else Rule(to, Trim(y), z != "")
  {
    hide Trim, SplitTarget, CloseLike, TrimEndLen, ParseContent, IsBody, IsWs;
    var a := to + gap + "=";
    var s := a + (y + z);
    if z == "" {
      NilLeft(y);
      LastOf(a, y);
      EqContent(to, gap, y, false);
      EqLast(to + gap);
    } else {
      assert s == (a + y) + "{";
      assert s[..|s| - 1] == a + y;
      EqLast(to + gap);
      TrimEndBehind(a, y);
      EndTrimmed(y);
      EqContent(to, gap, TrimEnd(y), true);
    }
  }

  lemma {:induction false} EqLast(a: string)
    ensures a + "=" != "" && (a + "=")[|a + "="| - 1] == '=' && !IsWs('=')
  {
  }

  lemma {:induction false} EndTrimmed(y: string)
    ensures Trim(TrimEnd(y)) == Trim(y)
    ensures '=' !in y ==> '=' !in TrimEnd(y)
  {
    var n := TrimEndLen(y);
    TrimMore(y[..n], y[n..]);
    SplitAt(y, n);
  }

  // ---- the name a line gives, and the `=` behind it

  /** A body that names `from` and has `=` in its text has one behind the name. */
  lemma {:induction false} NamedBehind(b: string, from: string)
    requires IsBody(b) && NamedBy(ParseBody(b)) == Some(from) && from != "" && '=' in OpenBody(b).1
    ensures from <= b && '=' in b[|from|..]
  {
    hide Trim, SplitTarget, SplitSingle, CloseLike, IsBody;
    var body := OpenBody(b).1;
    var eq := RFind(body, '=').value;
    var a := body[..eq];
    BodyPrefix(b);
    assert Trim(a) == from;
    EmptyTrim();
    VisibleStart(b, a);
    TrimPrefix(a);
    assert from == b[..|from|] && b[|from|..][eq - |from|] == '=';
  }

  lemma {:induction false} BodyPrefix(b: string)
    ensures OpenBody(b).1 <= b
  {
  }

  // ---- the new line

  /** What follows the new name in the renamed line's text; `u` is the line's comment. */
  function NewRest(r: string, u: string, to: string): string {
    if '=' in to && Trim(r + u) in {"", "="} then "="
    else if '=' in to && Trim(r + u) == "{" then "= {"
    else r
  }

  lemma {:induction false} EqBody(to: string)
    requires IsBody(to)
    ensures IsBody(to + "=") && IsBody(to + "= {")
  {
    JoinBody(to, "");
    NilLeft(to + "=");
    OpenIsBody(to + "=", " ");
    Assoc3(to, "=", " {");
    Assoc3(to + "=", " ", "{");
    assert "=" + " {" == "= {" && " " + "{" == " {";
  }

  lemma {:induction false} Carried(b: string, u: string, from: string, r: string, to: string)
    requires IsBody(b) && IsTail(u) && IsBody(to) && b == from + r
    requires r == "" || IsWs(r[0]) || r[0] == '=' || r[0] == '{'
    ensures from <= b + u
    ensures var w := to + RenameTail(to, (b + u)[|from|..]); var n := to + NewRest(r, u, to);
            ViewOf(w).Text? && IsBody(n) && BodyOf(w) == n
  {
    hide ViewOf, IsTail, Trim, IsBody, BodyOf;
    Assoc3(from, r, u);
    PrefixOf(from, r + u);
    EqBody(to);
    var n := to + NewRest(r, u, to);
    if NewRest(r, u, to) == r && RenameTail(to, r + u) == r + u {
      RenameKept(from, r, u, to);
      Assoc3(to, r, u);
      EmptyLead(n, u);
      BodyIs(to + r + u, "", to + r, u);
    } else {
      EmptyTail();
      EmptyLead(n, "");
      NilLeft(n);
      PrintedShows(n);
      BodyIs(n, "", n, "");
    }
  }

  /** Behind `=` the rest is kept, or it was nothing but the `=`. */
  lemma {:induction false} EqRest(gap: string, y: string, z: string, u: string, to: string) returns (gap': string)
    requires AllWs(gap) && (z == "" || z == "{") && (z == "" ==> y == "" || !IsWs(y[|y| - 1]))
    ensures AllWs(gap') && to + NewRest(gap + "=" + (y + z), u, to) == to + gap' + "=" + (y + z)
  {
    hide Trim, IsWs;
    var r := gap + "=" + (y + z);
    gap' := gap;
    assert to + r == to + gap + "=" + (y + z);
    EqThere(gap, y + z, u);
    if '=' in to && Trim(r + u) == "=" {
      if y + z != "" {
        BraceOrLast(y, z);
        VisibleTail(gap, y + z, u);
      }
      gap' := "";
      NilLeft(to);
      NilLeft("=");
    }
  }

  lemma {:induction false} BraceOrLast(y: string, z: string)
    requires y + z != "" && (z == "" || z == "{") && (z == "" ==> y == "" || !IsWs(y[|y| - 1]))
    ensures !IsWs((y + z)[|y + z| - 1])
  {
    if z == "" {
      NilLeft(y);
    }
  }

  lemma {:induction false} EqThere(gap: string, x: string, u: string)
    requires AllWs(gap)
    ensures Trim(gap + "=" + x + u) !in {"", "{"}
  {
    var s := gap + "=" + x + u;
    var rest := ("=" + x) + u;
    assert s == gap + rest && rest[0] == '=';
    TrimStartUnique(gap, rest);
    assert s[|gap|] == '=';
    TrimKeeps(s, |gap|);
  }

  lemma {:induction false} VisibleTail(gap: string, x: string, u: string)
    requires x != "" && !IsWs(x[|x| - 1])
    ensures |Trim(gap + "=" + x + u)| >= 2
  {
    var s := gap + "=" + x + u;
    assert s[|gap|] == '=' && s[|gap| + |x|] == x[|x| - 1];
    TrimKeepsTwo(s, |gap|, |gap| + |x|);
  }
}
