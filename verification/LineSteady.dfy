/**
 * A new name whose head is the old name: exactly when a line could still be mistaken for one of
 * the old package, or could move the blocks behind it.
 */
module LineSteady {
  import opened Seqs
  import opened Text
  import opened RuleSyntax
  import opened LineShape
  import opened SpecTheorems
  import opened LineRename
  import opened LineReown
  import opened LineLighter

  function LastChar(s: string): char {
    if s == "" then ' ' else s[|s| - 1]
  }

  /**
   * The new names for which the renaming loop need not end on a sound file: the head is the old
   * name, and some line of the old package becomes a single-line rule or stops opening its block.
   */
  predicate Loops(from: string, to: string) {
    && Head(to) == from
    && (|| SplitTarget(to).Some?
        || (from == "}" && |to| > 1 && IsWs(to[1]))
        || ('=' !in from && (|| SplitSingle(to).Some?
                             || (!CloseLike(from) && (LastChar(to) == '{' || ('=' in to && LastChar(to) != '='))))))
  }

  /** The new name goes on with white space or a brace behind its head. */
  lemma {:induction false} HeadParts(to: string) returns (g: string, x: string)
    requires IsBody(to) && '{' in to && Head(to) != ""
    ensures AllWs(g) && to == Head(to) + g + "{" + x && '{' !in Head(to)
    ensures |to| > |Head(to)| && (IsWs(to[|Head(to)|]) || to[|Head(to)|] == '{')
  {
    hide Trim, IsWs;
    var i := Find(to, '{').value;
    var p := to[..i];
    x := to[i + 1..];
    SplitAround(to, i);
    assert [to[i]] == "{";
    HeadOf(p, x);
    EmptyTrim();
    BodyNotEmpty(to);
    g := KeyOf(p);
    PartOf(Head(to), g, x);
  }

  lemma {:induction false} PartOf(h: string, g: string, x: string)
    requires '{' !in h + g && AllWs(g)
    ensures '{' !in h
    ensures var s := h + g + "{" + x; |s| > |h| && (IsWs(s[|h|]) || s[|h|] == '{')
  {
    assert forall i | 0 <= i < |h| :: h[i] == (h + g)[i];
    var s := h + g + "{" + x;
    assert g != "" ==> s[|h|] == g[0];
  }

  /** A line that is no closer does not become one. */
  lemma {:induction false} CloserKept(b: string, from: string, to: string, x: string)
    requires from != "" && from <= b && !CloseLike(b)
    requires from <= to && |to| > |from| && (IsWs(to[|from|]) || to[|from|] == '{')
    requires !(from == "}" && IsWs(to[1]))
    ensures !CloseLike(to + x)
  {
    var s := to + x;
    assert s[0] == to[0] == from[0] == b[0];
    assert s[1] == to[1];
    assert |from| > 1 ==> s[1] == from[1] == b[1];
    assert |to| > 2 ==> s[2] == to[2];
    assert |from| > 2 ==> s[2] == from[2] == b[2];
  }

  /** Both lines leave the loader and the scan in a block, with a waiting name, or with neither. */
  predicate Alike(o: Outer, n: Outer) {
    && Opens(o) == Opens(n) && o.Pending? == n.Pending? && (n.BareOpen? ==> n.pkg != "")
  }

  /** What the renamed line has to be. */
  predicate Exchanged(o: Outer, n: Outer, from: string) {
    Alike(o, n) && !n.Single? && Owner(n) != Some(from)
  }

  lemma {:induction false} ExchangedEq(b: string, u: string, from: string, to: string)
    requires IsBody(b) && NamedBy(ParseBody(b)) == Some(from) && from != "" && HasEq(b, from)
    requires IsBody(to) && to != from && '{' in to && Head(to) == from && !Loops(from, to)
    ensures Exchanged(ParseBody(b), ParseBody(NewBody(b, u, from, to)), from)
  {
    hide ParseBody, IsBody, Head, NewRest, SplitTarget, CloseLike, SplitSingle, LastChar;
    var gap := ReownEq(b, u, from, to);
    if ParseBody(b).Pending? {
      var g, x := HeadParts(to);
      PendingOpen(b);
      NameBefore(from, g, x, to);
      CloserKept(b, from, to, gap + "=");
      Assoc3(to, gap, "=");
    }
    RenamedAlike(ParseBody(b), to);
    BodyNotEmpty(to);
  }

  lemma {:induction false} NameBefore(from: string, g: string, x: string, to: string)
    requires to == from + g + "{" + x
    ensures from <= to
  {
  }

  lemma {:induction false} RenamedAlike(o: Outer, to: string)
    requires NamedBy(o).Some? && to != ""
    ensures Alike(o, Renamed(o, to)) && Owner(Renamed(o, to)) == Some(to) && !Renamed(o, to).Single?
    ensures !Opens(o) && !o.Pending? ==> Alike(o, Junk)
  {
  }

  lemma {:induction false} PendingOpen(b: string)
    requires IsBody(b) && ParseBody(b).Pending?
    ensures !CloseLike(b)
  {
    hide Trim, SplitSingle, CloseLike;
  }

  /** Split at its last `=`, such a name keeps its brace. */
  lemma {:induction false} SplitName(from: string, to: string)
    requires IsBody(to) && '{' in to && Head(to) == from && from != "" && '=' !in from && '=' in to
    ensures var q := Trim(to[..RFind(to, '=').value]); q != from && q != ""
  {
    hide Trim, IsBody, Head, IsWs;
    var g, x := HeadParts(to);
    var eq := RFind(to, '=').value;
    var k := |from| + |g|;
    NoEqBefore(from, g, x, to, eq);
    assert to[..eq][k] == '{';
    BraceIsVisible();
    TrimKeeps(to[..eq], k);
  }

  lemma {:induction false} BraceIsVisible()
    ensures !IsWs('{')
  {
  }

  lemma {:induction false} NoEqBefore(from: string, g: string, x: string, to: string, eq: nat)
    requires to == from + g + "{" + x && AllWs(g) && '=' !in from && eq < |to| && to[eq] == '='
    ensures |from| + |g| < eq && to[|from| + |g|] == '{'
  {
    assert forall i | 0 <= i < |from| + |g| :: to[i] == if i < |from| then from[i] else g[i - |from|];
  }

  lemma {:induction false} ExchangedBare(b: string, u: string, from: string, to: string)
    requires IsBody(b) && ParseBody(b) == BareOpen(from) && from != "" && !HasEq(b, from)
    requires IsTail(u) && (u == "" || TrimStartLen(u) < |u|)
    requires IsBody(to) && to != from && '{' in to && Head(to) == from && !Loops(from, to)
    ensures Exchanged(ParseBody(b), ParseBody(NewBody(b, u, from, to)), from)
  {
    hide ParseBody, IsBody, Head, NewRest, SplitTarget, CloseLike, SplitSingle, LastChar, IsTail, Trim;
    ReownBare(b, u, from, to);
    BodyNotEmpty(to);
    if '=' in to && u == "" {
      OpensWith(to);
    } else if '=' in to {
      SplitName(from, to);
    }
  }

  lemma {:induction false} OpensWith(to: string)
    requires IsBody(to) && SplitTarget(to).None?
    ensures ParseContent(true, to + "=") == BareOpen(to)
  {
    hide IsBody, SplitTarget, ParseContent, Trim;
    EmptyTrim();
    EqContent(to, "", "", true);
    NilLeft(to);
    NilLeft(to + "=");
  }

  /** What a name that does not loop looks like where a bare name line is concerned. */
  lemma {:induction false} NotLooping(from: string, to: string)
    requires Head(to) == from && !Loops(from, to) && '=' !in from && !CloseLike(from)
    ensures SplitTarget(to).None? && SplitSingle(to).None? && LastChar(to) != '{' && ('=' in to ==> LastChar(to) == '=')
    ensures !(from == "}" && |to| > 1 && IsWs(to[1]))
  {
    hide SplitTarget, SplitSingle, CloseLike, Head;
  }

  lemma {:induction false} ExchangedPending(b: string, u: string, from: string, to: string)
    requires IsBody(b) && ParseBody(b) == Pending(from) && from != "" && !HasEq(b, from)
    requires IsTail(u) && (u == "" || TrimStartLen(u) < |u|)
    requires IsBody(to) && to != from && '{' in to && Head(to) == from && !Loops(from, to)
    ensures Exchanged(ParseBody(b), ParseBody(NewBody(b, u, from, to)), from)
  {
    hide *;
    ReownPending(b, u, from, to);
    NotLooping(from, to);
    PendingOpen(b);
    WaitsWith(b, from, to);
    WaitsAs(b, from, to);
    PendingExchanged(ParseBody(b), ParseBody(to + "="), from, to);
    var q := if '=' in to then Trim(to[..RFind(to, '=').value]) else to;
    PendingExchanged(ParseBody(b), ParseBody(to), from, q);
  }

  lemma {:induction false} PendingExchanged(o: Outer, n: Outer, from: string, q: string)
    requires o == Pending(from)
    ensures n == Pending(q) && q != from ==> Exchanged(o, n, from)
  {
  }

  /** With a `=` put behind it the new name waits. */
  lemma {:induction false} WaitsWith(b: string, from: string, to: string)
    requires IsBody(b) && from <= b && !CloseLike(b) && from != "" && IsBody(to) && '{' in to && Head(to) == from
    requires SplitTarget(to).None? && !(from == "}" && |to| > 1 && IsWs(to[1]))
    ensures ParseBody(to + "=") == Pending(to)
  {
    hide ParseBody, IsBody, Head, SplitTarget, CloseLike, Trim;
    var g, x := HeadParts(to);
    NameBefore(from, g, x, to);
    CloserKept(b, from, to, "=");
    EqForm(to, "", "", "");
    NilLeft(to);
    NilLeft(to + "=");
    NilLeft("");
    EmptyTrim();
  }

  /** So does the name itself. */
  lemma {:induction false} WaitsAs(b: string, from: string, to: string)
    requires IsBody(b) && from <= b && !CloseLike(b) && from != "" && IsBody(to) && '{' in to && Head(to) == from
    requires !(from == "}" && |to| > 1 && IsWs(to[1])) && '=' !in from
    requires SplitSingle(to).None? && LastChar(to) != '{' && ('=' in to ==> LastChar(to) == '=')
    ensures ParseBody(to) == Pending(if '=' in to then Trim(to[..RFind(to, '=').value]) else to)
    ensures '=' in to ==> Trim(to[..RFind(to, '=').value]) != from
  {
    hide ParseBody, IsBody, Head, SplitSingle, CloseLike, Trim, LastChar;
    var g, x := HeadParts(to);
    NameBefore(from, g, x, to);
    CloserKept(b, from, to, "");
    NilLeft(to);
    PendingContent(to);
    if '=' in to {
      SplitName(from, to);
    }
  }

  /** A name that ends in neither a brace nor a spec is a waiting name. */
  lemma {:induction false} PendingContent(to: string)
    requires IsBody(to) && !CloseLike(to) && SplitSingle(to).None? && LastChar(to) != '{'
    requires '=' in to ==> LastChar(to) == '='
    ensures ParseBody(to) == Pending(if '=' in to then Trim(to[..RFind(to, '=').value]) else to)
  {
    hide Trim, SplitSingle, CloseLike;
    EmptyTrim();
    if '=' in to {
      var eq := RFind(to, '=').value;
      assert eq == |to| - 1;
      assert to[eq + 1..] == "";
    }
  }

  /** Unless the name loops, a renamed line is exchanged for one of the same kind. */
  lemma {:induction false} BodySteady(b: string, u: string, from: string, to: string)
    requires IsBody(b) && NamedBy(ParseBody(b)) == Some(from) && from != ""
    requires IsTail(u) && (u == "" || TrimStartLen(u) < |u|)
    requires IsBody(to) && to != from && Head(to) == from && !Loops(from, to)
    ensures Exchanged(ParseBody(b), ParseBody(NewBody(b, u, from, to)), from)
  {
    hide ParseBody, IsBody, NewRest, IsTail, Loops, Exchanged, Trim;
    assert '{' in to;
    if HasEq(b, from) {
      ExchangedEq(b, u, from, to);
    } else if ParseBody(b).BareOpen? {
      ExchangedBare(b, u, from, to);
    } else {
      BareIsPending(b, from);
      ExchangedPending(b, u, from, to);
    }
  }
}
