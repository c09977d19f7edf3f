/** Renaming the package of an outer line in place. */
module LineRename {
  import opened Text
  import opened RuleSyntax
  import opened LineShape
  import opened LinePrint
  import opened LineHeader
  import opened SpecLens
  import opened SpecTheorems

  /** What follows the new name: a name with `=` needs one more `=` when no spec follows. */
  function RenameTail(to: string, rest: string): string {
    if '=' in to && Trim(rest) in {"", "="} then "="
    else if '=' in to && Trim(rest) == "{" then "= {"
    else rest
  }

  function RenameText(raw: string, from: string, to: string): string {
    var p := Trim(raw);
    if from <= p then to + RenameTail(to, p[|from|..]) else raw
  }

  /** A new package name: no comment in it, no braces. `=` is allowed. */
  predicate NewNameOk(to: string) {
    IsBody(to) && '{' !in to && '}' !in to
  }

  /** The package an outer line other than a single-line rule names. */
  function NamedBy(o: Outer): Option<string> {
    match o
    case Rule(pkg, _, _) => Some(pkg)
    case BareOpen(pkg) => Some(pkg)
    case Pending(pkg) => Some(pkg)
    case _ => None
  }

  function Renamed(o: Outer, to: string): Outer {
    match o
    case Rule(_, cpus, open) => Rule(to, cpus, open)
    case BareOpen(_) => BareOpen(to)
    case Pending(_) => Pending(to)
    case _ => o
  }

  /** Only a bare name with a comment behind it cannot take a new name that contains `=`. */
  predicate RenameLineOk(raw: string, from: string, to: string) {
    '=' in to ==> CommentAt(raw).None?
                  || (|from| <= |BodyOf(raw)| && '=' in BodyOf(raw)[|from|..])
  }

  lemma {:induction false} NewNameFacts(to: string, gap: string)
    requires NewNameOk(to) && AllWs(gap)
    ensures Trim(to + gap) == to && TrimEnd(to + gap) == to && Trim(to) == to
    ensures SplitTarget(to).None? && !CloseLike(to + gap + "=") && !CloseLike(to) && to[|to| - 1] != '{'
  {
    hide Trim, TrimEndLen, TrimEnd, IsWs, NoComment, StartsComment;
    assert to[|to| - 1] in to && to[0] in to;
    TrimEndUnique(to, gap);
    EmptyLead(to, gap);
    TrimUnique("", to, gap);
    TrimOfTrimmed(to);
    assert (to + gap + "=")[0] == to[0];
  }

  /** The rest of a renamed line joins the new name without making a comment. */
  lemma {:induction false} JoinRest(from: string, r: string, to: string)
    requires IsBody(from + r) && IsBody(to) && (r == "" || IsWs(r[0]) || r[0] == '=' || r[0] == '{')
    ensures IsBody(to + r)
  {
    var b, s := from + r, to + r;
    forall i | 0 <= i < |s| ensures !CommentStart(s, i) {
      if i < |to| {
        assert !CommentStart(to, i);
      } else if i > |to| {
        var j := i - |to| + |from|;
        assert s[i] == b[j] && s[i - 1] == b[j - 1];
        assert i + 1 < |s| ==> s[i + 1] == b[j + 1];
        assert !CommentStart(b, j);
      }
    }
    assert r != "" ==> s[|s| - 1] == b[|b| - 1];
    assert !MarkAt(to, 0);
    assert s[0] == to[0] && (|to| > 1 ==> s[1] == to[1]);
  }

  // ---- where the old name ends

  /** The text before `=` is the name and white space. */
  lemma {:induction false} KeyOf(a: string) returns (gap: string)
    requires a != "" && !IsWs(a[0])
    ensures a == Trim(a) + gap && AllWs(gap)
  {
    TrimPrefix(a);
    gap := a[|Trim(a)|..];
  }

  /** A body whose text after the last `=` is blank ends with that `=`. */
  lemma {:induction false} BlankAfterEq(body: string)
    requires IsBody(body) && RFind(body, '=').Some? && Trim(body[RFind(body, '=').value + 1..]) == ""
    ensures body == body[..|body| - 1] + "=" && RFind(body, '=').value == |body| - 1
  {
    hide Trim;
    var y := body[RFind(body, '=').value + 1..];
    if y != "" {
      assert y[|y| - 1] == body[|body| - 1];
      NonBlankEnd(y);
    }
  }

  lemma {:induction false} NonBlankEnd(y: string)
    requires y != "" && !IsWs(y[|y| - 1])
    ensures Trim(y) != ""
  {
    var n := TrimStartLen(y);
    assert n < |y|;
    var r := y[n..];
    assert r[|r| - 1] == y[|y| - 1];
    assert r + "" == r;
    TrimEndUnique(r, "");
  }

  lemma {:induction false} OpenIsPrefix(b: string)
    requires IsBody(b) && OpenBody(b).0 && OpenBody(b).1 != ""
    ensures var body := OpenBody(b).1; IsBody(body) && body <= b
    ensures var body := OpenBody(b).1; b == body + b[|body|..|b| - 1] + "{" && AllWs(b[|body|..|b| - 1])
  {
    var body := OpenBody(b).1;
    OpenGap(b, body, b[|body|..|b| - 1]);
    OuterKey(b, body);
    assert body[|body| - 1] == b[..|b| - 1][|body| - 1];
  }

  // ---- how a line that names `from` goes on after the name

  lemma {:induction false} RuleRest(b: string, from: string) returns (gap: string, y: string, z: string)
    requires IsBody(b) && ParseBody(b).Rule? && ParseBody(b).pkg == from && from != ""
    ensures b == from + (gap + "=" + (y + z)) && AllWs(gap)
    ensures '=' !in y && '=' !in z && Trim(y) == ParseBody(b).cpus && Trim(y) != ""
    ensures z == if ParseBody(b).open then "{" else ""
    ensures z == "" ==> y != "" && !IsWs(y[|y| - 1]) && y[|y| - 1] != '{'
  {
    hide ParseBody, Trim;
    var a;
    a, y, z := OuterForm(b);
    KeyShape(a, b);
    gap := KeyOf(a);
    assert b == from + (gap + "=" + (y + z));
  }

  lemma {:induction false} OpenRest(b: string, from: string) returns (gap: string, g: string)
    requires IsBody(b) && ParseBody(b) == BareOpen(from) && from != ""
    ensures AllWs(gap) && AllWs(g)
    ensures b == from + (g + "{") || b == from + (gap + "=" + g + "{")
  {
    hide Trim, SplitSingle, CloseLike;
    var body := OpenBody(b).1;
    EmptyTrim();
    assert body != "";
    OpenIsPrefix(b);
    g, gap := b[|body|..|b| - 1], "";
    if RFind(body, '=').Some? {
      BlankAfterEq(body);
      EqKey(body, from);
      gap := KeyOf(body[..|body| - 1]);
      OpenRestJoin(b, body, from, gap, g);
    } else {
      assert body == from;
      assert b == from + (g + "{");
    }
  }

  lemma {:induction false} OpenRestJoin(b: string, body: string, from: string, gap: string, g: string)
    requires b == body + g + "{" && body == (from + gap) + "="
    ensures b == from + (gap + "=" + g + "{")
  {
  }

  lemma {:induction false} EqKey(body: string, from: string)
    requires IsBody(body) && Trim(body[..|body| - 1]) == from && from != ""
    ensures body[..|body| - 1] != "" && !IsWs(body[..|body| - 1][0])
  {
    EmptyTrim();
  }

  lemma {:induction false} PendingRest(b: string, from: string) returns (gap: string)
    requires IsBody(b) && ParseBody(b) == Pending(from) && from != ""
    ensures AllWs(gap) && (b == from || b == from + (gap + "="))
  {
    gap := "";
    if RFind(b, '=').Some? {
      BlankAfterEq(b);
      EqKey(b, from);
      gap := KeyOf(b[..|b| - 1]);
      assert b == from + (gap + "=");
    }
  }

  // ---- the renamed body

  lemma {:induction false} RenamedRule(to: string, gap: string, y: string, z: string)
    requires NewNameOk(to) && AllWs(gap)
    requires '=' !in y && Trim(y) != "" && (z == "" || z == "{")
    requires z == "" ==> y != "" && !IsWs(y[|y| - 1]) && y[|y| - 1] != '{'
    ensures ParseBody(to + gap + "=" + (y + z)) == Rule(to, Trim(y), z != "")
  {
    NewNameFacts(to, gap);
    FormOuter(to + gap, y, z);
  }

  lemma {:induction false} RenamedOpen(to: string, gap: string, g: string)
    requires NewNameOk(to) && AllWs(gap) && AllWs(g)
    ensures '=' !in to ==> ParseBody(to + g + "{") == BareOpen(to)
    ensures IsBody(to + gap + "=") ==> ParseBody(to + gap + "=" + g + "{") == BareOpen(to)
  {
    NewNameFacts(to, gap);
    if '=' !in to {
      OpenBodyOf(to, g);
    }
    if IsBody(to + gap + "=") {
      OpenBodyOf(to + gap + "=", g);
      BlankContent(to, gap, true);
    }
  }

  lemma {:induction false} BlankContent(to: string, gap: string, open: bool)
    requires NewNameOk(to) && AllWs(gap)
    ensures ParseContent(open, to + gap + "=") == if open then BareOpen(to) else Pending(to)
  {
    NewNameFacts(to, gap);
    EmptyTrim();
    var s := to + gap + "=" + "";
    assert s == to + gap + "=";
    KvJoin(to + gap, "");
    assert s[..|to + gap|] == to + gap && s[|to + gap| + 1..] == "";
  }

  lemma {:induction false} RenamedPending(to: string, gap: string)
    requires NewNameOk(to) && AllWs(gap)
    ensures '=' !in to ==> ParseBody(to) == Pending(to)
    ensures ParseBody(to + gap + "=") == Pending(to)
  {
    NewNameFacts(to, gap);
    BlankContent(to, gap, false);
  }

  // ---- the renamed line

  /** Two visible characters are two visible characters after trimming. */
  lemma {:induction false} TrimKeepsTwo(s: string, i: nat, j: nat)
    requires i < j < |s| && !IsWs(s[i]) && !IsWs(s[j])
    ensures |Trim(s)| >= 2
  {
    var lead, tail := TrimParts(s);
    var n := |lead| + |Trim(s)|;
    assert forall k | 0 <= k < |lead| :: s[k] == lead[k];
    assert forall k | n <= k < |s| :: s[k] == tail[k - n];
  }

  /** The rest of the line is kept verbatim, and the new body is read as wanted. */
  lemma {:induction false} RenameKept(from: string, r: string, u: string, to: string)
    requires IsBody(from + r) && IsBody(to) && IsTail(u)
    requires r == "" || IsWs(r[0]) || r[0] == '=' || r[0] == '{'
    ensures Shows(ViewOf(to + (r + u)), to + r) && IsBody(to + r)
  {
    JoinRest(from, r, to);
    EmptyLead(to + r, u);
    assert to + (r + u) == to + r + u;
    LineShows(to + r + u, "", to + r, u);
  }

  lemma {:induction false} RenameRule(b: string, u: string, from: string, to: string)
    requires IsBody(b) && IsTail(u) && ParseBody(b).Rule? && ParseBody(b).pkg == from && from != ""
    requires NewNameOk(to)
    ensures from <= b
    ensures ViewOf(to + RenameTail(to, (b + u)[|from|..])).Text?
    ensures ViewOf(to + RenameTail(to, (b + u)[|from|..])).outer == Renamed(ParseBody(b), to)
  {
    hide ViewOf, ParseBody, IsBody, IsTail, Trim;
    var gap, y, z := RuleRest(b, from);
    var r := gap + "=" + (y + z);
    assert (b + u)[|from|..] == r + u;
    RenameKept(from, r, u, to);
    RenamedRule(to, gap, y, z);
    assert to + r == to + gap + "=" + (y + z);
    var l, w := TrimParts(y);
    VisibleInSpec(gap, y, z, u, l, Trim(y), w);
  }

  lemma {:induction false} VisibleInSpec(gap: string, y: string, z: string, u: string, l: string, c: string, w: string)
    requires y == l + c + w && c != "" && Trimmed(c)
    ensures |Trim(gap + "=" + (y + z) + u)| >= 2
  {
    var s := gap + "=" + (y + z) + u;
    assert s[|gap|] == '=';
    assert s[|gap| + 1 + |l|] == y[|l|] == c[0];
    TrimKeepsTwo(s, |gap|, |gap| + 1 + |l|);
  }

  lemma {:induction false} RenameOpen(b: string, u: string, from: string, to: string)
    requires IsBody(b) && IsTail(u) && ParseBody(b) == BareOpen(from) && from != ""
    requires NewNameOk(to) && ('=' in to ==> u == "" || (|from| <= |b| && '=' in b[|from|..]))
    ensures from <= b
    ensures ViewOf(to + RenameTail(to, (b + u)[|from|..])).Text?
    ensures ViewOf(to + RenameTail(to, (b + u)[|from|..])).outer == BareOpen(to)
  {
    hide ViewOf, ParseBody, IsBody, IsTail, Trim;
    var gap, g := OpenRest(b, from);
    RenamedOpen(to, gap, g);
    if b == from + (gap + "=" + g + "{") {
      var r := gap + "=" + g + "{";
      assert (b + u)[|from|..] == r + u;
      RenameKept(from, r, u, to);
      assert to + r == (to + gap + "=") + g + "{";
      VisibleBrace(gap, g, u);
      OpenedKey(to, gap);
    } else {
      var r := g + "{";
      assert b[|from|..] == r && (b + u)[|from|..] == r + u;
      if '=' in to {
        assert '=' !in r;
        assert r + u == r;
        BraceTrim(g);
        BareOpenBody(to) by { NewNameFacts(to, ""); NewNameBody(to); }
        PrintedShows(BareOpenLine(to));
      } else {
        RenameKept(from, r, u, to);
        assert to + r == to + g + "{";
      }
    }
  }

  lemma {:induction false} NewNameBody(to: string)
    requires NewNameOk(to)
    ensures IsBody(to)
  {
  }

  lemma {:induction false} OpenedKey(to: string, gap: string)
    requires NewNameOk(to) && AllWs(gap)
    ensures IsBody(to + gap + "=")
  {
    var s := to + gap + "=";
    forall i | 0 <= i < |s| ensures !CommentStart(s, i) {
      if i < |to| {
        assert !CommentStart(to, i);
      } else if i < |to| + |gap| {
        assert s[i] == gap[i - |to|];
      }
    }
    assert !MarkAt(to, 0);
    assert s[0] == to[0] && (|to| > 1 ==> s[1] == to[1]);
  }

  lemma {:induction false} VisibleBrace(gap: string, g: string, u: string)
    ensures |Trim(gap + "=" + g + "{" + u)| >= 2
  {
    var s := gap + "=" + g + "{" + u;
    assert s[|gap|] == '=' && s[|gap| + 1 + |g|] == '{';
    TrimKeepsTwo(s, |gap|, |gap| + 1 + |g|);
  }

  lemma {:induction false} BraceTrim(g: string)
    requires AllWs(g)
    ensures Trim(g + "{") == "{"
  {
    assert g + "{" + "" == g + "{";
    TrimUnique(g, "{", "");
  }

  lemma {:induction false} EqTrim(g: string)
    requires AllWs(g)
    ensures Trim(g + "=") == "="
  {
    assert g + "=" + "" == g + "=";
    TrimUnique(g, "=", "");
  }

  lemma {:induction false} RenamePending(b: string, u: string, from: string, to: string)
    requires IsBody(b) && IsTail(u) && ParseBody(b) == Pending(from) && from != ""
    requires NewNameOk(to) && ('=' in to ==> u == "" || (|from| <= |b| && '=' in b[|from|..]))
    ensures from <= b
    ensures ViewOf(to + RenameTail(to, (b + u)[|from|..])).Text?
    ensures ViewOf(to + RenameTail(to, (b + u)[|from|..])).outer == Pending(to)
  {
    hide ViewOf, ParseBody, IsBody, IsTail, Trim;
    var gap := PendingRest(b, from);
    var r := b[|from|..];
    assert b == from + r && (r == "" || r == gap + "=");
    assert (b + u)[|from|..] == r + u;
    RenamedPending(to, gap);
    RenamedPending(to, "");
    NewNameBody(to);
    OpenedKey(to, "");
    assert to + "" + "=" == to + "=";
    PrintedShows(to + "=");
    RenameKept(from, r, u, to);
    assert r == "" ==> to + r == to;
    assert r != "" ==> to + r == to + gap + "=";
    if '=' in to && r == "" {
      assert r + u == "";
      EmptyTrim();
    }
    if r != "" && u == "" {
      assert r + u == gap + "=";
      EqTrim(gap);
    }
    if '=' in to && r != "" {
      NotABrace(gap, u);
    }
  }

  lemma {:induction false} NotABrace(gap: string, u: string)
    ensures Trim(gap + "=" + u) != "{"
  {
    var s := gap + "=" + u;
    var lead, tail := TrimParts(s);
    var c := Trim(s);
    assert s[|gap|] == '=';
    assert forall k | 0 <= k < |s| ::
        s[k] == if k < |lead| then lead[k] else if k < |lead| + |c| then c[k - |lead|] else tail[k - |lead| - |c|];
  }

  /** Renaming a line changes its package and nothing else. */
  lemma {:induction false} RenameShows(raw: string, from: string, to: string)
    requires ViewOf(raw).Text? && NamedBy(ViewOf(raw).outer) == Some(from) && from != ""
    requires NewNameOk(to) && RenameLineOk(raw, from, to)
    ensures ViewOf(RenameText(raw, from, to)).Text?
    ensures ViewOf(RenameText(raw, from, to)).outer == Renamed(ViewOf(raw).outer, to)
  {
    hide ViewOf, ParseBody, IsBody, IsTail, Trim, RenameTail, StripComment;
    var lead, b, t := Decompose(raw);
    TrimLine(raw, lead, b, t);
    var u := TrimEnd(t);
    TrimmedTail(t);
    CommentAtLine(raw, lead, b, t);
    assert CommentAt(raw).None? ==> u == "" by { BlankTail(t); }
    assert Trim(raw) == b + u;
    assert IsTail(u);
    if ParseBody(b).Rule? {
      RenameRule(b, u, from, to);
    } else if ParseBody(b).BareOpen? {
      RenameOpen(b, u, from, to);
    } else {
      RenamePending(b, u, from, to);
    }
  }

  lemma {:induction false} BlankTail(t: string)
    ensures TrimStartLen(t) == |t| ==> TrimEnd(t) == ""
  {
    if TrimStartLen(t) == |t| {
      assert "" + t == t;
      TrimEndUnique("", t);
    }
  }
}
