/**
 * Exactly when renaming ends: on every file, and on every file that is sound and normalised.
 * The new name is any trimmed text without a comment in it.
 */
module RenameForever {
  import opened Seqs
  import opened Text
  import opened RuleSyntax
  import opened LineShape
  import opened LinePrint
  import opened LineHeader
  import opened SpecTheorems
  import opened LineParts
  import opened LineRename
  import opened LineSingle
  import opened LineReown
  import opened LineLighter
  import opened LineSteady
  import opened Loader
  import opened RuleSets
  import opened Scan
  import opened Prune
  import opened PruneMeans
  import opened Splice
  import opened Normalize
  import opened NormalizeProof
  import opened NormalizeMain
  import opened NormalForm
  import opened Rename
  import opened RenameLoop
  import opened RenameEnds

  /** The renaming of a file is refused or comes to an end. */
  ghost predicate Halts(lines: seq<string>, from: string, to: string) {
    var n := Normalized(lines, from);
    !Over(n, from) && Over(n, to) ==> Terminates(n, from, to)
  }

  // ---- lines of the small files

  lemma {:induction false} HeadIsName(to: string)
    requires IsBody(to) && Head(to) != ""
    ensures IsBody(Head(to)) && '{' !in Head(to) && ('{' !in to ==> Head(to) == to)
  {
    hide Trim;
    if '{' in to {
      var g, x := HeadParts(to);
      PrefixBody(Head(to), g + "{" + x, to);
      assert to == Head(to) + (g + "{" + x);
      var i := Find(to, '{').value;
      var lead, tail := TrimParts(to[..i]);
    }
  }

  lemma {:induction false} PrefixBody(h: string, r: string, b: string)
    requires IsBody(b) && b == h + r && h != ""
    ensures NoComment(h) && !StartsComment(h)
  {
    OuterKey(b, h);
  }

  lemma {:induction false} HeadBody(to: string, from: string)
    requires IsBody(to) && Head(to) == from && from != ""
    ensures IsBody(from) && '{' !in from && SplitTarget(from).None?
    ensures to != from ==> '{' in to && |to| > |from| && from <= to
  {
    hide Trim, IsBody, Head, TrimEnd;
    HeadIsName(to);
    if SplitTarget(from).Some? {
      TargetHead(from);
    }
    if to != from {
      var g, x := HeadParts(to);
      NameBefore(from, g, x, to);
    }
  }

  lemma {:induction false} TBehind()
    ensures BehindBrace("t}=0") == Some(("t", "0")) && OpenBehind("t}=0") == (false, "t}=0")
  {
    hide BehindBrace;
    BehindOf("t", "0");
    assert "t" + "}=" + "0" == "t}=0";
  }

  lemma {:induction false} TBody()
    ensures IsBody("a" + "{t}=0")
  {
    var s := "a" + "{t}=0";
    assert s == "a{t}=0";
    forall i | 0 <= i < |s| ensures !IsWs(s[i]) && !MarkAt(s, i) {
      assert s[i] in {'a', '{', 't', '}', '=', '0'};
    }
  }

  lemma {:induction false} TSingle(from: string)
    requires IsBody(from) && '{' !in from
    ensures var raw := from + "{t}=0"; IsBody(raw) && Trim(raw) == raw && BodyOf(raw) == raw
    ensures SingleFor(from + "{t}=0", from) && ViewOf(from + "{t}=0").outer == Single(from, "t", "0", false)
  {
    hide ViewOf, IsBody, Trim, ParseBody, BehindBrace, OpenBehind, BodyOf;
    var raw := from + "{t}=0";
    TBehind();
    TBody();
    JoinRest("a", "{t}=0", from);
    assert raw == from + "{" + "t}=0";
    BodyNotEmpty(from);
    BodyTrimmed(from);
    BodyTrimmed(raw);
    ParseBehind(from, "t}=0");
    PrintedShows(raw);
    EmptyTail();
    EmptyLead(raw, "");
    NilLeft(raw);
    BodyIs(raw, "", raw, "");
  }

  lemma {:induction false} BodyTrimmed(b: string)
    requires IsBody(b)
    ensures Trim(b) == b
  {
    hide Trim;
    TrimOfTrimmed(b);
  }

  /** Inside a block such a line is an entry. */
  lemma {:induction false} TEntry(from: string)
    requires IsBody(from) && '{' !in from && '=' !in from && (!CloseLike(from) || from == "}")
    ensures var v := ViewOf(from + "{t}=0"); v.Text? && v.inner.Entry? && !v.inner.closed && v.inner.name != ""
  {
    hide ViewOf, IsBody, Trim, BodyOf, StripComment, SplitBody, CloseLike;
    var raw := from + "{t}=0";
    TSingle(from);
    BodyNotEmpty(from);
    TNoCloser(from);
    TSplit(from);
    TextIs(raw);
    InnerIs(raw);
  }

  lemma {:induction false} InnerIs(raw: string)
    requires !CloseLike(Trim(raw)) && SplitBody(BodyOf(raw)).Some?
    ensures var e := SplitBody(BodyOf(raw)).value; InnerView(Trim(raw)) == Entry(e.0, e.1, e.2)
  {
    hide Trim, SplitBody, CloseLike, StripComment;
  }

  lemma {:induction false} TNoCloser(from: string)
    requires from != "" && (!CloseLike(from) || from == "}")
    ensures !CloseLike(from + "{t}=0")
  {
    var s := from + "{t}=0";
    assert s[0] == from[0];
    assert |from| > 1 ==> s[1] == from[1];
    assert |from| > 2 ==> s[2] == from[2];
    assert |from| == 1 ==> s[1] == '{';
    assert |from| == 2 ==> s[2] == '{';
  }

  lemma {:induction false} TSplit(from: string)
    requires IsBody(from) && '=' !in from
    ensures SplitBody(from + "{t}=0") == Some((from + "{t}", "0", false))
  {
    hide Trim, IsBody;
    var key := from + "{t}";
    var s := key + "=" + "0";
    assert s == from + "{t}=0";
    assert '=' !in key;
    forall i | 0 <= i < |s| ensures !ClosesAt(s, i) {
      if i <= |key| {
        assert forall k | 0 <= k < i :: s[k] == key[k];
        assert '=' !in s[..i];
      }
    }
    KvJoin(key, "0");
    BodyNotEmpty(from);
    assert Trimmed(key);
    TrimOfTrimmed(key);
    TrimOfTrimmed("0");
  }

  lemma {:induction false} CloserIs()
    ensures ViewOf("}").Text? && ViewOf("}").inner == Close && ViewOf("}").outer == Junk
  {
    hide ViewOf;
    CloserBody();
    PrintedShows("}");
    ShowsCloser(ViewOf("}"));
  }

  // ---- on every file

  /** A rule on a line of its own, and a block that is not closed: normalising leaves it alone. */
  function Twice(from: string): seq<string> { [from + "{t}=0", BareOpenLine(from)] }

  lemma {:induction false} TwiceViews(from: string)
    requires IsBody(from) && '{' !in from && SplitTarget(from).None?
    ensures var v := ViewOf(Twice(from)[0]); v.Text? && v.outer == Single(from, "t", "0", false)
    ensures var v := ViewOf(Twice(from)[1]); v.Text? && v.outer == BareOpen(from)
  {
    hide ViewOf, IsBody, SplitTarget, BareOpenLine;
    TSingle(from);
    BareOpenBody(from);
    PrintedShows(BareOpenLine(from));
  }

  lemma {:induction false} TwiceScan(from: string)
    requires IsBody(from) && '{' !in from && SplitTarget(from).None?
    ensures ScanOf(Twice(from), from) == Target(Some(OpenBare(1)), Some(1), None, [Loc("t", 0, true, false, false)])
  {
    hide ViewOf, IsBody, SplitTarget, BareOpenLine;
    TwiceViews(from);
    var l := Twice(from);
    assert from != "" by { BodyNotEmpty(from); }
    assert ScanTo(l, 1, from) == Step(l, Fresh, 0, from);
    assert ScanTo(l, 2, from) == Step(l, ScanTo(l, 1, from), 1, from);
  }

  lemma {:induction false} FirstIn(locs: seq<Loc>)
    ensures locs == [] || locs[0] in locs
  {
  }

  lemma {:induction false} OverUnlessNamed(lines: seq<string>, pkg: string)
    requires forall i | 0 <= i < |lines| :: !NamesIt(lines[i], pkg)
    ensures Over(lines, pkg)
  {
    hide ViewOf, ScanTo, OutlineTo, Pick;
    ScanRecords(lines, |lines|, pkg);
    var t := ScanOf(lines, pkg);
    FirstIn(Singles(t.threads));
  }

  lemma {:induction false} TwicePasses(from: string, to: string)
    requires IsBody(from) && '{' !in from && SplitTarget(from).None? && to != from
    ensures Normalized(Twice(from), from) == Twice(from) && Over(Twice(from), to)
    ensures !Over(Twice(from), from) && FirstBack(Twice(from), from)
  {
    hide ViewOf, ScanTo, Items, Cut, Inserted, IsBody, SplitTarget;
    TwiceScan(from);
    TwiceViews(from);
    OverUnlessNamed(Twice(from), to);
  }

  /** Renaming ends on every file if and only if the text of the new name before its first brace is not the old name. */
  lemma {:induction false} HaltsIff(from: string, to: string)
    requires from != "" && IsBody(to)
    ensures (forall lines :: Halts(lines, from, to)) <==> to == from || Head(to) != from
  {
    hide Terminates, IsBody, Head, Over, Normalized, Twice, FirstBack, ThirdBack;
    if to == from {
    } else if Head(to) != from {
      forall lines ensures Halts(lines, from, to) {
        EndsAnywhere(Normalized(lines, from), from, to);
      }
    } else {
      HeadBody(to, from);
      TwicePasses(from, to);
      NeverEnds(Twice(from), from, to);
      assert !Halts(Twice(from), from, to);
    }
  }

  // ---- on sound, normalised files

  /** A block's header and its closer. */
  lemma {:induction false} EmptyBlock(l0: string, from: string, to: string)
    requires ViewOf(l0).Text? && ViewOf(l0).outer == BareOpen(from) && from != ""
    ensures Sound([l0, "}"]) && NoSingles(Start, [l0, "}"], from) && !Over([l0, "}"], from)
    ensures |Pass([l0, "}"], from, to)| == 2 && Pass([l0, "}"], from, to)[0] == RenameText(l0, from, to)
  {
    hide ViewOf, Walk, SlipCount, Attempts, RenameText, Pick, Pass, ScanTo, Gone;
    EmptySound(l0, from);
    EmptyScan(l0, from);
    NoSinglesIff([l0, "}"], from);
    PassAt([l0, "}"], from, to, 0);
  }

  lemma {:induction false} EmptySound(l0: string, from: string)
    requires ViewOf(l0).Text? && ViewOf(l0).outer == BareOpen(from) && from != ""
    ensures Sound([l0, "}"])
  {
    hide ViewOf, Walk, SlipCount;
    CloserIs();
    assert [l0, "}"] == [l0] + ["}"];
    RunCons(Start, l0, ["}"]);
    RunCons(In(from), "}", []);
    NilLeft(["}"]);
    NoLine(Start);
  }

  lemma {:induction false} EmptyScan(l0: string, from: string)
    requires ViewOf(l0).Text? && ViewOf(l0).outer == BareOpen(from) && from != ""
    ensures ScanOf([l0, "}"], from) == Target(Some(OpenBare(0)), Some(0), Some(1), [])
    ensures Singles(ScanOf([l0, "}"], from).threads) == []
  {
    hide ViewOf;
    CloserIs();
    var f := [l0, "}"];
    assert ScanTo(f, 1, from) == Step(f, Fresh, 0, from);
    assert ScanTo(f, 2, from) == Step(f, ScanTo(f, 1, from), 1, from);
  }

  /** A header whose renamed line is a single-line rule of the old package. */
  lemma {:induction false} HeaderLoops(l0: string, from: string, to: string)
    requires ViewOf(l0).Text? && ViewOf(l0).outer == BareOpen(from) && from != "" && IsBody(to) && Head(to) == from
    requires SingleFor(RenameText(l0, from, to), from)
    ensures var f := [l0, "}"]; Sound(f) && NoSingles(Start, f, from) && !Terminates(f, from, to)
  {
    hide ViewOf, RenameText, Sound, Gone, Over, Pass, IsBody, Head, Terminates, ThirdBack;
    EmptyBlock(l0, from, to);
    NeverEnds([l0, "}"], from, to);
  }

  /** `to` is a target, `pkg{thread}`: then `from= {` becomes a single-line rule. */
  lemma {:induction false} TargetLoops(from: string, to: string)
    requires from != "" && IsBody(to) && to != from && Head(to) == from && SplitTarget(to).Some?
    ensures exists f :: Sound(f) && NoSingles(Start, f, from) && !Terminates(f, from, to)
  {
    hide ViewOf, RenameText, Sound, Gone, Terminates, IsBody, Head, SplitTarget, ParseBody, BodyOf, Trim;
    HeadBody(to, from);
    var l0 := from + "= {";
    EqHeader(from);
    var u := RenameBody(l0, from, to);
    EqIs(from);
    var gap := ReownEq(l0, u, from, to);
    HeaderLoops(l0, from, to);
    var f := [l0, "}"];
    assert Sound(f) && NoSingles(Start, f, from) && !Terminates(f, from, to);
  }

  lemma {:induction false} EqHeader(from: string)
    requires IsBody(from) && SplitTarget(from).None?
    ensures var l0 := from + "= {"; ViewOf(l0).Text? && ViewOf(l0).outer == BareOpen(from) && BodyOf(l0) == l0 && IsBody(l0)
  {
    hide ViewOf, IsBody, SplitTarget, ParseBody, Trim, BodyOf;
    var l0 := from + "= {";
    EqBody(from);
    EqForm(from, "", " ", "{");
    NilLeft(from);
    assert from + "" + "=" + (" " + "{") == l0;
    TrimBlank(" ");
    PrintedShows(l0);
    EmptyTail();
    NilLeft(l0);
    BodyIs(l0, "", l0, "");
  }

  lemma {:induction false} EqIs(from: string)
    ensures HasEq(from + "= {", from)
  {
    assert (from + "= {")[|from|..] == "= {";
    assert "= {"[0] == '=';
  }

  lemma {:induction false} HashOpen(from: string)
    requires IsBody(from) && '=' !in from && '{' !in from
    ensures var v := ViewOf(from + " { #"); v.Text? && v.outer == BareOpen(from)
    ensures BodyOf(from + " { #") == from + " {" && Trim(from + " { #") == from + " { #"
    ensures IsBody(from + " {") && !HasEq(from + " {", from)
  {
    hide ViewOf, IsBody, ParseBody, Trim, BodyOf;
    var b := from + " {";
    assert from + " " + "{" == b;
    OpenIsBody(from, " ");
    OpenBodyOf(from, " ");
    OpenContent(from);
    ByContent(b);
    HashEnd();
    assert "" + b + " #" == from + " { #";
    LineShows(from + " { #", "", b, " #");
    BodyIs(from + " { #", "", b, " #");
    HashTrim(b);
    assert b + " #" == from + " { #";
    assert b[|from|..] == " {";
  }

  lemma {:induction false} HashEnd()
    ensures IsTail(" #") && TrimStartLen(" #") == 1
  {
    var t := " #";
    assert t == " " + "#";
    TrimStartUnique(" ", "#");
  }

  lemma {:induction false} HashTrim(b: string)
    requires IsBody(b)
    ensures Trim(b + " #") == b + " #"
  {
    hide Trim;
    var s := b + " #";
    assert s[0] == b[0] && s[|s| - 1] == '#';
    TrimOfTrimmed(s);
  }

  /** `to` holds a whole single-line rule: then `from { #` becomes one. */
  lemma {:induction false} RuleLoopsOn(from: string, to: string)
    requires from != "" && IsBody(to) && to != from && Head(to) == from && '=' !in from && SplitSingle(to).Some?
    ensures var f := [from + " { #", "}"]; Sound(f) && NoSingles(Start, f, from) && !Terminates(f, from, to)
  {
    hide ViewOf, RenameText, Sound, Gone, Terminates, IsBody, Head, SplitSingle, ParseBody, BodyOf, Trim, ParseContent, TrimStartLen;
    HeadBody(to, from);
    var l0 := from + " { #";
    HashOpen(from);
    var u := RenameBody(l0, from, to);
    assert u == " #" by { TailIs(from + " {", u); }
    ReownBare(from + " {", u, from, to);
    OpenContent(to);
    SingleHead(NewBody(from + " {", u, from, to));
    HeadMore(to, NewRest(Behind(from + " {", from), u, to));
    HeaderLoops(l0, from, to);
  }

  lemma {:induction false} RuleLoops(from: string, to: string)
    requires from != "" && IsBody(to) && to != from && Head(to) == from && '=' !in from && SplitSingle(to).Some?
    ensures exists f :: Sound(f) && NoSingles(Start, f, from) && !Terminates(f, from, to)
  {
    hide Sound, Gone, Terminates, IsBody, Head, SplitSingle;
    RuleLoopsOn(from, to);
    var f := [from + " { #", "}"];
    assert Sound(f) && NoSingles(Start, f, from) && !Terminates(f, from, to);
  }

  lemma {:induction false} TailIs(b: string, u: string)
    requires b + " #" == b + u
    ensures u == " #"
  {
    assert (b + " #")[|b|..] == " #" && (b + u)[|b|..] == u;
  }

  // ---- a block that loses its header

  function Exposing(l0: string, from: string): seq<string> { [l0, "{ # }", from + "{t}=0", "}"] }

  lemma {:induction false} ExposingScan(l0: string, from: string)
    requires ViewOf(l0).Text? && ViewOf(l0).outer == Pending(from) && from != ""
    requires IsBody(from) && '{' !in from && '=' !in from && (!CloseLike(from) || from == "}")
    ensures var t := ScanOf(Exposing(l0, from), from); t.pkgLine == Some(OpenPending(0)) && Singles(t.threads) == []
  {
    hide ViewOf, IsBody, CloseLike;
    CloserIs();
    HashBrace();
    TEntry(from);
    var f := Exposing(l0, from);
    assert ScanTo(f, 1, from) == Step(f, Fresh, 0, from);
    assert ScanTo(f, 2, from) == Step(f, ScanTo(f, 1, from), 1, from);
    assert ScanTo(f, 3, from) == Step(f, ScanTo(f, 2, from), 2, from);
    assert ScanTo(f, 4, from) == Step(f, ScanTo(f, 3, from), 3, from);
    var l := ScanTo(f, 4, from).t.threads;
    assert l == [l[0]] && !l[0].single;
    PickOne(l[0], SinglesOnly);
  }

  lemma {:induction false} ExposingSound(l0: string, from: string)
    requires ViewOf(l0).Text? && ViewOf(l0).outer == Pending(from) && from != ""
    requires IsBody(from) && '{' !in from && '=' !in from && (!CloseLike(from) || from == "}")
    ensures var f := Exposing(l0, from); Sound(f) && NoSingles(Start, f, from)
  {
    hide ViewOf, IsBody, CloseLike, Walk, SlipCount, Gone, ScanTo;
    CloserIs();
    HashBrace();
    TEntry(from);
    var f := Exposing(l0, from);
    forall k | 0 <= k < 4 ensures f[k..] == [f[k]] + f[k + 1..] {
    }
    RunCons(Start, f[0], f[1..]);
    RunCons(Ctl(false, "", from), f[1], f[2..]);
    RunCons(In(from), f[2], f[3..]);
    RunCons(In(from), f[3], f[4..]);
    NoLine(Start);
    assert f[0..] == f && f[4..] == [];
    ExposingScan(l0, from);
    NoSinglesIff(f, from);
  }

  lemma {:induction false} ExposingLoops(l0: string, from: string, to: string)
    requires ViewOf(l0).Text? && ViewOf(l0).outer == Pending(from) && from != ""
    requires IsBody(from) && '{' !in from && '=' !in from && (!CloseLike(from) || from == "}")
    requires IsBody(to) && Head(to) == from
    requires var w := ViewOf(RenameText(l0, from, to)); w.Text? ==> !w.outer.Pending?
    ensures exists f :: Sound(f) && NoSingles(Start, f, from) && !Terminates(f, from, to)
  {
    hide ViewOf, IsBody, Head, CloseLike, RenameText, Sound, Gone, ScanTo, Pass, FirstBack, Terminates;
    var f := Exposing(l0, from);
    ExposingSound(l0, from);
    ExposingScan(l0, from);
    TSingle(from);
    HashBrace();
    PassAt(f, from, to, 0);
    PassAt(f, from, to, 1);
    PassAt(f, from, to, 2);
    SingleAgain(f[2], from, to);
    NeverEnds(f, from, to);
    assert Sound(f) && NoSingles(Start, f, from) && !Terminates(f, from, to);
  }

  /** The name line gets a spec or a brace of its own and waits no more. */
  lemma {:induction false} NameLoops(from: string, to: string)
    requires from != "" && IsBody(to) && to != from && Head(to) == from && '=' !in from && !CloseLike(from)
    requires LastChar(to) == '{' || ('=' in to && LastChar(to) != '=')
    ensures exists f :: Sound(f) && NoSingles(Start, f, from) && !Terminates(f, from, to)
  {
    hide ViewOf, IsBody, Head, CloseLike, RenameText, Sound, Gone, Terminates, ParseBody, BodyOf, Trim, LastChar, TrimStartLen, SplitTarget;
    HeadBody(to, from);
    var l0 := from + " #";
    HashName(from);
    var u := RenameBody(l0, from, to);
    assert u == " #" by { TailIs(from, u); }
    NoEqBehind(from);
    ReownPending(from, u, from, to);
    WaitsNoMore(to);
    ExposingLoops(l0, from, to);
  }

  lemma {:induction false} NoEqBehind(from: string)
    ensures !HasEq(from, from)
  {
    assert from[|from|..] == "";
  }

  lemma {:induction false} HashName(from: string)
    requires IsBody(from) && '=' !in from && '{' !in from && !CloseLike(from)
    ensures var l0 := from + " #"; ViewOf(l0).Text? && ViewOf(l0).outer == Pending(from) && BodyOf(l0) == from && Trim(l0) == l0
    ensures ParseBody(from) == Pending(from)
  {
    hide ViewOf, IsBody, Trim, BodyOf, CloseLike;
    HashEnd();
    BodyNotEmpty(from);
    assert from[|from| - 1] in from;
    assert "" + from + " #" == from + " #";
    LineShows(from + " #", "", from, " #");
    BodyIs(from + " #", "", from, " #");
    HashTrim(from);
    assert RFind(from, '=').None?;
  }

  lemma {:induction false} WaitsNoMore(to: string)
    requires IsBody(to) && (LastChar(to) == '{' || ('=' in to && LastChar(to) != '='))
    ensures !ParseBody(to).Pending?
  {
    hide Trim, SplitSingle, CloseLike;
    if LastChar(to) != '{' && SplitSingle(to).None? && !CloseLike(to) {
      var eq := RFind(to, '=').value;
      var y := to[eq + 1..];
      assert y != "" && y[|y| - 1] == to[|to| - 1];
      NonBlankEnd(y);
    }
  }

  /** The name `}` followed by white space becomes a closer. */
  lemma {:induction false} CloserLoops(to: string)
    requires IsBody(to) && Head(to) == "}" && |to| > 1 && IsWs(to[1])
    ensures exists f :: Sound(f) && NoSingles(Start, f, "}") && !Terminates(f, "}", to)
  {
    hide ViewOf, IsBody, Head, RenameText, Sound, Gone, Terminates, ParseBody, SplitTarget, Trim;
    HeadBody(to, "}");
    EqClosers();
    var w := to + "=";
    assert RenameText("}=", "}", to) == w by { EqRenamed(to); }
    EqBody(to);
    PrintedShows(w);
    EqForm(to, "", "", "");
    NilLeft(to);
    NilLeft(w);
    NilLeft("");
    if SplitTarget(to).None? {
      CloserAgain(to);
    }
    ExposingLoops("}=", "}", to);
  }

  lemma {:induction false} EqClosers()
    ensures ViewOf("}=").Text? && ViewOf("}=").outer == Pending("}") && Trim("}=") == "}="
  {
    hide ViewOf, Trim;
    CloserBody();
    EqBody("}");
    assert "}" + "=" == "}=";
    PrintedShows("}=");
    NoTargetCloser();
    EqForm("}", "", "", "");
    NilLeft("}");
    NilLeft("}=");
    NilLeft("");
    EmptyTrim();
    BodyTrimmed("}=");
  }

  lemma {:induction false} NoTargetCloser()
    ensures SplitTarget("}").None? && !CloseLike("}" + "" + "=")
  {
    assert ("}" + "" + "=")[1] == '=';
    assert "}"[..0] == "";
    assert TrimEnd("") == "";
  }

  lemma {:induction false} EqRenamed(to: string)
    ensures RenameText("}=", "}", to) == to + "="
  {
    hide Trim;
    EqClosers();
    assert "}="[1..] == "=";
    TrimOfTrimmed("=");
  }

  lemma {:induction false} CloserAgain(to: string)
    requires |to| > 1 && to[0] == '}' && IsWs(to[1])
    ensures CloseLike(to + "" + "=")
  {
    var s := to + "" + "=";
    assert s[0] == to[0] && s[1] == to[1];
  }

  /**
   * On sound files without single-line rules of the package, renaming ends if and only if the new
   * name does not loop.
   */
  lemma {:induction false} SoundHaltsIff(from: string, to: string)
    requires from != "" && IsBody(to) && to != from
    ensures (forall n | Sound(n) && NoSingles(Start, n, from) :: Terminates(n, from, to)) <==> !Loops(from, to)
  {
    hide Terminates, IsBody, Head, Sound, Gone, SplitTarget, SplitSingle, CloseLike, LastChar, ScanTo, Pick;
    if !Loops(from, to) {
      forall n | Sound(n) && NoSingles(Start, n, from) ensures Terminates(n, from, to) {
        SoundNoSingles(n, from);
        EndsUnlessLoops(n, from, to);
      }
    } else if SplitTarget(to).Some? {
      TargetLoops(from, to);
    } else if from == "}" && |to| > 1 && IsWs(to[1]) {
      CloserLoops(to);
    } else if SplitSingle(to).Some? {
      RuleLoops(from, to);
    } else {
      NameLoops(from, to);
    }
  }

  lemma {:induction false} SoundNoSingles(n: seq<string>, from: string)
    requires from != "" && Sound(n) && NoSingles(Start, n, from)
    ensures Singles(ScanOf(n, from).threads) == []
  {
    hide Gone, ScanTo, Pick, SlipCount, Terminates;
    NoSinglesIff(n, from);
  }

  /** A sound file whose normal form is safe: unless the name loops, its renaming ends. */
  lemma {:induction false} SafeHalts(lines: seq<string>, from: string, to: string)
    requires from != "" && Sound(lines) && SpecsLike(Rules(lines)) && NormalizeSafe(lines, from)
    requires IsBody(to) && !Loops(from, to)
    ensures Halts(lines, from, to)
  {
    hide Terminates, IsBody, Head, Gone, Loops, ScanTo, Pick, NormalizeSafe, Sound, Normalized, SpecsLike, Attempts, SameFor;
    if to != from {
      NormalizedNoSingles(lines, from);
      EndsUnlessLoops(Normalized(lines, from), from, to);
    }
  }
}
