/** Whether the renaming loop ends: pass after pass until the scan sees no line of the old name. */
module RenameEnds {
  import opened Text
  import opened RuleSyntax
  import opened LineShape
  import opened SpecTheorems
  import opened LineParts
  import opened LineRename
  import opened LineReown
  import opened LineLighter
  import opened LineSteady
  import opened Scan
  import opened Rename
  import opened RenameLoop

  function PassN(lines: seq<string>, n: nat, from: string, to: string): seq<string>
    decreases n
  {
    if n == 0 then lines else PassN(Pass(lines, from, to), n - 1, from, to)
  }

  predicate Over(lines: seq<string>, from: string) {
    !AnyLine(ScanOf(lines, from))
  }

  /** The loop ends after some number of passes. */
  ghost predicate Terminates(lines: seq<string>, from: string, to: string) {
    exists n: nat :: Over(PassN(lines, n, from, to), from)
  }

  ghost predicate IsCount(lines: seq<string>, r: nat, from: string, to: string) {
    Over(PassN(lines, r, from, to), from) && forall m | 0 <= m < r :: !Over(PassN(lines, m, from, to), from)
  }

  lemma {:induction false} FirstOver(lines: seq<string>, k: nat, n: nat, from: string, to: string) returns (r: nat)
    requires k <= n && Over(PassN(lines, n, from, to), from)
    requires forall m | 0 <= m < k :: !Over(PassN(lines, m, from, to), from)
    ensures IsCount(lines, r, from, to)
    decreases n - k
  {
    hide Over, PassN;
    if Over(PassN(lines, k, from, to), from) {
      r := k;
    } else {
      r := FirstOver(lines, k + 1, n, from, to);
    }
  }

  lemma {:induction false} CountExists(lines: seq<string>, from: string, to: string)
    requires Terminates(lines, from, to)
    ensures exists r: nat :: IsCount(lines, r, from, to)
  {
    hide Over, PassN;
    var n: nat :| Over(PassN(lines, n, from, to), from);
    var r := FirstOver(lines, 0, n, from, to);
  }

  /** How many passes there are. */
  ghost function PassCount(lines: seq<string>, from: string, to: string): (r: nat)
    requires Terminates(lines, from, to)
    ensures IsCount(lines, r, from, to)
  {
    CountExists(lines, from, to);
    var r: nat :| IsCount(lines, r, from, to);
    r
  }

  /** What the loop leaves. */
  ghost function Passes(lines: seq<string>, from: string, to: string): seq<string>
    requires Terminates(lines, from, to)
  {
    PassN(lines, PassCount(lines, from, to), from, to)
  }

  /** The loop, one turn at a time. */
  lemma {:induction false} PassesStep(lines: seq<string>, from: string, to: string)
    requires Terminates(lines, from, to)
    ensures Over(Passes(lines, from, to), from)
    ensures Over(lines, from) ==> Passes(lines, from, to) == lines
    ensures !Over(lines, from) ==>
              && Terminates(Pass(lines, from, to), from, to)
              && PassCount(Pass(lines, from, to), from, to) < PassCount(lines, from, to)
              && Passes(lines, from, to) == Passes(Pass(lines, from, to), from, to)
  {
    hide Over, Pass;
    var r := PassCount(lines, from, to);
    assert PassN(lines, 0, from, to) == lines;
    if !Over(lines, from) {
      var next := Pass(lines, from, to);
      assert PassN(next, r - 1, from, to) == PassN(lines, r, from, to);
      var q := PassCount(next, from, to);
      assert PassN(lines, q + 1, from, to) == PassN(next, q, from, to);
    }
  }

  // ---- a head other than the old name: the loop ends on any file

  function LineWeight(raw: string, from: string, to: string): nat {
    if ViewOf(raw).Skip? then 0 else BodyWeight(BodyOf(raw), from, to)
  }

  function Weight(lines: seq<string>, n: nat, from: string, to: string): nat
    requires n <= |lines|
  {
    if n == 0 then 0 else Weight(lines, n - 1, from, to) + LineWeight(lines[n - 1], from, to)
  }

  lemma {:induction false} RenameLighter(raw: string, from: string, to: string)
    requires ViewOf(raw).Text? && Owner(ViewOf(raw).outer) == Some(from) && from != ""
    requires IsBody(to) && to != from && Head(to) != from
    ensures LineWeight(RenameText(raw, from, to), from, to) < LineWeight(raw, from, to)
  {
    hide ViewOf, IsBody, IsTail, ParseBody, BodyOf, RenameText, NewBody, BodyWeight, Head, TrimStartLen;
    var u := RenameBody(raw, from, to);
    BodyLighter(BodyOf(raw), u, from, to);
  }

  lemma {:induction false} WeightUpdate(lines: seq<string>, i: nat, w: string, n: nat, from: string, to: string)
    requires i < |lines| && n <= |lines|
    ensures Weight(lines[i := w], n, from, to) + (if i < n then LineWeight(lines[i], from, to) else 0)
         == Weight(lines, n, from, to) + (if i < n then LineWeight(w, from, to) else 0)
  {
    hide LineWeight;
    if n > 0 {
      WeightUpdate(lines, i, w, n - 1, from, to);
    }
  }

  /** Read outside of blocks, the line names the package. */
  predicate NamesIt(raw: string, pkg: string) {
    ViewOf(raw).Text? && Owner(ViewOf(raw).outer) == Some(pkg)
  }

  lemma {:induction false} RenamesLighter(lines: seq<string>, idxs: seq<nat>, from: string, to: string)
    requires from != "" && IsBody(to) && to != from && Head(to) != from
    requires forall k | 0 <= k < |idxs| :: idxs[k] < |lines| && NamesIt(lines[idxs[k]], from)
    requires forall j, k | 0 <= j < k < |idxs| :: idxs[j] != idxs[k]
    ensures var next := RenameAt(lines, idxs, from, to);
            |next| == |lines| && Weight(next, |next|, from, to) + |idxs| <= Weight(lines, |lines|, from, to)
    decreases |idxs|
  {
    hide ViewOf, RenameText, LineWeight, IsBody, Head, Weight;
    if idxs != [] {
      var i := idxs[0];
      var w := RenameText(lines[i], from, to);
      var next := lines[i := w];
      RenameLighter(lines[i], from, to);
      WeightUpdate(lines, i, w, |lines|, from, to);
      assert forall k | 0 <= k < |idxs| - 1 :: idxs[1..][k] == idxs[k + 1] && next[idxs[k + 1]] == lines[idxs[k + 1]];
      RenamesLighter(next, idxs[1..], from, to);
    }
  }

  /** Every pass that has something to rename makes the file lighter, whatever it does to the blocks. */
  lemma {:induction false} PassLighter(lines: seq<string>, from: string, to: string)
    requires from != "" && IsBody(to) && to != from && Head(to) != from && !Over(lines, from)
    ensures var next := Pass(lines, from, to);
            |next| == |lines| && Weight(next, |next|, from, to) < Weight(lines, |lines|, from, to)
  {
    hide ScanTo, ViewOf, Weight, RenameAt, RenameIdxs, IsBody, Head, OutlineTo;
    PassIdxs(lines, from);
    RenamesLighter(lines, RenameIdxs(ScanOf(lines, from)), from, to);
  }

  lemma {:induction false} EndsNow(lines: seq<string>, from: string, to: string)
    ensures Over(lines, from) ==> Terminates(lines, from, to)
    ensures Terminates(Pass(lines, from, to), from, to) ==> Terminates(lines, from, to)
  {
    hide Over, Pass;
    assert PassN(lines, 0, from, to) == lines;
    if Terminates(Pass(lines, from, to), from, to) {
      var n: nat :| Over(PassN(Pass(lines, from, to), n, from, to), from);
      assert PassN(lines, n + 1, from, to) == PassN(Pass(lines, from, to), n, from, to);
    }
  }

  lemma {:induction false} EndsAnywhere(lines: seq<string>, from: string, to: string)
    requires from != "" && IsBody(to) && to != from && Head(to) != from
    ensures Terminates(lines, from, to)
    decreases Weight(lines, |lines|, from, to)
  {
    hide Over, Pass, Weight, IsBody, Head, Terminates;
    EndsNow(lines, from, to);
    if !Over(lines, from) {
      PassLighter(lines, from, to);
      EndsAnywhere(Pass(lines, from, to), from, to);
    }
  }

  // ---- a name that does not loop: the loop ends where no single-line rule is left

  predicate NoOuterSingles(lines: seq<string>, pkg: string) {
    forall i | 0 <= i < |lines| && Names(lines, i, pkg) :: !ViewOf(lines[i]).outer.Single?
  }

  lemma {:induction false} SteadyWhole(lines: seq<string>, from: string, to: string)
    requires from != "" && IsBody(to) && to != from && Head(to) == from && !Loops(from, to) && NoOuterSingles(lines, from)
    ensures Steady(lines, from, to)
  {
    hide ViewOf, RenameText, IsBody, Head, Loops, OutlineTo, Exchanged;
    forall i | 0 <= i < |lines| && Names(lines, i, from) ensures Exchangeable(lines[i], from, to) {
      SteadyLine(lines[i], from, to);
    }
  }

  lemma {:induction false} SteadyLine(raw: string, from: string, to: string)
    requires NamesIt(raw, from) && !ViewOf(raw).outer.Single?
    requires from != "" && IsBody(to) && to != from && Head(to) == from && !Loops(from, to)
    ensures Exchangeable(raw, from, to)
  {
    hide ViewOf, RenameText, IsBody, IsTail, ParseBody, BodyOf, NewBody, Head, Loops, Exchanged, TrimStartLen;
    var u := RenameBody(raw, from, to);
    BodySteady(BodyOf(raw), u, from, to);
  }

  lemma {:induction false} EndsSteady(lines: seq<string>, from: string, to: string)
    requires from != "" && Steady(lines, from, to)
    ensures Terminates(lines, from, to)
    decreases NamingLines(lines, |lines|, from)
  {
    hide Over, Pass, NamingLines, Terminates, Steady;
    EndsNow(lines, from, to);
    if !Over(lines, from) {
      OverIs(lines, from);
      PassShrinks(lines, from, to);
      EndsSteady(Pass(lines, from, to), from, to);
    }
  }

  lemma {:induction false} OverIs(lines: seq<string>, from: string)
    ensures Over(lines, from) <==> !AnyLine(ScanOf(lines, from))
  {
  }

  // ---- a line that comes back

  predicate SingleFor(raw: string, pkg: string) {
    ViewOf(raw).Text? && ViewOf(raw).outer.Single? && ViewOf(raw).outer.pkg == pkg
  }

  /** With the old name as the head of the new one, a renamed single-line rule still belongs to it. */
  lemma {:induction false} SingleAgain(raw: string, from: string, to: string)
    requires SingleFor(raw, from) && from != "" && IsBody(to) && Head(to) == from
    ensures SingleFor(RenameText(raw, from, to), from)
  {
    hide ViewOf, RenameText, IsBody, IsTail, ParseBody, BodyOf, Head, TrimStartLen;
    var u := RenameBody(raw, from, to);
    ReownSingle(BodyOf(raw), u, from, to);
  }

  lemma {:induction false} ThreadNamed(raw: string)
    requires ViewOf(raw).Text? && ViewOf(raw).outer.Single?
    ensures ViewOf(raw).outer.thread != ""
  {
    hide ViewOf, ParseBody, BodyOf;
    OuterOf(raw);
    var left, ob := SingleOf(BodyOf(raw));
  }

  /** A single-line rule outside of blocks is recorded. */
  lemma {:induction false} SingleSeen(lines: seq<string>, i: nat, n: nat, pkg: string)
    requires i < n <= |lines| && !OutlineTo(lines, i).inBlock && SingleFor(lines[i], pkg)
    ensures exists l | l in ScanTo(lines, n, pkg).t.threads :: l.single
    decreases n
  {
    hide ViewOf, StepInside, StepOutside, WaitingName, OutlineTo;
    ScanRecords(lines, n - 1, pkg);
    var s := ScanTo(lines, n - 1, pkg);
    if n == i + 1 {
      ThreadNamed(lines[i]);
      NotedHere(lines, i, s, pkg);
    } else {
      SingleSeen(lines, i, n - 1, pkg);
      StepKeepsThreads(lines, n - 1, s, pkg);
      var l :| l in s.t.threads && l.single;
      assert l in ScanTo(lines, n, pkg).t.threads;
    }
  }

  lemma {:induction false} NotedHere(lines: seq<string>, i: nat, s: State, pkg: string)
    requires i < |lines| && !s.inBlock && SingleFor(lines[i], pkg) && ViewOf(lines[i]).outer.thread != ""
    ensures exists l | l in Step(lines, s, i, pkg).t.threads :: l.single
  {
    hide ViewOf, WaitingName;
    var o := ViewOf(lines[i]).outer;
    var l := Loc(o.thread, i, true, false, o.open);
    assert l in s.t.threads + [l];
  }

  lemma {:induction false} StepKeepsThreads(lines: seq<string>, i: nat, s: State, pkg: string)
    requires i < |lines|
    ensures s.t.threads <= Step(lines, s, i, pkg).t.threads
    ensures s.t.pkgLine.Some? ==> Step(lines, s, i, pkg).t.pkgLine == s.t.pkgLine
  {
    hide ViewOf, WaitingName;
  }

  lemma {:induction false} NotOver(lines: seq<string>, i: nat, pkg: string)
    requires i < |lines| && !OutlineTo(lines, i).inBlock && SingleFor(lines[i], pkg)
    ensures !Over(lines, pkg)
  {
    hide ViewOf, ScanTo, OutlineTo;
    SingleSeen(lines, i, |lines|, pkg);
    var l :| l in ScanOf(lines, pkg).threads && l.single;
    PickedThere(ScanOf(lines, pkg).threads, l);
  }

  lemma {:induction false} PickedThere(locs: seq<Loc>, l: Loc)
    requires l in locs && l.single
    ensures Singles(locs) != []
    decreases |locs|
  {
    if locs[0] != l {
      PickedThere(locs[1..], l);
    }
  }

  lemma {:induction false} NoneRecorded(lines: seq<string>, pkg: string)
    requires Singles(ScanOf(lines, pkg).threads) == []
    ensures NoOuterSingles(lines, pkg)
  {
    hide ViewOf, ScanTo, OutlineTo;
    forall i | 0 <= i < |lines| && Names(lines, i, pkg) ensures !ViewOf(lines[i]).outer.Single? {
      if ViewOf(lines[i]).outer.Single? {
        SingleSeen(lines, i, |lines|, pkg);
        var l :| l in ScanOf(lines, pkg).threads && l.single;
        PickedThere(ScanOf(lines, pkg).threads, l);
      }
    }
  }

  /** On any file without single-line rules of the package the loop ends, unless the name loops. */
  lemma {:induction false} EndsUnlessLoops(lines: seq<string>, from: string, to: string)
    requires from != "" && IsBody(to) && to != from && !Loops(from, to)
    requires Singles(ScanOf(lines, from).threads) == []
    ensures Terminates(lines, from, to)
  {
    hide Terminates, IsBody, Head, Loops, NoOuterSingles, Steady, ScanTo;
    if Head(to) == from {
      NoneRecorded(lines, from);
      SteadyWhole(lines, from, to);
      EndsSteady(lines, from, to);
    } else {
      EndsAnywhere(lines, from, to);
    }
  }

  /** The first line is a single-line rule of the package: it is one after every pass. */
  predicate FirstBack(lines: seq<string>, pkg: string) {
    lines != [] && SingleFor(lines[0], pkg)
  }

  lemma {:induction false} FirstStays(lines: seq<string>, from: string, to: string)
    requires FirstBack(lines, from) && from != "" && IsBody(to) && Head(to) == from
    ensures FirstBack(Pass(lines, from, to), from) && !Over(lines, from)
  {
    hide ViewOf, Pass, IsBody, Head, RenameText, Over, ScanTo;
    PassAt(lines, from, to, 0);
    SingleAgain(lines[0], from, to);
    NotOver(lines, 0, from);
  }

  /** The third line is one, and the two lines before it do not hide it in a block. */
  predicate ThirdBack(lines: seq<string>, pkg: string) {
    && |lines| > 2 && SingleFor(lines[2], pkg)
    && !(ViewOf(lines[0]).Text? && ViewOf(lines[0]).outer.Pending?)
    && lines[1] == "{ # }"
  }

  lemma {:induction false} HashBrace()
    ensures ViewOf("{ # }") == View.Text(Noise(true), BareOpen(""))
  {
    hide ViewOf, Trim, CloseLike;
    var raw := "{ # }";
    EmptyTrim();
    TrimOfTrimmed(raw);
    assert MarkAt(raw, 2) && CommentStart(raw, 2);
    assert raw == "" + "{" + " # }";
    HashTail();
    BodyIs(raw, "", "{", " # }");
    LineShows(raw, "", "{", " # }");
    BraceIs();
    HashInner(raw);
    TextIs(raw);
  }

  lemma {:induction false} TextIs(raw: string)
    requires ViewOf(raw).Text?
    ensures ViewOf(raw) == View.Text(InnerView(Trim(raw)), ParseBody(BodyOf(raw)))
  {
    hide Trim, ParseBody, InnerView, StripComment;
  }

  lemma {:induction false} HashTail()
    ensures IsTail(" # }") && IsBody("{") && TrimStartLen(" # }") == 1
  {
    var t := " # }";
    assert t == " " + "# }";
    TrimStartUnique(" ", "# }");
  }

  lemma {:induction false} BraceIs()
    ensures ParseBody("{") == BareOpen("") && SplitBody("{").None?
  {
    assert OpenBody("{") == (true, "");
    assert RFind("", '=').None? && RFind("{", '=').None?;
    assert ClosingBrace("{", 0).None?;
  }

  lemma {:induction false} HashInner(raw: string)
    requires raw == "{ # }" && Trim(raw) == raw && BodyOf(raw) == "{" && SplitBody("{").None?
    ensures InnerView(Trim(raw)) == Noise(true)
  {
    hide Trim, SplitBody, StripComment;
    assert raw[4] == '}';
  }

  /** Behind such lines no block is open. */
  lemma {:induction false} NoBlock(lines: seq<string>, pkg: string)
    requires ThirdBack(lines, pkg)
    ensures !OutlineTo(lines, 2).inBlock
  {
    hide ViewOf;
    HashBrace();
    var o := OutlineTo(lines, 0);
    assert OutlineTo(lines, 1) == NextOutline(o, ViewOf(lines[0]));
    assert OutlineTo(lines, 2) == NextOutline(OutlineTo(lines, 1), ViewOf(lines[1]));
  }

  /** A line that names the package and does not wait for its brace does not come to wait. */
  lemma {:induction false} NotWaiting(raw: string, from: string, to: string)
    requires NamesIt(raw, from) && !ViewOf(raw).outer.Pending? && from != "" && IsBody(to) && Head(to) == from
    ensures var w := ViewOf(RenameText(raw, from, to)); w.Text? ==> !w.outer.Pending?
  {
    hide ViewOf, RenameText, IsBody, IsTail, ParseBody, BodyOf, Head, TrimStartLen, NewBody, ParseContent, HasEq, SplitTarget, CloseLike;
    var u := RenameBody(raw, from, to);
    var b := BodyOf(raw);
    if ParseBody(b).Single? {
      SingleAgain(raw, from, to);
    } else if HasEq(b, from) {
      var gap := ReownEq(b, u, from, to);
    } else {
      OnlyBare(b, from);
      ReownBare(b, u, from, to);
      NeverWaits(to);
      NeverWaits(to + "=");
    }
  }

  lemma {:induction false} OnlyBare(b: string, from: string)
    requires IsBody(b) && NamedBy(ParseBody(b)) == Some(from) && from != "" && !HasEq(b, from) && !ParseBody(b).Pending?
    ensures ParseBody(b) == BareOpen(from)
  {
    hide IsBody, ParseBody, HasEq;
    var g := BareKind(b, from);
  }

  lemma {:induction false} NeverWaits(s: string)
    ensures !ParseContent(true, s).Pending?
  {
    hide Trim, SplitSingle;
  }

  lemma {:induction false} ThirdStays(lines: seq<string>, from: string, to: string)
    requires ThirdBack(lines, from) && from != "" && IsBody(to) && Head(to) == from
    ensures ThirdBack(Pass(lines, from, to), from) && !Over(lines, from)
  {
    hide ViewOf, Pass, IsBody, Head, RenameText, Over, ScanTo, OutlineTo, NextOutline;
    HashBrace();
    PassAt(lines, from, to, 0);
    PassAt(lines, from, to, 1);
    PassAt(lines, from, to, 2);
    SingleAgain(lines[2], from, to);
    if NamesIt(lines[0], from) {
      NotWaiting(lines[0], from, to);
    }
    NoBlock(lines, from);
    NotOver(lines, 2, from);
  }

  predicate Back(lines: seq<string>, pkg: string) {
    FirstBack(lines, pkg) || ThirdBack(lines, pkg)
  }

  lemma {:induction false} BackForever(lines: seq<string>, from: string, to: string, n: nat)
    requires Back(lines, from) && from != "" && IsBody(to) && Head(to) == from
    ensures !Over(PassN(lines, n, from, to), from)
    decreases n
  {
    hide Pass, IsBody, Head, Over, FirstBack, ThirdBack;
    if FirstBack(lines, from) {
      FirstStays(lines, from, to);
    } else {
      ThirdStays(lines, from, to);
    }
    if n > 0 {
      BackForever(Pass(lines, from, to), from, to, n - 1);
    }
  }

  /** A line that comes back after the first pass comes back for ever. */
  lemma {:induction false} NeverEnds(lines: seq<string>, from: string, to: string)
    requires Back(lines, from) || (!Over(lines, from) && Back(Pass(lines, from, to), from))
    requires from != "" && IsBody(to) && Head(to) == from
    ensures !Terminates(lines, from, to)
  {
    hide Pass, IsBody, Head, Over, Back;
    forall n: nat ensures !Over(PassN(lines, n, from, to), from) {
      if Back(lines, from) {
        BackForever(lines, from, to, n);
      } else if n > 0 {
        BackForever(Pass(lines, from, to), from, to, n - 1);
      }
    }
  }
}
