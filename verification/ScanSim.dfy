/** The editor's scan simulates the loader. */
module ScanSim {
  import opened Seqs
  import opened Text
  import opened RuleSyntax
  import opened Loader
  import opened Scan

  /** The loader's state before line `n`. */
  function At(lines: seq<string>, n: nat): Ctl
    requires n <= |lines|
  {
    Walk(Start, lines[..n])
  }

  /** No line fails on its own account. */
  predicate Calm(lines: seq<string>) {
    SlipCount(Start, lines) == 0
  }

  /** No outer line is a bare `=`. */
  predicate NoBareEq(lines: seq<string>) {
    forall i | 0 <= i < |lines| && !At(lines, i).inBlock && ViewOf(lines[i]).Text? ::
      ViewOf(lines[i]).outer != Pending("")
  }

  /** The line is no bare `=`. */
  predicate NoEq(line: string) {
    ViewOf(line).Text? ==> ViewOf(line).outer != Pending("")
  }

  /** No line of the file is a bare `=`, inside of blocks or outside. */
  predicate NoEqLine(lines: seq<string>) {
    forall l | l in lines :: NoEq(l)
  }

  lemma {:induction false} NoEqBare(lines: seq<string>)
    requires NoEqLine(lines)
    ensures NoBareEq(lines)
  {
    hide ViewOf;
    forall i | 0 <= i < |lines| ensures NoEq(lines[i]) {
      assert lines[i] in lines;
    }
  }

  /** Where the loader attempts a thread rule for `pkg`. */
  function LocOf(c: Ctl, v: View, i: nat, pkg: string): seq<Loc> {
    if v.Skip? then []
    else if c.inBlock then
      if v.inner.Entry? && c.cur == pkg && v.inner.name != ""
      then [Loc(v.inner.name, i, false, v.inner.closed, false)] else []
    else if v.outer.Single? && v.outer.pkg == pkg && v.outer.thread != ""
    then [Loc(v.outer.thread, i, true, false, v.outer.open)]
    else []
  }

  function LocsOf(c: Ctl, lines: seq<string>, base: nat, pkg: string): seq<Loc>
    decreases |lines|
  {
    if lines == [] then []
    else
      var v := ViewOf(lines[0]);
      LocOf(c, v, base, pkg) + LocsOf(Next(c, v), lines[1..], base + 1, pkg)
  }

  lemma {:induction false} LocsConcat(c: Ctl, a: seq<string>, b: seq<string>, base: nat, pkg: string)
    ensures LocsOf(c, a + b, base, pkg)
         == LocsOf(c, a, base, pkg) + LocsOf(Walk(c, a), b, base + |a|, pkg)
    decreases |a|
  {
    hide ViewOf, Next, LocOf;
    if a == [] {
      NilLeft(b);
    } else {
      ConsDrop(a, b);
      LocsConcat(Next(c, ViewOf(a[0])), a[1..], b, base + 1, pkg);
    }
  }

  lemma {:induction false} LocsSnoc(lines: seq<string>, n: nat, pkg: string)
    requires n < |lines|
    ensures LocsOf(Start, lines[..n + 1], 0, pkg)
         == LocsOf(Start, lines[..n], 0, pkg) + LocOf(At(lines, n), ViewOf(lines[n]), n, pkg)
  {
    hide ViewOf, Next, LocOf;
    var b := [lines[n]];
    assert lines[..n + 1] == lines[..n] + b;
    LocsConcat(Start, lines[..n], b, 0, pkg);
    assert b[1..] == [];
    assert LocsOf(At(lines, n), b, n, pkg) == LocOf(At(lines, n), ViewOf(lines[n]), n, pkg) + [];
  }

  lemma {:induction false} AtNext(lines: seq<string>, n: nat)
    requires n < |lines|
    ensures At(lines, n + 1) == Next(At(lines, n), ViewOf(lines[n]))
  {
    hide ViewOf, Next;
    var b := [lines[n]];
    assert lines[..n + 1] == lines[..n] + b;
    WalkConcat(Start, lines[..n], b);
    assert b[1..] == [];
  }

  lemma {:induction false} CalmAt(lines: seq<string>, n: nat)
    requires n < |lines| && Calm(lines)
    ensures !Slips(At(lines, n), ViewOf(lines[n]))
  {
    hide ViewOf, Next, Slips;
    var a, b := lines[..n], lines[n..];
    assert lines == a + b;
    SlipsConcat(Start, a, b);
  }

  /** A waiting name means the same to both machines. */
  predicate PendingSim(lines: seq<string>, n: nat, c: Ctl, s: State) {
    match s.pending
    case None => c.pending == ""
    case Some(p) =>
      && p < n <= |lines| && !At(lines, p).inBlock && ViewOf(lines[p]).Text?
      && ViewOf(lines[p]).outer == Pending(c.pending)
  }

  predicate Sim(lines: seq<string>, n: nat, c: Ctl, s: State, pkg: string) {
    && s.inBlock == c.inBlock
    && (s.target <==> c.inBlock && c.cur == pkg)
    && PendingSim(lines, n, c, s)
  }

  /** A `{` on its own after a bare `=`: the one place where the two machines part. */
  predicate Orphan(c: Ctl, v: View, s: State) {
    v.Text? && !c.inBlock && v.outer == BareOpen("") && c.pending == "" && s.pending.Some?
  }

  lemma {:induction false} SimStep(lines: seq<string>, n: nat, c: Ctl, s: State, pkg: string)
    requires n < |lines| && c == At(lines, n) && Sim(lines, n, c, s, pkg) && pkg != ""
    requires !Orphan(c, ViewOf(lines[n]), s)
    ensures Sim(lines, n + 1, Next(c, ViewOf(lines[n])), Step(lines, s, n, pkg), pkg)
    ensures Step(lines, s, n, pkg).t.threads == s.t.threads + LocOf(c, ViewOf(lines[n]), n, pkg)
  {
    hide ViewOf, Walk, StepInside, StepOutside, LocOf, Next;
    var v := ViewOf(lines[n]);
    if v.Text? {
      if c.inBlock {
        SimInside(lines, n, c, s, pkg);
      } else {
        SimOutside(lines, n, c, s, pkg);
      }
    } else {
      SimSkip(c, v, n, pkg);
    }
  }

  lemma {:induction false} SimSkip(c: Ctl, v: View, n: nat, pkg: string)
    requires v.Skip?
    ensures Next(c, v) == c && LocOf(c, v, n, pkg) == []
  {
  }

  lemma {:induction false} SimInside(lines: seq<string>, n: nat, c: Ctl, s: State, pkg: string)
    requires n < |lines| && Sim(lines, n, c, s, pkg) && c.inBlock && ViewOf(lines[n]).Text?
    ensures Sim(lines, n + 1, Next(c, ViewOf(lines[n])), StepInside(s, ViewOf(lines[n]).inner, n), pkg)
    ensures StepInside(s, ViewOf(lines[n]).inner, n).t.threads == s.t.threads + LocOf(c, ViewOf(lines[n]), n, pkg)
  {
    hide ViewOf, Walk;
  }

  lemma {:induction false} SimOutside(lines: seq<string>, n: nat, c: Ctl, s: State, pkg: string)
    requires n < |lines| && c == At(lines, n) && Sim(lines, n, c, s, pkg) && pkg != ""
    requires !c.inBlock && ViewOf(lines[n]).Text? && !Orphan(c, ViewOf(lines[n]), s)
    ensures var v := ViewOf(lines[n]); var s' := StepOutside(s, v.outer, WaitingName(lines, s.pending), n, pkg);
            && Sim(lines, n + 1, Next(c, v), s', pkg)
            && s'.t.threads == s.t.threads + LocOf(c, v, n, pkg)
  {
    hide ViewOf, Walk;
  }

  /**
   * The editor's scan agrees with the loader after every line: the same block state, the
   * target block exactly when the loader is in one of the package's blocks, and thread
   * positions exactly where the loader attempts a thread rule for the package.
   */
  lemma {:induction false} ScanSimulates(lines: seq<string>, n: nat, pkg: string)
    requires n <= |lines| && pkg != ""
    requires NoBareEq(lines) || Calm(lines)
    ensures Sim(lines, n, At(lines, n), ScanTo(lines, n, pkg), pkg)
    ensures ScanTo(lines, n, pkg).t.threads == LocsOf(Start, lines[..n], 0, pkg)
  {
    hide ViewOf, Next, Slips, Step, LocOf;
    if n > 0 {
      ScanSimulates(lines, n - 1, pkg);
      var c, s, v := At(lines, n - 1), ScanTo(lines, n - 1, pkg), ViewOf(lines[n - 1]);
      NoOrphan(lines, n - 1, s, pkg);
      SimStep(lines, n - 1, c, s, pkg);
      AtNext(lines, n - 1);
      LocsSnoc(lines, n - 1, pkg);
    }
  }

  lemma {:induction false} NoOrphan(lines: seq<string>, n: nat, s: State, pkg: string)
    requires n < |lines| && Sim(lines, n, At(lines, n), s, pkg)
    requires NoBareEq(lines) || Calm(lines)
    ensures !Orphan(At(lines, n), ViewOf(lines[n]), s)
  {
    hide ViewOf, Next;
    if Calm(lines) {
      CalmAt(lines, n);
    }
  }
}
