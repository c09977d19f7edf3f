/** Recorded positions lie inside the file, whatever the file holds. */
module ScanRange {
  import opened Text
  import opened RuleSyntax
  import opened Scan

  /** Thread positions increase strictly and stay below `n`. */
  predicate LocsBelow(locs: seq<Loc>, n: nat) {
    && (forall k | 0 <= k < |locs| :: locs[k].idx < n)
    && (forall j, k | 0 <= j < k < |locs| :: locs[j].idx < locs[k].idx)
  }

  predicate InRange(t: Target, n: nat) {
    && (t.pkgLine.Some? ==> t.pkgLine.value.idx < n)
    && (t.blockOpen.Some? ==> t.blockOpen.value < n)
    && (t.blockClose.Some? ==> t.blockClose.value < n && t.blockOpen.Some? && t.blockOpen.value < t.blockClose.value)
    && LocsBelow(t.threads, n)
  }

  predicate StateInRange(s: State, n: nat) {
    && InRange(s.t, n)
    && (s.pending.Some? ==> s.pending.value < n)
    && (s.target ==> s.inBlock && s.t.blockOpen.Some?)
  }

  lemma {:induction false} LocsBelowSnoc(locs: seq<Loc>, n: nat, more: seq<Loc>)
    requires LocsBelow(locs, n) && |more| <= 1 && (more != [] ==> more[0].idx == n)
    ensures LocsBelow(locs + more, n + 1)
  {
    var all := locs + more;
    assert forall k | 0 <= k < |all| :: all[k] == if k < |locs| then locs[k] else more[0];
  }

  lemma {:induction false} StepRange(lines: seq<string>, s: State, n: nat, pkg: string)
    requires n < |lines| && StateInRange(s, n)
    ensures StateInRange(Step(lines, s, n, pkg), n + 1)
  {
    hide ViewOf, LocsBelow, WaitingName;
    LocsBelowSnoc(s.t.threads, n, []);
    assert s.t.threads + [] == s.t.threads;
    var v := ViewOf(lines[n]);
    if v.Text? {
      if s.inBlock {
        if v.inner.Entry? {
          LocsBelowSnoc(s.t.threads, n, [Loc(v.inner.name, n, false, v.inner.closed, false)]);
        }
      } else if v.outer.Single? {
        LocsBelowSnoc(s.t.threads, n, [Loc(v.outer.thread, n, true, false, v.outer.open)]);
      }
    }
  }

  lemma {:induction false} ScanInRange(lines: seq<string>, n: nat, pkg: string)
    requires n <= |lines|
    ensures StateInRange(ScanTo(lines, n, pkg), n)
  {
    hide Step, LocsBelow;
    if n > 0 {
      ScanInRange(lines, n - 1, pkg);
      StepRange(lines, ScanTo(lines, n - 1, pkg), n - 1, pkg);
    } else {
      NoLocsBelow(0);
    }
  }

  lemma {:induction false} NoLocsBelow(n: nat)
    ensures LocsBelow([], n)
  {
  }

  lemma {:induction false} LocsBelowTail(locs: seq<Loc>, n: nat)
    requires LocsBelow(locs, n) && locs != []
    ensures LocsBelow(locs[1..], n) && locs[0].idx < n
    ensures locs[1..] != [] ==> locs[0].idx < locs[1..][0].idx
  {
    assert forall k | 0 <= k < |locs| - 1 :: locs[1..][k] == locs[k + 1];
  }

  /** Prepending a smaller position. */
  lemma {:induction false} LocsBelowCons(l: Loc, locs: seq<Loc>, n: nat)
    requires LocsBelow(locs, n) && l.idx < n && (locs != [] ==> l.idx < locs[0].idx)
    ensures LocsBelow([l] + locs, n)
  {
    var all := [l] + locs;
    assert forall k | 0 < k < |all| :: all[k] == locs[k - 1];
  }

  lemma {:induction false} PickBelow(locs: seq<Loc>, sel: Sel, n: nat)
    requires LocsBelow(locs, n)
    ensures LocsBelow(Pick(locs, sel), n)
    ensures Pick(locs, sel) != [] ==> locs != [] && locs[0].idx <= Pick(locs, sel)[0].idx
    decreases |locs|
  {
    hide LocsBelow, Picked;
    if locs == [] {
      NoLocsBelow(n);
    } else {
      LocsBelowTail(locs, n);
      PickBelow(locs[1..], sel, n);
      var rest := Pick(locs[1..], sel);
      assert Pick(locs, sel) == (if Picked(sel, locs[0]) then [locs[0]] else []) + rest;
      if Picked(sel, locs[0]) { LocsBelowCons(locs[0], rest, n); } else { assert Pick(locs, sel) == rest; }
    }
  }
}
