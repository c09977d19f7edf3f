/** Deleting a whole package, round by round until the scan sees no line of it. */
module DeletePkg {
  import opened Seqs
  import opened Text
  import opened Scan
  import opened ScanRange
  import opened Normalize
  import opened Upsert

  /** The last recorded in-block rule, or `best`. */
  function LastInside(locs: seq<Loc>, best: nat): nat {
    if locs == [] then best
    else LastInside(locs[1..], if !locs[0].single && locs[0].idx > best then locs[0].idx else best)
  }

  function BlockEnd(t: Target, open: nat): nat {
    match t.blockClose
    case Some(close) => close
    case None => LastInside(t.threads, open)
  }

  /** Whether a round removes position `i`. */
  predicate Doomed(t: Target, i: nat) {
    || (t.pkgLine.Some? && i == t.pkgLine.value.idx)
    || (t.blockOpen.Some? && t.blockOpen.value <= i <= BlockEnd(t, t.blockOpen.value))
    || (exists l | l in Singles(t.threads) :: l.idx == i)
  }

  /** The lines whose positions are not doomed. */
  function Without(lines: seq<string>, base: nat, t: Target): seq<string> {
    if lines == [] then []
    else (if Doomed(t, base) then [] else [lines[0]]) + Without(lines[1..], base + 1, t)
  }

  function Round(lines: seq<string>, pkg: string): seq<string> {
    Without(lines, 0, ScanOf(lines, pkg))
  }

  lemma {:induction false} WithoutShorter(lines: seq<string>, base: nat, t: Target)
    ensures |Without(lines, base, t)| <= |lines|
    decreases |lines|
  {
    hide Doomed;
    if lines != [] {
      WithoutShorter(lines[1..], base + 1, t);
    }
  }

  lemma {:induction false} WithoutOne(lines: seq<string>, base: nat, t: Target, i: nat)
    requires base <= i < base + |lines| && Doomed(t, i)
    ensures |Without(lines, base, t)| < |lines|
    decreases |lines|
  {
    hide Doomed;
    WithoutShorter(lines[1..], base + 1, t);
    if i != base {
      WithoutOne(lines[1..], base + 1, t, i);
    }
  }

  /** Every position a round removes is in the file, and there is one: on any file. */
  lemma {:induction false} DoomedInRange(lines: seq<string>, pkg: string)
    ensures forall i: nat :: Doomed(ScanOf(lines, pkg), i) ==> i < |lines|
    ensures AnyLine(ScanOf(lines, pkg)) ==> exists i: nat :: Doomed(ScanOf(lines, pkg), i)
  {
    hide Step, ScanTo, Pick;
    ScanInRange(lines, |lines|, pkg);
    var t := ScanOf(lines, pkg);
    PickBelow(t.threads, SinglesOnly, |lines|);
    if t.blockOpen.Some? {
      LastInsideBelow(t.threads, t.blockOpen.value, |lines|);
    }
    if t.pkgLine.Some? {
      assert Doomed(t, t.pkgLine.value.idx);
    } else if Singles(t.threads) != [] {
      assert Singles(t.threads)[0] in Singles(t.threads);
      assert Doomed(t, Singles(t.threads)[0].idx);
    }
  }

  lemma {:induction false} LastInsideBelow(locs: seq<Loc>, best: nat, n: nat)
    requires best < n && LocsBelow(locs, n)
    ensures LastInside(locs, best) < n
    decreases |locs|
  {
    if locs != [] {
      LocsBelowTail(locs, n);
      LastInsideBelow(locs[1..], if !locs[0].single && locs[0].idx > best then locs[0].idx else best, n);
    }
  }

  /** Every round strictly shrinks the file, whatever the file holds. */
  lemma {:induction false} RoundShrinks(lines: seq<string>, pkg: string)
    requires AnyLine(ScanOf(lines, pkg))
    ensures |Round(lines, pkg)| < |lines|
  {
    hide ScanTo, Doomed;
    DoomedInRange(lines, pkg);
    var i :| Doomed(ScanOf(lines, pkg), i);
    WithoutOne(lines, 0, ScanOf(lines, pkg), i);
  }

  function Rounds(lines: seq<string>, pkg: string): (r: seq<string>)
    ensures !AnyLine(ScanOf(r, pkg))
    decreases |lines|
  {
    if AnyLine(ScanOf(lines, pkg)) then
      RoundShrinks(lines, pkg);
      Rounds(Round(lines, pkg), pkg)
    else lines
  }

  function DeletedPkg(lines: seq<string>, pkg: string): RuleEdit {
    var n := Normalized(lines, pkg);
    if AnyLine(ScanOf(n, pkg)) then Ok(Rounds(n, pkg)) else NotFound
  }

  // ---- removing positions, piece by piece

  lemma {:induction false} WithoutConcat(a: seq<string>, b: seq<string>, base: nat, t: Target)
    ensures Without(a + b, base, t) == Without(a, base, t) + Without(b, base + |a|, t)
    decreases |a|
  {
    hide Doomed;
    if a == [] {
      NilLeft(b);
    } else {
      ConsDrop(a, b);
      WithoutConcat(a[1..], b, base + 1, t);
      Assoc3(if Doomed(t, base) then [] else [a[0]], Without(a[1..], base + 1, t), Without(b, base + |a|, t));
    }
  }

  lemma {:induction false} WithoutNone(a: seq<string>, base: nat, t: Target)
    requires forall i | base <= i < base + |a| :: !Doomed(t, i)
    ensures Without(a, base, t) == a
    decreases |a|
  {
    hide Doomed;
    if a != [] {
      WithoutNone(a[1..], base + 1, t);
      Uncons(a);
    }
  }

  lemma {:induction false} WithoutAll(a: seq<string>, base: nat, t: Target)
    requires forall i | base <= i < base + |a| :: Doomed(t, i)
    ensures Without(a, base, t) == []
    decreases |a|
  {
    hide Doomed;
    if a != [] {
      WithoutAll(a[1..], base + 1, t);
    }
  }

  /** One stretch of lines goes. */
  lemma {:induction false} WithoutRange(lines: seq<string>, lo: nat, hi: nat, t: Target)
    requires lo <= hi <= |lines| && forall i | 0 <= i < |lines| :: Doomed(t, i) <==> lo <= i < hi
    ensures Without(lines, 0, t) == lines[..lo] + lines[hi..]
  {
    hide Doomed;
    hide Without;
    SplitAt(lines, lo);
    WithoutConcat(lines[..lo], lines[lo..], 0, t);
    WithoutNone(lines[..lo], 0, t);
    WithoutTail(lines, lo, hi, t);
  }

  /** One line and, further on, a stretch of lines go. */
  lemma {:induction false} WithoutTwo(lines: seq<string>, i: nat, lo: nat, hi: nat, t: Target)
    requires i < lo <= hi <= |lines| && forall k | 0 <= k < |lines| :: Doomed(t, k) <==> k == i || lo <= k < hi
    ensures Without(lines, 0, t) == lines[..i] + lines[i + 1..lo] + lines[hi..]
  {
    hide Doomed;
    hide Without;
    var a, m, b := lines[..i + 1], lines[i + 1..lo], lines[lo..];
    assert lines == a + (m + b);
    WithoutConcat(a, m + b, 0, t);
    WithoutConcat(m, b, i + 1, t);
    WithoutNone(m, i + 1, t);
    WithoutHead(lines, i, t);
    WithoutTail(lines, lo, hi, t);
    Assoc3(lines[..i], m, lines[hi..]);
  }

  lemma {:induction false} WithoutHead(lines: seq<string>, i: nat, t: Target)
    requires i < |lines| && forall k | 0 <= k <= i :: Doomed(t, k) <==> k == i
    ensures Without(lines[..i + 1], 0, t) == lines[..i]
  {
    hide Doomed;
    hide Without;
    var a := lines[..i + 1];
    SplitAround(lines, i);
    WithoutConcat(lines[..i], [lines[i]], 0, t);
    WithoutNone(lines[..i], 0, t);
    WithoutAll([lines[i]], i, t);
    NilLeft(lines[..i]);
  }

  lemma {:induction false} WithoutTail(lines: seq<string>, lo: nat, hi: nat, t: Target)
    requires lo <= hi <= |lines| && forall k | lo <= k < |lines| :: Doomed(t, k) <==> k < hi
    ensures Without(lines[lo..], lo, t) == lines[hi..]
  {
    hide Doomed;
    hide Without;
    var m, b := lines[lo..hi], lines[hi..];
    assert lines[lo..] == m + b;
    WithoutConcat(m, b, lo, t);
    WithoutAll(m, lo, t);
    WithoutNone(b, hi, t);
    NilLeft(b);
  }
}
