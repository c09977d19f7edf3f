/**
 * Moving a package's single-line rules into one block. `Normalized` is the edit itself,
 * position by position as the editor performs it.
 */
module Normalize {
  import opened Seqs
  import opened Text
  import opened RuleSyntax
  import opened Loader
  import opened Scan
  import opened ScanSim
  import opened Prune

  /** The in-block line printed for a single-line rule, its comment kept. */
  function ItemOf(line: string): Option<string> {
    var p := Trim(line);
    match SplitSingle(OpenBody(StripComment(p)).1)
    case None => None
    case Some(s) => Some(WithComment(EntryLine(s.1, s.2), p))
  }

  function Items(lines: seq<string>, locs: seq<Loc>): seq<string> {
    if locs == [] then []
    else
      (if locs[0].idx < |lines| && ItemOf(lines[locs[0].idx]).Some?
       then [ItemOf(lines[locs[0].idx]).value] else [])
      + Items(lines, locs[1..])
  }

  predicate AnyOpen(locs: seq<Loc>) {
    exists k | 0 <= k < |locs| :: locs[k].open
  }

  /** The block the rules would go into is not closed: leave the file alone. */
  predicate Gives(t: Target, singles: seq<Loc>) {
    && t.blockClose.None?
    && (AnyOpen(singles) || !(t.pkgLine.None? || t.pkgLine.value.Standalone?))
  }

  /** The file without the single-line rules of `pkg`. */
  function Cut(lines: seq<string>, pkg: string): seq<string> {
    RemoveAll(lines, pkg, Singles(ScanOf(lines, pkg).threads))
  }

  function Inserted(cut: seq<string>, t: Target, pkg: string, items: seq<string>, at: nat): seq<string> {
    match t.blockClose
    case Some(close) => if close <= |cut| then cut[..close] + items + cut[close..] else cut
    case None =>
      if t.pkgLine.Some? && t.pkgLine.value.Standalone? && t.pkgLine.value.idx < |cut| then
        var i := t.pkgLine.value.idx;
        cut[..i] + ([TrimEnd(cut[i]) + " {"] + items + ["}"]) + cut[i + 1..]
      else
        var a := if at < |cut| then at else |cut|;
        cut[..a] + ([BareOpenLine(pkg)] + items + ["}"]) + cut[a..]
  }

  function Normalized(lines: seq<string>, pkg: string): seq<string> {
    var t := ScanOf(lines, pkg);
    var singles := Singles(t.threads);
    var items := Items(lines, singles);
    if items == [] || Gives(t, singles) then lines
    else Inserted(Cut(lines, pkg), ScanOf(Cut(lines, pkg), pkg), pkg, items, singles[0].idx)
  }

  // ---- the printed rules, line by line

  function ItemsOf(c: Ctl, lines: seq<string>, pkg: string): seq<string>
    decreases |lines|
  {
    if lines == [] then []
    else
      var v := ViewOf(lines[0]);
      (if Pick(LocOf(c, v, 0, pkg), SinglesOnly) != [] && ItemOf(lines[0]).Some?
       then [ItemOf(lines[0]).value] else [])
      + ItemsOf(Next(c, v), lines[1..], pkg)
  }

  lemma {:induction false} ItemsConcat(lines: seq<string>, a: seq<Loc>, b: seq<Loc>)
    ensures Items(lines, a + b) == Items(lines, a) + Items(lines, b)
    decreases |a|
  {
    hide ItemOf;
    if a == [] {
      NilLeft(b);
      NilLeft(Items(lines, b));
    } else {
      ConsDrop(a, b);
      ItemsConcat(lines, a[1..], b);
      Assoc3(if a[0].idx < |lines| && ItemOf(lines[a[0].idx]).Some? then [ItemOf(lines[a[0].idx]).value] else [],
             Items(lines, a[1..]), Items(lines, b));
    }
  }

  lemma {:induction false} ItemsAre(a: seq<string>, c: Ctl, rest: seq<string>, pkg: string)
    ensures Items(a + rest, Pick(LocsOf(c, rest, |a|, pkg), SinglesOnly)) == ItemsOf(c, rest, pkg)
    decreases |rest|
  {
    if rest == [] {
      return;
    } else {
      hide ViewOf, Next, LocOf, ItemOf, Picked, Items, Pick;
      var v := ViewOf(rest[0]);
      var l0, l1 := LocOf(c, v, |a|, pkg), LocsOf(Next(c, v), rest[1..], |a| + 1, pkg);
      PickConcat(l0, l1, SinglesOnly);
      ItemsConcat(a + rest, Pick(l0, SinglesOnly), Pick(l1, SinglesOnly));
      ItemsAre(a + [rest[0]], Next(c, v), rest[1..], pkg);
      Uncons(rest);
      Assoc3(a, [rest[0]], rest[1..]);
      LineOnly(c, rest[0], |a|, pkg, SinglesOnly);
      ItemHere(a + rest, Pick(l0, SinglesOnly), |a|);
    }
  }

  lemma {:induction false} ItemHere(lines: seq<string>, here: seq<Loc>, i: nat)
    requires |here| <= 1 && i < |lines| && (here != [] ==> here[0].idx == i)
    ensures Items(lines, here)
         == if here != [] && ItemOf(lines[i]).Some? then [ItemOf(lines[i]).value] else []
  {
    hide ItemOf;
    if here != [] {
      assert here[1..] == [];
    }
  }
}
