/**
 * Removing recorded thread rules. The editor removes them one by one from the last position
 * to the first; the result is the file pruned line by line from the front.
 */
module Prune {
  import opened Seqs
  import opened RuleSyntax
  import opened Loader
  import opened Scan
  import opened ScanSim

  /** What remains of the line of one removed rule. */
  function LineWithout(line: string, pkg: string, loc: Loc): seq<string> {
    if loc.open then [WithComment(BareOpenLine(pkg), line)]
    else if loc.closed then [WithComment("}", line)]
    else []
  }

  function RemoveAt(lines: seq<string>, pkg: string, loc: Loc): seq<string> {
    if loc.idx < |lines|
    then lines[..loc.idx] + LineWithout(lines[loc.idx], pkg, loc) + lines[loc.idx + 1..]
    else lines
  }

  /** From the last position to the first. */
  function RemoveAll(lines: seq<string>, pkg: string, locs: seq<Loc>): seq<string>
    decreases |locs|
  {
    if locs == [] then lines
    else RemoveAll(RemoveAt(lines, pkg, locs[|locs| - 1]), pkg, locs[..|locs| - 1])
  }

  function PruneLine(c: Ctl, line: string, pkg: string, sel: Sel): seq<string> {
    var locs := Pick(LocOf(c, ViewOf(line), 0, pkg), sel);
    if locs == [] then [line] else LineWithout(line, pkg, locs[0])
  }

  function Pruned(c: Ctl, lines: seq<string>, pkg: string, sel: Sel): seq<string>
    decreases |lines|
  {
    if lines == [] then []
    else PruneLine(c, lines[0], pkg, sel) + Pruned(Next(c, ViewOf(lines[0])), lines[1..], pkg, sel)
  }

  lemma {:induction false} RemoveAllConcat(lines: seq<string>, pkg: string, a: seq<Loc>, b: seq<Loc>)
    ensures RemoveAll(lines, pkg, a + b) == RemoveAll(RemoveAll(lines, pkg, b), pkg, a)
    decreases |b|
  {
    hide RemoveAt;
    if b == [] {
      assert a + b == a;
    } else {
      var l := b[|b| - 1];
      var init := b[..|b| - 1];
      assert (a + b)[|a + b| - 1] == l && (a + b)[..|a + b| - 1] == a + init;
      RemoveAllConcat(RemoveAt(lines, pkg, l), pkg, a, init);
    }
  }

  lemma {:induction false} PickConcat(a: seq<Loc>, b: seq<Loc>, sel: Sel)
    ensures Pick(a + b, sel) == Pick(a, sel) + Pick(b, sel)
    decreases |a|
  {
    hide Picked;
    if a == [] {
      NilLeft(b);
    } else {
      ConsDrop(a, b);
      PickConcat(a[1..], b, sel);
    }
  }

  lemma {:induction false} PickOne(l: Loc, sel: Sel)
    ensures Pick([l], sel) == if Picked(sel, l) then [l] else []
  {
    assert [l][1..] == [];
  }

  /** The position of a record does not decide what becomes of its line. */
  lemma {:induction false} LineOnly(c: Ctl, line: string, i: nat, pkg: string, sel: Sel)
    ensures var here, zero := Pick(LocOf(c, ViewOf(line), i, pkg), sel), Pick(LocOf(c, ViewOf(line), 0, pkg), sel);
            && |here| <= 1 && (here == [] <==> zero == [])
            && (here != [] ==> here[0].idx == i && LineWithout(line, pkg, here[0]) == LineWithout(line, pkg, zero[0]))
  {
    hide ViewOf, WithComment, BareOpenLine;
  }

  /** Backward removal is forward pruning; lines after the pruned ones are not touched. */
  lemma {:induction false} RemovePrefix(a: seq<string>, c: Ctl, rest: seq<string>, end: seq<string>, pkg: string, sel: Sel)
    ensures RemoveAll(a + rest + end, pkg, Pick(LocsOf(c, rest, |a|, pkg), sel)) == a + Pruned(c, rest, pkg, sel) + end
    decreases |rest|
  {
    hide ViewOf, Next, LocOf, LineWithout, Picked;
    if rest != [] {
      var line := rest[0];
      var v := ViewOf(line);
      var l0 := LocOf(c, v, |a|, pkg);
      var l1 := LocsOf(Next(c, v), rest[1..], |a| + 1, pkg);
      PickConcat(l0, l1, sel);
      RemoveAllConcat(a + rest + end, pkg, Pick(l0, sel), Pick(l1, sel));
      RemovePrefix(a + [line], Next(c, v), rest[1..], end, pkg, sel);
      hide Pick, LocsOf, PruneLine, RemoveAll;
      Uncons(rest);
      Assoc3(a, [line], rest[1..]);
      var tail := Pruned(Next(c, v), rest[1..], pkg, sel) + end;
      LineOnly(c, line, |a|, pkg, sel);
      RemoveHere(a, line, tail, pkg, Pick(l0, sel));
      Assoc3(a + [line], Pruned(Next(c, v), rest[1..], pkg, sel), end);
      RegroupFour(a, PruneLine(c, line, pkg, sel), Pruned(Next(c, v), rest[1..], pkg, sel), end);
    }
  }

  lemma {:induction false} RegroupFour(a: seq<string>, b: seq<string>, c: seq<string>, d: seq<string>)
    ensures a + b + (c + d) == a + (b + c) + d
  {
  }

  lemma {:induction false} RemoveIsPrune(a: seq<string>, c: Ctl, rest: seq<string>, pkg: string, sel: Sel)
    ensures RemoveAll(a + rest, pkg, Pick(LocsOf(c, rest, |a|, pkg), sel)) == a + Pruned(c, rest, pkg, sel)
  {
    hide LocsOf, Pick, RemoveAll, Pruned;
    RemovePrefix(a, c, rest, [], pkg, sel);
    assert a + rest + [] == a + rest;
    assert a + Pruned(c, rest, pkg, sel) + [] == a + Pruned(c, rest, pkg, sel);
  }

  lemma {:induction false} RemoveHere(a: seq<string>, line: string, tail: seq<string>, pkg: string, here: seq<Loc>)
    requires |here| <= 1 && (here != [] ==> here[0].idx == |a|)
    ensures RemoveAll(a + [line] + tail, pkg, here)
         == a + (if here == [] then [line] else LineWithout(line, pkg, here[0])) + tail
  {
    hide LineWithout;
    var lines := a + [line] + tail;
    if here != [] {
      assert here[..0] == [];
      assert RemoveAll(lines, pkg, here) == RemoveAt(lines, pkg, here[0]);
      assert lines[..|a|] == a && lines[|a|] == line && lines[|a| + 1..] == tail;
    }
  }
}
