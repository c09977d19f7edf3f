/**
 * The editor on its own terms: a buffer of lines changed in place, and the rule file whose
 * operations read it into a buffer, edit the buffer and write it back when the edit succeeds.
 * Every method is proved to compute the edit that the theorems are about.
 */
module Editor {
  import opened Seqs
  import opened Text
  import opened RuleSyntax
  import opened LineRename
  import opened Scan
  import opened ScanRange
  import opened Prune
  import opened Normalize
  import opened NormalizeProof
  import opened DeletePkg
  import opened Rename
  import opened RenameLoop
  import opened Clone

  // ---- facts the loops need

  /** Every recorded single-line rule can be printed as an entry, on any file. */
  lemma {:induction false} SinglesPrint(lines: seq<string>, pkg: string)
    ensures forall l | l in Singles(ScanOf(lines, pkg).threads) :: l.idx < |lines| && ItemOf(lines[l.idx]).Some?
  {
    hide ViewOf, ScanTo, Pick, OutlineTo, ItemOf;
    ScanRecords(lines, |lines|, pkg);
    forall l | l in Singles(ScanOf(lines, pkg).threads) ensures l.idx < |lines| && ItemOf(lines[l.idx]).Some? {
      ItemIs(lines[l.idx]);
    }
  }

  lemma {:induction false} ItemsSnoc(lines: seq<string>, locs: seq<Loc>, k: nat)
    requires k < |locs| && locs[k].idx < |lines| && ItemOf(lines[locs[k].idx]).Some?
    ensures locs[..k + 1] == locs[..k] + [locs[k]]
    ensures Items(lines, locs[..k + 1]) == Items(lines, locs[..k]) + [ItemOf(lines[locs[k].idx]).value]
  {
    hide ItemOf;
    SplitAround(locs, k);
    ItemsConcat(lines, locs[..k], [locs[k]]);
    ItemHere(lines, [locs[k]], locs[k].idx);
  }

  lemma {:induction false} ScanBelow(lines: seq<string>, pkg: string, sel: Sel)
    ensures InRange(ScanOf(lines, pkg), |lines|) && LocsBelow(Pick(ScanOf(lines, pkg).threads, sel), |lines|)
  {
    hide ScanTo, LocsBelow, Pick;
    ScanInRange(lines, |lines|, pkg);
    PickBelow(ScanOf(lines, pkg).threads, sel, |lines|);
  }

  lemma {:induction false} RemoveLast(lines: seq<string>, pkg: string, locs: seq<Loc>, i: nat)
    requires i < |locs|
    ensures RemoveAll(lines, pkg, locs[..i + 1]) == RemoveAll(RemoveAt(lines, pkg, locs[i]), pkg, locs[..i])
  {
    hide RemoveAt;
    assert locs[..i + 1][..i] == locs[..i] && locs[..i + 1][i] == locs[i];
  }

  lemma {:induction false} WithoutOneMore(lines: seq<string>, i: nat, t: Target)
    requires i < |lines|
    ensures Without(lines[i..], i, t) == (if Doomed(t, i) then [] else [lines[i]]) + Without(lines[i + 1..], i + 1, t)
  {
    hide Doomed;
    assert lines[i..][0] == lines[i] && lines[i..][1..] == lines[i + 1..];
  }

  lemma {:induction false} EntryLinesSnoc(threads: seq<(string, string)>, k: nat)
    requires k < |threads|
    ensures EntryLines(threads[..k + 1]) == EntryLines(threads[..k]) + [EntryLine(threads[k].0, threads[k].1)]
    decreases k
  {
    hide EntryLine;
    if k > 0 {
      EntryLinesSnoc(threads[1..], k - 1);
      assert threads[..k + 1][1..] == threads[1..][..k] && threads[..k][1..] == threads[1..][..k - 1];
    } else {
      assert threads[..1] == [threads[0]] && threads[..1][1..] == [];
    }
  }

  lemma {:induction false} RenameAtSnoc(lines: seq<string>, idxs: seq<nat>, k: nat, from: string, to: string)
    requires k < |idxs|
    ensures RenameAt(lines, idxs[..k + 1], from, to)
         == RenameAt(RenameAt(lines, idxs[..k], from, to), [idxs[k]], from, to)
    decreases k
  {
    hide RenameText;
    if k == 0 {
      assert idxs[..1] == [idxs[0]] && idxs[..0] == [];
    } else {
      var next := if idxs[0] < |lines| then lines[idxs[0] := RenameText(lines[idxs[0]], from, to)] else lines;
      RenameAtSnoc(next, idxs[1..], k - 1, from, to);
      assert idxs[..k + 1][1..] == idxs[1..][..k] && idxs[..k][1..] == idxs[1..][..k - 1];
    }
  }

  lemma {:induction false} RenameAtOne(lines: seq<string>, i: nat, from: string, to: string)
    ensures RenameAt(lines, [i], from, to)
         == if i < |lines| then lines[i := RenameText(lines[i], from, to)] else lines
  {
    hide RenameText;
    assert [i][1..] == [];
  }

  /** The lines of one edit, changed in place. */
  class LineBuffer {
    var lines: seq<string>

    constructor (content: seq<string>)
      ensures lines == content
    {
      lines := content;
    }

    method Set(i: nat, line: string)
      requires i < |lines|
      modifies this
      ensures lines == old(lines)[i := line]
    {
      lines := lines[i := line];
    }

    method Remove(i: nat)
      requires i < |lines|
      modifies this
      ensures lines == old(lines)[..i] + old(lines)[i + 1..]
    {
      lines := lines[..i] + lines[i + 1..];
    }

    method Splice(at: nat, more: seq<string>)
      requires at <= |lines|
      modifies this
      ensures lines == old(lines)[..at] + more + old(lines)[at..]
    {
      lines := lines[..at] + more + lines[at..];
    }

    method Push(line: string)
      modifies this
      ensures lines == old(lines) + [line]
    {
      lines := lines + [line];
    }

    /** Remove one recorded rule; a header or closer it carried stays, with its comment. */
    method LineRemove(pkg: string, loc: Loc)
      requires loc.idx < |lines|
      modifies this
      ensures lines == RemoveAt(old(lines), pkg, loc)
    {
      if loc.open {
        UpdateAround(lines, loc.idx, WithComment(BareOpenLine(pkg), lines[loc.idx]));
        Set(loc.idx, WithComment(BareOpenLine(pkg), lines[loc.idx]));
      } else if loc.closed {
        UpdateAround(lines, loc.idx, WithComment("}", lines[loc.idx]));
        Set(loc.idx, WithComment("}", lines[loc.idx]));
      } else {
        NilLeft(lines[..loc.idx]);
        Remove(loc.idx);
      }
    }

    /** Remove recorded rules, the last position first. */
    method RemoveLocs(pkg: string, locs: seq<Loc>)
      requires LocsBelow(locs, |lines|)
      modifies this
      ensures lines == RemoveAll(old(lines), pkg, locs)
    {
      hide WithComment, BareOpenLine;
      ghost var was := lines;
      TakeAll(locs);
      for i := |locs| downto 0
        invariant RemoveAll(lines, pkg, locs[..i]) == RemoveAll(was, pkg, locs)
        invariant i > 0 ==> locs[i - 1].idx < |lines|
      {
        RemoveLast(lines, pkg, locs, i);
        LineRemove(pkg, locs[i]);
      }
    }

    /** Move the package's single-line rules into one block. */
    method NormalizeSingles(pkg: string)
      modifies this
      ensures lines == Normalized(old(lines), pkg)
    {
      hide ViewOf, ItemOf, TrimEnd, BareOpenLine, RemoveAll, Pick, ScanTo, LocsBelow;
      var t, _ := TargetScan(lines, pkg);
      var singles := Singles(t.threads);
      SinglesPrint(lines, pkg);
      ScanBelow(lines, pkg, SinglesOnly);
      var locs: seq<Loc>, items: seq<string> := [], [];
      TakeAll(singles);
      for k := 0 to |singles|
        invariant lines == old(lines)
        invariant locs == singles[..k] && items == Items(lines, singles[..k]) && |items| == k
      {
        assert singles[k] in singles;
        ItemsSnoc(lines, singles, k);
        match ItemOf(lines[singles[k].idx]) {
          case Some(line) => locs, items := locs + [singles[k]], items + [line];
          case None =>
        }
      }
      if items == [] {
        return;
      }
      if t.blockClose.None? && (AnyOpen(locs) || !(t.pkgLine.None? || t.pkgLine.value.Standalone?)) {
        return;
      }
      var at := locs[0].idx;
      RemoveLocs(pkg, locs);
      ghost var cut := lines;
      ScanBelow(cut, pkg, SinglesOnly);
      var t2, _ := TargetScan(lines, pkg);
      match t2.blockClose {
        case Some(close) =>
          InsertItems(close, items);
        case None =>
          if t2.pkgLine.Some? && t2.pkgLine.value.Standalone? {
            HeaderBlock(t2.pkgLine.value.idx, items);
          } else {
            Splice(if at < |lines| then at else |lines|, [BareOpenLine(pkg)] + items + ["}"]);
          }
      }
    }

    /** One by one, in order. */
    method InsertItems(close: nat, items: seq<string>)
      requires close <= |lines|
      modifies this
      ensures lines == old(lines)[..close] + items + old(lines)[close..]
    {
      ghost var was := lines;
      NilLeft(was[..close]);
      SplitAt(was, close);
      TakeAll(items);
      for off := 0 to |items|
        invariant lines == was[..close] + items[..off] + was[close..]
      {
        InsertJoin(was[..close], items, off, was[close..]);
        Splice(close + off, [items[off]]);
      }
    }

    /** A standalone rule becomes the header of a block. */
    method HeaderBlock(i: nat, items: seq<string>)
      requires i < |lines|
      modifies this
      ensures lines == old(lines)[..i] + ([TrimEnd(old(lines)[i]) + " {"] + items + ["}"]) + old(lines)[i + 1..]
    {
      hide TrimEnd;
      var header := TrimEnd(lines[i]) + " {";
      HeaderJoin(lines, i, header, items + ["}"]);
      Assoc3([header], items, ["}"]);
      Set(i, header);
      Splice(i + 1, items + ["}"]);
    }

    /** Append the copied rules as one block, or as one line. */
    method CloneAppend(target: string, rules: CloneRules)
      modifies this
      ensures lines == Padded(old(lines)) + CloneBlock(target, rules)
    {
      hide EntryLine, BareOpenLine, RuleOpenLine, RuleLine, Trim;
      if lines != [] && Trim(lines[|lines| - 1]) != "" {
        Push("");
      }
      ghost var was := lines;
      NilLeft(was);
      if rules.threads == [] {
        if rules.package.Some? {
          Push(RuleLine(target, rules.package.value));
        }
        return;
      }
      var header := match rules.package case Some(cpus) => RuleOpenLine(target, cpus) case None => BareOpenLine(target);
      Push(header);
      NilLeft([header]);
      assert rules.threads[..0] == [];
      for k := 0 to |rules.threads|
        invariant lines == was + ([header] + EntryLines(rules.threads[..k]))
      {
        EntryLinesSnoc(rules.threads, k);
        var entry := EntryLine(rules.threads[k].0, rules.threads[k].1);
        Assoc3(was, [header] + EntryLines(rules.threads[..k]), [entry]);
        Assoc3([header], EntryLines(rules.threads[..k]), [entry]);
        Push(entry);
      }
      TakeAll(rules.threads);
      Assoc3(was, [header] + EntryLines(rules.threads), ["}"]);
      Push("}");
    }
  }

  lemma {:induction false} InsertJoin(a: seq<string>, items: seq<string>, off: nat, b: seq<string>)
    requires off < |items|
    ensures var s := a + items[..off] + b; var p := |a| + off;
            p <= |s| && s[..p] + [items[off]] + s[p..] == a + items[..off + 1] + b
  {
    var s := a + items[..off] + b;
    var p := |a| + off;
    assert s[..p] == a + items[..off] && s[p..] == b;
    assert items[..off + 1] == items[..off] + [items[off]];
  }

  lemma {:induction false} HeaderJoin(s: seq<string>, i: nat, header: string, more: seq<string>)
    requires i < |s|
    ensures var u := s[i := header]; u[..i + 1] + more + u[i + 1..] == s[..i] + ([header] + more) + s[i + 1..]
  {
  }
}
