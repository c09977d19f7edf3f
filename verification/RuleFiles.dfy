/**
 * The rule file and the operations offered on it. Each reads the file into a buffer, edits the
 * buffer in place, and writes it back when the edit succeeds; the file is otherwise untouched.
 */
module RuleFiles {
  import opened Seqs
  import opened Text
  import opened RuleSyntax
  import opened LineRename
  import opened Scan
  import opened ScanRange
  import opened Normalize
  import opened Upsert
  import opened Delete
  import opened DeletePkg
  import opened Rename
  import opened RenameLoop
  import opened RenameEnds
  import opened RenameForever
  import opened RenameMain
  import opened Clone
  import opened Editor

  /** What a file holds after an edit. */
  function After(e: RuleEdit, was: seq<string>): seq<string> { if e.Ok? then e.lines else was }

  lemma {:induction false} LastLoc(lines: seq<string>, pkg: string, thread: string)
    ensures var locs := Pick(ScanOf(lines, pkg).threads, Named(thread));
            locs != [] ==> locs[|locs| - 1].idx < |lines| && LocsBelow(locs[..|locs| - 1], |lines|)
  {
    hide ScanTo, Pick;
    ScanBelow(lines, pkg, Named(thread));
  }

  /** The furthest in-block record, as the loop over the records finds it. */
  lemma {:induction false} LastInsideStep(locs: seq<Loc>, best: nat)
    requires locs != []
    ensures LastInside(locs, best) == LastInside(locs[1..], if !locs[0].single && locs[0].idx > best then locs[0].idx else best)
  {
  }

  class RuleFile {
    var lines: seq<string>

    constructor (content: seq<string>)
      ensures lines == content
    {
      lines := content;
    }

    /** Set the rule of a package, or of one of its threads. */
    method Upsert(pkg: string, thread: string, cpus: string) returns (e: RuleEdit)
      modifies this
      ensures e == Upserted(old(lines), pkg, thread, cpus) && lines == After(e, old(lines))
    {
      hide Normalized, ScanTo, Pick, SpecSwap, WithComment, RuleOpenLine, RuleLine, EntryLine, BareOpenLine, IsBareBrace, TrimEnd, LocsBelow;
      var buf := new LineBuffer(lines);
      buf.NormalizeSingles(pkg);
      var t, unterminated := TargetScan(buf.lines, pkg);
      ghost var n := buf.lines;
      ScanBelow(n, pkg, Named(thread));
      if thread == "" {
        match t.pkgLine {
          case Some(Standalone(i)) => buf.Set(i, SpecSwap(buf.lines[i], cpus));
          case Some(OpenInline(i)) => buf.Set(i, SpecSwap(buf.lines[i], cpus));
          case Some(OpenBare(i)) => buf.Set(i, WithComment(RuleOpenLine(pkg, cpus), buf.lines[i]));
          case Some(OpenPending(i)) =>
            buf.Set(i, WithComment(RuleOpenLine(pkg, cpus), buf.lines[i]));
            if t.blockOpen.Some? && IsBareBrace(buf.lines[t.blockOpen.value]) {
              buf.Remove(t.blockOpen.value);
            }
          case None =>
            if unterminated {
              return Malformed;
            }
            buf.Push(RuleLine(pkg, cpus));
        }
      } else {
        var locs := Pick(t.threads, Named(thread));
        if locs != [] {
          LastLoc(n, pkg, thread);
          var last := locs[|locs| - 1];
          buf.Set(last.idx, SpecSwap(buf.lines[last.idx], cpus));
          buf.RemoveLocs(pkg, locs[..|locs| - 1]);
        } else if t.blockClose.Some? {
          buf.Splice(t.blockClose.value, [EntryLine(thread, cpus)]);
        } else if t.pkgLine.Some? && t.pkgLine.value.Standalone? {
          buf.HeaderBlock(t.pkgLine.value.idx, [EntryLine(thread, cpus)]);
        } else if unterminated {
          return Malformed;
        } else {
          buf.Push(BareOpenLine(pkg));
          buf.Push(EntryLine(thread, cpus));
          buf.Push("}");
          PushedThree(n, BareOpenLine(pkg), EntryLine(thread, cpus));
        }
      }
      lines := buf.lines;
      e := Ok(lines);
    }

    /** Delete the rule of a package, or the rules of one of its threads. */
    method Delete(pkg: string, thread: string) returns (e: RuleEdit)
      modifies this
      ensures e == Deleted(old(lines), pkg, thread) && lines == After(e, old(lines))
    {
      hide Normalized, ScanTo, Pick, BareOpenLine, LocsBelow;
      var buf := new LineBuffer(lines);
      buf.NormalizeSingles(pkg);
      var t, _ := TargetScan(buf.lines, pkg);
      ScanBelow(buf.lines, pkg, Named(thread));
      if thread == "" {
        match t.pkgLine {
          case Some(Standalone(i)) => buf.Remove(i);
          case Some(OpenInline(i)) => buf.Set(i, BareOpenLine(pkg));
          case _ => return NotFound;
        }
      } else {
        var locs := Pick(t.threads, Named(thread));
        if locs == [] {
          return NotFound;
        }
        buf.RemoveLocs(pkg, locs);
      }
      lines := buf.lines;
      e := Ok(lines);
    }

    /** Delete every line of a package. The loop ends on any file. */
    method DeletePackage(pkg: string) returns (e: RuleEdit)
      modifies this
      ensures e == DeletedPkg(old(lines), pkg) && lines == After(e, old(lines))
    {
      hide Normalized, ScanTo, Pick, Doomed, Without, AnyLine;
      var buf := new LineBuffer(lines);
      buf.NormalizeSingles(pkg);
      ghost var n := buf.lines;
      var removed := false;
      while true
        invariant fresh(buf)
        invariant Rounds(buf.lines, pkg) == Rounds(n, pkg)
        invariant if removed then AnyLine(ScanOf(n, pkg)) else buf.lines == n
        invariant lines == old(lines)
        decreases |buf.lines|
      {
        var t, _ := TargetScan(buf.lines, pkg);
        if !AnyLine(t) {
          break;
        }
        RoundShrinks(buf.lines, pkg);
        RemoveDoomed(buf, t, pkg);
        removed := true;
      }
      if !removed {
        return NotFound;
      }
      lines := buf.lines;
      e := Ok(lines);
    }

    /** Remove one round's positions, the last first. */
    method RemoveDoomed(buf: LineBuffer, t: Target, pkg: string)
      requires t == ScanOf(buf.lines, pkg)
      modifies buf
      ensures buf.lines == Round(old(buf.lines), pkg)
    {
      hide ScanTo, Pick, Doomed, Without;
      var del := DoomedIdxs(t);
      ghost var was := buf.lines;
      TakeAll(was);
      NothingWithout(was, t);
      for i := |buf.lines| downto 0
        invariant buf.lines == was[..i] + Without(was[i..], i, t)
      {
        WithoutOneMore(was, i, t);
        RemoveJoin(was, i, Without(was[i + 1..], i + 1, t));
        if i in del {
          buf.Remove(i);
        }
      }
      NilLeft(Without(was, 0, t));
      assert was[0..] == was;
    }

    /** The positions one round removes, collected as the source does. */
    static method DoomedIdxs(t: Target) returns (del: set<nat>)
      ensures forall i: nat :: i in del <==> Doomed(t, i)
    {
      hide Pick;
      del := if t.pkgLine.Some? then {t.pkgLine.value.idx} else {};
      if t.blockOpen.Some? {
        var open := t.blockOpen.value;
        var end: nat := open;
        if t.blockClose.Some? {
          end := t.blockClose.value;
        } else {
          assert t.threads[0..] == t.threads;
          for k := 0 to |t.threads|
            invariant LastInside(t.threads[k..], end) == LastInside(t.threads, open)
          {
            LastInsideStep(t.threads[k..], end);
            assert t.threads[k..][1..] == t.threads[k + 1..];
            if !t.threads[k].single && t.threads[k].idx > end {
              end := t.threads[k].idx;
            }
          }
        }
        assert end == BlockEnd(t, open);
        ghost var first := del;
        var i := open;
        while i <= end
          invariant open <= i && (open <= end ==> i <= end + 1)
          invariant forall j: nat :: j in del <==> (j in first || (open <= j < i && j <= end))
        {
          del := del + {i};
          i := i + 1;
        }
      }
      ghost var more := del;
      var singles := Singles(t.threads);
      for k := 0 to |singles|
        invariant forall j: nat :: j in del <==> (j in more || exists l | l in singles[..k] :: l.idx == j)
      {
        assert singles[..k + 1] == singles[..k] + [singles[k]];
        del := del + {singles[k].idx};
      }
      assert singles[..|singles|] == singles;
    }

    /**
     * Rename a package. All that is asked for is that the renaming comes to an end; exactly when
     * it does is what `RenameForever` is about.
     */
    method Rename(from: string, to: string) returns (e: RuleEdit)
      requires Halts(lines, from, to)
      modifies this
      ensures e == RenamedPkg(old(lines), from, to) && lines == After(e, old(lines))
    {
      hide Normalized, ScanTo, Pick, AnyLine, RenameAt, RenameIdxs, Passes, FreshIdxs, Terminates, IsCount;
      var buf := new LineBuffer(lines);
      buf.NormalizeSingles(from);
      ghost var n := buf.lines;
      var t, _ := TargetScan(buf.lines, from);
      if !AnyLine(t) {
        return NotFound;
      }
      var other, _ := TargetScan(buf.lines, to);
      if AnyLine(other) {
        return Conflict;
      }
      while true
        invariant fresh(buf) && Terminates(buf.lines, from, to)
        invariant Passes(buf.lines, from, to) == Passes(n, from, to)
        invariant lines == old(lines)
        decreases PassCount(buf.lines, from, to)
      {
        var now, _ := TargetScan(buf.lines, from);
        var idxs := RenameIdxs(now);
        PassIdxs(buf.lines, from);
        PassesStep(buf.lines, from, to);
        if idxs == [] {
          break;
        }
        RenameLines(buf, idxs, from, to);
      }
      lines := buf.lines;
      e := Ok(lines);
    }

    /** Rename the lines at the given positions, in order. */
    method RenameLines(buf: LineBuffer, idxs: seq<nat>, from: string, to: string)
      modifies buf
      ensures buf.lines == RenameAt(old(buf.lines), idxs, from, to)
    {
      hide RenameTail, Trim;
      ghost var was := buf.lines;
      TakeAll(idxs);
      for k := 0 to |idxs|
        invariant buf.lines == RenameAt(was, idxs[..k], from, to)
      {
        RenameAtSnoc(was, idxs, k, from, to);
        RenameAtOne(buf.lines, idxs[k], from, to);
        if idxs[k] < |buf.lines| {
          var p := Trim(buf.lines[idxs[k]]);
          if from <= p {
            buf.Set(idxs[k], to + RenameTail(to, p[|from|..]));
          }
        }
      }
    }

    /** Copy the selected rules of one package to another that has none. */
    method Clone(source: string, target: string, copyPackage: bool, copyThreads: bool) returns (e: RuleEdit)
      modifies this
      ensures e == Cloned(old(lines), source, target, copyPackage, copyThreads) && lines == After(e, old(lines))
    {
      hide ClonePrepare, CloneBlock, Padded;
      var buf := new LineBuffer(lines);
      var p := Prepare(buf, source, target, copyPackage, copyThreads);
      match p {
        case Refused(why) => return why;
        case Ready(_, rules) =>
          buf.CloneAppend(target, rules);
      }
      lines := buf.lines;
      e := Ok(lines);
    }

    /** The refusal that the copy would meet, if any; the file is not changed. */
    method CloneCheck(source: string, target: string, copyPackage: bool, copyThreads: bool) returns (refusal: Option<RuleEdit>)
      ensures var e := Cloned(lines, source, target, copyPackage, copyThreads); refusal == if e.Ok? then None else Some(e)
    {
      hide ClonePrepare;
      var buf := new LineBuffer(lines);
      var p := Prepare(buf, source, target, copyPackage, copyThreads);
      refusal := match p case Ready(_, _) => None case Refused(why) => Some(why);
    }

    /** Normalise both packages in the buffer and collect what is to be copied. */
    method Prepare(buf: LineBuffer, source: string, target: string, copyPackage: bool, copyThreads: bool) returns (p: Prepared)
      modifies buf
      ensures p == ClonePrepare(old(buf.lines), source, target, copyPackage, copyThreads)
      ensures p.Ready? ==> buf.lines == p.lines
    {
      hide Normalized, ScanTo, Entries, PackageSpec, AnyLine;
      buf.NormalizeSingles(source);
      buf.NormalizeSingles(target);
      var from, open1 := TargetScan(buf.lines, source);
      var to, open2 := TargetScan(buf.lines, target);
      if open1 || open2 {
        return Refused(Malformed);
      }
      if AnyLine(to) {
        return Refused(Conflict);
      }
      var package := PackageSpec(buf.lines, from);
      if copyPackage && package.None? {
        return Refused(NotFound);
      }
      var threads := CollectEntries(buf.lines, from.threads);
      if copyThreads && threads == [] {
        return Refused(NotFound);
      }
      return Ready(buf.lines, CloneRules(if copyPackage then package else None, if copyThreads then threads else []));
    }

    /** The thread entries of the records, in file order. */
    static method CollectEntries(lines: seq<string>, locs: seq<Loc>) returns (threads: seq<(string, string)>)
      ensures threads == Entries(lines, locs)
    {
      hide ThreadSpec;
      threads := [];
      TakeAll(locs);
      for k := 0 to |locs|
        invariant threads == Entries(lines, locs[..k])
      {
        EntriesSnoc(lines, locs, k);
        match ThreadSpec(lines, locs[k]) {
          case Some(cpus) => threads := threads + [(locs[k].name, cpus)];
          case None =>
        }
      }
    }
  }

  lemma {:induction false} EntriesSnoc(lines: seq<string>, locs: seq<Loc>, k: nat)
    requires k < |locs|
    ensures Entries(lines, locs[..k + 1]) == Entries(lines, locs[..k])
         + (match ThreadSpec(lines, locs[k]) case None => [] case Some(spec) => [(locs[k].name, spec)])
  {
    hide ThreadSpec;
    SplitAround(locs, k);
    EntriesConcat(lines, locs[..k], [locs[k]]);
    assert [locs[k]][1..] == [];
  }

  lemma {:induction false} PushedThree(n: seq<string>, a: string, b: string)
    ensures n + [a] + [b] + ["}"] == n[..|n|] + ([a] + [b] + ["}"]) + n[|n|..]
  {
  }

  lemma {:induction false} NothingWithout(was: seq<string>, t: Target)
    ensures was[..|was|] + Without(was[|was|..], |was|, t) == was
  {
  }

  lemma {:induction false} RemoveJoin(was: seq<string>, i: nat, rest: seq<string>)
    requires i < |was|
    ensures var s := was[..i + 1] + rest;
            && i < |s| && s[..i] + s[i + 1..] == was[..i] + rest && s == was[..i] + ([was[i]] + rest)
  {
  }
}
