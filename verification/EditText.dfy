/** What the edits do to the text around a rule: remarks and all other lines stay as they are. */
module EditText {
  import opened Text
  import opened RuleSyntax
  import opened LineShape
  import opened SpecTheorems
  import opened Loader
  import opened Scan
  import opened ScanSim
  import opened ScanRange
  import opened Prune
  import opened Upsert
  import opened Delete

  /** The remark behind the line's text, with the white space in front of it; empty when there is none. */
  function Remark(line: string): string { line[CutAt(line)..] }

  predicate EndsWithText(s: string, t: string) { |t| <= |s| && s[|s| - |t|..] == t }

  /** The remark is all that stands behind the text a line is read by. */
  lemma {:induction false} RemarkIs(line: string, lead: string, b: string, t: string)
    requires IsLine(line, lead, b, t)
    ensures Remark(line) == if TrimStartLen(t) < |t| then t else ""
  {
    hide IsBody, IsTail, CommentAt;
    CommentAtLine(line, lead, b, t);
    assert TrimStartLen(t) <= |t|;
    assert line[|lead| + |b|..] == t;
  }

  lemma {:induction false} NewLineKeeps(new': string, line: string)
    ensures WithComment(new', line) == new' + Remark(line) && EndsWithText(WithComment(new', line), Remark(line))
  {
    hide CommentAt;
    var r := Remark(line);
    assert CommentAt(line).None? ==> r == "" && new' + "" == new';
    assert (new' + r)[|new'|..] == r;
  }

  lemma {:induction false} NothingToSwap(line: string, cpus: string)
    requires '=' !in line[..CutAt(line)]
    ensures SpecSwap(line, cpus) == line
  {
    hide CutAt;
    assert RFind(line[..CutAt(line)], '=').None?;
  }

  lemma {:induction false} SwapKeeps(line: string, cpus: string)
    ensures EndsWithText(SpecSwap(line, cpus), Remark(line))
  {
    hide CutAt, SwapTail, SpecSwap;
    var r := Remark(line);
    if '=' in line[..CutAt(line)] {
      var kept := SwapFrame(line, cpus);
    } else {
      NothingToSwap(line, cpus);
    }
  }

  /**
   * Setting the package rule of a package that some outer line names: one line is rewritten and keeps its
   * remark, and at most one line goes, a `{` alone.
   */
  lemma {:induction false} SetText(n: seq<string>, pkg: string, cpus: string) returns (i: nat, line: string)
    requires ScanOf(n, pkg).pkgLine.Some?
    ensures i < |n| && EndsWithText(line, Remark(n[i]))
    ensures var e := UpsertPackage(n, ScanOf(n, pkg), Unterminated(n, pkg), pkg, cpus); var m := n[i := line];
            && e.Ok?
            && (e.lines == m
                || exists k | 0 <= k < |m| && ParseOuter(Trim(m[k])) == BareOpen("") :: e.lines == m[..k] + m[k + 1..])
  {
    hide ScanTo, Remark, ParseOuter, WithComment, SpecSwap, EndsWithText, Trim;
    ScanInRange(n, |n|, pkg);
    var t := ScanOf(n, pkg);
    i := t.pkgLine.value.idx;
    if t.pkgLine.value.Standalone? || t.pkgLine.value.OpenInline? {
      line := SpecSwap(n[i], cpus);
      SwapKeeps(n[i], cpus);
    } else {
      line := WithComment(RuleOpenLine(pkg, cpus), n[i]);
      NewLineKeeps(RuleOpenLine(pkg, cpus), n[i]);
    }
  }

  /** Removing a thread's rule leaves every other line as it is, and of its own line the brace and the remark. */
  lemma {:induction false} RemovedText(c: Ctl, line: string, pkg: string, thread: string)
    requires pkg != "" && thread != ""
    ensures var v, r := ViewOf(line), PruneLine(c, line, pkg, Named(thread));
            if Attempt(c, v) == [] || Attempt(c, v)[0].pkg != pkg || Attempt(c, v)[0].thread != thread then r == [line]
            else if c.inBlock then r == (if v.inner.closed then ["}" + Remark(line)] else [])
            else r == (if v.outer.open then [pkg + (if '=' in pkg then "= {" else " {") + Remark(line)] else [])
  {
    hide ViewOf, Remark, WithComment;
    NewLineKeeps("}", line);
    NewLineKeeps(BareOpenLine(pkg), line);
    var locs := LocOf(c, ViewOf(line), 0, pkg);
    if locs != [] {
      assert locs[1..] == [];
      assert Pick(locs, Named(thread)) == if locs[0].name == thread then locs else [];
    }
  }

  /** Deleting the package rule takes its line, or leaves the bare header where the line opens the block. */
  lemma {:induction false} HeaderText(n: seq<string>, pkg: string)
    requires ScanOf(n, pkg).pkgLine.Some?
    ensures var l, e := ScanOf(n, pkg).pkgLine.value, DeletePackage(n, ScanOf(n, pkg), pkg);
            && l.idx < |n|
            && match l
               case Standalone(i) => e == Ok(n[..i] + n[i + 1..])
               case OpenInline(i) => e == Ok(n[i := pkg + (if '=' in pkg then "= {" else " {")])
               case _ => e == NotFound
  {
    hide ScanTo;
    ScanInRange(n, |n|, pkg);
  }
}
