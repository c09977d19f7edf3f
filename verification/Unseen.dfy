/** A package the scan does not see has no rule, on every file without a bare `=`. */
module Unseen {
  import opened Seqs
  import opened Text
  import opened RuleSyntax
  import opened Loader
  import opened Scan
  import opened ScanSim
  import opened Prune
  import opened PruneMeans
  import opened LineParts
  import opened Splice

  predicate NoneOf(rs: seq<RawRule>, pkg: string) {
    forall r | r in rs :: r.pkg != pkg
  }

  /** Once seen, a package stays seen. */
  lemma {:induction false} StepSeen(lines: seq<string>, s: State, n: nat, pkg: string)
    requires n < |lines| && AnyLine(s.t)
    ensures AnyLine(Step(lines, s, n, pkg).t)
  {
    hide ViewOf, Pick, WaitingName;
    var t' := Step(lines, s, n, pkg).t;
    if t'.threads != s.t.threads {
      PickConcat(s.t.threads, [t'.threads[|t'.threads| - 1]], SinglesOnly);
    }
  }

  /** An unseen line: it opens no block of the package and holds no rule of it. */
  lemma {:induction false} StepUnseen(lines: seq<string>, s: State, n: nat, c: Ctl, pkg: string)
    requires n < |lines| && pkg != "" && Sim(lines, n, c, s, pkg) && !s.target
    requires !AnyLine(Step(lines, s, n, pkg).t)
    ensures !Step(lines, s, n, pkg).target && NoneOf(Attempt(c, ViewOf(lines[n])), pkg)
  {
    hide ViewOf, Pick, WaitingName, At;
    var v := ViewOf(lines[n]);
    if v.Text? && !c.inBlock && v.outer.Single? {
      ViewNames(lines[n]);
      SingleNamed(lines[n]);
      PickConcat(s.t.threads, [Loc(v.outer.thread, n, true, false, v.outer.open)], SinglesOnly);
      PickOne(Loc(v.outer.thread, n, true, false, v.outer.open), SinglesOnly);
    }
  }

  lemma {:induction false} SingleNamed(line: string)
    requires ViewOf(line).Text? && ViewOf(line).outer.Single?
    ensures ViewOf(line).outer.thread != ""
  {
    hide Trim, StripComment, OpenBody, SplitTarget, CloseLike, InnerView;
    SplitSingleNamed(OpenBody(StripComment(Trim(line))).1);
  }

  lemma {:induction false} SplitSingleNamed(b: string)
    requires SplitSingle(b).Some?
    ensures SplitSingle(b).value.1 != ""
  {
    hide Trim, TrimEnd;
  }

  lemma {:induction false} UnseenTo(lines: seq<string>, n: nat, pkg: string)
    requires n <= |lines| && pkg != "" && (NoBareEq(lines) || Calm(lines))
    requires !AnyLine(ScanTo(lines, n, pkg).t)
    ensures !ScanTo(lines, n, pkg).target && NoneOf(Rules(lines[..n]), pkg)
  {
    hide ViewOf, Next, Slips, Step, AnyLine, Attempt, At, Sim;
    if n > 0 {
      var m := n - 1;
      var s := ScanTo(lines, m, pkg);
      if AnyLine(s.t) {
        StepSeen(lines, s, m, pkg);
        assert false;
      }
      UnseenTo(lines, m, pkg);
      ScanSimulates(lines, m, pkg);
      StepUnseen(lines, s, m, At(lines, m), pkg);
      RulesSnoc(lines, m);
    } else {
      TakeAll(lines);
    }
  }

  lemma {:induction false} RulesSnoc(lines: seq<string>, m: nat)
    requires m < |lines|
    ensures Rules(lines[..m + 1]) == Rules(lines[..m]) + Attempt(At(lines, m), ViewOf(lines[m]))
  {
    hide ViewOf, Attempt, Next;
    SplitAround(lines, m);
    AttemptsConcat(Start, lines[..m], [lines[m]]);
    OneLine(Walk(Start, lines[..m]), lines[m]);
  }

  /** No rule is attempted for a package without a line, and no block is left open for it. */
  lemma {:induction false} UnseenNoRules(lines: seq<string>, pkg: string)
    requires pkg != "" && (NoBareEq(lines) || Calm(lines)) && !AnyLine(ScanOf(lines, pkg))
    ensures NoneOf(Rules(lines), pkg)
  {
    hide ViewOf, ScanTo, Attempts;
    TakeAll(lines);
    UnseenTo(lines, |lines|, pkg);
  }
}
