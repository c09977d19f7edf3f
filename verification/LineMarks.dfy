/** Comments and single-line rules by their text. */
module LineMarks {
  import opened Text
  import opened RuleSyntax
  import opened LineShape
  import opened LineSingle
  import opened Loader
  import opened Normalize
  import opened NormalizeAny

  // ---- comments

  lemma {:induction false} MarkedTail(gap: string, mark: string, text: string)
    requires gap != "" && AllWs(gap) && mark in {"#", "//"}
    ensures IsTail(gap + mark + text) && TrimStartLen(gap + mark + text) == |gap|
  {
    hide IsWs;
    assert gap + mark + text == gap + (mark + text);
    assert (mark + text)[0] == mark[0] && (|mark| > 1 ==> (mark + text)[1] == mark[1]);
    assert !IsWs('#') && !IsWs('/') by { MarksVisible(); }
    TrimStartUnique(gap, mark + text);
  }

  lemma {:induction false} MarksVisible()
    ensures !IsWs('#') && !IsWs('/')
  {
  }

  /** Behind white space, `#` or `//` and all that follows does not change how a line is read. */
  lemma {:induction false} CommentIgnored(b: string, gap: string, mark: string, text: string)
    requires IsBody(b) && gap != "" && AllWs(gap) && mark in {"#", "//"}
    ensures Shows(ViewOf(b + (gap + mark + text)), b)
  {
    hide ViewOf, IsBody, IsTail, Shows;
    MarkedTail(gap, mark, text);
    EmptyLead(b, gap + mark + text);
    LineShows(b + (gap + mark + text), "", b, gap + mark + text);
  }

  /** A line that begins with one of them is skipped. */
  lemma {:induction false} CommentSkipped(lead: string, mark: string, text: string)
    requires AllWs(lead) && mark in {"#", "//"}
    ensures ViewOf(lead + (mark + text)) == Skip
  {
    hide IsWs, ParseOuter, InnerView, TrimEndLen, TrimStartLen;
    MarksVisible();
    var s := mark + text;
    assert s[0] == mark[0] && (|mark| > 1 ==> s[1] == mark[1]);
    TrimStartUnique(lead, s);
    StartKept(s);
  }

  /** Without white space in front a `#` is part of the text. */
  lemma {:induction false} MarkInside(a: string, text: string)
    requires IsBody(a) && text != "" && forall i | 0 <= i < |text| :: !IsWs(text[i])
    ensures IsBody(a + ("#" + text)) && StripComment(a + ("#" + text)) == a + ("#" + text)
  {
    var s := a + ("#" + text);
    forall i | 0 <= i < |s| ensures !CommentStart(s, i) {
      if i < |a| {
        assert s[i] == a[i] && (i > 0 ==> s[i - 1] == a[i - 1]) && (i + 1 < |a| ==> s[i + 1] == a[i + 1]);
        assert !CommentStart(a, i);
      } else if i > |a| {
        assert s[i - 1] == ("#" + text)[i - 1 - |a|];
      }
    }
    assert s[0] == a[0] && !MarkAt(a, 0);
    assert |a| > 1 ==> s[1] == a[1];
    assert FirstComment(s, 0).None?;
    assert s[..|s|] == s;
  }

  /** A line printed in place of another takes over its comment verbatim, and nothing else. */
  lemma {:induction false} CommentKept(new': string, prev: string, lead: string, b: string, t: string)
    requires IsLine(prev, lead, b, t)
    ensures WithComment(new', prev) == if TrimStartLen(t) < |t| then new' + t else new'
  {
    hide IsBody, IsTail, CommentAt;
    CommentAtLine(prev, lead, b, t);
    TailBound(t);
    assert prev[|lead| + |b|..] == t;
  }

  lemma {:induction false} TailBound(t: string)
    ensures TrimStartLen(t) <= |t|
  {
  }

  /** So the entry that replaces a single-line rule carries the comment of that rule. */
  lemma {:induction false} ItemKeeps(line: string, lead: string, b: string, t: string)
    requires IsLine(line, lead, b, t) && ParseBody(b).Single? && TrimStartLen(t) < |t|
    ensures var o := ParseBody(b); ItemOf(line) == Some("\t" + o.thread + "=" + o.cpus + TrimEnd(t))
  {
    hide ViewOf, IsBody, IsTail, ParseBody, Trim, WithComment, TrimStartLen, ItemOf;
    LineShows(line, lead, b, t);
    TrimLine(line, lead, b, t);
    TrimmedTail(t);
    ItemParts(line);
    TailVisible(t);
    CommentKept(EntryLine(ParseBody(b).thread, ParseBody(b).cpus), Trim(line), "", b, TrimEnd(t));
  }

  lemma {:induction false} TailVisible(t: string)
    requires TrimStartLen(t) < |t|
    ensures TrimEnd(t) != ""
  {
    assert !IsWs(t[TrimStartLen(t)]);
    assert TrimEndLen(t) > TrimStartLen(t);
  }

  // ---- single-line rules

  /** `pkg{thread}=spec` is the thread rule it looks like. */
  lemma {:induction false} SingleReads(pkg: string, thread: string, spec: string)
    requires IsBody(pkg) && '{' !in pkg && thread != "" && Trimmed(thread)
    requires spec != "" && Trimmed(spec) && '=' !in spec && spec[|spec| - 1] != '{'
    ensures ParseBody(pkg + "{" + (thread + "}=" + spec)) == Single(pkg, thread, spec, false)
  {
    hide IsBody, ParseBody, BehindBrace, Trim;
    var x := thread + "}=" + spec;
    BehindOf(thread, spec);
    BodyTrim(pkg);
    assert x[|x| - 1] == spec[|spec| - 1];
    ParseBehind(pkg, x);
  }

  lemma {:induction false} BodyTrim(b: string)
    requires IsBody(b)
    ensures Trim(b) == b && b != ""
  {
    hide Trim;
    TrimOfTrimmed(b);
  }

  /** With ` {` behind it, it also opens the package's block. */
  lemma {:induction false} SingleOpens(pkg: string, thread: string, spec: string)
    requires IsBody(pkg) && '{' !in pkg && thread != "" && Trimmed(thread)
    requires spec != "" && Trimmed(spec) && '=' !in spec
    ensures ParseBody(pkg + "{" + (thread + "}=" + spec + " {")) == Single(pkg, thread, spec, true)
  {
    hide IsBody, ParseBody, BehindBrace, Trim, TrimEndLen;
    var y := thread + "}=" + spec;
    var x := y + " {";
    BehindOf(thread, spec);
    BodyTrim(pkg);
    assert x[..|x| - 1] == y + " ";
    assert y[|y| - 1] == spec[|spec| - 1];
    TrimEndUnique(y, " ");
    ParseBehind(pkg, x);
  }
}
