/**
 * What the editor prints is read back as meant: one lemma per kind of printed line,
 * with the exact condition on the names where one is needed.
 */
module LinePrint {
  import opened Text
  import opened RuleSyntax
  import opened LineShape

  /** A spec without the characters that would change how its line is split. */
  predicate PlainSpec(s: string) {
    Trimmed(s) && NoComment(s) && '=' !in s && '}' !in s
  }

  /** A thread name that an in-block line gives back unchanged. */
  predicate EntryNameOk(name: string) {
    && IsBody(name)
    && !CloseLike(name + "=")
    && forall i | 0 <= i < |name| :: !ClosesAt(name, i)
  }

  /** A package name that can stand before `=` in a block header. */
  predicate HeaderOk(pkg: string) {
    IsBody(pkg) && SplitTarget(pkg).None?
  }

  /** A package name that can head a block without a spec. */
  predicate BareOk(pkg: string) {
    IsBody(pkg) && ('=' !in pkg || SplitTarget(pkg).None?)
  }

  /** A package name that can carry a spec on a line of its own. */
  predicate RulePkgOk(pkg: string) {
    HeaderOk(pkg) && !CloseLike(pkg + "=")
  }

  // ---- joining text

  /** No comment starts where `=` separates two comment-free texts. */
  lemma {:induction false} JoinNoComment(a: string, b: string)
    requires NoComment(a) && NoComment(b)
    ensures NoComment(a + "=" + b)
  {
    var s := a + "=" + b;
    forall i | 0 <= i < |s| ensures !CommentStart(s, i) {
      if i < |a| {
        assert s[i] == a[i] && (i > 0 ==> s[i - 1] == a[i - 1]);
        assert i + 1 < |a| ==> s[i + 1] == a[i + 1];
        assert !CommentStart(a, i);
      } else if i > |a| {
        var j := i - |a| - 1;
        assert s[i] == b[j];
        assert j + 1 < |b| ==> s[i + 1] == b[j + 1];
        assert j > 0 ==> s[i - 1] == b[j - 1];
        assert !CommentStart(b, j);
      }
    }
  }

  /** The first characters decide `CloseLike`, so what follows `=` does not matter. */
  lemma {:induction false} CloseLikeBeforeEq(a: string, b: string)
    requires a != ""
    ensures CloseLike(a + "=" + b) == CloseLike(a + "=")
  {
    var s, t := a + "=" + b, a + "=";
    assert s[0] == t[0] && s[1] == t[1];
    assert |a| > 1 ==> s[2] == t[2];
  }

  lemma {:induction false} JoinBody(a: string, b: string)
    requires IsBody(a) && NoComment(b) && Trimmed(b)
    ensures IsBody(a + "=" + b)
  {
    var s := a + "=" + b;
    JoinNoComment(a, b);
    assert s[0] == a[0] && s[1] == (a + "=")[1];
    assert !MarkAt(a, 0);
    assert |a| > 1 ==> s[1] == a[1];
    assert b != "" ==> s[|s| - 1] == b[|b| - 1];
  }

  lemma {:induction false} KvJoin(a: string, b: string)
    requires '=' !in b
    ensures RFind(a + "=" + b, '=') == Some(|a|)
    ensures Kv(a + "=" + b) == if Trim(a) == "" then None else Some((Trim(a), Trim(b)))
  {
    RFindUnique(a, '=', b);
    var s := a + ['='] + b;
    assert s == a + "=" + b;
    assert s[..|a|] == a && s[|a| + 1..] == b;
  }

  // ---- in-block rules

  /** No brace of `name=spec` closes the block, unless one in the name does. */
  lemma {:induction false} NoClosingBrace(name: string, spec: string)
    requires '}' !in spec && forall i | 0 <= i < |name| :: !ClosesAt(name, i)
    ensures ClosingBrace(name + "=" + spec, 0) == None
  {
    var s := name + "=" + spec;
    forall i | 0 <= i < |s| ensures !ClosesAt(s, i) {
      if i < |name| {
        assert s[..i] == name[..i] && s[i] == name[i];
        assert !ClosesAt(name, i);
      } else if i > |name| {
        assert s[i] == spec[i - |name| - 1];
      }
    }
  }

  lemma {:induction false} EntryBody(name: string, spec: string)
    requires EntryNameOk(name) && PlainSpec(spec)
    ensures IsBody(name + "=" + spec) && !CloseLike(name + "=" + spec)
    ensures SplitBody(name + "=" + spec) == Some((name, spec, false))
  {
    JoinBody(name, spec);
    CloseLikeBeforeEq(name, spec);
    NoClosingBrace(name, spec);
    KvJoin(name, spec);
    TrimOfTrimmed(name);
    TrimOfTrimmed(spec);
  }

  lemma {:induction false} TabJoin(name: string, spec: string, t: string)
    ensures EntryLine(name, spec) + t == "\t" + (name + "=" + spec) + t
  {
    assert "\t" + name + "=" + spec == "\t" + (name + "=" + spec);
  }

  /** A printed in-block rule, with or without a comment behind it, reads back. */
  lemma {:induction false} EntryLineShows(name: string, spec: string, t: string)
    requires EntryNameOk(name) && PlainSpec(spec) && IsTail(t)
    ensures ViewOf(EntryLine(name, spec) + t).Text?
    ensures ViewOf(EntryLine(name, spec) + t).inner == Entry(name, spec, false)
  {
    hide ViewOf, IsBody, IsTail, SplitBody, EntryNameOk, PlainSpec, CloseLike;
    var b := name + "=" + spec;
    EntryBody(name, spec);
    TabJoin(name, spec, t);
    LineShows("\t" + b + t, "\t", b, t);
  }

  /** Behind a mark at its beginning the whole printed line is a comment. */
  lemma {:induction false} MarkedSkips(name: string, spec: string)
    requires Trimmed(name) && StartsComment(name) && Trimmed(spec)
    ensures ViewOf(EntryLine(name, spec)) == Skip
  {
    hide Trim;
    var b := name + "=" + spec;
    assert b[0] == name[0] && b[|b| - 1] == (if spec == "" then '=' else spec[|spec| - 1]);
    assert name[0] == '/' ==> b[1] == name[1];
    assert EntryLine(name, spec) == "\t" + b + "";
    TrimUnique("\t", b, "");
  }

  /** ... and the condition on the name is exact, for every trimmed name without an inline comment. */
  lemma {:induction false} EntryLineExact(name: string, spec: string)
    requires name != "" && Trimmed(name) && NoComment(name) && PlainSpec(spec)
    ensures EntryNameOk(name) <==> ViewOf(EntryLine(name, spec)).Text?
                                   && ViewOf(EntryLine(name, spec)).inner == Entry(name, spec, false)
  {
    hide ViewOf, EntryNameOk, PlainSpec;
    if StartsComment(name) {
      MarkedSkips(name, spec) by { PlainTrimmed(spec); }
      MarkedNot(name);
    } else {
      BodyExact(name, spec);
    }
  }

  lemma {:induction false} PlainTrimmed(spec: string)
    requires PlainSpec(spec)
    ensures Trimmed(spec)
  {
  }

  lemma {:induction false} MarkedNot(name: string)
    requires StartsComment(name)
    ensures !EntryNameOk(name)
  {
  }

  lemma {:induction false} BodyExact(name: string, spec: string)
    requires IsBody(name) && PlainSpec(spec)
    ensures EntryNameOk(name) <==> ViewOf(EntryLine(name, spec)).Text?
                                   && ViewOf(EntryLine(name, spec)).inner == Entry(name, spec, false)
  {
    var b := name + "=" + spec;
    JoinBody(name, spec);
    assert EntryLine(name, spec) == "\t" + b + "";
    LineShows("\t" + b + "", "\t", b, "");
    CloseLikeBeforeEq(name, spec);
    if EntryNameOk(name) {
      EntryBody(name, spec);
    } else if !CloseLike(name + "=") {
      var i :| 0 <= i < |name| && ClosesAt(name, i);
      assert b[..i] == name[..i] && b[i] == name[i];
      assert ClosesAt(b, i);
      assert ClosingBrace(b, 0).Some?;
    }
  }

  /** Trimming text that does not start with white space keeps a prefix. */
  lemma {:induction false} TrimPrefix(a: string)
    requires a != "" && !IsWs(a[0])
    ensures var n := TrimEndLen(a); 0 < n && Trim(a) == a[..n] && AllWs(a[n..])
  {
    assert "" + a == a;
    TrimStartUnique("", a);
  }

  lemma {:induction false} ParsedKv(q: string)
    requires q != "" && !IsWs(q[0]) && Kv(q).Some?
    ensures var eq := RFind(q, '=').value; var k := Kv(q).value.0;
            0 < |k| <= eq && k == q[..|k|] && AllWs(q[|k|..eq])
  {
    var eq := RFind(q, '=').value;
    var a := q[..eq];
    if a == "" {
      TrimBlank(a);
    } else {
      TrimPrefix(a);
      var n := TrimEndLen(a);
      assert a[..n] == q[..n] && a[n..] == q[n..eq];
    }
  }

  lemma {:induction false} SubNoComment(b: string, i: nat, j: nat)
    requires NoComment(b) && i <= j <= |b|
    ensures NoComment(b[i..j])
  {
    var s := b[i..j];
    forall k | 0 <= k < |s| ensures !CommentStart(s, k) {
      assert s[k] == b[i + k] && (k > 0 ==> s[k - 1] == b[i + k - 1]);
      assert k + 1 < |s| ==> s[k + 1] == b[i + k + 1];
      assert !CommentStart(b, i + k);
    }
  }

  lemma {:induction false} TrimNoComment(s: string)
    requires NoComment(s)
    ensures NoComment(Trim(s)) && Trimmed(Trim(s))
    ensures forall c | c in Trim(s) :: c in s
  {
    var lead, tail := TrimParts(s);
    var i := |lead|;
    assert s[i..i + |Trim(s)|] == Trim(s);
    SubNoComment(s, i, i + |Trim(s)|);
  }

  /** Cutting a rule short after its `=` keeps its key. */
  lemma {:induction false} KvPrefix(q: string, j: nat)
    requires Kv(q).Some? && RFind(q, '=').value < j <= |q|
    ensures Kv(q[..j]).Some?
  {
    var eq := RFind(q, '=').value;
    var r := q[..j];
    var x := RFind(r, '=');
    assert r[eq] == '=' && x.Some?;
    assert r[x.value] == q[x.value];
    assert x.value == eq;
    assert r[..eq] == q[..eq];
  }

  /** After the key's `=`, the first `}` closes; so a parsed spec holds none. */
  lemma {:induction false} NoBraceInSpec(b: string, q: string, j: nat)
    requires q <= b && Kv(q).Some? && RFind(q, '=').value < j < |q|
    requires forall i | 0 <= i < |q| :: !ClosesAt(b, i)
    ensures q[j] != '}'
  {
    KvPrefix(q, j);
    assert q[..j] == b[..j] && b[j] == q[j];
    assert !ClosesAt(b, j);
  }

  /** Whatever an in-block line parses to can be printed again: no condition on the name. */
  lemma {:induction false} ParsedEntry(b: string)
    requires IsBody(b) && !CloseLike(b) && SplitBody(b).Some?
    ensures EntryNameOk(SplitBody(b).value.0) && PlainSpec(SplitBody(b).value.1)
  {
    hide IsBody, CloseLike, Kv, EntryNameOk, PlainSpec, Trim;
    var q := match ClosingBrace(b, 0) case Some(cb) => b[..cb] case None => b;
    ParsedKey(b, q);
    ParsedName(b, q, Kv(q).value.0);
    ParsedSpec(b, q);
  }

  lemma {:induction false} ParsedKey(b: string, q: string)
    requires IsBody(b) && q <= b && Kv(q).Some?
    ensures var k := Kv(q).value.0; k != "" && k < q && Trimmed(k)
  {
    var eq := RFind(q, '=').value;
    assert q[0] == b[0];
    ParsedKv(q);
    var lead, tail := TrimParts(q[..eq]);
  }

  lemma {:induction false} ParsedName(b: string, q: string, k: string)
    requires IsBody(b) && !CloseLike(b) && q <= b && k != "" && k < q && Trimmed(k)
    requires forall i | 0 <= i < |q| :: !ClosesAt(b, i)
    ensures EntryNameOk(k)
  {
    assert k == b[0..|k|];
    SubNoComment(b, 0, |k|);
    assert k[0] == b[0];
    assert |k| > 1 ==> k[1] == b[1];
    assert |k| > 2 ==> k[2] == b[2];
    assert !MarkAt(b, 0);
    var s := k + "=";
    assert s[0] == b[0] && (|k| > 1 ==> s[1] == b[1]) && (|k| == 1 ==> s[1] == '=');
    assert |k| > 2 ==> s[2] == b[2];
    assert |k| == 2 ==> s[2] == '=';
    forall i | 0 <= i < |k| ensures !ClosesAt(k, i) {
      assert k[..i] == b[..i] && k[i] == b[i];
      assert !ClosesAt(b, i);
    }
  }

  lemma {:induction false} ParsedSpec(b: string, q: string)
    requires IsBody(b) && q <= b && Kv(q).Some?
    requires forall i | 0 <= i < |q| :: !ClosesAt(b, i)
    ensures PlainSpec(Kv(q).value.1)
  {
    var eq := RFind(q, '=').value;
    var v := q[eq + 1..];
    assert v == b[eq + 1..|q|];
    SubNoComment(b, eq + 1, |q|);
    TrimNoComment(v);
    forall i | 0 <= i < |v| ensures v[i] != '=' && v[i] != '}' {
      assert v[i] == q[eq + 1 + i];
      NoBraceInSpec(b, q, eq + 1 + i);
    }
  }
}
