/** Facts about concatenation, proved where nothing else is in the solver's way. */
module Seqs {

  lemma ConsDrop<T>(a: seq<T>, b: seq<T>)
    requires a != []
    ensures a + b != [] && (a + b)[0] == a[0] && (a + b)[1..] == a[1..] + b
  {
  }

  lemma NilLeft<T>(a: seq<T>)
    ensures [] + a == a && a + [] == a
  {
  }

  lemma Assoc3<T>(a: seq<T>, b: seq<T>, c: seq<T>)
    ensures a + b + c == a + (b + c)
  {
  }

  lemma Uncons<T>(s: seq<T>)
    requires s != []
    ensures s == [s[0]] + s[1..]
  {
  }

  lemma SplitAt<T>(s: seq<T>, i: nat)
    requires i <= |s|
    ensures s == s[..i] + s[i..]
  {
  }

  lemma SplitAround<T>(s: seq<T>, i: nat)
    requires i < |s|
    ensures s == s[..i] + [s[i]] + s[i + 1..]
    ensures s[..i + 1] == s[..i] + [s[i]]
  {
  }

  lemma UpdateAround<T>(s: seq<T>, i: nat, x: T)
    requires i < |s|
    ensures s[i := x] == s[..i] + [x] + s[i + 1..]
  {
  }

  lemma TakeAll<T>(s: seq<T>)
    ensures s[..|s|] == s && s[..0] == []
  {
  }

  lemma PrefixOf<T>(a: seq<T>, b: seq<T>)
    ensures (a + b)[..|a|] == a && (a + b)[|a|..] == b
  {
  }
}

/** Strings as the rule files see them: Unicode white space, trimming, searching and splitting. */
module Text {

  datatype Option<+T> = None | Some(value: T)

  /** `char::is_whitespace`: the Unicode White_Space property. */
  predicate IsWs(c: char) {
    || '\t' <= c <= '\r'
    || c == ' '
    || c == '\U{0085}'
    || c == '\U{00A0}'
    || c == '\U{1680}'
    || '\U{2000}' <= c <= '\U{200A}'
    || c == '\U{2028}'
    || c == '\U{2029}'
    || c == '\U{202F}'
    || c == '\U{205F}'
    || c == '\U{3000}'
  }

  predicate AllWs(s: string) {
    forall i | 0 <= i < |s| :: IsWs(s[i])
  }

  /** No white space at either end. */
  predicate Trimmed(s: string) {
    s != "" ==> !IsWs(s[0]) && !IsWs(s[|s| - 1])
  }

  /** How much of `s` survives `trim_end`. */
  function TrimEndLen(s: string): (n: nat)
    ensures n <= |s| && forall i | n <= i < |s| :: IsWs(s[i])
    ensures n > 0 ==> !IsWs(s[n - 1])
  {
    if s == "" || !IsWs(s[|s| - 1]) then |s| else TrimEndLen(s[..|s| - 1])
  }

  /** How much white space `trim_start` drops. */
  function TrimStartLen(s: string): (n: nat)
    ensures n <= |s| && forall i | 0 <= i < n :: IsWs(s[i])
    ensures n < |s| ==> !IsWs(s[n])
  {
    if s == "" || !IsWs(s[0]) then 0 else
    var n := TrimStartLen(s[1..]);
    assert forall i | 1 <= i <= n :: s[i] == s[1..][i - 1];
    n + 1
  }

  function TrimEnd(s: string): string { s[..TrimEndLen(s)] }

  function TrimStart(s: string): string { s[TrimStartLen(s)..] }

  function Trim(s: string): string { TrimEnd(TrimStart(s)) }

  lemma {:induction false} TrimEndUnique(body: string, tail: string)
    requires AllWs(tail) && (body != "" ==> !IsWs(body[|body| - 1]))
    ensures TrimEndLen(body + tail) == |body| && TrimEnd(body + tail) == body
  {
    hide TrimEndLen, IsWs;
    var s := body + tail;
    assert body != "" ==> s[|body| - 1] == body[|body| - 1];
    assert forall i | |body| <= i < |s| :: s[i] == tail[i - |body|];
    assert s[..|body|] == body;
  }

  lemma {:induction false} TrimStartUnique(lead: string, body: string)
    requires AllWs(lead) && (body != "" ==> !IsWs(body[0]))
    ensures TrimStartLen(lead + body) == |lead| && TrimStart(lead + body) == body
  {
    hide TrimStartLen, IsWs;
    var s := lead + body;
    assert body != "" ==> s[|lead|] == body[0];
    assert forall i | 0 <= i < |lead| :: s[i] == lead[i];
    assert s[|lead|..] == body;
  }

  /** Trimming finds the core of a string between white space, and only that. */
  lemma {:induction false} TrimUnique(lead: string, body: string, tail: string)
    requires AllWs(lead) && AllWs(tail) && body != "" && Trimmed(body)
    ensures Trim(lead + body + tail) == body
  {
    assert lead + body + tail == lead + (body + tail);
    TrimStartUnique(lead, body + tail);
    TrimEndUnique(body, tail);
  }

  lemma {:induction false} TrimOfTrimmed(s: string)
    requires Trimmed(s)
    ensures Trim(s) == s
  {
    if s != "" {
      TrimUnique("", s, "");
      assert "" + s + "" == s;
    }
  }

  /** What `trim` removes, and what it leaves. */
  lemma {:induction false} TrimParts(s: string) returns (lead: string, tail: string)
    ensures AllWs(lead) && AllWs(tail) && Trimmed(Trim(s))
    ensures s == lead + Trim(s) + tail
  {
    var i := TrimStartLen(s);
    var r := TrimStart(s);
    var n := TrimEndLen(r);
    lead, tail := s[..i], r[n..];
    assert r != "" ==> r[0] == s[i];
    SlicesJoin(s, i, n);
  }

  lemma {:induction false} SlicesJoin(s: string, i: nat, n: nat)
    requires i + n <= |s|
    ensures s == s[..i] + s[i..][..n] + s[i..][n..]
  {
  }

  lemma {:induction false} TrimKeeps(s: string, i: nat)
    requires i < |s| && !IsWs(s[i])
    ensures s[i] in Trim(s)
  {
    hide Trim, IsWs;
    var lead, tail := TrimParts(s);
    InMiddle(lead, Trim(s), tail, i);
  }

  lemma {:induction false} InMiddle(a: string, b: string, c: string, i: nat)
    requires i < |a + b + c|
    ensures i < |a| ==> (a + b + c)[i] == a[i]
    ensures |a| <= i < |a| + |b| ==> (a + b + c)[i] in b
    ensures i >= |a| + |b| ==> (a + b + c)[i] == c[i - |a| - |b|]
  {
    if |a| <= i < |a| + |b| {
      assert (a + b + c)[i] == b[i - |a|];
    }
  }

  lemma {:induction false} TrimBlank(s: string)
    requires AllWs(s)
    ensures Trim(s) == ""
  {
    TrimStartUnique(s, "");
    assert s + "" == s;
  }

  /** The first occurrence of `c`. */
  function Find(s: string, c: char): (r: Option<nat>)
    ensures r.None? <==> c !in s
    ensures r.Some? ==> r.value < |s| && s[r.value] == c && forall k | 0 <= k < r.value :: s[k] != c
  {
    if s == "" then None
    else if s[0] == c then Some(0)
    else
      match Find(s[1..], c)
      case None => assert s == [s[0]] + s[1..]; None
      case Some(i) => assert forall k | 1 <= k <= i :: s[k] == s[1..][k - 1]; Some(i + 1)
  }

  /** The last occurrence of `c`. */
  function RFind(s: string, c: char): (r: Option<nat>)
    ensures r.None? <==> c !in s
    ensures r.Some? ==> r.value < |s| && s[r.value] == c && forall k | r.value < k < |s| :: s[k] != c
  {
    if s == "" then None
    else if s[|s| - 1] == c then Some(|s| - 1)
    else
      var t := s[..|s| - 1];
      assert s == t + [s[|s| - 1]];
      match RFind(t, c)
      case None => None
      case Some(i) => Some(i)
  }

  lemma {:induction false} FindUnique(a: string, c: char, b: string)
    requires c !in a
    ensures Find(a + [c] + b, c) == Some(|a|)
  {
    var s := a + [c] + b;
    assert s[|a|] == c;
    assert forall k | 0 <= k < |a| :: s[k] == a[k];
  }

  lemma {:induction false} RFindUnique(a: string, c: char, b: string)
    requires c !in b
    ensures RFind(a + [c] + b, c) == Some(|a|)
  {
    var s := a + [c] + b;
    assert s[|a|] == c;
    assert forall k | |a| < k < |s| :: s[k] == b[k - |a| - 1];
  }

  /** `str::split`: never empty; the empty string has one empty part. */
  function Split(s: string, c: char): (parts: seq<string>)
    ensures parts != []
    ensures c !in s ==> parts == [s]
    decreases |s|
  {
    match Find(s, c)
    case None => [s]
    case Some(i) => [s[..i]] + Split(s[i + 1..], c)
  }

  lemma {:induction false} SplitFirst(a: string, c: char, b: string)
    requires c !in a
    ensures Split(a + [c] + b, c) == [a] + Split(b, c)
  {
    FindUnique(a, c, b);
    assert (a + [c] + b)[..|a|] == a;
    assert (a + [c] + b)[|a| + 1..] == b;
  }
}
