/**
 * One line of the rule file, character by character: comments, in-block rules,
 * block closers, single-line rules and outer lines.
 */
module RuleSyntax {
  import opened Text

  // ---- comments

  /** A `#` or `//` at position `i`. */
  predicate MarkAt(s: string, i: nat)
    requires i < |s|
  {
    s[i] == '#' || (s[i] == '/' && i + 1 < |s| && s[i + 1] == '/')
  }

  /** An inline comment begins at a mark that follows white space. */
  predicate CommentStart(s: string, i: nat)
    requires i < |s|
  {
    i > 0 && IsWs(s[i - 1]) && MarkAt(s, i)
  }

  predicate NoComment(s: string) {
    forall i | 0 <= i < |s| :: !CommentStart(s, i)
  }

  /** The whole line is a comment. */
  predicate StartsComment(p: string) {
    p != "" && MarkAt(p, 0)
  }

  function FirstComment(s: string, from: nat): (r: Option<nat>)
    requires from <= |s|
    ensures r.None? ==> forall i | from <= i < |s| :: !CommentStart(s, i)
    ensures r.Some? ==> from <= r.value < |s| && CommentStart(s, r.value)
                        && forall i | from <= i < r.value :: !CommentStart(s, i)
    decreases |s| - from
  {
    if from == |s| then None
    else if CommentStart(s, from) then Some(from)
    else FirstComment(s, from + 1)
  }

  /** Where the text before the inline comment ends, white space excluded. */
  function CommentAt(s: string): (r: Option<nat>)
    ensures r.Some? ==> r.value <= |s|
  {
    match FirstComment(s, 0)
    case None => None
    case Some(i) => Some(TrimEndLen(s[..i]))
  }

  /** The same search as the source writes it: one pass with a "previous was white space" flag. */
  method FindComment(s: string) returns (r: Option<nat>)
    ensures r == CommentAt(s)
  {
    var prevWs := false;
    for i := 0 to |s|
      invariant FirstComment(s, 0) == FirstComment(s, i)
      invariant prevWs == (i > 0 && IsWs(s[i - 1]))
    {
      if prevWs && MarkAt(s, i) {
        return Some(TrimEndLen(s[..i]));
      }
      prevWs := IsWs(s[i]);
    }
    r := None;
  }

  function CutAt(s: string): (n: nat)
    ensures n <= |s|
  {
    match CommentAt(s) case None => |s| case Some(n) => n
  }

  function StripComment(s: string): string { s[..CutAt(s)] }

  // ---- in-block rules

  /** `name = spec`, split at the last `=`; a blank name is no rule. */
  function Kv(s: string): Option<(string, string)> {
    match RFind(s, '=')
    case None => None
    case Some(eq) =>
      var k := Trim(s[..eq]);
      if k == "" then None else Some((k, Trim(s[eq + 1..])))
  }

  /** A `}` closes the block when the text before it already is a rule. */
  predicate ClosesAt(s: string, i: nat)
    requires i < |s|
  {
    s[i] == '}' && Kv(s[..i]).Some?
  }

  function ClosingBrace(s: string, from: nat): (r: Option<nat>)
    requires from <= |s|
    ensures r.None? ==> forall i | from <= i < |s| :: !ClosesAt(s, i)
    ensures r.Some? ==> from <= r.value < |s| && ClosesAt(s, r.value)
                        && forall i | from <= i < r.value :: !ClosesAt(s, i)
    decreases |s| - from
  {
    if from == |s| then None
    else if ClosesAt(s, from) then Some(from)
    else ClosingBrace(s, from + 1)
  }

  /** An in-block rule without its comment: name, spec, and whether it closes the block. */
  function SplitBody(b: string): Option<(string, string, bool)> {
    match ClosingBrace(b, 0)
    case Some(cb) => var kv := Kv(b[..cb]).value; Some((kv.0, kv.1, true))
    case None =>
      match Kv(b)
      case None => None
      case Some(kv) => Some((kv.0, kv.1, false))
  }

  function SplitRuleLine(p: string): Option<(string, string, bool)> {
    SplitBody(StripComment(p))
  }

  predicate CloseLike(p: string) {
    && p != "" && p[0] == '}'
    && (|p| == 1 || IsWs(p[1]) || MarkAt(p, 1))
  }

  // ---- outer lines

  datatype Outer =
    | Rule(pkg: string, cpus: string, open: bool)
    | BareOpen(pkg: string)
    | Pending(pkg: string)
    | Single(pkg: string, thread: string, cpus: string, open: bool)
    | Junk

  /** The left side of a single-line rule, `pkg{thread}`. */
  function SplitTarget(l: string): Option<(string, string)> {
    if l == "" || l[|l| - 1] != '}' then None
    else
      var left := TrimEnd(l[..|l| - 1]);
      match Find(left, '{')
      case None => None
      case Some(ob) =>
        var pkg, thread := Trim(left[..ob]), Trim(left[ob + 1..]);
        if pkg == "" || thread == "" then None else Some((pkg, thread))
  }

  /** `pkg{thread}=spec`. */
  function SplitSingle(body: string): Option<(string, string, string)> {
    match RFind(body, '=')
    case None => None
    case Some(eq) =>
      match SplitTarget(TrimEnd(body[..eq]))
      case None => None
      case Some(t) => Some((t.0, t.1, Trim(body[eq + 1..])))
  }

  /** A final `{` opens a block; the rest is the line's content. */
  function OpenBody(b: string): (bool, string) {
    if b != "" && b[|b| - 1] == '{' then (true, TrimEnd(b[..|b| - 1])) else (false, b)
  }

  function ParseContent(open: bool, body: string): Outer {
    match SplitSingle(body)
    case Some(s) => Single(s.0, s.1, s.2, open)
    case None =>
      if !open && CloseLike(body) then Junk
      else
        match RFind(body, '=')
        case None => if open then BareOpen(body) else Pending(body)
        case Some(eq) =>
          var pkg, cpus := Trim(body[..eq]), Trim(body[eq + 1..]);
          if cpus == "" then (if open then BareOpen(pkg) else Pending(pkg))
          else Rule(pkg, cpus, open)
  }

  function ParseBody(b: string): Outer {
    var (open, body) := OpenBody(b);
    ParseContent(open, body)
  }

  function ParseOuter(p: string): Outer { ParseBody(StripComment(p)) }

  // ---- CPU specs

  predicate IsDigit(c: char) { '0' <= c <= '9' }

  predicate AllDigits(s: string) {
    forall i | 0 <= i < |s| :: IsDigit(s[i])
  }

  const TierNames := {"e-core", "p-core", "hp-core", "all-core"}

  /** One comma-separated part of a spec, trimmed and not blank. */
  predicate PartLike(t: string) {
    || t in TierNames
    || AllDigits(t)
    || (match Find(t, '-')
        case None => false
        case Some(i) => i > 0 && i + 1 < |t| && AllDigits(t[..i]) && AllDigits(t[i + 1..]))
  }

  predicate SpecLike(s: string) {
    var parts := Split(s, ',');
    && (exists i | 0 <= i < |parts| :: Trim(parts[i]) != "")
    && (forall i | 0 <= i < |parts| :: Trim(parts[i]) == "" || PartLike(Trim(parts[i])))
  }

  /** The shape check as the source runs it, part by part with a "seen any" flag. */
  method CheckSpec(s: string) returns (ok: bool)
    ensures ok == SpecLike(s)
  {
    var parts := Split(s, ',');
    var any := false;
    for i := 0 to |parts|
      invariant any == exists k | 0 <= k < i :: Trim(parts[k]) != ""
      invariant forall k | 0 <= k < i :: Trim(parts[k]) == "" || PartLike(Trim(parts[k]))
    {
      var t := Trim(parts[i]);
      if t == "" {
        continue;
      }
      any := true;
      if !PartLike(t) {
        return false;
      }
    }
    return any;
  }

  // ---- what a line means

  datatype Inner =
    | Close
    | Entry(name: string, spec: string, closed: bool)
    | Noise(closes: bool)

  /** A line read both ways: as a line inside a block and as an outer line. */
  datatype View = Skip | Text(inner: Inner, outer: Outer)

  function InnerView(p: string): Inner {
    if CloseLike(p) then Close
    else
      match SplitRuleLine(p)
      case Some(e) => Entry(e.0, e.1, e.2)
      case None => Noise('}' in p)
  }

  function ViewOf(raw: string): View {
    var p := Trim(raw);
    if p == "" || StartsComment(p) then Skip else Text(InnerView(p), ParseOuter(p))
  }

  // ---- what the editor prints

  function WithComment(newLine: string, prev: string): string {
    match CommentAt(prev)
    case None => newLine
    case Some(n) => newLine + prev[n..]
  }

  function BareOpenLine(pkg: string): string {
    if '=' in pkg then pkg + "= {" else pkg + " {"
  }

  function EntryLine(thread: string, cpus: string): string { "\t" + thread + "=" + cpus }

  function RuleLine(pkg: string, cpus: string): string { pkg + "=" + cpus }

  function RuleOpenLine(pkg: string, cpus: string): string { pkg + "=" + cpus + " {" }

  /** The value ends at white space or a brace. */
  function ValueEnd(val: string): (n: nat)
    ensures n <= |val|
    ensures forall i | 0 <= i < n :: !IsWs(val[i]) && val[i] != '{' && val[i] != '}'
    ensures n < |val| ==> IsWs(val[n]) || val[n] == '{' || val[n] == '}'
  {
    if val == "" || IsWs(val[0]) || val[0] == '{' || val[0] == '}' then 0
    else
      var n := ValueEnd(val[1..]);
      assert forall i | 1 <= i <= n :: val[i] == val[1..][i - 1];
      n + 1
  }

  /** White space and braces survive a spec replacement. */
  function KeepFrame(s: string): string {
    if s == "" then ""
    else
      (if IsWs(s[0]) || s[0] == '{' || s[0] == '}' then [s[0]] else "") + KeepFrame(s[1..])
  }

  /** What stays behind the replaced value. */
  function SwapTail(val: string): string { KeepFrame(val[ValueEnd(val)..]) }

  /** Put `cpus` in place of the value after the `=` at `eq`; the line's text ends at `cut`. */
  function SwapFrom(raw: string, cut: nat, eq: nat, cpus: string): string
    requires eq < cut <= |raw|
  {
    var rhs := raw[eq + 1..cut];
    var lead := TrimStartLen(rhs);
    raw[..eq + 1 + lead] + cpus + SwapTail(rhs[lead..]) + raw[cut..]
  }

  /** Replace the spec of a line in place, keeping spacing, braces and the comment. */
  function SpecSwap(raw: string, cpus: string): string {
    match RFind(raw[..CutAt(raw)], '=')
    case None => raw
    case Some(eq) => SwapFrom(raw, CutAt(raw), eq, cpus)
  }
}
