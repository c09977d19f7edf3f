/** What the written values of the tuning configuration mean, and which of them are accepted. */
module TuningExact {
  import opened Seqs
  import opened Text
  import opened RuleSyntax
  import opened CpuSpec
  import opened CpuRanges
  import opened Loader
  import opened SpecForms
  import opened Tuning
  import opened TuningProof

  // ---- memory limits

  /** The ways to write the `k`-th power of 1024. */
  function Spellings(k: nat): set<string>
    requires k <= 4
  {
    if k == 0 then {""}
    else if k == 1 then {"k", "kb", "kib"}
    else if k == 2 then {"m", "mb", "mib"}
    else if k == 3 then {"g", "gb", "gib"}
    else {"t", "tb", "tib"}
  }

  function Pow1024(k: nat): (p: nat)
    ensures p > 0
  {
    if k == 0 then 1 else 1024 * Pow1024(k - 1)
  }

  lemma {:induction false} Powers()
    ensures Pow1024(0) == 1 && Pow1024(1) == 0x400 && Pow1024(2) == 0x10_0000
    ensures Pow1024(3) == 0x4000_0000 && Pow1024(4) == 0x100_0000_0000
  {
    assert Pow1024(2) == 1024 * Pow1024(1);
    assert Pow1024(3) == 1024 * Pow1024(2);
    assert Pow1024(4) == 1024 * Pow1024(3);
  }

  /** A text of digits and a suffix ends with another suffix only where that one ends it too. */
  lemma {:induction false} EndsAlike(d: string, u: string, x: string)
    requires AllDigits(d) && x != "" && forall c | c in x :: !IsDigit(c)
    ensures EndsWith(d + u, x) <==> EndsWith(u, x)
  {
    var s := d + u;
    if |x| <= |u| {
      assert s[|s| - |x|..] == u[|u| - |x|..];
    } else if |x| <= |s| {
      var i := |x| - |u| - 1;
      assert x[i] in x;
      assert s[|s| - |x|..][i] == d[|d| - 1];
    }
  }

  /** Skips a suffix that does not end the written unit, and takes one that is it. */
  lemma {:induction false} SkipUnit(d: string, u: string, suffixes: seq<(string, nat)>)
    requires AllDigits(d) && suffixes != []
    requires suffixes[0].0 != "" && forall c | c in suffixes[0].0 :: !IsDigit(c)
    ensures !EndsWith(u, suffixes[0].0) ==> SplitUnit(d + u, suffixes) == SplitUnit(d + u, suffixes[1..])
    ensures suffixes[0].0 == u ==> SplitUnit(d + u, suffixes) == (d, suffixes[0].1)
  {
    hide AllDigits, EndsWith;
    EndsAlike(d, u, suffixes[0].0);
    EndsSelf(u);
    PrefixOf(d, u);
  }

  lemma {:induction false} EndsSelf(u: string)
    ensures EndsWith(u, u)
  {
    assert u[0..] == u;
  }

  lemma {:induction false} Letters()
    ensures forall i | 0 <= i < |Suffixes| :: Suffixes[i].0 != "" && forall c | c in Suffixes[i].0 :: !IsDigit(c)
  {
  }

  lemma {:induction false} UnitFrom(d: string, u: string, i: nat, at: nat)
    requires AllDigits(d) && i <= at < |Suffixes| && Suffixes[at].0 == u
    requires forall j | 0 <= j < at :: !EndsWith(u, Suffixes[j].0)
    ensures SplitUnit(d + u, Suffixes[i..]) == (d, Suffixes[at].1)
    decreases at - i
  {
    Letters();
    var rest := Suffixes[i..];
    assert rest[0] == Suffixes[i] && rest[1..] == Suffixes[i + 1..];
    SkipUnit(d, u, rest);
    if i < at {
      UnitFrom(d, u, i + 1, at);
    }
  }

  /** Where a spelling stands in the list, behind no other that ends it. */
  lemma {:induction false} SpelledAt(u: string, k: nat) returns (at: nat)
    requires 1 <= k <= 4 && u in Spellings(k)
    ensures at < |Suffixes| && Suffixes[at] == (u, Pow1024(k))
    ensures forall j | 0 <= j < at :: !EndsWith(u, Suffixes[j].0)
  {
    Powers();
    at := 3 * (4 - k) + 3 - |u|;
    assert forall j | 0 <= j < at :: |Suffixes[j].0| <= |u| ==> Suffixes[j].0[0] != u[|u| - |Suffixes[j].0|];
  }

  lemma {:induction false} BareSpelling(u: string)
    ensures u in Spellings(0) <==> u == ""
  {
  }

  lemma {:induction false} SuffixCount()
    ensures |Suffixes| == 12
  {
  }

  lemma {:induction false} UnitExact(d: string, u: string, k: nat)
    requires AllDigits(d) && k <= 4 && u in Spellings(k)
    ensures SplitUnit(d + u, Suffixes) == (d, Pow1024(k))
  {
    hide SplitUnit, Suffixes, Spellings, Pow1024;
    Powers();
    if k == 0 {
      BareSpelling(u);
      assert d + u == d;
      SuffixesHaveLetters();
      NoUnit(d, Suffixes);
    } else {
      var at := SpelledAt(u, k);
      UnitFrom(d, u, 0, at);
      assert Suffixes[0..] == Suffixes;
    }
  }

  /** Digits and a unit mean that many times a power of 1024, as long as it fits 64 bits. */
  lemma {:induction false} LimitUnits(d: string, u: string, k: nat, allowMax: bool)
    requires d != "" && AllDigits(d) && k <= 4 && u in Spellings(k)
    ensures var n := DigitsValue(d) * Pow1024(k);
            LimitText(d + u, allowMax) == if n <= U64Max then Ok(NumberText(n)) else Err
  {
    hide SplitUnit, Suffixes, Spellings, Pow1024, DigitsValue, IsWs;
    UnitExact(d, u, k);
    var n, p := DigitsValue(d), Pow1024(k);
    assert n <= n * p by { TimesGrows(n, p); }
    assert (d + u)[0] == d[0] && IsDigit(d[0]);
  }

  lemma {:induction false} TimesGrows(n: nat, p: nat)
    requires p > 0
    ensures n <= n * p
  {
  }

  lemma {:induction false} UnitSpelled(i: nat)
    requires i < |Suffixes|
    ensures Suffixes[i].0 in Spellings(4 - i / 3) && Suffixes[i].1 == Pow1024(4 - i / 3)
  {
    Powers();
  }

  /** Nothing else is a limit: `max` where it is allowed, and digits with a unit. */
  lemma {:induction false} LimitOnly(raw: string, allowMax: bool)
    requires LimitText(raw, allowMax).Ok?
    ensures (raw == "max" && allowMax && LimitText(raw, allowMax) == Ok("max"))
            || exists d, u, k | 0 <= k <= 4 && u in Spellings(k) :: raw == d + u && d != "" && AllDigits(d)
  {
    hide SplitUnit, Suffixes, Spellings, Pow1024, DigitsValue, IsWs;
    if raw != "max" {
      var (d, unit) := SplitUnit(raw, Suffixes);
      UnitIs(raw, Suffixes);
      if d == raw {
        BareSpelling("");
        assert raw == d + "";
      } else {
        var i :| 0 <= i < |Suffixes| && raw == d + Suffixes[i].0;
        UnitSpelled(i);
        SuffixCount();
      }
    }
  }

  lemma {:induction false} LowerJoin(a: string, b: string)
    ensures Lower(a + b) == Lower(a) + Lower(b)
    decreases |a|
  {
    hide LowerChar;
    if a == "" {
      NilLeft(b);
      NilLeft(Lower(b));
    } else {
      ConsDrop(a, b);
      LowerJoin(a[1..], b);
      Assoc3([LowerChar(a[0])], Lower(a[1..]), Lower(b));
    }
  }

  lemma {:induction false} LowerAt(s: string)
    ensures |Lower(s)| == |s| && forall i | 0 <= i < |s| :: Lower(s)[i] == LowerChar(s[i])
    decreases |s|
  {
    if s != "" {
      LowerAt(s[1..]);
      assert forall i | 0 < i < |s| :: s[i] == s[1..][i - 1];
    }
  }

  lemma {:induction false} SpellingLetters(u: string, k: nat)
    requires k <= 4 && u in Spellings(k)
    ensures forall i | 0 <= i < |u| :: 'a' <= u[i] <= 'z'
  {
  }

  lemma {:induction false} PlainChar(c: char)
    requires IsDigit(c) || 'a' <= LowerChar(c) <= 'z'
    ensures ' ' < c <= '~' && !IsWs(c)
  {
  }

  /** A written amount is printable and has no white space at its ends. */
  lemma {:induction false} AmountPlain(d: string, u: string, k: nat)
    requires d != "" && AllDigits(d) && k <= 4 && Lower(u) in Spellings(k)
    ensures Trimmed(d + u) && Printable7(d + u)
  {
    hide Spellings, Lower, IsWs, LowerChar;
    LowerAt(u);
    SpellingLetters(Lower(u), k);
    var s := d + u;
    forall i | 0 <= i < |s| ensures ' ' < s[i] <= '~' && !IsWs(s[i]) {
      if i < |d| {
        assert s[i] == d[i] && IsDigit(d[i]);
      } else {
        assert s[i] == u[i - |d|] && 'a' <= LowerChar(u[i - |d|]) <= 'z';
      }
      PlainChar(s[i]);
    }
  }

  /** The same for the stored value, in either case of letters. */
  lemma {:induction false} LimitReads(d: string, u: string, k: nat, allowMax: bool)
    requires d != "" && AllDigits(d) && k <= 4 && Lower(u) in Spellings(k) && |d| + |u| < 64
    ensures var n := DigitsValue(d) * Pow1024(k);
            MemoryLimit(Str(d + u), allowMax) == if n <= U64Max then Ok(Some(NumberText(n))) else Err
  {
    hide Lower, LimitText, Trim, Pow1024, DigitsValue, Spellings;
    var s := d + u;
    AmountPlain(d, u, k);
    AsciiLength(s);
    TrimOfTrimmed(s);
    LowerJoin(d, u);
    LowerDigits(d);
    LimitUnits(d, Lower(u), k, allowMax);
  }

  // ---- which values are accepted

  lemma {:induction false} MaxForbidden()
    ensures MemoryLimit(Str("max"), false).Err?
  {
    hide OptString, Lower;
    MaxAgain();
  }

  /** Swap goes from 0 to 200. */
  lemma {:induction false} SwapBounds(g: MemoryGroup, n: nat)
    requires GroupOk(g)
    ensures GroupFrom(GroupValue(g.(swappiness := Some(n)))).Ok? <==> n <= 200
  {
    hide GroupName, PathTemplate, Name, LimitOk, MemoryLimit;
    if n <= 200 {
      GroupAgain(g.(swappiness := Some(n)));
    }
  }

  lemma {:induction false} MaxStored()
    ensures StoredLimit("max", true)
  {
  }

  /** `max` is a limit for `memory_max` alone. */
  lemma {:induction false} MaxBounds(g: MemoryGroup)
    requires GroupOk(g)
    ensures GroupFrom(GroupValue(g.(memoryMax := Some("max")))) == Ok(g.(memoryMax := Some("max")))
    ensures GroupFrom(GroupValue(g.(memoryMin := Some("max")))).Err?
    ensures GroupFrom(GroupValue(g.(memoryLow := Some("max")))).Err?
    ensures GroupFrom(GroupValue(g.(memoryHigh := Some("max")))).Err?
  {
    hide GroupName, PathTemplate, Name, StoredLimit, MemoryLimit, OptNat, OptBool;
    MaxStored();
    GroupAgain(g.(memoryMax := Some("max")));
    MaxForbidden();
  }

  /** A thread rule is accepted exactly when its values are in range, in order, and not all missing. */
  lemma {:induction false} ThreadBounds(r: ThreadTuneRule)
    requires Trimmed(r.pattern) && ThreadPattern(r.pattern)
    ensures ThreadFrom(ThreadValue(r)).Ok?
       <==> && (r.uclampMin.None? || r.uclampMin.value <= 1024) && (r.uclampMax.None? || r.uclampMax.value <= 1024)
            && (r.nice.None? || -20 <= r.nice.value < 20)
            && !(r.uclampMin.Some? && r.uclampMax.Some? && r.uclampMax.value < r.uclampMin.value)
            && r != ThreadTuneRule(r.pattern, None, None, None)
    ensures ThreadFrom(ThreadValue(r)).Ok? ==> ThreadFrom(ThreadValue(r)) == Ok(r)
  {
    hide ThreadPattern, Name;
    NameAgain(r.pattern, s => ThreadPattern(s));
  }

  /** A group is named by up to 63 letters, digits, dots, underscores and dashes. */
  lemma {:induction false} GroupNameExact(s: string)
    ensures GroupName(s)
       <==> 0 < |s| < 64
            && forall i | 0 <= i < |s| :: 'a' <= s[i] <= 'z' || 'A' <= s[i] <= 'Z' || '0' <= s[i] <= '9' || s[i] in "._-"
  {
    hide HasText, ByteLen, NoControl, Trim;
    assert forall c: char :: c in "._-" <==> c in {'.', '_', '-'};
    if forall i | 0 <= i < |s| :: GroupChar(s[i]) {
      assert forall i | 0 <= i < |s| :: ' ' < s[i] <= '~' && s[i] != '#' && s[i] != '/' && !IsWs(s[i]);
      TrimOfTrimmed(s);
      AsciiLength(s);
      NoSlashes(s);
    }
  }

  lemma {:induction false} NoSlashes(s: string)
    requires '/' !in s
    ensures !HasText(s, "//")
  {
    forall i | 0 <= i <= |s| ensures !("//" <= s[i..]) {
      if i < |s| {
        assert s[i..][0] == s[i];
      }
    }
  }

  /** Names in ASCII: which packages and thread patterns are accepted. */
  lemma {:induction false} NamesExact(s: string)
    requires Trimmed(s) && Printable7(s) && !HasText(s, "//")
    ensures PackageName(s) <==> 0 < |s| < 128 && forall c | c in s :: c !in "#{}\\/"
    ensures ThreadPattern(s) <==> 0 < |s| < 16 && '#' !in s
  {
    hide HasText, ByteLen, NoControl, Trim, IsWs;
    TrimOfTrimmed(s);
    AsciiLength(s);
    assert forall c: char :: c in "#{}\\/" <==> c == '#' || c == '{' || c == '}' || c == '\\' || c == '/';
    assert '\0' !in s;
  }

  // ---- where a group's path leads

  /** Following the parts of a path from a place in the tree. */
  function Followed(at: seq<string>, parts: seq<string>): seq<string>
    decreases |parts|
  {
    if parts == [] then at
    else
      var p := parts[0];
      Followed(if p == "" || p == "." then at
               else if p == ".." then (if at == [] then at else at[..|at| - 1])
               else at + [p], parts[1..])
  }

  lemma {:induction false} FollowedBelow(at: seq<string>, parts: seq<string>)
    requires ".." !in parts
    ensures at <= Followed(at, parts)
    decreases |parts|
  {
    if parts != [] {
      assert parts[0] in parts && forall p | p in parts[1..] :: p in parts;
      FollowedBelow(if parts[0] == "" || parts[0] == "." then at else at + [parts[0]], parts[1..]);
    }
  }

  /** Names in a row lead down. */
  lemma {:induction false} FollowedNames(at: seq<string>, names: seq<string>, rest: seq<string>)
    requires forall i | 0 <= i < |names| :: names[i] !in {"", ".", ".."}
    ensures Followed(at, names + rest) == Followed(at + names, rest)
    decreases |names|
  {
    if names == [] {
      assert names + rest == rest && at + names == at;
    } else {
      assert (names + rest)[1..] == names[1..] + rest;
      FollowedNames(at + [names[0]], names[1..], rest);
      assert at + [names[0]] + names[1..] == at + names;
    }
  }

  lemma {:induction false} Downward(root: seq<string>, parts: seq<string>)
    requires [""] + root <= parts && ".." !in parts && forall i | 0 <= i < |root| :: root[i] !in {"", ".", ".."}
    ensures root <= Followed([], parts)
  {
    var rest := parts[|root| + 1..];
    assert parts == [""] + (root + rest);
    assert parts[1..] == root + rest;
    FollowedNames([], root, rest);
    assert [] + root == root;
    FollowedBelow(root, rest);
  }

  lemma {:induction false} MemcgParts(rest: string)
    ensures ["", "dev", "memcg"] <= Split("/dev/memcg/" + rest, '/')
  {
    hide Split;
    SplitFirst("memcg", '/', rest);
    SplitFirst("dev", '/', "memcg" + ['/'] + rest);
    SplitFirst("", '/', "dev" + ['/'] + ("memcg" + ['/'] + rest));
    assert "/dev/memcg/" + rest == "" + ['/'] + ("dev" + ['/'] + ("memcg" + ['/'] + rest));
  }

  lemma {:induction false} CgroupParts(rest: string)
    ensures ["", "sys", "fs", "cgroup"] <= Split("/sys/fs/cgroup/" + rest, '/')
  {
    hide Split;
    SplitFirst("cgroup", '/', rest);
    SplitFirst("fs", '/', "cgroup" + ['/'] + rest);
    SplitFirst("sys", '/', "fs" + ['/'] + ("cgroup" + ['/'] + rest));
    SplitFirst("", '/', "sys" + ['/'] + ("fs" + ['/'] + ("cgroup" + ['/'] + rest)));
    assert "/sys/fs/cgroup/" + rest == "" + ['/'] + ("sys" + ['/'] + ("fs" + ['/'] + ("cgroup" + ['/'] + rest)));
  }

  /** An accepted path never leaves the place it starts from, and an absolute one stays below a control-group root. */
  lemma {:induction false} TemplateStays(s: string, at: seq<string>)
    requires PathTemplate(s)
    ensures at <= Followed(at, Split(Trim(s), '/'))
    ensures Trim(s)[0] == '/' ==> var end := Followed([], Split(Trim(s), '/'));
                                  ["dev", "memcg"] <= end || ["sys", "fs", "cgroup"] <= end
  {
    hide Trim, Split, Replaced, NoControl, ByteLen, Followed;
    var t := Trim(s);
    var parts := Split(t, '/');
    assert forall i | 0 <= i < |parts| :: parts[i] != "..";
    FollowedBelow(at, parts);
    if "/dev/memcg/" <= t {
      MemcgParts(t[11..]);
      assert t == "/dev/memcg/" + t[11..];
      Downward(["dev", "memcg"], parts);
    } else if "/sys/fs/cgroup/" <= t {
      CgroupParts(t[15..]);
      assert t == "/sys/fs/cgroup/" + t[15..];
      Downward(["sys", "fs", "cgroup"], parts);
    }
  }

  // ---- what may be left out

  /** A blank limit or group is no limit and no group. */
  lemma {:induction false} BlankIsNone(s: string, allowMax: bool)
    requires AllWs(s)
    ensures MemoryLimit(Str(s), allowMax) == Ok(None) == MemoryLimit(Null, allowMax)
    ensures GroupRef(Str(s)) == Ok(None) == GroupRef(Null)
  {
    hide Trim, IsWs, ByteLen, NoControl, GroupName;
    TrimBlank(s);
  }

  /** A field that is missing is read as null. */
  lemma {:induction false} MissingIsNull(fields: map<string, Value>, key: string)
    requires key !in fields
    ensures var with', without := Object(fields[key := Null]), Object(fields);
            && GroupFrom(with') == GroupFrom(without) && ThreadFrom(with') == ThreadFrom(without)
            && AppFrom(with') == AppFrom(without) && ConfigFrom(with') == ConfigFrom(without)
  {
    hide Name, MemoryLimit, OptNat, OptInt, OptBool, GroupRef, ThreadList, GroupList, AppList, GroupName, PathTemplate, ThreadPattern, PackageName, Consistent, RuleMakesSense;
    assert forall k :: Field(fields[key := Null], k) == Field(fields, k);
  }

  /** The whole configuration may be empty. */
  lemma {:induction false} EmptyConfig()
    ensures ConfigFrom(Object(map[])) == Ok(TuningConfig([], []))
  {
    var f: map<string, Value> := map[];
    assert Field(f, "memory_groups") == Null && Field(f, "apps") == Null;
  }

  /** Every value is read from the field that is named after it. */
  lemma {:induction false} FieldsNamed(f: map<string, Value>)
    ensures GroupFrom(Object(f)).Ok? ==>
              var g := GroupFrom(Object(f)).value;
              && Field(f, "name").Str? && g.name == Trim(Field(f, "name").text)
              && Field(f, "path").Str? && g.path == Trim(Field(f, "path").text)
              && OptNat(Field(f, "swappiness"), 200) == Ok(g.swappiness) && OptBool(Field(f, "oom_group")) == Ok(g.oomGroup)
              && MemoryLimit(Field(f, "memory_min"), false) == Ok(g.memoryMin) && MemoryLimit(Field(f, "memory_low"), false) == Ok(g.memoryLow)
              && MemoryLimit(Field(f, "memory_high"), false) == Ok(g.memoryHigh) && MemoryLimit(Field(f, "memory_max"), true) == Ok(g.memoryMax)
    ensures ThreadFrom(Object(f)).Ok? ==>
              var r := ThreadFrom(Object(f)).value;
              && Field(f, "pattern").Str? && r.pattern == Trim(Field(f, "pattern").text) && OptInt(Field(f, "nice"), -20, 19) == Ok(r.nice)
              && OptNat(Field(f, "uclamp_min"), 1024) == Ok(r.uclampMin) && OptNat(Field(f, "uclamp_max"), 1024) == Ok(r.uclampMax)
  {
    hide MemoryLimit, OptNat, OptInt, OptBool, Trim, GroupName, PathTemplate, ThreadPattern, RuleMakesSense;
  }

  // ---- markers in a path

  /** Text without braces stays as it is. */
  lemma {:induction false} ReplacedBehind(a: string, r: string, from: string, to: string)
    requires '{' !in a && from != "" && from[0] == '{'
    ensures Replaced(a + r, from, to) == a + Replaced(r, from, to)
    decreases |a|
  {
    if a == "" {
      assert a + r == r;
    } else {
      var s := a + r;
      assert s[0] == a[0] && a[0] in a && !(from <= s);
      assert s[1..] == a[1..] + r;
      ReplacedBehind(a[1..], r, from, to);
    }
  }

  lemma {:induction false} ReplacedNone(b: string, from: string, to: string)
    requires '{' !in b && from != "" && from[0] == '{'
    ensures Replaced(b, from, to) == b
  {
    ReplacedBehind(b, "", from, to);
    assert b + "" == b;
  }

  /** A marker is replaced, and any other text in braces is not. */
  lemma {:induction false} ReplacedMarker(a: string, x: string, b: string, y: string, to: string)
    requires '{' !in a && '{' !in x && '}' !in x && '{' !in b && '}' !in y
    ensures Replaced(a + ("{" + x + "}" + b), "{" + y + "}", to) == if x == y then a + (to + b) else a + ("{" + x + "}" + b)
  {
    var r, from := "{" + x + "}" + b, "{" + y + "}";
    ReplacedBehind(a, r, from, to);
    if x == y {
      assert from <= r && r[|from|..] == b;
      ReplacedNone(b, from, to);
    } else {
      if from <= r {
        SameMarker(x, b, y);
      }
      var rest := x + "}" + b;
      assert r[0] == '{' && r[1..] == rest && r == "{" + rest;
      assert '{' !in rest;
      ReplacedNone(rest, from, to);
    }
  }

  lemma {:induction false} SameMarker(x: string, b: string, y: string)
    requires '}' !in x && '}' !in y && "{" + y + "}" <= "{" + x + "}" + b
    ensures x == y
  {
    var r, from := "{" + x + "}" + b, "{" + y + "}";
    assert r[|x| + 1] == '}' && from[|y| + 1] == '}';
    assert forall i | 0 <= i < |x| :: r[i + 1] == x[i] && x[i] in x;
    assert forall i | 0 <= i < |y| :: from[i + 1] == y[i] && y[i] in y;
    assert forall i | 0 <= i < |from| :: r[i] == from[i];
    assert |x| == |y|;
  }

  /** Of all texts in braces exactly the three markers may stand in a path that is otherwise fine. */
  lemma {:induction false} MarkersKnown(a: string, x: string, b: string)
    requires var s := "/dev/memcg/" + a + ("{" + x + "}" + b);
             && Trimmed(s) && Printable7(s) && |s| < 256 && '\\' !in s
             && forall i | 0 <= i < |Split(s, '/')| :: Split(s, '/')[i] !in {".", ".."}
    requires '{' !in a && '}' !in a && '{' !in x && '}' !in x && '{' !in b && '}' !in b
    ensures PathTemplate("/dev/memcg/" + a + ("{" + x + "}" + b)) <==> x in {"uid", "pid", "pkg"}
  {
    hide Split, Trim, Replaced, ByteLen, NoControl, Trimmed;
    var h := "/dev/memcg/" + a;
    var s := h + ("{" + x + "}" + b);
    TrimOfTrimmed(s);
    AsciiLength(s);
    assert '{' !in h && '}' !in h;
    MarkersFilled(h, x, b);
    assert s[|h|] == '{';
    assert "/dev/memcg/" <= s;
  }

  /** Filling in the markers leaves braces exactly when the text in braces is none of them. */
  lemma {:induction false} MarkersFilled(h: string, x: string, b: string)
    requires '{' !in h && '}' !in h && '{' !in x && '}' !in x && '{' !in b && '}' !in b
    ensures var s := h + ("{" + x + "}" + b);
            Replaced(Replaced(Replaced(s, "{uid}", "x"), "{pid}", "x"), "{pkg}", "x")
            == if x in {"uid", "pid", "pkg"} then h + ("x" + b) else s
  {
    hide Replaced;
    var plain := h + ("x" + b);
    assert '{' !in plain && '}' !in plain;
    assert "{uid}" == "{" + "uid" + "}" && "{pid}" == "{" + "pid" + "}" && "{pkg}" == "{" + "pkg" + "}";
    ReplacedMarker(h, x, b, "uid", "x");
    ReplacedMarker(h, x, b, "pid", "x");
    ReplacedMarker(h, x, b, "pkg", "x");
    ReplacedNone(plain, "{pid}", "x");
    ReplacedNone(plain, "{pkg}", "x");
  }
}
