/** Round trip, exact limits, and cloning of the tuning configuration. */
module TuningProof {
  import opened Seqs
  import opened Text
  import opened RuleSyntax
  import opened CpuSpec
  import opened CpuRanges
  import opened Loader
  import opened Tuning

  // ---- what a parsed configuration looks like

  /** A stored limit: `max` where that is allowed, or a 64-bit number of bytes. */
  predicate StoredLimit(s: string, allowMax: bool) {
    (allowMax && s == "max") || exists n: nat | n <= U64Max :: s == NumberText(n)
  }

  predicate LimitOk(v: Option<string>, allowMax: bool) {
    v.Some? ==> StoredLimit(v.value, allowMax)
  }

  predicate GroupOk(g: MemoryGroup) {
    && Trimmed(g.name) && GroupName(g.name) && Trimmed(g.path) && PathTemplate(g.path)
    && (g.swappiness.Some? ==> g.swappiness.value <= 200)
    && LimitOk(g.memoryMin, false) && LimitOk(g.memoryLow, false) && LimitOk(g.memoryHigh, false) && LimitOk(g.memoryMax, true)
  }

  predicate ThreadTuneOk(r: ThreadTuneRule) {
    && Trimmed(r.pattern) && ThreadPattern(r.pattern) && RuleMakesSense(r)
    && (r.uclampMin.Some? ==> r.uclampMin.value <= 1024) && (r.uclampMax.Some? ==> r.uclampMax.value <= 1024)
    && (r.nice.Some? ==> -20 <= r.nice.value <= 19)
  }

  predicate AppOk(a: AppTuneRule) {
    && Trimmed(a.pkg) && PackageName(a.pkg)
    && (a.group.Some? ==> Trimmed(a.group.value) && GroupName(a.group.value))
    && (forall r | r in a.threads :: ThreadTuneOk(r))
    && (a.group.Some? || a.threads != [])
  }

  predicate ConfigValid(c: TuningConfig) {
    && (forall g | g in c.groups :: GroupOk(g)) && (forall a | a in c.apps :: AppOk(a)) && Consistent(c)
  }

  // ---- memory limits

  lemma {:induction false} NumberLength(n: nat, k: nat, p: nat)
    requires n < p && p == Pow10(k) && k > 0
    ensures |NumberText(n)| <= k
    decreases k
  {
    if n >= 10 {
      NumberLength(n / 10, k - 1, Pow10(k - 1));
    }
  }

  function Pow10(k: nat): (p: nat)
    ensures p > 0
  {
    if k == 0 then 1 else 10 * Pow10(k - 1)
  }

  lemma {:induction false} BytesOfDigits(s: string)
    requires AllDigits(s)
    ensures ByteLen(s) == |s| && NoControl(s)
    decreases |s|
  {
    if s != "" {
      assert IsDigit(s[0]);
      BytesOfDigits(s[1..]);
    }
  }

  lemma {:induction false} LowerDigits(s: string)
    requires AllDigits(s)
    ensures Lower(s) == s
    decreases |s|
  {
    if s != "" {
      assert IsDigit(s[0]);
      LowerDigits(s[1..]);
      Uncons(s);
    }
  }

  lemma {:induction false} Pow20()
    ensures U64Max < Pow10(20)
  {
    assert Pow10(1) == 10 && Pow10(2) == 100 && Pow10(3) == 1000 && Pow10(4) == 10000;
    assert Pow10(8) == 10 * (10 * (10 * (10 * Pow10(4))));
    assert Pow10(12) == 10 * (10 * (10 * (10 * Pow10(8))));
    assert Pow10(16) == 10 * (10 * (10 * (10 * Pow10(12))));
    assert Pow10(20) == 10 * (10 * (10 * (10 * Pow10(16))));
  }

  lemma {:induction false} SameLast(s: string, x: string)
    ensures x != "" && EndsWith(s, x) ==> s != "" && s[|s| - 1] == x[|x| - 1]
  {
    if x != "" && EndsWith(s, x) {
      assert s[|s| - |x|..][|x| - 1] == s[|s| - 1];
    }
  }

  /** Digits end with no suffix. */
  lemma {:induction false} NoUnit(s: string, suffixes: seq<(string, nat)>)
    requires AllDigits(s) && forall p | p in suffixes :: p.0 != "" && !IsDigit(p.0[|p.0| - 1])
    ensures SplitUnit(s, suffixes) == (s, 1)
    decreases |suffixes|
  {
    if suffixes != [] {
      Uncons(suffixes);
      var x := suffixes[0].0;
      assert suffixes[0] in suffixes;
      SameLast(s, x);
      NoUnit(s, suffixes[1..]);
    }
  }

  lemma {:induction false} SuffixesHaveLetters()
    ensures forall p | p in Suffixes :: p.0 != "" && !IsDigit(p.0[|p.0| - 1])
  {
  }

  /** A stored number of bytes is read back as it is. */
  lemma {:induction false} NumberAgain(n: nat, allowMax: bool)
    requires n <= U64Max
    ensures OptString(Str(NumberText(n)), 64) == Ok(Some(NumberText(n)))
    ensures Lower(NumberText(n)) == NumberText(n) && LimitText(NumberText(n), allowMax) == Ok(NumberText(n))
  {
    hide Suffixes, Pow10, LimitText;
    NumberFits(n);
    LowerDigits(NumberText(n));
    NumberIsLimit(n, allowMax);
  }

  lemma {:induction false} NumberFits(n: nat)
    requires n <= U64Max
    ensures OptString(Str(NumberText(n)), 64) == Ok(Some(NumberText(n)))
  {
    hide Pow10, IsWs;
    var s := NumberText(n);
    Pow20();
    NumberLength(n, 20, Pow10(20));
    BytesOfDigits(s);
    NumberTrimmed(n);
    TrimOfTrimmed(s);
  }

  lemma {:induction false} NumberTrimmed(n: nat)
    ensures Trimmed(NumberText(n)) && NumberText(n) != "" && NumberText(n) != "max"
  {
    var s := NumberText(n);
    assert IsDigit(s[0]) && IsDigit(s[|s| - 1]);
  }

  lemma {:induction false} NumberIsLimit(n: nat, allowMax: bool)
    requires n <= U64Max
    ensures LimitText(NumberText(n), allowMax) == Ok(NumberText(n))
  {
    hide Suffixes, SplitUnit, IsWs;
    NumberTrimmed(n);
    NumberValue(n);
    SuffixesHaveLetters();
    NoUnit(NumberText(n), Suffixes);
  }

  lemma {:induction false} MaxAgain()
    ensures OptString(Str("max"), 64) == Ok(Some("max")) && Lower("max") == "max"
  {
    TrimOfTrimmed("max");
    assert "max"[1..] == "ax" && "ax"[1..] == "x" && "x"[1..] == "";
    assert Lower("x") == "x" && Lower("ax") == "ax";
  }

  lemma {:induction false} LimitAgain(v: Option<string>, allowMax: bool)
    requires LimitOk(v, allowMax)
    ensures MemoryLimit(TextValue(v), allowMax) == Ok(v)
  {
    hide OptString, LimitText, Lower;
    if v.Some? {
      if allowMax && v.value == "max" {
        MaxAgain();
        MaxLimit();
      } else {
        var n: nat :| n <= U64Max && v.value == NumberText(n);
        NumberAgain(n, allowMax);
      }
    } else {
      NoneString();
    }
  }

  lemma {:induction false} MaxLimit()
    ensures LimitText("max", true) == Ok("max")
  {
  }

  lemma {:induction false} NoneString()
    ensures OptString(Null, 64) == Ok(None)
  {
  }

  /** Every accepted limit is `max` or exactly the product of its digits and its unit, within 64 bits. */
  lemma {:induction false} LimitExact(v: Value, allowMax: bool)
    requires MemoryLimit(v, allowMax).Ok? && MemoryLimit(v, allowMax).value.Some?
    ensures var raw := Lower(Trim(v.text)); var (digits, unit) := SplitUnit(raw, Suffixes);
            var s := MemoryLimit(v, allowMax).value.value;
            && v.Str? && StoredLimit(s, allowMax)
            && if raw == "max" then s == "max" && allowMax
               else digits != "" && AllDigits(digits) && DigitsValue(digits) * unit <= U64Max
                    && s == NumberText(DigitsValue(digits) * unit) && DigitsValue(s) == DigitsValue(digits) * unit
  {
    hide Suffixes, SplitUnit, Lower, Trim;
    assert v.Str?;
    var raw := Lower(Trim(v.text));
    if raw != "max" {
      var (digits, unit) := SplitUnit(raw, Suffixes);
      NumberValue(DigitsValue(digits) * unit);
    }
  }

  lemma {:induction false} LimitParsed(v: Value, allowMax: bool)
    requires MemoryLimit(v, allowMax).Ok?
    ensures LimitOk(MemoryLimit(v, allowMax).value, allowMax)
  {
    hide SplitUnit, Lower, Trim, Suffixes;
    if MemoryLimit(v, allowMax).value.Some? {
      LimitExact(v, allowMax);
    }
  }

  /** The unit is the first of the known suffixes the text ends with, and 1 when there is none. */
  lemma {:induction false} UnitIs(raw: string, suffixes: seq<(string, nat)>)
    ensures var (digits, unit) := SplitUnit(raw, suffixes);
            || (digits == raw && unit == 1 && forall p | p in suffixes :: !EndsWith(raw, p.0))
            || (exists i | 0 <= i < |suffixes| :: raw == digits + suffixes[i].0 && unit == suffixes[i].1
                                                  && forall j | 0 <= j < i :: !EndsWith(raw, suffixes[j].0))
    decreases |suffixes|
  {
    if suffixes != [] && !EndsWith(raw, suffixes[0].0) {
      UnitIs(raw, suffixes[1..]);
      Uncons(suffixes);
      var (digits, unit) := SplitUnit(raw, suffixes[1..]);
      if !(digits == raw && unit == 1 && forall p | p in suffixes[1..] :: !EndsWith(raw, p.0)) {
        var i :| 0 <= i < |suffixes[1..]| && raw == digits + suffixes[1..][i].0 && unit == suffixes[1..][i].1
                 && forall j | 0 <= j < i :: !EndsWith(raw, suffixes[1..][j].0);
        assert suffixes[1..][i] == suffixes[i + 1];
        assert forall j | 0 < j < i + 1 :: suffixes[j] == suffixes[1..][j - 1];
      }
    } else if suffixes != [] {
      var x := suffixes[0].0;
      assert raw == raw[..|raw| - |x|] + x;
    }
  }

  // ---- parsed values are valid

  lemma {:induction false} TrimTwice(s: string)
    ensures Trimmed(Trim(s)) && Trim(Trim(s)) == Trim(s)
  {
    var lead, tail := TrimParts(s);
    TrimOfTrimmed(Trim(s));
  }

  lemma {:induction false} NameParsed(v: Value, ok: string -> bool)
    requires Name(v, ok).Ok?
    ensures Trimmed(Name(v, ok).value) && ok(Name(v, ok).value)
  {
    hide Trim;
    TrimTwice(v.text);
  }

  lemma {:induction false} NameAgain(s: string, ok: string -> bool)
    requires Trimmed(s) && ok(s)
    ensures Name(Str(s), ok) == Ok(s)
  {
    hide Trim;
    TrimOfTrimmed(s);
  }

  lemma {:induction false} GroupParsed(v: Value)
    requires GroupFrom(v).Ok?
    ensures GroupOk(GroupFrom(v).value)
  {
    hide MemoryLimit, GroupName, PathTemplate, Name, LimitOk;
    var f := v.fields;
    NameParsed(Field(f, "name"), s => GroupName(s));
    NameParsed(Field(f, "path"), s => PathTemplate(s));
    LimitParsed(Field(f, "memory_min"), false);
    LimitParsed(Field(f, "memory_low"), false);
    LimitParsed(Field(f, "memory_high"), false);
    LimitParsed(Field(f, "memory_max"), true);
  }

  lemma {:induction false} GroupAgain(g: MemoryGroup)
    requires GroupOk(g)
    ensures GroupFrom(GroupValue(g)) == Ok(g)
  {
    hide MemoryLimit, GroupName, PathTemplate, Name, LimitOk, TextValue;
    NameAgain(g.name, s => GroupName(s));
    NameAgain(g.path, s => PathTemplate(s));
    LimitAgain(g.memoryMin, false);
    LimitAgain(g.memoryLow, false);
    LimitAgain(g.memoryHigh, false);
    LimitAgain(g.memoryMax, true);
  }

  lemma {:induction false} ThreadParsed(v: Value)
    requires ThreadFrom(v).Ok?
    ensures ThreadTuneOk(ThreadFrom(v).value)
  {
    hide ThreadPattern, Name;
    NameParsed(Field(v.fields, "pattern"), s => ThreadPattern(s));
  }

  lemma {:induction false} ThreadAgain(r: ThreadTuneRule)
    requires ThreadTuneOk(r)
    ensures ThreadFrom(ThreadValue(r)) == Ok(r)
  {
    hide ThreadPattern, Name;
    NameAgain(r.pattern, s => ThreadPattern(s));
  }

  lemma {:induction false} ThreadsParsed(items: seq<Value>)
    requires ThreadsFrom(items).Ok?
    ensures forall r | r in ThreadsFrom(items).value :: ThreadTuneOk(r)
    decreases |items|
  {
    hide ThreadFrom, ThreadTuneOk;
    if items != [] {
      ThreadParsed(items[0]);
      ThreadsParsed(items[1..]);
    }
  }

  lemma {:induction false} ThreadsAgain(rs: seq<ThreadTuneRule>)
    requires forall r | r in rs :: ThreadTuneOk(r)
    ensures ThreadsFrom(ThreadValues(rs)) == Ok(rs)
    decreases |rs|
  {
    hide ThreadFrom, ThreadTuneOk, ThreadValue;
    if rs != [] {
      Uncons(rs);
      assert rs[0] in rs;
      ThreadAgain(rs[0]);
      ThreadsAgain(rs[1..]);
      ConsDrop([ThreadValue(rs[0])], ThreadValues(rs[1..]));
      assert ThreadValues(rs)[0] == ThreadValue(rs[0]) && ThreadValues(rs)[1..] == ThreadValues(rs[1..]);
    }
  }

  lemma {:induction false} AppParsed(v: Value)
    requires AppFrom(v).Ok?
    ensures AppOk(AppFrom(v).value)
  {
    hide PackageName, GroupName, Name, ThreadsFrom, Trim, ThreadTuneOk;
    var f := v.fields;
    NameParsed(Field(f, "pkg"), s => PackageName(s));
    var g := Field(f, "memory_group");
    if g.Str? {
      TrimTwice(g.text);
    }
    var t := Field(f, "threads");
    if t.Array? {
      ThreadsParsed(t.items);
    }
  }

  lemma {:induction false} RefAgain(g: Option<string>)
    requires g.Some? ==> Trimmed(g.value) && GroupName(g.value)
    ensures GroupRef(TextValue(g)) == Ok(g)
  {
    if g.Some? {
      TrimOfTrimmed(g.value);
    }
  }

  lemma {:induction false} AppAgain(a: AppTuneRule)
    requires AppOk(a)
    ensures AppFrom(AppValue(a)) == Ok(a)
  {
    hide PackageName, GroupName, Name, ThreadsFrom, ThreadTuneOk, GroupRef, TextValue;
    NameAgain(a.pkg, s => PackageName(s));
    RefAgain(a.group);
    ThreadsAgain(a.threads);
  }

  lemma {:induction false} GroupsParsed(items: seq<Value>)
    requires GroupsFrom(items).Ok?
    ensures forall g | g in GroupsFrom(items).value :: GroupOk(g)
    decreases |items|
  {
    hide GroupFrom, GroupOk;
    if items != [] {
      GroupParsed(items[0]);
      GroupsParsed(items[1..]);
    }
  }

  lemma {:induction false} GroupsAgain(gs: seq<MemoryGroup>)
    requires forall g | g in gs :: GroupOk(g)
    ensures GroupsFrom(GroupValues(gs)) == Ok(gs)
    decreases |gs|
  {
    hide GroupFrom, GroupOk, GroupValue;
    if gs != [] {
      Uncons(gs);
      assert gs[0] in gs;
      GroupAgain(gs[0]);
      GroupsAgain(gs[1..]);
      assert GroupValues(gs)[0] == GroupValue(gs[0]) && GroupValues(gs)[1..] == GroupValues(gs[1..]);
    }
  }

  lemma {:induction false} AppsParsed(items: seq<Value>)
    requires AppsFrom(items).Ok?
    ensures forall a | a in AppsFrom(items).value :: AppOk(a)
    decreases |items|
  {
    hide AppFrom, AppOk;
    if items != [] {
      AppParsed(items[0]);
      AppsParsed(items[1..]);
    }
  }

  lemma {:induction false} AppsAgain(xs: seq<AppTuneRule>)
    requires forall a | a in xs :: AppOk(a)
    ensures AppsFrom(AppValues(xs)) == Ok(xs)
    decreases |xs|
  {
    hide AppFrom, AppOk, AppValue;
    if xs != [] {
      Uncons(xs);
      assert xs[0] in xs;
      AppAgain(xs[0]);
      AppsAgain(xs[1..]);
      assert AppValues(xs)[0] == AppValue(xs[0]) && AppValues(xs)[1..] == AppValues(xs[1..]);
    }
  }

  // ---- the round trip

  lemma {:induction false} ConfigParsed(v: Value)
    requires ConfigFrom(v).Ok?
    ensures ConfigValid(ConfigFrom(v).value)
  {
    hide GroupsFrom, AppsFrom, GroupOk, AppOk, Consistent;
    var g, a := Field(v.fields, "memory_groups"), Field(v.fields, "apps");
    if g.Array? { GroupsParsed(g.items); }
    if a.Array? { AppsParsed(a.items); }
  }

  lemma {:induction false} ConfigAgain(c: TuningConfig)
    requires ConfigValid(c)
    ensures ConfigFrom(ConfigValue(c)) == Ok(c)
  {
    hide GroupsFrom, AppsFrom, GroupOk, AppOk, Consistent, GroupValues, AppValues;
    GroupsAgain(c.groups);
    AppsAgain(c.apps);
  }

  /** Printing and parsing keeps every accepted configuration; exactly the valid ones are accepted. */
  lemma {:induction false} ConfigRoundTrip(v: Value, c: TuningConfig)
    ensures ConfigFrom(v) == Ok(c) ==> ConfigFrom(ConfigValue(c)) == Ok(c)
    ensures ConfigFrom(ConfigValue(c)) == Ok(c) <==> ConfigValid(c)
  {
    hide ConfigFrom, ConfigValue, ConfigValid;
    if ConfigFrom(v) == Ok(c) {
      ConfigParsed(v);
      ConfigAgain(c);
    }
    if ConfigFrom(ConfigValue(c)) == Ok(c) {
      ConfigParsed(ConfigValue(c));
    }
    if ConfigValid(c) {
      ConfigAgain(c);
    }
  }

  // ---- cloning

  function FindApp(apps: seq<AppTuneRule>, pkg: string): (r: Option<nat>)
    ensures r.Some? ==> r.value < |apps| && apps[r.value].pkg == pkg
    ensures r.None? ==> forall i | 0 <= i < |apps| :: apps[i].pkg != pkg
  {
    if apps == [] then None
    else if apps[0].pkg == pkg then Some(0)
    else
      match FindApp(apps[1..], pkg)
      case None => assert forall i | 0 < i < |apps| :: apps[i] == apps[1..][i - 1]; None
      case Some(i) => Some(i + 1)
  }

  /** What the clone makes of the configuration. */
  predicate CloneIs(c: TuningConfig, next: TuningConfig, source: string, target: string, memory: bool, threads: bool) {
    && next.groups == c.groups && source != target
    && FindApp(c.apps, source).Some?
    && var s := c.apps[FindApp(c.apps, source).value];
    && (memory ==> s.group.Some?) && (threads ==> s.threads != [])
    && match FindApp(c.apps, target)
       case None => next.apps == c.apps + [AppTuneRule(target, if memory then s.group else None, if threads then s.threads else [])]
       case Some(i) =>
         var t := c.apps[i];
         && (memory ==> t.group.None?) && (threads ==> t.threads == [])
         && next.apps == c.apps[i := t.(group := if memory then s.group else t.group,
                                         threads := if threads then s.threads else t.threads)]
  }

  /** Nothing selected can be copied, or something selected is already there. */
  predicate CloneRefused(c: TuningConfig, source: string, target: string, memory: bool, threads: bool) {
    || source == target || FindApp(c.apps, source).None?
    || (var s := c.apps[FindApp(c.apps, source).value]; (memory && s.group.None?) || (threads && s.threads == []))
    || (FindApp(c.apps, target).Some? &&
        var t := c.apps[FindApp(c.apps, target).value]; (memory && t.group.Some?) || (threads && t.threads != []))
  }

  /** The clone as the source does it: a copy of the configuration, edited in place. */
  method CloneApp(c: TuningConfig, source: string, target: string, copyMemory: bool, copyThreads: bool)
    returns (r: Result<TuningConfig>)
    ensures r.Err? <==> CloneRefused(c, source, target, copyMemory, copyThreads)
    ensures r.Ok? ==> CloneIs(c, r.value, source, target, copyMemory, copyThreads)
  {
    if source == target {
      return Err;
    }
    var from := FindApp(c.apps, source);
    if from.None? {
      return Err;
    }
    var group: Option<string> := None;
    if copyMemory {
      group := c.apps[from.value].group;
      if group.None? {
        return Err;
      }
    }
    var threads: seq<ThreadTuneRule> := [];
    if copyThreads {
      threads := c.apps[from.value].threads;
      if threads == [] {
        return Err;
      }
    }
    var apps := c.apps;
    match FindApp(apps, target) {
      case Some(i) =>
        if copyMemory && apps[i].group.Some? {
          return Err;
        }
        if copyThreads && apps[i].threads != [] {
          return Err;
        }
        if copyMemory {
          apps := apps[i := apps[i].(group := group)];
        }
        if copyThreads {
          apps := apps[i := apps[i].(threads := threads)];
        }
        assert apps == c.apps[i := c.apps[i].(group := if copyMemory then group else c.apps[i].group,
                                              threads := if copyThreads then threads else c.apps[i].threads)];
      case None =>
        apps := apps + [AppTuneRule(target, group, threads)];
    }
    r := Ok(TuningConfig(c.groups, apps));
  }

  lemma {:induction false} CloneGroups(c: TuningConfig, next: TuningConfig, source: string, target: string, memory: bool, threads: bool)
    requires RefsExist(c) && CloneIs(c, next, source, target, memory, threads)
    ensures RefsExist(next)
  {
    hide HasGroup;
    var s := c.apps[FindApp(c.apps, source).value];
    forall k | 0 <= k < |next.apps| && next.apps[k].group.Some? ensures HasGroup(next.groups, next.apps[k].group.value) {
      assert k < |c.apps| ==> next.apps[k] == c.apps[k] || FindApp(c.apps, target) == Some(k);
    }
  }

  lemma {:induction false} CloneUnique(c: TuningConfig, next: TuningConfig, source: string, target: string, memory: bool, threads: bool)
    requires UniqueApps(c.apps) && CloneIs(c, next, source, target, memory, threads)
    ensures UniqueApps(next.apps)
  {
    assert forall k | 0 <= k < |c.apps| :: next.apps[k].pkg == c.apps[k].pkg;
  }

  lemma {:induction false} CloneApps(c: TuningConfig, next: TuningConfig, source: string, target: string, memory: bool, threads: bool)
    requires (forall a | a in c.apps :: AppOk(a)) && CloneIs(c, next, source, target, memory, threads)
    requires PackageName(target) && Trimmed(target) && (memory || threads)
    ensures forall a | a in next.apps :: AppOk(a)
  {
    hide PackageName, GroupName, ThreadTuneOk;
    var s := c.apps[FindApp(c.apps, source).value];
    assert s in c.apps;
    forall k | 0 <= k < |next.apps| ensures AppOk(next.apps[k]) {
      if k < |c.apps| {
        assert c.apps[k] in c.apps;
        assert next.apps[k] == c.apps[k] || FindApp(c.apps, target) == Some(k);
      }
    }
  }

  /** A clone to a valid name keeps the configuration valid. */
  lemma {:induction false} CloneValid(c: TuningConfig, next: TuningConfig, source: string, target: string, memory: bool, threads: bool)
    requires ConfigValid(c) && CloneIs(c, next, source, target, memory, threads)
    requires PackageName(target) && Trimmed(target) && (memory || threads)
    ensures ConfigValid(next) && ConfigFrom(ConfigValue(next)) == Ok(next)
  {
    hide AppOk, GroupOk, PackageName, CloneIs, RefsExist, UniqueApps, UniqueGroups, ConfigFrom, ConfigValue;
    CloneGroups(c, next, source, target, memory, threads);
    CloneUnique(c, next, source, target, memory, threads);
    CloneApps(c, next, source, target, memory, threads);
    CloneKeepsGroups(c, next, source, target, memory, threads);
    ConfigAgain(next);
  }

  lemma {:induction false} CloneKeepsGroups(c: TuningConfig, next: TuningConfig, source: string, target: string, memory: bool, threads: bool)
    requires CloneIs(c, next, source, target, memory, threads)
    ensures next.groups == c.groups
  {
  }

  /** A clone is refused exactly when there is none that copies what is selected and overwrites nothing. */
  lemma {:induction false} CloneRefusedIff(c: TuningConfig, source: string, target: string, memory: bool, threads: bool)
    ensures CloneRefused(c, source, target, memory, threads)
       <==> !exists next :: CloneIs(c, next, source, target, memory, threads)
  {
    if !CloneRefused(c, source, target, memory, threads) {
      var s := c.apps[FindApp(c.apps, source).value];
      var next := match FindApp(c.apps, target)
        case None => c.apps + [AppTuneRule(target, if memory then s.group else None, if threads then s.threads else [])]
        case Some(i) =>
          c.apps[i := c.apps[i].(group := if memory then s.group else c.apps[i].group,
                                 threads := if threads then s.threads else c.apps[i].threads)];
      assert CloneIs(c, TuningConfig(c.groups, next), source, target, memory, threads);
    }
  }

  /** Nothing that was set before is lost: in every app, groups and thread rules that were there stay. */
  lemma {:induction false} CloneLosesNothing(c: TuningConfig, next: TuningConfig, source: string, target: string, memory: bool, threads: bool, k: nat)
    requires CloneIs(c, next, source, target, memory, threads) && k < |c.apps|
    ensures k < |next.apps| && next.apps[k].pkg == c.apps[k].pkg
    ensures c.apps[k].group.Some? ==> next.apps[k].group == c.apps[k].group
    ensures c.apps[k].threads != [] ==> next.apps[k].threads == c.apps[k].threads
  {
  }

  /** All other apps stay, the target gets exactly the selection, and its other category stays. */
  lemma {:induction false} CloneFrame(c: TuningConfig, next: TuningConfig, source: string, target: string, memory: bool, threads: bool)
    requires UniqueApps(c.apps) && CloneIs(c, next, source, target, memory, threads)
    ensures |c.apps| <= |next.apps| <= |c.apps| + 1
    ensures forall k | 0 <= k < |c.apps| && c.apps[k].pkg != target :: next.apps[k] == c.apps[k]
    ensures FindApp(next.apps, target).Some?
    ensures var s := c.apps[FindApp(c.apps, source).value]; var t := next.apps[FindApp(next.apps, target).value];
            && (memory ==> t.group == s.group) && (threads ==> t.threads == s.threads)
            && (!memory ==> t.group == match FindApp(c.apps, target) case None => None case Some(i) => c.apps[i].group)
            && (!threads ==> t.threads == match FindApp(c.apps, target) case None => [] case Some(i) => c.apps[i].threads)
  {
    CloneUnique(c, next, source, target, memory, threads);
    var i := match FindApp(c.apps, target) case Some(i) => i case None => |c.apps|;
    assert next.apps[i].pkg == target;
    assert forall k | 0 <= k < |c.apps| && k != i :: next.apps[k] == c.apps[k];
    var j := FindApp(next.apps, target).value;
    assert j == i;
  }
}
