/** The structured tuning configuration: validating parser, printer, and memory limits. */
module Tuning {
  import opened Seqs
  import opened Text
  import opened RuleSyntax
  import opened CpuSpec
  import opened CpuRanges
  import opened Loader

  /** A JSON value; numbers that are not integers are only told apart from the rest. */
  datatype Value =
    | Null
    | Bool(on: bool)
    | Int(n: int)
    | Fraction
    | Str(text: string)
    | Array(items: seq<Value>)
    | Object(fields: map<string, Value>)

  datatype Result<+T> = Ok(value: T) | Err

  const U64Max: nat := 0xFFFF_FFFF_FFFF_FFFF
  const I64Max: nat := 0x7FFF_FFFF_FFFF_FFFF

  datatype MemoryGroup = MemoryGroup(
    name: string, path: string, swappiness: Option<nat>,
    memoryMin: Option<string>, memoryLow: Option<string>, memoryHigh: Option<string>, memoryMax: Option<string>,
    oomGroup: Option<bool>)

  datatype ThreadTuneRule = ThreadTuneRule(pattern: string, uclampMin: Option<nat>, uclampMax: Option<nat>, nice: Option<int>)

  datatype AppTuneRule = AppTuneRule(pkg: string, group: Option<string>, threads: seq<ThreadTuneRule>)

  datatype TuningConfig = TuningConfig(groups: seq<MemoryGroup>, apps: seq<AppTuneRule>)

  // ---- names

  predicate HasText(s: string, sub: string) {
    exists i | 0 <= i <= |s| :: sub <= s[i..]
  }

  predicate PlainToken(s: string, max: nat) {
    var t := Trim(s);
    t != "" && ByteLen(t) < max && NoControl(t) && '#' !in t && !HasText(t, "//")
  }

  predicate PackageName(s: string) {
    PlainToken(s, MaxPkgLen) && '{' !in s && '}' !in s && '\\' !in s && '/' !in s
  }

  predicate GroupChar(c: char) {
    'a' <= c <= 'z' || 'A' <= c <= 'Z' || IsDigit(c) || c in {'.', '_', '-'}
  }

  predicate GroupName(s: string) {
    PlainToken(s, 64) && forall i | 0 <= i < |s| :: GroupChar(s[i])
  }

  predicate ThreadPattern(s: string) {
    ByteLen(s) <= 15 && PlainToken(s, MaxThreadLen) && '\0' !in s
  }

  /** `str::replace`: left to right, without overlap. */
  function Replaced(s: string, from: string, to: string): string
    requires from != ""
    decreases |s|
  {
    if s == "" then ""
    else if from <= s then to + Replaced(s[|from|..], from, to)
    else [s[0]] + Replaced(s[1..], from, to)
  }

  predicate PathTemplate(s: string) {
    var t := Trim(s);
    && t != "" && ByteLen(t) < 256 && NoControl(t) && '\\' !in t
    && (var plain := Replaced(Replaced(Replaced(t, "{uid}", "x"), "{pid}", "x"), "{pkg}", "x");
        '{' !in plain && '}' !in plain)
    && (t[0] == '/' ==> "/dev/memcg/" <= t || "/sys/fs/cgroup/" <= t)
    && forall i | 0 <= i < |Split(t, '/')| :: Split(t, '/')[i] !in {".", ".."}
  }

  // ---- fields

  /** A missing field reads like null. */
  function Field(v: map<string, Value>, field: string): Value {
    if field in v then v[field] else Null
  }

  function OptString(v: Value, max: nat): Result<Option<string>> {
    match v
    case Null => Ok(None)
    case Str(s) =>
      var t := Trim(s);
      if t == "" then Ok(None) else if ByteLen(t) >= max || !NoControl(t) then Err else Ok(Some(t))
    case _ => Err
  }

  function OptNat(v: Value, max: nat): Result<Option<nat>> {
    match v
    case Null => Ok(None)
    case Int(n) => if 0 <= n <= U64Max && n <= max then Ok(Some(n)) else Err
    case _ => Err
  }

  function OptInt(v: Value, min: int, max: int): Result<Option<int>> {
    match v
    case Null => Ok(None)
    case Int(n) => if -(I64Max as int) - 1 <= n <= I64Max && min <= n <= max then Ok(Some(n)) else Err
    case _ => Err
  }

  function OptBool(v: Value): Result<Option<bool>> {
    match v
    case Null => Ok(None)
    case Bool(b) => Ok(Some(b))
    case _ => Err
  }

  // ---- memory limits

  function LowerChar(c: char): char {
    if 'A' <= c <= 'Z' then (c as int + 32) as char else c
  }

  function Lower(s: string): string {
    if s == "" then "" else [LowerChar(s[0])] + Lower(s[1..])
  }

  const Suffixes: seq<(string, nat)> := [
    ("tib", 0x100_0000_0000), ("tb", 0x100_0000_0000), ("t", 0x100_0000_0000),
    ("gib", 0x4000_0000), ("gb", 0x4000_0000), ("g", 0x4000_0000),
    ("mib", 0x10_0000), ("mb", 0x10_0000), ("m", 0x10_0000),
    ("kib", 0x400), ("kb", 0x400), ("k", 0x400)]

  predicate EndsWith(s: string, suffix: string) {
    |suffix| <= |s| && s[|s| - |suffix|..] == suffix
  }

  /** The number and its unit: the first suffix in the list that fits. */
  function SplitUnit(raw: string, suffixes: seq<(string, nat)>): (string, nat) {
    if suffixes == [] then (raw, 1)
    else if EndsWith(raw, suffixes[0].0) then (raw[..|raw| - |suffixes[0].0|], suffixes[0].1)
    else SplitUnit(raw, suffixes[1..])
  }

  function LimitText(raw: string, allowMax: bool): Result<string> {
    if raw == "max" then (if allowMax then Ok("max") else Err)
    else
      var (digits, unit) := SplitUnit(raw, Suffixes);
      if digits == "" || !AllDigits(digits) then Err
      else if DigitsValue(digits) > U64Max || DigitsValue(digits) * unit > U64Max then Err
      else Ok(NumberText(DigitsValue(digits) * unit))
  }

  function MemoryLimit(v: Value, allowMax: bool): Result<Option<string>> {
    match OptString(v, 64)
    case Err => Err
    case Ok(None) => Ok(None)
    case Ok(Some(s)) => match LimitText(Lower(s), allowMax) case Err => Err case Ok(t) => Ok(Some(t))
  }

  // ---- parsing

  /** A required string that is trimmed and then has to pass a check. */
  function Name(v: Value, ok: string -> bool): Result<string> {
    if v.Str? && ok(Trim(v.text)) then Ok(Trim(v.text)) else Err
  }

  function GroupFrom(v: Value): Result<MemoryGroup> {
    if !v.Object? then Err
    else
      var f := v.fields;
      var name, path := Name(Field(f, "name"), s => GroupName(s)), Name(Field(f, "path"), s => PathTemplate(s));
      var swap := OptNat(Field(f, "swappiness"), 200);
      var mn, lo := MemoryLimit(Field(f, "memory_min"), false), MemoryLimit(Field(f, "memory_low"), false);
      var hi, mx := MemoryLimit(Field(f, "memory_high"), false), MemoryLimit(Field(f, "memory_max"), true);
      var oom := OptBool(Field(f, "oom_group"));
      if name.Err? || path.Err? || swap.Err? || mn.Err? || lo.Err? || hi.Err? || mx.Err? || oom.Err? then Err
      else Ok(MemoryGroup(name.value, path.value, swap.value, mn.value, lo.value, hi.value, mx.value, oom.value))
  }

  predicate RuleMakesSense(r: ThreadTuneRule) {
    && (r.uclampMin.Some? || r.uclampMax.Some? || r.nice.Some?)
    && (r.uclampMin.Some? && r.uclampMax.Some? ==> r.uclampMin.value <= r.uclampMax.value)
  }

  function ThreadFrom(v: Value): Result<ThreadTuneRule> {
    if !v.Object? then Err
    else
      var f := v.fields;
      var pattern := Name(Field(f, "pattern"), s => ThreadPattern(s));
      var lo, hi := OptNat(Field(f, "uclamp_min"), 1024), OptNat(Field(f, "uclamp_max"), 1024);
      var nice := OptInt(Field(f, "nice"), -20, 19);
      if pattern.Err? || lo.Err? || hi.Err? || nice.Err? then Err
      else
        var r := ThreadTuneRule(pattern.value, lo.value, hi.value, nice.value);
        if RuleMakesSense(r) then Ok(r) else Err
  }

  function GroupRef(v: Value): Result<Option<string>> {
    match v
    case Null => Ok(None)
    case Str(s) => if Trim(s) == "" then Ok(None) else if GroupName(Trim(s)) then Ok(Some(Trim(s))) else Err
    case _ => Err
  }

  function ThreadsFrom(items: seq<Value>): Result<seq<ThreadTuneRule>> {
    if items == [] then Ok([])
    else
      var first, rest := ThreadFrom(items[0]), ThreadsFrom(items[1..]);
      if first.Err? || rest.Err? then Err else Ok([first.value] + rest.value)
  }

  function ThreadList(v: Value): Result<seq<ThreadTuneRule>> {
    match v case Null => Ok([]) case Array(items) => ThreadsFrom(items) case _ => Err
  }

  function AppFrom(v: Value): Result<AppTuneRule> {
    if !v.Object? then Err
    else
      var f := v.fields;
      var pkg, group := Name(Field(f, "pkg"), s => PackageName(s)), GroupRef(Field(f, "memory_group"));
      var threads := ThreadList(Field(f, "threads"));
      if pkg.Err? || group.Err? || threads.Err? || (group.value.None? && threads.value == []) then Err
      else Ok(AppTuneRule(pkg.value, group.value, threads.value))
  }

  function GroupsFrom(items: seq<Value>): Result<seq<MemoryGroup>> {
    if items == [] then Ok([])
    else
      var first, rest := GroupFrom(items[0]), GroupsFrom(items[1..]);
      if first.Err? || rest.Err? then Err else Ok([first.value] + rest.value)
  }

  function AppsFrom(items: seq<Value>): Result<seq<AppTuneRule>> {
    if items == [] then Ok([])
    else
      var first, rest := AppFrom(items[0]), AppsFrom(items[1..]);
      if first.Err? || rest.Err? then Err else Ok([first.value] + rest.value)
  }

  function GroupList(v: Value): Result<seq<MemoryGroup>> {
    match v case Null => Ok([]) case Array(items) => GroupsFrom(items) case _ => Err
  }

  function AppList(v: Value): Result<seq<AppTuneRule>> {
    match v case Null => Ok([]) case Array(items) => AppsFrom(items) case _ => Err
  }

  predicate UniqueGroups(groups: seq<MemoryGroup>) {
    forall i, j | 0 <= i < j < |groups| :: groups[i].name != groups[j].name
  }

  predicate UniqueApps(apps: seq<AppTuneRule>) {
    forall i, j | 0 <= i < j < |apps| :: apps[i].pkg != apps[j].pkg
  }

  predicate HasGroup(groups: seq<MemoryGroup>, name: string) {
    exists i | 0 <= i < |groups| :: groups[i].name == name
  }

  predicate RefsExist(c: TuningConfig) {
    forall i | 0 <= i < |c.apps| && c.apps[i].group.Some? :: HasGroup(c.groups, c.apps[i].group.value)
  }

  /** Unique groups, unique packages, and every reference to a group that exists. */
  predicate Consistent(c: TuningConfig) {
    UniqueGroups(c.groups) && UniqueApps(c.apps) && RefsExist(c)
  }

  function ConfigFrom(v: Value): Result<TuningConfig> {
    if !v.Object? then Err
    else
      var groups, apps := GroupList(Field(v.fields, "memory_groups")), AppList(Field(v.fields, "apps"));
      if groups.Err? || apps.Err? || !Consistent(TuningConfig(groups.value, apps.value)) then Err
      else Ok(TuningConfig(groups.value, apps.value))
  }

  /** The duplicate check over the groups: a set filled in a loop. */
  method CheckGroups(groups: seq<MemoryGroup>) returns (ok: bool, names: set<string>)
    ensures ok == UniqueGroups(groups)
    ensures ok ==> forall s :: s in names <==> HasGroup(groups, s)
  {
    names := {};
    for i := 0 to |groups|
      invariant UniqueGroups(groups[..i])
      invariant forall s :: s in names <==> HasGroup(groups[..i], s)
    {
      var g := groups[i];
      assert forall k | 0 <= k < i :: groups[..i][k] == groups[k];
      if g.name in names {
        return false, names;
      }
      assert forall k | 0 <= k < i + 1 :: groups[..i + 1][k] == groups[k];
      forall s ensures s in names + {g.name} <==> HasGroup(groups[..i + 1], s) {
        HasGroupNext(groups, i, s);
      }
      names := names + {g.name};
    }
    TakeAll(groups);
    ok := true;
  }

  lemma {:induction false} HasGroupNext(groups: seq<MemoryGroup>, i: nat, s: string)
    requires i < |groups|
    ensures HasGroup(groups[..i + 1], s) <==> HasGroup(groups[..i], s) || groups[i].name == s
  {
    var a, b := groups[..i + 1], groups[..i];
    assert a[i] == groups[i];
    if HasGroup(b, s) {
      var k :| 0 <= k < |b| && b[k].name == s;
      assert a[k].name == s;
    }
    if HasGroup(a, s) {
      var k :| 0 <= k < |a| && a[k].name == s;
      assert k < i ==> b[k].name == s;
    }
  }

  /** The check over the apps: no package twice, no group that does not exist. */
  method CheckApps(apps: seq<AppTuneRule>, groups: seq<MemoryGroup>, names: set<string>) returns (ok: bool)
    requires forall s :: s in names <==> HasGroup(groups, s)
    ensures ok == (UniqueApps(apps) && RefsExist(TuningConfig(groups, apps)))
  {
    hide HasGroup;
    var seen: set<string> := {};
    for i := 0 to |apps|
      invariant forall a, b | 0 <= a < b < i :: apps[a].pkg != apps[b].pkg
      invariant forall a | 0 <= a < i && apps[a].group.Some? :: HasGroup(groups, apps[a].group.value)
      invariant forall s :: s in seen <==> exists a | 0 <= a < i :: apps[a].pkg == s
    {
      var app := apps[i];
      if app.pkg in seen {
        return false;
      }
      seen := seen + {app.pkg};
      if app.group.Some? && app.group.value !in names {
        return false;
      }
    }
    ok := true;
  }

  /** The parser's last part, with its loops. */
  method ConfigFromValue(v: Value) returns (r: Result<TuningConfig>)
    ensures r == ConfigFrom(v)
  {
    hide GroupList, AppList, UniqueGroups, UniqueApps, RefsExist, HasGroup;
    if !v.Object? {
      return Err;
    }
    var groups := GroupList(Field(v.fields, "memory_groups"));
    if groups.Err? {
      return Err;
    }
    var unique, names := CheckGroups(groups.value);
    if !unique {
      return Err;
    }
    var apps := AppList(Field(v.fields, "apps"));
    if apps.Err? {
      return Err;
    }
    var ok := CheckApps(apps.value, groups.value, names);
    if !ok {
      return Err;
    }
    return Ok(TuningConfig(groups.value, apps.value));
  }

  // ---- printing

  function TextValue(s: Option<string>): Value {
    match s case None => Null case Some(t) => Str(t)
  }

  function IntValue(n: Option<int>): Value {
    match n case None => Null case Some(i) => Int(i)
  }

  function NatValue(n: Option<nat>): Value {
    match n case None => Null case Some(i) => Int(i)
  }

  function BoolValue(b: Option<bool>): Value {
    match b case None => Null case Some(x) => Bool(x)
  }

  function GroupValue(g: MemoryGroup): Value {
    Object(map[
      "name" := Str(g.name), "path" := Str(g.path), "swappiness" := NatValue(g.swappiness),
      "memory_min" := TextValue(g.memoryMin), "memory_low" := TextValue(g.memoryLow),
      "memory_high" := TextValue(g.memoryHigh), "memory_max" := TextValue(g.memoryMax),
      "oom_group" := BoolValue(g.oomGroup)])
  }

  function ThreadValue(r: ThreadTuneRule): Value {
    Object(map[
      "pattern" := Str(r.pattern), "uclamp_min" := NatValue(r.uclampMin), "uclamp_max" := NatValue(r.uclampMax),
      "nice" := IntValue(r.nice)])
  }

  function ThreadValues(rs: seq<ThreadTuneRule>): seq<Value> {
    if rs == [] then [] else [ThreadValue(rs[0])] + ThreadValues(rs[1..])
  }

  function AppValue(a: AppTuneRule): Value {
    Object(map["pkg" := Str(a.pkg), "memory_group" := TextValue(a.group), "threads" := Array(ThreadValues(a.threads))])
  }

  function GroupValues(gs: seq<MemoryGroup>): seq<Value> {
    if gs == [] then [] else [GroupValue(gs[0])] + GroupValues(gs[1..])
  }

  function AppValues(xs: seq<AppTuneRule>): seq<Value> {
    if xs == [] then [] else [AppValue(xs[0])] + AppValues(xs[1..])
  }

  function ConfigValue(c: TuningConfig): Value {
    Object(map["version" := Int(1), "memory_groups" := Array(GroupValues(c.groups)), "apps" := Array(AppValues(c.apps))])
  }
}
