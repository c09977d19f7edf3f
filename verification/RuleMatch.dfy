/** Which CPUs a thread gets. */
module RuleMatch {
  import opened Seqs
  import opened Text
  import opened CpuSpec
  import opened CpuRanges
  import opened Loader
  import opened RuleSets

  /** A loaded rule with its CPUs and the cpuset directory of its package. */
  datatype AffinityRule = AffinityRule(pkg: string, thread: string, cpus: set<nat>, dir: string)

  /** The loaded configuration; tuning profiles add packages to both name sets. */
  datatype AppConfig = AppConfig(rules: seq<AffinityRule>, pkgs: set<string>, threadPkgs: set<string>, topo: Topology)

  datatype Affinity = Affinity(cpus: set<nat>, dir: string, byThread: bool)

  /** The directory for a set of CPUs: its printed form, or none. */
  function DirName(cpus: set<nat>, topo: Topology): string {
    if topo.cpusetEnabled && topo.created(RangeString(cpus)) then RangeString(cpus) else ""
  }

  /** POSIX pattern matching, with names that do not fit the buffer never matching. */
  predicate FnMatch(matches: (string, string) -> bool, pattern: string, name: string) {
    ByteLen(name) < MaxThreadLen && matches(pattern, name)
  }

  predicate ThreadRule(r: AffinityRule, pkg: string, thread: string, matches: (string, string) -> bool) {
    r.pkg == pkg && r.thread != "" && thread != "" && FnMatch(matches, r.thread, thread)
  }

  predicate PackageRule(r: AffinityRule, pkg: string) {
    r.pkg == pkg && r.thread == ""
  }

  /** All CPUs of the matching thread rules. */
  ghost function ThreadCpus(rules: seq<AffinityRule>, pkg: string, thread: string, matches: (string, string) -> bool): set<nat> {
    set r, c | r in rules && ThreadRule(r, pkg, thread, matches) && c in r.cpus :: c
  }

  ghost predicate AnyThreadRule(rules: seq<AffinityRule>, pkg: string, thread: string, matches: (string, string) -> bool) {
    exists r | r in rules :: ThreadRule(r, pkg, thread, matches)
  }

  ghost function PackageCpus(rules: seq<AffinityRule>, pkg: string): set<nat> {
    set r, c | r in rules && PackageRule(r, pkg) && c in r.cpus :: c
  }

  /** The directory of the package rule if there is exactly one. */
  function PackageDir(rules: seq<AffinityRule>, pkg: string): string {
    var own := OwnRules(rules, pkg);
    if |own| == 1 then own[0].dir else ""
  }

  function OwnRules(rules: seq<AffinityRule>, pkg: string): seq<AffinityRule> {
    if rules == [] then [] else (if PackageRule(rules[0], pkg) then [rules[0]] else []) + OwnRules(rules[1..], pkg)
  }

  ghost function ThreadAffinity(pkg: string, thread: string, cfg: AppConfig, matches: (string, string) -> bool): Option<Affinity> {
    var byThread := AnyThreadRule(cfg.rules, pkg, thread, matches);
    var cpus := if byThread then ThreadCpus(cfg.rules, pkg, thread, matches) else PackageCpus(cfg.rules, pkg);
    var dir := if byThread then DirName(cpus, cfg.topo) else PackageDir(cfg.rules, pkg);
    if cpus != {} then Some(Affinity(cpus, dir, byThread))
    else if pkg in cfg.threadPkgs then Some(Affinity(cfg.topo.present, "", false))
    else None
  }

  lemma {:induction false} OwnConcat(a: seq<AffinityRule>, b: seq<AffinityRule>, pkg: string)
    ensures OwnRules(a + b, pkg) == OwnRules(a, pkg) + OwnRules(b, pkg)
    decreases |a|
  {
    if a == [] {
      NilLeft(b);
    } else {
      ConsDrop(a, b);
      OwnConcat(a[1..], b, pkg);
    }
  }

  lemma {:induction false} OwnSnoc(rules: seq<AffinityRule>, k: nat, pkg: string)
    requires k < |rules|
    ensures OwnRules(rules[..k + 1], pkg) == OwnRules(rules[..k], pkg) + (if PackageRule(rules[k], pkg) then [rules[k]] else [])
  {
    SplitAround(rules, k);
    OwnConcat(rules[..k], [rules[k]], pkg);
    assert [rules[k]][1..] == [];
  }

  /** The search as the source runs it: thread rules first, package rules when none matched. */
  method FindAffinity(pkg: string, thread: string, cfg: AppConfig, matches: (string, string) -> bool)
    returns (r: Option<Affinity>)
    ensures r == ThreadAffinity(pkg, thread, cfg, matches)
  {
    hide FnMatch, RangeString, OwnRules;
    var cpus: set<nat>, dir, matched := {}, "", false;
    TakeAll(cfg.rules);
    if thread != "" {
      for k := 0 to |cfg.rules|
        invariant matched == AnyThreadRule(cfg.rules[..k], pkg, thread, matches)
        invariant cpus == ThreadCpus(cfg.rules[..k], pkg, thread, matches)
      {
        var rule := cfg.rules[k];
        SplitAround(cfg.rules, k);
        AnySnoc(cfg.rules[..k], rule, pkg, thread, matches);
        if rule.pkg != pkg || rule.thread == "" {
          continue;
        }
        if FnMatch(matches, rule.thread, thread) {
          cpus := cpus + rule.cpus;
          matched := true;
        }
      }
      if matched {
        dir := DirName(cpus, cfg.topo);
      }
    }
    NoOwnRules(pkg);
    if !matched {
      cpus := {};
      var seen := false;
      for k := 0 to |cfg.rules|
        invariant cpus == PackageCpus(cfg.rules[..k], pkg)
        invariant seen == (OwnRules(cfg.rules[..k], pkg) != [])
        invariant dir == PackageDir(cfg.rules[..k], pkg)
      {
        var rule := cfg.rules[k];
        SplitAround(cfg.rules, k);
        OwnSnoc(cfg.rules, k, pkg);
        if rule.pkg != pkg || rule.thread != "" {
          continue;
        }
        cpus := cpus + rule.cpus;
        if !seen {
          dir := rule.dir;
          seen := true;
        } else {
          dir := "";
        }
      }
    }
    if cpus == {} {
      return if pkg in cfg.threadPkgs then Some(Affinity(cfg.topo.present, "", false)) else None;
    }
    return Some(Affinity(cpus, dir, matched));
  }

  lemma {:induction false} AnySnoc(rules: seq<AffinityRule>, r: AffinityRule, pkg: string, thread: string, matches: (string, string) -> bool)
    ensures AnyThreadRule(rules + [r], pkg, thread, matches)
       <==> AnyThreadRule(rules, pkg, thread, matches) || ThreadRule(r, pkg, thread, matches)
  {
    hide FnMatch;
    assert r in rules + [r];
    assert forall x | x in rules :: x in rules + [r];
  }

  lemma {:induction false} NoOwnRules(pkg: string)
    ensures OwnRules([], pkg) == []
  {
  }

  // ---- the configuration of a rule file

  function RuleOf(topo: Topology, r: RawRule): AffinityRule {
    var cpus := SpecCpus(r.spec, topo);
    AffinityRule(r.pkg, r.thread, cpus, if r.thread == "" then DirName(cpus, topo) else "")
  }

  function RulesOf(topo: Topology, rs: seq<RawRule>): seq<AffinityRule> {
    if rs == [] then [] else [RuleOf(topo, rs[0])] + RulesOf(topo, rs[1..])
  }

  /** The configuration loaded from a file, with the packages that tuning adds. */
  ghost function ConfigOf(topo: Topology, rs: seq<RawRule>, tuned: set<string>, tunedThreads: set<string>): AppConfig {
    AppConfig(RulesOf(topo, rs), (set r | r in rs :: r.pkg) + tuned,
              (set r | r in rs && r.thread != "" :: r.pkg) + tunedThreads, topo)
  }

  lemma {:induction false} RulesOfHas(topo: Topology, rs: seq<RawRule>, a: AffinityRule)
    ensures a in RulesOf(topo, rs) <==> exists r | r in rs :: RuleOf(topo, r) == a
    decreases |rs|
  {
    hide RuleOf;
    if rs != [] {
      Uncons(rs);
      RulesOfHas(topo, rs[1..], a);
    }
  }

  /** The package rules of the configuration are those of the file. */
  lemma {:induction false} OwnOf(topo: Topology, rs: seq<RawRule>, pkg: string)
    ensures OwnRules(RulesOf(topo, rs), pkg) == RulesOf(topo, Select(rs, PkgRules(pkg)))
    decreases |rs|
  {
    hide DirName, SpecCpus;
    if rs != [] {
      var all := RulesOf(topo, rs);
      assert all[0] == RuleOf(topo, rs[0]) && all[1..] == RulesOf(topo, rs[1..]);
      OwnOf(topo, rs[1..], pkg);
      RulesCons(topo, rs[0], Select(rs[1..], PkgRules(pkg)));
      NilLeft(Select(rs[1..], PkgRules(pkg)));
    }
  }

  lemma {:induction false} RulesCons(topo: Topology, r: RawRule, rs: seq<RawRule>)
    ensures RulesOf(topo, [r] + rs) == [RuleOf(topo, r)] + RulesOf(topo, rs)
  {
    hide RuleOf;
    assert ([r] + rs)[1..] == rs;
  }

  /** Rule files with the same rules and the same package rules give every thread the same CPUs. */
  lemma {:induction false} SameAffinity(topo: Topology, a: seq<RawRule>, b: seq<RawRule>, tuned: set<string>, tunedThreads: set<string>,
                                        pkg: string, thread: string, matches: (string, string) -> bool)
    requires multiset(a) == multiset(b) && Select(a, PkgRules(pkg)) == Select(b, PkgRules(pkg))
    ensures ThreadAffinity(pkg, thread, ConfigOf(topo, a, tuned, tunedThreads), matches)
         == ThreadAffinity(pkg, thread, ConfigOf(topo, b, tuned, tunedThreads), matches)
  {
    hide RuleOf, Select, DirName, ThreadRule, PackageRule, OwnRules, RulesOf;
    forall r ensures r in a <==> r in b {
      assert r in multiset(a) <==> r in multiset(b);
    }
    forall x ensures x in RulesOf(topo, a) <==> x in RulesOf(topo, b) {
      RulesOfHas(topo, a, x);
      RulesOfHas(topo, b, x);
    }
    OwnOf(topo, a, pkg);
    OwnOf(topo, b, pkg);
    assert ThreadCpus(RulesOf(topo, a), pkg, thread, matches) == ThreadCpus(RulesOf(topo, b), pkg, thread, matches);
    assert PackageCpus(RulesOf(topo, a), pkg) == PackageCpus(RulesOf(topo, b), pkg);
  }

  /** Moving a package's thread rules changes no thread's CPUs, in that package or any other. */
  lemma {:induction false} MovedAffinity(topo: Topology, a: seq<RawRule>, b: seq<RawRule>, moved: string,
                                         tuned: set<string>, tunedThreads: set<string>,
                                         pkg: string, thread: string, matches: (string, string) -> bool)
    requires SameFor(a, b, moved)
    ensures ThreadAffinity(pkg, thread, ConfigOf(topo, a, tuned, tunedThreads), matches)
         == ThreadAffinity(pkg, thread, ConfigOf(topo, b, tuned, tunedThreads), matches)
  {
    hide Select, ThreadAffinity, ConfigOf;
    if pkg != moved {
      OtherRules(a, moved, pkg);
      OtherRules(b, moved, pkg);
    }
    SameAffinity(topo, a, b, tuned, tunedThreads, pkg, thread, matches);
  }

  lemma {:induction false} OtherRules(a: seq<RawRule>, moved: string, pkg: string)
    requires pkg != moved
    ensures Select(Select(a, OtherPkgs(moved)), PkgRules(pkg)) == Select(a, PkgRules(pkg))
    decreases |a|
  {
    if a != [] {
      OtherRules(a[1..], moved, pkg);
      var r := a[0];
      SelectConcat(if Holds(OtherPkgs(moved), r) then [r] else [], Select(a[1..], OtherPkgs(moved)), PkgRules(pkg));
      SelectOne(r, PkgRules(pkg));
      NilLeft(Select(a[1..], PkgRules(pkg)));
    }
  }

  // ---- directories agree with masks

  /** The directory is empty or the printed form of the CPUs. */
  predicate DirFits(cpus: set<nat>, dir: string) {
    dir == "" || dir == RangeString(cpus)
  }

  /** Every package rule's directory fits its CPUs. */
  predicate RulesFit(rules: seq<AffinityRule>) {
    forall r | r in rules :: DirFits(r.cpus, r.dir)
  }

  lemma {:induction false} ConfigFits(topo: Topology, rs: seq<RawRule>)
    ensures RulesFit(RulesOf(topo, rs))
  {
    hide RangeString, SpecCpus, RulesOf;
    forall a | a in RulesOf(topo, rs) ensures DirFits(a.cpus, a.dir) {
      RulesOfHas(topo, rs, a);
      var r :| r in rs && RuleOf(topo, r) == a;
    }
  }

  lemma {:induction false} OwnFrom(rules: seq<AffinityRule>, pkg: string)
    ensures forall r :: r in OwnRules(rules, pkg) <==> r in rules && PackageRule(r, pkg)
    decreases |rules|
  {
    if rules != [] {
      Uncons(rules);
      OwnFrom(rules[1..], pkg);
    }
  }

  /** Whatever CPUs a thread is given, the directory it is put in is empty or names exactly them. */
  lemma {:induction false} AffinityFits(pkg: string, thread: string, cfg: AppConfig, matches: (string, string) -> bool)
    requires RulesFit(cfg.rules)
    ensures var a := ThreadAffinity(pkg, thread, cfg, matches);
            && (a.Some? ==> DirFits(a.value.cpus, a.value.dir))
            && (a.Some? && a.value.byThread ==> AnyThreadRule(cfg.rules, pkg, thread, matches))
            && (a.None? ==> pkg !in cfg.threadPkgs)
  {
    hide RangeString, FnMatch, OwnRules;
    OwnFrom(cfg.rules, pkg);
    var own := OwnRules(cfg.rules, pkg);
    if |own| == 1 {
      assert own == [own[0]];
      OneRuleCpus(cfg.rules, pkg, own[0]);
    }
  }

  lemma {:induction false} OneRuleCpus(rules: seq<AffinityRule>, pkg: string, only: AffinityRule)
    requires forall r :: r in [only] <==> r in rules && PackageRule(r, pkg)
    ensures PackageCpus(rules, pkg) == only.cpus && only in rules
  {
    assert only in [only];
  }
}
