/** Which rules decide about a thread, in terms of the rules themselves. */
module AffinityExact {
  import opened Text
  import opened CpuSpec
  import opened CpuRanges
  import opened Loader
  import opened RuleMatch
  import opened TaskCache

  /** A rule with a pattern that matches the thread; a name of 32 bytes or more matches nothing. */
  predicate Hits(r: AffinityRule, pkg: string, thread: string, matches: (string, string) -> bool) {
    r.pkg == pkg && r.thread != "" && thread != "" && ByteLen(thread) < 32 && matches(r.thread, thread)
  }

  /** A CPU that some matching thread rule names. */
  ghost predicate HitCpu(rules: seq<AffinityRule>, pkg: string, thread: string, matches: (string, string) -> bool, c: nat) {
    exists r | r in rules :: Hits(r, pkg, thread, matches) && c in r.cpus
  }

  /** A CPU that some rule of the whole package names. */
  ghost predicate PkgCpu(rules: seq<AffinityRule>, pkg: string, c: nat) {
    exists r | r in rules :: r.pkg == pkg && r.thread == "" && c in r.cpus
  }

  /**
   * A matching thread rule with CPUs decides: the thread gets exactly the CPUs of the matching
   * thread rules, whatever the package rules say, and the directory of those CPUs if there is one.
   */
  lemma {:induction false} ThreadRuleDecides(pkg: string, thread: string, cfg: AppConfig, matches: (string, string) -> bool, c: nat)
    requires HitCpu(cfg.rules, pkg, thread, matches, c)
    ensures var a := ThreadAffinity(pkg, thread, cfg, matches);
            && a.Some? && a.value.byThread
            && (forall x: nat :: x in a.value.cpus <==> HitCpu(cfg.rules, pkg, thread, matches, x))
            && a.value.dir == if cfg.topo.cpusetEnabled && cfg.topo.created(RangeString(a.value.cpus))
                              then RangeString(a.value.cpus) else ""
  {
    hide RangeString, ByteLen, PackageDir, PackageCpus;
    HitsAre(pkg, thread, matches);
    var r :| r in cfg.rules && Hits(r, pkg, thread, matches) && c in r.cpus;
    assert ThreadRule(r, pkg, thread, matches);
    assert c in ThreadCpus(cfg.rules, pkg, thread, matches);
  }

  lemma {:induction false} HitsAre(pkg: string, thread: string, matches: (string, string) -> bool)
    ensures forall r :: Hits(r, pkg, thread, matches) <==> ThreadRule(r, pkg, thread, matches)
  {
    hide ByteLen;
  }

  /** So package rules can be changed at will without changing what such a thread gets. */
  lemma {:induction false} PackageRulesIdle(pkg: string, thread: string, cfg: AppConfig, other: AppConfig,
                                            matches: (string, string) -> bool, c: nat)
    requires HitCpu(cfg.rules, pkg, thread, matches, c) && other.topo == cfg.topo
    requires forall r: AffinityRule | r.thread != "" :: r in cfg.rules <==> r in other.rules
    ensures ThreadAffinity(pkg, thread, other, matches) == ThreadAffinity(pkg, thread, cfg, matches)
  {
    hide ThreadAffinity, RangeString, ByteLen;
    forall x: nat ensures HitCpu(cfg.rules, pkg, thread, matches, x) <==> HitCpu(other.rules, pkg, thread, matches, x) {
      HitsSame(cfg.rules, other.rules, pkg, thread, matches, x);
      HitsSame(other.rules, cfg.rules, pkg, thread, matches, x);
    }
    ThreadRuleDecides(pkg, thread, cfg, matches, c);
    ThreadRuleDecides(pkg, thread, other, matches, c);
    var a, b := ThreadAffinity(pkg, thread, cfg, matches).value, ThreadAffinity(pkg, thread, other, matches).value;
    assert forall x: nat :: x in a.cpus <==> x in b.cpus;
    assert a.cpus == b.cpus;
  }

  lemma {:induction false} HitsSame(a: seq<AffinityRule>, b: seq<AffinityRule>, pkg: string, thread: string,
                                    matches: (string, string) -> bool, c: nat)
    requires forall r: AffinityRule | r.thread != "" :: r in a ==> r in b
    ensures HitCpu(a, pkg, thread, matches, c) ==> HitCpu(b, pkg, thread, matches, c)
  {
    hide ByteLen;
    if HitCpu(a, pkg, thread, matches, c) {
      var r :| r in a && Hits(r, pkg, thread, matches) && c in r.cpus;
      assert r in b;
    }
  }

  /** With no match the package rules decide, whatever the thread rules are. */
  lemma {:induction false} PackageRuleDecides(pkg: string, thread: string, cfg: AppConfig, matches: (string, string) -> bool, c: nat)
    requires (forall r | r in cfg.rules :: !Hits(r, pkg, thread, matches)) && PkgCpu(cfg.rules, pkg, c)
    ensures var a := ThreadAffinity(pkg, thread, cfg, matches);
            && a.Some? && !a.value.byThread && (forall x: nat :: x in a.value.cpus <==> PkgCpu(cfg.rules, pkg, x))
  {
    hide ByteLen, PackageDir, DirName;
    HitsAre(pkg, thread, matches);
    var r :| r in cfg.rules && r.pkg == pkg && r.thread == "" && c in r.cpus;
    assert PackageRule(r, pkg);
    assert c in PackageCpus(cfg.rules, pkg);
  }

  /** Its directory is that of the package's only rule; with several the cpuset is left alone. */
  lemma {:induction false} PackageDirectory(pkg: string, thread: string, cfg: AppConfig, matches: (string, string) -> bool, i: nat)
    requires forall r | r in cfg.rules :: !Hits(r, pkg, thread, matches)
    requires i < |cfg.rules| && cfg.rules[i].pkg == pkg && cfg.rules[i].thread == "" && cfg.rules[i].cpus != {}
    ensures var a := ThreadAffinity(pkg, thread, cfg, matches);
            a.Some? && a.value.dir == if exists j | 0 <= j < |cfg.rules| :: j != i && cfg.rules[j].pkg == pkg && cfg.rules[j].thread == ""
                                      then "" else cfg.rules[i].dir
  {
    hide ByteLen, DirName, OwnRules;
    HitsAre(pkg, thread, matches);
    assert PackageRule(cfg.rules[i], pkg);
    var c :| c in cfg.rules[i].cpus;
    assert c in PackageCpus(cfg.rules, pkg);
    OwnOnes(cfg.rules, pkg, i);
  }

  lemma {:induction false} OwnOnes(rules: seq<AffinityRule>, pkg: string, i: nat)
    requires i < |rules| && PackageRule(rules[i], pkg)
    ensures OwnRules(rules, pkg) != []
    ensures |OwnRules(rules, pkg)| == 1 <==> !exists j | 0 <= j < |rules| :: j != i && rules[j].pkg == pkg && rules[j].thread == ""
    ensures |OwnRules(rules, pkg)| == 1 ==> OwnRules(rules, pkg) == [rules[i]]
    decreases |rules|
  {
    var rest := rules[1..];
    assert forall j | 0 <= j < |rest| :: rest[j] == rules[j + 1];
    if i == 0 {
      OwnNone(rest, pkg);
      if j :| 0 <= j < |rules| && j != 0 && rules[j].pkg == pkg && rules[j].thread == "" {
        assert PackageRule(rest[j - 1], pkg);
      }
    } else {
      OwnOnes(rest, pkg, i - 1);
      if j :| 0 <= j < |rest| && j != i - 1 && rest[j].pkg == pkg && rest[j].thread == "" {
        assert rules[j + 1].pkg == pkg && rules[j + 1].thread == "";
      }
      if j :| 0 <= j < |rules| && j != i && rules[j].pkg == pkg && rules[j].thread == "" && j > 0 {
        assert rest[j - 1].pkg == pkg && rest[j - 1].thread == "";
      }
    }
  }

  lemma {:induction false} OwnNone(rules: seq<AffinityRule>, pkg: string)
    ensures OwnRules(rules, pkg) == [] <==> forall j | 0 <= j < |rules| :: !PackageRule(rules[j], pkg)
    decreases |rules|
  {
    if rules != [] {
      OwnNone(rules[1..], pkg);
      assert forall j | 0 <= j < |rules| - 1 :: rules[1..][j] == rules[j + 1];
      assert forall j | 0 < j < |rules| :: rules[j] == rules[1..][j - 1];
    }
  }

  /** Where neither gives a CPU, a package with thread rules gets all present CPUs, and any other is left alone. */
  lemma {:induction false} NothingDecides(pkg: string, thread: string, cfg: AppConfig, matches: (string, string) -> bool)
    requires forall x: nat :: !HitCpu(cfg.rules, pkg, thread, matches, x)
    requires (exists r | r in cfg.rules :: Hits(r, pkg, thread, matches)) || forall x: nat :: !PkgCpu(cfg.rules, pkg, x)
    ensures ThreadAffinity(pkg, thread, cfg, matches)
         == if pkg in cfg.threadPkgs then Some(Affinity(cfg.topo.present, "", false)) else None
  {
    hide ByteLen, PackageDir, DirName;
    HitsAre(pkg, thread, matches);
    forall x: nat ensures x !in ThreadCpus(cfg.rules, pkg, thread, matches) {
      assert !HitCpu(cfg.rules, pkg, thread, matches, x);
    }
    assert ThreadCpus(cfg.rules, pkg, thread, matches) == {};
    if !AnyThreadRule(cfg.rules, pkg, thread, matches) {
      forall x: nat ensures x !in PackageCpus(cfg.rules, pkg) {
        assert !PkgCpu(cfg.rules, pkg, x);
      }
      assert PackageCpus(cfg.rules, pkg) == {};
    }
  }

  // ---- from the rule file to the thread

  lemma {:induction false} RulesAt(topo: Topology, rs: seq<RawRule>, i: nat)
    requires i < |rs|
    ensures |RulesOf(topo, rs)| == |rs| && RulesOf(topo, rs)[i] == RuleOf(topo, rs[i])
    decreases |rs|
  {
    hide RuleOf;
    if i > 0 {
      RulesAt(topo, rs[1..], i - 1);
    } else if |rs| > 1 {
      RulesAt(topo, rs[1..], 0);
    }
  }

  lemma {:induction false} RulesAtAll(topo: Topology, rs: seq<RawRule>)
    ensures |RulesOf(topo, rs)| == |rs| && forall i | 0 <= i < |rs| :: RulesOf(topo, rs)[i] == RuleOf(topo, rs[i])
  {
    hide RuleOf;
    forall i | 0 <= i < |rs| ensures |RulesOf(topo, rs)| == |rs| && RulesOf(topo, rs)[i] == RuleOf(topo, rs[i]) {
      RulesAt(topo, rs, i);
    }
  }

  /** The only package rule of a file decides for every thread no thread rule matches: its CPUs, and their directory. */
  lemma {:induction false} LoadedPackageRule(topo: Topology, rs: seq<RawRule>, tuned: set<string>, tunedThreads: set<string>,
                                             pkg: string, thread: string, matches: (string, string) -> bool, i: nat)
    requires i < |rs| && rs[i].pkg == pkg && rs[i].thread == "" && SpecCpus(rs[i].spec, topo) != {}
    requires forall j | 0 <= j < |rs| && j != i && rs[j].pkg == pkg ::
               rs[j].thread != "" && !(thread != "" && ByteLen(thread) < 32 && matches(rs[j].thread, thread))
    ensures var cpus := SpecCpus(rs[i].spec, topo);
            ThreadAffinity(pkg, thread, ConfigOf(topo, rs, tuned, tunedThreads), matches)
            == Some(Affinity(cpus, if topo.cpusetEnabled && topo.created(RangeString(cpus)) then RangeString(cpus) else "", false))
  {
    hide ThreadAffinity, SpecCpus, RangeString, ByteLen, RulesOf;
    var cfg := ConfigOf(topo, rs, tuned, tunedThreads);
    RulesAtAll(topo, rs);
    assert cfg.rules[i] == RuleOf(topo, rs[i]);
    var c :| c in SpecCpus(rs[i].spec, topo);
    PackageRuleDecides(pkg, thread, cfg, matches, c);
    PackageDirectory(pkg, thread, cfg, matches, i);
    var a := ThreadAffinity(pkg, thread, cfg, matches).value;
    forall x: nat ensures x in a.cpus <==> x in cfg.rules[i].cpus {
      assert PkgCpu(cfg.rules, pkg, x) <==> x in cfg.rules[i].cpus;
    }
    assert a.cpus == cfg.rules[i].cpus;
  }

  /** A package is known when a rule of the file or the tuning names it, and its threads' names count when one of them is about a thread. */
  lemma {:induction false} LoadedPackages(topo: Topology, rs: seq<RawRule>, tuned: set<string>, tunedThreads: set<string>,
                                          pkg: string, comm: string)
    ensures var cfg := ConfigOf(topo, rs, tuned, tunedThreads);
            && (pkg in cfg.pkgs <==> pkg in tuned || exists i | 0 <= i < |rs| :: rs[i].pkg == pkg)
            && NameFor(pkg, comm, cfg)
               == if pkg in tunedThreads || exists i | 0 <= i < |rs| :: rs[i].pkg == pkg && rs[i].thread != "" then comm else ""
  {
    hide RulesOf;
    var cfg := ConfigOf(topo, rs, tuned, tunedThreads);
    forall r | r in rs ensures r.pkg in cfg.pkgs && (r.thread != "" ==> r.pkg in cfg.threadPkgs) {
    }
    assert forall i | 0 <= i < |rs| :: rs[i] in rs;
  }
}
