/** What an event does, told without the daemon's own lookups: whose thread it is, and what it gets. */
module EventExact {
  import opened Text
  import opened Loader
  import opened RuleMatch
  import opened TaskCache
  import opened Tracking
  import opened Dispatcher

  /** The name is the beginning or the end of a configured package. */
  predicate CutName(comm: string, cfg: AppConfig) {
    exists p | p in cfg.pkgs :: comm <= p || (|comm| <= |p| && p[|p| - |comm|..] == comm)
  }

  /** The name is a configured package. */
  predicate OwnName(comm: string, cfg: AppConfig) {
    comm in cfg.pkgs
  }

  /** The name was cut to 15 bytes, and what the process calls itself is a configured package. */
  predicate LongName(comm: string, cmdline: Option<string>, cfg: AppConfig) {
    comm !in cfg.pkgs && ByteLen(comm) >= 15 && CutName(comm, cfg) && cmdline.Some? && cmdline.value in cfg.pkgs
  }

  /** The package of the thread: by its own name, by the command line, or by the process it belongs to. */
  predicate Belongs(cache: Tasks, ev: Event, cmdline: Option<string>, cfg: AppConfig, pkg: string) {
    || (OwnName(ev.comm, cfg) && pkg == ev.comm)
    || (LongName(ev.comm, cmdline, cfg) && pkg == cmdline.value)
    || (!OwnName(ev.comm, cfg) && !LongName(ev.comm, cmdline, cfg) && ev.pid in cache && pkg == cache[ev.pid].pkg)
  }

  /** None of the three. */
  predicate Stranger(cache: Tasks, ev: Event, cmdline: Option<string>, cfg: AppConfig) {
    !OwnName(ev.comm, cfg) && !LongName(ev.comm, cmdline, cfg) && ev.pid !in cache
  }

  lemma {:induction false} LookupBelongs(cache: Tasks, ev: Event, cmdline: Option<string>, cfg: AppConfig, pkg: string)
    ensures Belongs(cache, ev, cmdline, cfg, pkg) <==> LookupPkg(cache, ev.pid, ev.comm, cmdline, cfg) == Some(pkg)
    ensures Stranger(cache, ev, cmdline, cfg) <==> LookupPkg(cache, ev.pid, ev.comm, cmdline, cfg) == None
  {
    hide ByteLen;
  }

  /** A rename applies the package the thread belongs to; an exec also drops a thread that is not tracked then. */
  lemma {:induction false} OwnedEvent(managed: set<int>, cache: Tasks, ev: Event, cfg: AppConfig,
                                      matches: (string, string) -> bool, f: Find, pkg: string)
    requires ev.kind in {Rename, Exec} && Belongs(cache, ev, f.cmdline, cfg, pkg)
    ensures var (m, c, ok) := ApplyOne(managed, cache, ev.tid, ev.pid, pkg, ev.comm, cfg, matches, f);
            Dispatched(managed, cache, ev, cfg, matches, f)
            == if ev.kind == Exec && !ok then (m - {ev.tid}, c - {ev.tid}) else (m, c)
  {
    hide ApplyOne, LookupPkg, Belongs;
    LookupBelongs(cache, ev, f.cmdline, cfg, pkg);
  }

  /** For a thread that belongs to no package a rename does nothing, and an exec drops it. */
  lemma {:induction false} StrangerEvent(managed: set<int>, cache: Tasks, ev: Event, cfg: AppConfig,
                                         matches: (string, string) -> bool, f: Find)
    requires ev.kind in {Rename, Exec} && Stranger(cache, ev, f.cmdline, cfg)
    ensures Dispatched(managed, cache, ev, cfg, matches, f)
         == if ev.kind == Rename then (managed, cache) else (managed - {ev.tid}, cache - {ev.tid})
  {
    hide LookupPkg, Stranger;
    LookupBelongs(cache, ev, f.cmdline, cfg, "");
  }

  /** A thread with a short name of its own is managed as its process is. */
  lemma {:induction false} ProcessDecides(managed: set<int>, cache: Tasks, ev: Event, cfg: AppConfig,
                                          matches: (string, string) -> bool, f: Find)
    requires ev.kind == Rename && ev.comm !in cfg.pkgs && ByteLen(ev.comm) < 15 && ev.pid in cache
    ensures var (m, c, _) := ApplyOne(managed, cache, ev.tid, ev.pid, cache[ev.pid].pkg, ev.comm, cfg, matches, f);
            Dispatched(managed, cache, ev, cfg, matches, f) == (m, c)
  {
    hide ApplyOne, Dispatched, ByteLen;
    OwnedEvent(managed, cache, ev, cfg, matches, f, cache[ev.pid].pkg);
  }

  /** An exit drops the thread everywhere, and a fork is left to the rename that follows it. */
  lemma {:induction false} ExitAndFork(managed: set<int>, cache: Tasks, ev: Event, cfg: AppConfig,
                                       matches: (string, string) -> bool, f: Find)
    requires ev.kind in {Exit, Fork}
    ensures Dispatched(managed, cache, ev, cfg, matches, f)
         == if ev.kind == Fork then (managed, cache) else (managed - {ev.tid}, cache - {ev.tid})
  {
  }

  // ---- applying one thread

  /** Only a package with thread rules is looked up with the thread's name. */
  function SeenName(pkg: string, comm: string, cfg: AppConfig): string {
    if pkg in cfg.threadPkgs then comm else ""
  }

  /** The rules give CPUs and no earlier thread rule stands against a package rule: the thread gets them, if it is alive. */
  lemma {:induction false} RulesApply(managed: set<int>, cache: Tasks, tid: int, pid: int, pkg: string, comm: string,
                                      cfg: AppConfig, matches: (string, string) -> bool, f: Find)
    requires ThreadAffinity(pkg, SeenName(pkg, comm, cfg), cfg, matches).Some?
    requires var a := ThreadAffinity(pkg, SeenName(pkg, comm, cfg), cfg, matches).value;
             a.byThread || tid !in cache || !cache[tid].byThread
    ensures var a := ThreadAffinity(pkg, SeenName(pkg, comm, cfg), cfg, matches).value;
            ApplyOne(managed, cache, tid, pid, pkg, comm, cfg, matches, f)
            == if f.dead then (managed, cache - {tid}, false)
               else (managed + {tid},
                     cache[tid := TaskEntry(pid, pkg, SeenName(pkg, comm, cfg), Some(a.cpus), a.dir, a.byThread)], true)
  {
    hide ThreadAffinity;
  }

  /** A package rule does not replace an earlier thread rule: the thread keeps its CPUs and directory. */
  lemma {:induction false} ThreadRuleStays(managed: set<int>, cache: Tasks, tid: int, pid: int, pkg: string, comm: string,
                                           cfg: AppConfig, matches: (string, string) -> bool, f: Find)
    requires var a := ThreadAffinity(pkg, SeenName(pkg, comm, cfg), cfg, matches); a.Some? && !a.value.byThread
    requires tid in cache && cache[tid].byThread
    ensures ApplyOne(managed, cache, tid, pid, pkg, comm, cfg, matches, f)
         == (managed + {tid}, cache[tid := TaskEntry(pid, pkg, SeenName(pkg, comm, cfg), cache[tid].cpus, cache[tid].dir, true)], true)
  {
    hide ThreadAffinity;
  }

  /** Without CPUs a thread is tracked exactly when it is tuned, and its affinity is left alone. */
  lemma {:induction false} OnlyTuned(managed: set<int>, cache: Tasks, tid: int, pid: int, pkg: string, comm: string,
                                     cfg: AppConfig, matches: (string, string) -> bool, f: Find)
    requires ThreadAffinity(pkg, SeenName(pkg, comm, cfg), cfg, matches).None?
    ensures ApplyOne(managed, cache, tid, pid, pkg, comm, cfg, matches, f)
         == if f.tuned then (managed + {tid}, cache[tid := TaskEntry(pid, pkg, SeenName(pkg, comm, cfg), None, "", false)], true)
            else (managed, cache, false)
  {
    hide ThreadAffinity;
  }

  // ---- the kernel's side

  /** Whether a handler reports to the daemon: its thread is managed, or its name is on the whitelist. */
  predicate Reports(managed: set<int>, k: Kernel) {
    match k
    case OnFork(parent, _, _, _, listed) => parent in managed || listed
    case OnExec(tid, _, _, listed) => tid in managed || listed
    case OnRename(tid, _, _, listed) => tid != 0 && (tid in managed || listed)
    case OnExit(tid, _) => tid in managed
  }

  function Report(k: Kernel): Event {
    match k
    case OnFork(_, child, pid, comm, _) => Event(Fork, child, pid, comm)
    case OnExec(tid, pid, comm, _) => Event(Exec, tid, pid, comm)
    case OnRename(tid, pid, comm, _) => Event(Rename, tid, pid, comm)
    case OnExit(tid, pid) => Event(Exit, tid, pid, "")
  }

  /** A handler's operations mark the child of a managed thread, unmark a thread that exits, and queue at most one event. */
  lemma {:induction false} HandlerDoes(s: Sys, core: int, k: Kernel)
    requires core !in s.flights
    ensures var t := Finished(Enter(s, core, k), core, 2);
            && (forall tid :: tid in t.managed <==>
                  (tid in s.managed && !(k.OnExit? && k.tid == tid)) || (k.OnFork? && k.parent in s.managed && k.child == tid))
            && t.queue == (if Reports(s.managed, k) then s.queue + [Report(k)] else s.queue)
            && t == s.(managed := t.managed, queue := t.queue)
  {
    hide Finished, Enter;
    HandlerAlone(s, core, k);
  }

  // ---- checks and scans

  /** Daemon steps with nothing in between, each with the thread it picks. */
  ghost function Carried(s: Sys, picks: seq<int>, matches: (string, string) -> bool, f: Find): Sys
    decreases |picks|
  {
    if picks == [] then s else Carried(DaemonStep(s, matches, f, picks[0]), picks[1..], matches, f)
  }

  lemma {:induction false} IdleCarried(s: Sys, picks: seq<int>, matches: (string, string) -> bool, f: Find)
    requires s.daemon.Idle?
    ensures Carried(s, picks, matches, f) == s
    decreases |picks|
  {
    if picks != [] {
      IdleCarried(s, picks[1..], matches, f);
    }
  }

  lemma {:induction false} SweepCarried(s: Sys, picks: seq<int>, matches: (string, string) -> bool, f: Find)
    requires s.daemon.Sweeping? || s.daemon.Unlisting?
    ensures var t := Carried(s, picks, matches, f); var keys := if s.daemon.Sweeping? then s.daemon.dead else s.daemon.keys;
            t.daemon.Idle? ==> t == s.(managed := s.managed - keys, daemon := Idle)
    decreases |picks|
  {
    if picks != [] {
      var t := DaemonStep(s, matches, f, picks[0]);
      if t.daemon.Idle? {
        IdleCarried(t, picks[1..], matches, f);
        assert s.managed - {} == s.managed;
      } else {
        SweepCarried(t, picks[1..], matches, f);
        var keys := if s.daemon.Sweeping? then s.daemon.dead else s.daemon.keys;
        if picks[0] in keys {
          assert s.managed - {picks[0]} - (keys - {picks[0]}) == s.managed - keys;
        }
      }
    }
  }

  /** A check that runs to its end takes exactly the cached threads that are gone from cache and table. */
  lemma {:induction false} CheckDoes(s: Sys, picks: seq<int>, matches: (string, string) -> bool, f: Find)
    requires CanStart(s, Check)
    ensures var t := Carried(StartJob(s, Check, f), picks, matches, f); var dead := set tid | tid in s.cache && tid in f.gone;
            t.daemon.Idle? ==> t == s.(cache := s.cache - dead, managed := s.managed - dead)
  {
    var dead := set tid | tid in s.cache && tid in f.gone;
    assert dead == s.cache.Keys * f.gone;
    if picks != [] {
      SweepCarried(DaemonStep(StartJob(s, Check, f), matches, f, picks[0]), picks[1..], matches, f);
    }
  }

  /** The beginning of a scan empties the cache, and takes every thread it lists off the table. */
  lemma {:induction false} ScanBegins(s: Sys, picks: seq<int>, matches: (string, string) -> bool, f: Find)
    requires CanStart(s, BeginScan)
    ensures var t := Carried(StartJob(s, BeginScan, f), picks, matches, f);
            t.daemon.Idle? ==> t == s.(cache := map[], managed := s.managed - f.gone, scanning := true)
  {
    var t := StartJob(s, BeginScan, f);
    if picks != [] {
      var u := DaemonStep(t, matches, f, picks[0]);
      if picks[1..] != [] {
        SweepCarried(DaemonStep(u, matches, f, picks[1]), picks[1..][1..], matches, f);
      }
    }
  }

  lemma {:induction false} SweepEnds(s: Sys, keys: set<int>, matches: (string, string) -> bool, f: Find) returns (picks: seq<int>)
    requires s.daemon == Sweeping(keys) || s.daemon == Unlisting(keys)
    ensures Carried(s, picks, matches, f).daemon.Idle?
    decreases |keys|
  {
    if keys == {} {
      picks := [0];
      assert picks[1..] == [];
    } else {
      SomeIn(keys);
      var x :| x in keys;
      var rest := SweepEnds(DaemonStep(s, matches, f, x), keys - {x}, matches, f);
      picks := [x] + rest;
      assert picks[1..] == rest;
    }
  }

  /** Both come to an end. */
  lemma {:induction false} ChecksEnd(s: Sys, matches: (string, string) -> bool, f: Find) returns (check: seq<int>, scan: seq<int>)
    requires CanStart(s, Check) && CanStart(s, BeginScan)
    ensures Carried(StartJob(s, Check, f), check, matches, f).daemon.Idle?
    ensures Carried(StartJob(s, BeginScan, f), scan, matches, f).daemon.Idle?
  {
    var t := DaemonStep(StartJob(s, Check, f), matches, f, 0);
    var rest := SweepEnds(t, t.daemon.dead, matches, f);
    check := [0] + rest;
    assert check[1..] == rest;
    var u := DaemonStep(StartJob(s, BeginScan, f), matches, f, 0);
    var v := DaemonStep(u, matches, f, 0);
    var more := SweepEnds(v, v.daemon.keys, matches, f);
    scan := [0] + ([0] + more);
    assert scan[1..] == [0] + more && scan[1..][1..] == more;
  }
}
