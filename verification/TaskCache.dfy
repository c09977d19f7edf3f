/** The cache of managed threads. */
module TaskCache {
  import opened Text
  import opened Loader
  import opened RuleMatch

  /** One managed thread; no CPUs means it is only tuned and its affinity is left alone. */
  datatype TaskEntry = TaskEntry(pid: int, pkg: string, comm: string, cpus: Option<set<nat>>, dir: string, byThread: bool)

  type Tasks = map<int, TaskEntry>

  /** The thread name that is looked up: none when the package has no thread rules. */
  function NameFor(pkg: string, comm: string, cfg: AppConfig): string {
    if pkg in cfg.threadPkgs then comm else ""
  }

  /** What `task_apply` decides before it touches the thread. */
  datatype Verdict =
    | Ignore
    | Keep(entry: TaskEntry)
    | Assign(entry: TaskEntry)

  ghost function Decide(tasks: Tasks, tid: int, pid: int, pkg: string, comm: string, cfg: AppConfig,
                        matches: (string, string) -> bool, tuned: bool): Verdict {
    var name := NameFor(pkg, comm, cfg);
    match ThreadAffinity(pkg, name, cfg, matches)
    case None =>
      if tuned then Keep(TaskEntry(pid, pkg, name, None, "", false)) else Ignore
    case Some(a) =>
      if !a.byThread && tid in tasks && tasks[tid].byThread
      then Keep(TaskEntry(pid, pkg, name, tasks[tid].cpus, tasks[tid].dir, true))
      else Assign(TaskEntry(pid, pkg, name, Some(a.cpus), a.dir, a.byThread))
  }

  /** The cache after one application; `dead` says that the thread turned out to be gone. */
  ghost function Applied(tasks: Tasks, tid: int, v: Verdict, dead: bool): Tasks {
    match v
    case Ignore => tasks
    case Keep(e) => tasks[tid := e]
    case Assign(e) => if dead then tasks - {tid} else tasks[tid := e]
  }

  predicate Tracked(v: Verdict, dead: bool) {
    v.Keep? || (v.Assign? && !dead)
  }

  /** A name that is a configured package, or a 15-byte name that a package starts or ends with. */
  predicate CommFits(pkg: string, comm: string) {
    comm <= pkg || (|comm| <= |pkg| && pkg[|pkg| - |comm|..] == comm)
  }

  /** The package of a kernel thread name; `cmdline` is what the process calls itself. */
  ghost function CommPkg(comm: string, cmdline: Option<string>, cfg: AppConfig): Option<string> {
    if comm in cfg.pkgs then Some(comm)
    else if ByteLen(comm) >= 15 && (exists p | p in cfg.pkgs :: CommFits(p, comm))
    then (if cmdline.Some? && cmdline.value in cfg.pkgs then cmdline else None)
    else None
  }

  /** ... or the package of the process the thread belongs to. */
  ghost function LookupPkg(tasks: Tasks, pid: int, comm: string, cmdline: Option<string>, cfg: AppConfig): Option<string> {
    match CommPkg(comm, cmdline, cfg)
    case Some(p) => Some(p)
    case None => if pid in tasks then Some(tasks[pid].pkg) else None
  }

  // ---- what every cache entry satisfies

  predicate EntryFits(e: TaskEntry) {
    match e.cpus case Some(c) => DirFits(c, e.dir) case None => e.dir == "" && !e.byThread
  }

  /** A thread under a thread rule belongs to a package that has some. */
  predicate EntrySettled(e: TaskEntry, cfg: AppConfig) {
    EntryFits(e) && (e.byThread ==> e.pkg in cfg.threadPkgs)
  }

  predicate Settled(tasks: Tasks, cfg: AppConfig) {
    forall tid | tid in tasks :: EntrySettled(tasks[tid], cfg)
  }

  /** Every thread's entry names the package the thread belongs to. */
  ghost predicate OwnedBy(tasks: Tasks, owner: int -> string) {
    forall tid | tid in tasks :: tasks[tid].pkg == owner(tid)
  }

  /** A configuration whose directories fit and which knows the packages with thread rules. */
  predicate ConfigOk(cfg: AppConfig) {
    RulesFit(cfg.rules) && forall r | r in cfg.rules && r.thread != "" :: r.pkg in cfg.threadPkgs
  }

  /** Whatever is decided, the entry's directory fits its CPUs: no matter which configuration stored the old entry. */
  lemma {:induction false} DecideFits(tasks: Tasks, tid: int, pid: int, pkg: string, comm: string, cfg: AppConfig,
                                      matches: (string, string) -> bool, tuned: bool)
    requires ConfigOk(cfg) && (tid in tasks ==> EntryFits(tasks[tid]))
    ensures var v := Decide(tasks, tid, pid, pkg, comm, cfg, matches, tuned); !v.Ignore? ==> EntryFits(v.entry)
  {
    hide FnMatch, OwnRules, PackageCpus, ThreadCpus, PackageDir, DirName, ThreadAffinity, DirFits;
    AffinityFits(pkg, NameFor(pkg, comm, cfg), cfg, matches);
  }

  /** A decision keeps the entries settled, and never turns a thread rule into a package rule. */
  lemma {:induction false} DecideSettled(tasks: Tasks, tid: int, pid: int, pkg: string, comm: string, cfg: AppConfig,
                                         matches: (string, string) -> bool, tuned: bool)
    requires Settled(tasks, cfg) && ConfigOk(cfg) && (tid in tasks ==> tasks[tid].pkg == pkg)
    ensures var v := Decide(tasks, tid, pid, pkg, comm, cfg, matches, tuned);
            && (!v.Ignore? ==> EntrySettled(v.entry, cfg) && v.entry.pkg == pkg)
            && (!v.Ignore? && tid in tasks && tasks[tid].byThread ==> v.entry.byThread)
  {
    hide FnMatch, OwnRules, PackageCpus, ThreadCpus, PackageDir, DirName, ThreadAffinity, DirFits;
    AffinityFits(pkg, NameFor(pkg, comm, cfg), cfg, matches);
  }

  lemma {:induction false} SomeIn(s: set<int>)
    requires s != {}
    ensures exists x: int :: x in s
  {
    assert (forall x: int :: x !in s) ==> s == {};
  }

  /** The cache, changed in place. */
  class ProcCache {
    var tasks: Tasks

    constructor ()
      ensures tasks == map[]
    {
      tasks := map[];
    }

    method Clear()
      modifies this
      ensures tasks == map[]
    {
      tasks := map[];
    }

    method TaskDel(tid: int)
      modifies this
      ensures tasks == old(tasks) - {tid}
    {
      tasks := tasks - {tid};
    }

    /**
     * Apply the configuration to one thread. `tuned` is whether a tuning profile matched, and
     * `dead` what setting the affinity reports; `applied` says whether it was set at all.
     */
    method TaskApply(tid: int, pid: int, pkg: string, comm: string, cfg: AppConfig,
                     matches: (string, string) -> bool, tuned: bool, dead: bool)
      returns (tracked: bool, applied: bool)
      modifies this
      ensures var v := Decide(old(tasks), tid, pid, pkg, comm, cfg, matches, tuned);
              && tasks == Applied(old(tasks), tid, v, dead)
              && tracked == Tracked(v, dead) && applied == v.Assign?
    {
      hide ThreadAffinity;
      var name := if pkg in cfg.threadPkgs then comm else "";
      var affinity := FindAffinity(pkg, name, cfg, matches);
      if affinity.None? && !tuned {
        return false, false;
      }
      var cpus: Option<set<nat>>, dir, byThread := None, "", false;
      applied := false;
      if affinity.Some? {
        var result := affinity.value;
        if !result.byThread && tid in tasks && tasks[tid].byThread {
          cpus, dir, byThread := tasks[tid].cpus, tasks[tid].dir, tasks[tid].byThread;
        } else {
          applied := true;
          if dead {
            tasks := tasks - {tid};
            return false, true;
          }
          cpus, dir, byThread := Some(result.cpus), result.dir, result.byThread;
        }
      }
      tasks := tasks[tid := TaskEntry(pid, pkg, name, cpus, dir, byThread)];
      tracked := true;
    }

    /** Drop the threads that turn out to be gone, and report them. */
    method AffinitySync(gone: set<int>) returns (dead: set<int>)
      modifies this
      ensures dead == old(tasks.Keys) * gone && tasks == old(tasks) - dead
    {
      dead := set tid | tid in tasks && tid in gone;
      ghost var was := tasks;
      var left := dead;
      while left != {}
        invariant left <= dead && tasks == was - (dead - left)
        decreases |left|
      {
        var tid := AnyOf(left);
        TaskDel(tid);
        left := left - {tid};
        assert was - (dead - left) == was - (dead - (left + {tid})) - {tid};
        assert left + {tid} <= dead;
      }
      assert dead - {} == dead;
    }

    static method AnyOf(s: set<int>) returns (x: int)
      requires s != {}
      ensures x in s
    {
      SomeIn(s);
      x :| x in s;
    }
  }
}
