/**
 * The tracking protocol. Kernel handlers update the table of managed threads and queue events;
 * the daemon takes events off the queue and updates its cache and the same table. Handlers run on
 * any number of cores at once, and handlers and daemon interleave one memory operation at a time.
 * The daemon's configuration may change between any two of its jobs.
 */
module Tracking {
  import opened Text
  import opened CpuSpec
  import opened CpuRanges
  import opened Loader
  import opened RuleMatch
  import opened TaskCache

  datatype Kind = Fork | Exec | Rename | Exit

  datatype Event = Event(kind: Kind, tid: int, pid: int, comm: string)

  /**
   * Where the daemon is. `Applying` has looked up the package; `Storing` has set the affinity
   * and marked the thread; `Marking` has stored the entry; the others are the halves of a
   * removal and the parts of a check and of a full scan.
   */
  datatype Daemon =
    | Idle
    | Handling(ev: Event)
    | Applying(tid: int, pid: int, pkg: string, comm: string, exec: bool)
    | Storing(tid: int, entry: TaskEntry)
    | Dropping(tid: int, exec: bool)
    | Marking(tid: int)
    | Deleting(tid: int)
    | Unmarking(tid: int)
    | Checking(dead: set<int>)
    | Sweeping(dead: set<int>)
    | Clearing
    | Listing
    | Unlisting(keys: set<int>)

  /** What is left of a handler that runs on some core. */
  datatype Flight =
    | Placing(ev: Event)
    | Removing(tid: int, pid: int)
    | Submitting(ev: Event)

  /**
   * `managed` is the kernel's table; `flights` are the handlers under way, by core; `scanning`
   * tells a scan from a single event; `cfg` is the configuration the daemon works with.
   */
  datatype Sys = Sys(managed: set<int>, queue: seq<Event>, flights: map<int, Flight>,
                     cache: Tasks, daemon: Daemon, scanning: bool, cfg: AppConfig)

  function Boot(cfg: AppConfig): Sys { Sys({}, [], map[], map[], Idle, false, cfg) }

  // ---- kernel handlers

  /** A handler is entered on a core; `listed` says that the name is on the whitelist. */
  datatype Kernel =
    | OnFork(parent: int, child: int, pid: int, comm: string, listed: bool)
    | OnExec(tid: int, pid: int, comm: string, listed: bool)
    | OnRename(tid: int, pid: int, comm: string, listed: bool)
    | OnExit(tid: int, pid: int)

  /** The handler's first memory operation: it looks its thread up and decides what to do. */
  function Entered(managed: set<int>, k: Kernel): Option<Flight> {
    match k
    case OnFork(parent, child, pid, comm, listed) =>
      if parent in managed then Some(Placing(Event(Fork, child, pid, comm)))
      else if listed then Some(Submitting(Event(Fork, child, pid, comm))) else None
    case OnExec(tid, pid, comm, listed) =>
      if tid in managed || listed then Some(Submitting(Event(Exec, tid, pid, comm))) else None
    case OnRename(tid, pid, comm, listed) =>
      if tid != 0 && (tid in managed || listed) then Some(Submitting(Event(Rename, tid, pid, comm))) else None
    case OnExit(tid, pid) =>
      if tid in managed then Some(Removing(tid, pid)) else None
  }

  function Enter(s: Sys, core: int, k: Kernel): Sys {
    match Entered(s.managed, k)
    case None => s
    case Some(f) => s.(flights := s.flights[core := f])
  }

  /** The next memory operation of the handler on a core. */
  function Proceed(s: Sys, core: int): Sys
    requires core in s.flights
  {
    match s.flights[core]
    case Placing(ev) => s.(managed := s.managed + {ev.tid}, flights := s.flights[core := Submitting(ev)])
    case Removing(tid, pid) =>
      s.(managed := s.managed - {tid}, flights := s.flights[core := Submitting(Event(Exit, tid, pid, ""))])
    case Submitting(ev) => s.(queue := s.queue + [ev], flights := s.flights - {core})
  }

  /** A handler that nothing interrupts, as one step. */
  function KernelStep(s: Sys, k: Kernel): Sys {
    match k
    case OnFork(parent, child, pid, comm, listed) =>
      if parent !in s.managed && !listed then s
      else s.(managed := if parent in s.managed then s.managed + {child} else s.managed,
              queue := s.queue + [Event(Fork, child, pid, comm)])
    case OnExec(tid, pid, comm, listed) =>
      if tid !in s.managed && !listed then s else s.(queue := s.queue + [Event(Exec, tid, pid, comm)])
    case OnRename(tid, pid, comm, listed) =>
      if tid == 0 || (tid !in s.managed && !listed) then s else s.(queue := s.queue + [Event(Rename, tid, pid, comm)])
    case OnExit(tid, pid) =>
      if tid !in s.managed then s
      else s.(managed := s.managed - {tid}, queue := s.queue + [Event(Exit, tid, pid, "")])
  }

  /** The handler on a core, carried on for `n` operations with nothing in between. */
  function Finished(s: Sys, core: int, n: nat): Sys
    decreases n
  {
    if n == 0 || core !in s.flights then s else Finished(Proceed(s, core), core, n - 1)
  }

  /** Uninterrupted, a handler's operations are that one step. */
  lemma {:induction false} HandlerAlone(s: Sys, core: int, k: Kernel)
    requires core !in s.flights
    ensures Finished(Enter(s, core, k), core, 2) == KernelStep(s, k)
  {
    var s1 := Enter(s, core, k);
    if s1 != s {
      var s2 := Proceed(s1, core);
      assert s.flights[core := s1.flights[core]] - {core} == s.flights;
      if core in s2.flights {
        var s3 := Proceed(s2, core);
        assert s2.flights - {core} == s.flights;
        assert Finished(s2, core, 1) == Finished(s3, core, 0) == s3;
      } else {
        assert Finished(s2, core, 1) == s2;
      }
    }
  }

  // ---- daemon steps

  /** What the daemon finds out from the system at a step; `gone` are dead threads, or the keys a listing yields. */
  datatype Find = Find(cmdline: Option<string>, tuned: bool, dead: bool, gone: set<int>)

  /** What the daemon may start when it is idle; during a scan, the walk's next thread or its end. */
  datatype Job =
    | Adopt(cfg: AppConfig)
    | TakeEvent
    | Check
    | BeginScan
    | ScanThread(tid: int, pid: int, pkg: string, comm: string)
    | EndScan

  ghost predicate CanStart(s: Sys, j: Job) {
    && s.daemon.Idle?
    && match j
       case Adopt(_) => !s.scanning
       case TakeEvent => !s.scanning && s.queue != []
       case Check => !s.scanning
       case BeginScan => !s.scanning
       case ScanThread(_, _, _, _) => s.scanning
       case EndScan => s.scanning
  }

  ghost function StartJob(s: Sys, j: Job, f: Find): Sys
    requires CanStart(s, j)
  {
    match j
    case Adopt(cfg) => s.(cfg := cfg)
    case TakeEvent => s.(queue := s.queue[1..], daemon := Handling(s.queue[0]))
    case Check => s.(daemon := Checking(s.cache.Keys * f.gone))
    case BeginScan => s.(daemon := Clearing, scanning := true)
    case ScanThread(tid, pid, pkg, comm) => s.(daemon := Applying(tid, pid, pkg, comm, false))
    case EndScan => s.(scanning := false)
  }

  /** The daemon's next memory operation; `pick` chooses among several threads to treat next. */
  ghost function DaemonStep(s: Sys, matches: (string, string) -> bool, f: Find, pick: int): Sys {
    match s.daemon
    case Idle => s
    case Handling(ev) => s.(daemon := Handle(s.cache, ev, s.cfg, f))
    case Applying(tid, pid, pkg, comm, exec) =>
      (match Decide(s.cache, tid, pid, pkg, comm, s.cfg, matches, f.tuned)
       case Ignore => s.(daemon := if exec then Deleting(tid) else Idle)
       case Keep(e) => s.(daemon := Storing(tid, e))
       case Assign(e) =>
         if f.dead then s.(daemon := Dropping(tid, exec))
         else s.(managed := s.managed + {tid}, daemon := Storing(tid, e)))
    case Storing(tid, e) => s.(cache := s.cache[tid := e], daemon := Marking(tid))
    case Dropping(tid, exec) => s.(cache := s.cache - {tid}, daemon := if exec then Deleting(tid) else Idle)
    case Marking(tid) => s.(managed := s.managed + {tid}, daemon := Idle)
    case Deleting(tid) => s.(cache := s.cache - {tid}, daemon := Unmarking(tid))
    case Unmarking(tid) => s.(managed := s.managed - {tid}, daemon := Idle)
    case Checking(dead) => s.(cache := s.cache - dead, daemon := Sweeping(dead))
    case Sweeping(dead) =>
      if pick in dead then s.(managed := s.managed - {pick}, daemon := Sweeping(dead - {pick}))
      else if dead == {} then s.(daemon := Idle) else s
    case Clearing => s.(cache := map[], daemon := Listing)
    case Listing => s.(daemon := Unlisting(f.gone))
    case Unlisting(keys) =>
      if pick in keys then s.(managed := s.managed - {pick}, daemon := Unlisting(keys - {pick}))
      else if keys == {} then s.(daemon := Idle) else s
  }

  /** How an event is handled, by its kind. */
  ghost function Handle(cache: Tasks, ev: Event, cfg: AppConfig, f: Find): Daemon {
    match ev.kind
    case Exit => Deleting(ev.tid)
    case Fork => Idle
    case Exec =>
      (match LookupPkg(cache, ev.pid, ev.comm, f.cmdline, cfg)
       case None => Deleting(ev.tid)
       case Some(pkg) => Applying(ev.tid, ev.pid, pkg, ev.comm, true))
    case Rename =>
      (match LookupPkg(cache, ev.pid, ev.comm, f.cmdline, cfg)
       case None => Idle
       case Some(pkg) => Applying(ev.tid, ev.pid, pkg, ev.comm, false))
  }

  /** One step of the whole system. */
  datatype Act = Fire(core: int, k: Kernel) | Carry(core: int) | Begin(job: Job, find: Find) | Go(find: Find, pick: int)

  ghost predicate Allowed(s: Sys, a: Act) {
    match a
    case Fire(core, _) => core !in s.flights
    case Carry(core) => core in s.flights
    case Begin(j, _) => CanStart(s, j)
    case Go(_, _) => true
  }

  ghost function NextSys(s: Sys, a: Act, matches: (string, string) -> bool): Sys
    requires Allowed(s, a)
  {
    match a
    case Fire(core, k) => Enter(s, core, k)
    case Carry(core) => Proceed(s, core)
    case Begin(j, f) => StartJob(s, j, f)
    case Go(f, pick) => DaemonStep(s, matches, f, pick)
  }

  /**
   * Every step of the run was allowed, and `s` is where it ends. The run starts under the
   * configuration `first` and may adopt any number of others.
   */
  ghost predicate Reaches(first: AppConfig, acts: seq<Act>, s: Sys, matches: (string, string) -> bool)
    decreases |acts|
  {
    if acts == [] then s == Boot(first)
    else
      var last := acts[|acts| - 1];
      exists p :: Reaches(first, acts[..|acts| - 1], p, matches) && Allowed(p, last) && s == NextSys(p, last, matches)
  }

  // ---- the invariant

  predicate IsExit(ev: Event, tid: int) {
    ev.kind == Exit && ev.tid == tid
  }

  predicate ExitQueued(s: Sys, tid: int) {
    exists i | 0 <= i < |s.queue| :: IsExit(s.queue[i], tid)
  }

  /** A handler has taken the thread off the table and is about to queue its exit. */
  predicate ExitSubmitting(s: Sys, tid: int) {
    exists core | core in s.flights :: s.flights[core].Submitting? && IsExit(s.flights[core].ev, tid)
  }

  /** The daemon's very next operation settles the thread: it is about to mark or to drop it. */
  predicate AboutTo(d: Daemon, tid: int) {
    match d
    case Handling(ev) => IsExit(ev, tid)
    case Marking(t) => t == tid
    case Deleting(t) => t == tid
    case _ => false
  }

  /**
   * Every cached thread is managed, or its exit is being submitted, queued or handled, or it is
   * about to be marked or dropped.
   */
  predicate CacheManaged(s: Sys) {
    forall tid | tid in s.cache ::
      tid in s.managed || ExitSubmitting(s, tid) || ExitQueued(s, tid) || AboutTo(s.daemon, tid)
  }

  /** Threads the daemon is about to take off the table are no longer cached. */
  predicate Disjoint(s: Sys) {
    match s.daemon
    case Unmarking(tid) => tid !in s.cache
    case Sweeping(dead) => s.cache.Keys !! dead
    case Listing => s.cache == map[]
    case Unlisting(_) => s.cache == map[]
    case _ => true
  }

  predicate Inv(s: Sys) {
    CacheManaged(s) && Disjoint(s)
  }

  lemma {:induction false} EnterKeeps(s: Sys, core: int, k: Kernel)
    requires Inv(s) && core !in s.flights
    ensures Inv(Enter(s, core, k))
  {
    hide IsExit;
    var s' := Enter(s, core, k);
    forall tid | ExitSubmitting(s, tid) ensures ExitSubmitting(s', tid) {
      var c :| c in s.flights && s.flights[c].Submitting? && IsExit(s.flights[c].ev, tid);
      assert s'.flights[c] == s.flights[c];
    }
    SameQueue(s, s');
  }

  /** An operation of the handler on one core leaves the exits the others submit. */
  lemma {:induction false} OthersSubmit(s: Sys, core: int, tid: int)
    requires core in s.flights && ExitSubmitting(s, tid)
    ensures ExitSubmitting(Proceed(s, core), tid)
            || (s.flights[core].Submitting? && IsExit(s.flights[core].ev, tid))
  {
    hide IsExit;
    var c :| c in s.flights && s.flights[c].Submitting? && IsExit(s.flights[c].ev, tid);
    if c != core {
      assert Proceed(s, core).flights[c] == s.flights[c];
    }
  }

  lemma {:induction false} QueuedMore(s: Sys, s': Sys, e: Event, tid: int)
    requires s'.queue == s.queue + [e]
    ensures ExitQueued(s, tid) || IsExit(e, tid) ==> ExitQueued(s', tid)
  {
    if ExitQueued(s, tid) {
      var i :| 0 <= i < |s.queue| && IsExit(s.queue[i], tid);
      assert s'.queue[i] == s.queue[i];
    }
    if IsExit(e, tid) {
      assert s'.queue[|s.queue|] == e;
    }
  }

  /** The operation that takes a thread off the table also begins to submit its exit. */
  lemma {:induction false} RemovedSubmits(s: Sys, core: int)
    requires core in s.flights && s.flights[core].Removing?
    ensures ExitSubmitting(Proceed(s, core), s.flights[core].tid)
  {
    assert Proceed(s, core).flights[core].Submitting?;
  }

  /** Every memory operation of a handler keeps the invariant, whatever the other cores do. */
  lemma {:induction false} KernelKeeps(s: Sys, core: int)
    requires Inv(s) && core in s.flights
    ensures Inv(Proceed(s, core))
  {
    hide ExitQueued, ExitSubmitting, IsExit;
    var s', f := Proceed(s, core), s.flights[core];
    if f.Removing? {
      RemovedSubmits(s, core);
    }
    forall tid | tid in s.cache
      ensures tid in s'.managed || ExitSubmitting(s', tid) || ExitQueued(s', tid) || AboutTo(s'.daemon, tid)
    {
      if ExitSubmitting(s, tid) {
        OthersSubmit(s, core, tid);
      }
      if f.Submitting? {
        QueuedMore(s, s', f.ev, tid);
      } else {
        SameQueue(s, s');
      }
    }
  }

  lemma {:induction false} TakenQueued(s: Sys, s': Sys, tid: int)
    requires s.queue != [] && s'.queue == s.queue[1..] && ExitQueued(s, tid)
    ensures ExitQueued(s', tid) || IsExit(s.queue[0], tid)
  {
    var i :| 0 <= i < |s.queue| && IsExit(s.queue[i], tid);
    if i > 0 {
      assert s'.queue[i - 1] == s.queue[i];
    }
  }

  lemma {:induction false} StartKeeps(s: Sys, j: Job, f: Find)
    requires Inv(s) && CanStart(s, j)
    ensures Inv(StartJob(s, j, f))
  {
    hide ExitQueued, ExitSubmitting, IsExit;
    var s' := StartJob(s, j, f);
    SameFlights(s, s');
    if j.TakeEvent? {
      forall tid | ExitQueued(s, tid) ensures ExitQueued(s', tid) || IsExit(s.queue[0], tid) {
        TakenQueued(s, s', tid);
      }
    } else {
      SameQueue(s, s');
    }
  }

  lemma {:induction false} SameQueue(s: Sys, s': Sys)
    requires s'.queue == s.queue
    ensures forall tid :: ExitQueued(s', tid) <==> ExitQueued(s, tid)
  {
  }

  lemma {:induction false} SameFlights(s: Sys, s': Sys)
    requires s'.flights == s.flights
    ensures forall tid :: ExitSubmitting(s', tid) <==> ExitSubmitting(s, tid)
  {
  }

  lemma {:induction false} DaemonKeeps(s: Sys, matches: (string, string) -> bool, f: Find, pick: int)
    requires Inv(s)
    ensures Inv(DaemonStep(s, matches, f, pick))
  {
    hide ExitQueued, ExitSubmitting, Decide, LookupPkg;
    SameQueue(s, DaemonStep(s, matches, f, pick));
    SameFlights(s, DaemonStep(s, matches, f, pick));
  }

  /** Every step of the system keeps the invariant, whatever it interleaves. */
  lemma {:induction false} StepKeeps(s: Sys, a: Act, matches: (string, string) -> bool)
    requires Inv(s) && Allowed(s, a)
    ensures Inv(NextSys(s, a, matches))
  {
    hide Inv, Enter, Proceed, StartJob, DaemonStep;
    match a {
      case Fire(core, k) => EnterKeeps(s, core, k);
      case Carry(core) => KernelKeeps(s, core);
      case Begin(j, f) => StartKeeps(s, j, f);
      case Go(f, pick) => DaemonKeeps(s, matches, f, pick);
    }
  }

  lemma {:induction false} ReachedInv(first: AppConfig, acts: seq<Act>, s: Sys, matches: (string, string) -> bool)
    requires Reaches(first, acts, s, matches)
    ensures Inv(s)
    decreases |acts|
  {
    hide NextSys, Allowed;
    if acts != [] {
      var last := acts[|acts| - 1];
      var p :| Reaches(first, acts[..|acts| - 1], p, matches) && Allowed(p, last) && s == NextSys(p, last, matches);
      ReachedInv(first, acts[..|acts| - 1], p, matches);
      StepKeeps(p, last, matches);
    }
  }

  /**
   * In every reachable state with the daemon idle, whatever configurations it went through, each
   * cached thread is managed or has its exit being submitted or queued; so with the queue empty
   * and no exit being submitted, every cached thread is managed.
   */
  lemma {:induction false} CachedIsManaged(first: AppConfig, acts: seq<Act>, s: Sys, matches: (string, string) -> bool)
    requires Reaches(first, acts, s, matches) && s.daemon.Idle?
    ensures forall tid | tid in s.cache :: tid in s.managed || ExitSubmitting(s, tid) || ExitQueued(s, tid)
    ensures s.queue == [] && (forall tid :: !ExitSubmitting(s, tid)) ==> s.cache.Keys <= s.managed
  {
    hide Reaches, ExitSubmitting;
    ReachedInv(first, acts, s, matches);
    if s.queue == [] && forall tid :: !ExitSubmitting(s, tid) {
      forall tid | tid in s.cache.Keys ensures tid in s.managed {
        assert !ExitSubmitting(s, tid) && !ExitQueued(s, tid);
      }
    }
  }

  /** Both exceptions are needed: a cached thread can be off the table with its exit being submitted, and then queued. */
  lemma {:induction false} ExitWindow(cfg: AppConfig, matches: (string, string) -> bool, tid: int)
    requires tid != 0 && "p" in cfg.pkgs
    ensures exists acts, s :: Reaches(cfg, acts, s, matches) && s.daemon.Idle? && tid in s.cache && tid !in s.managed
                              && s.queue == []
    ensures exists acts, s :: Reaches(cfg, acts, s, matches) && s.daemon.Idle? && tid in s.cache && tid !in s.managed
                              && s.flights == map[]
  {
    hide Decide, DaemonStep, Enter, Proceed;
    var f := Find(None, true, false, {});
    var ev, done := Event(Rename, tid, tid, "p"), Event(Exit, tid, tid, "");
    var take, go, next := Begin(TakeEvent, f), Go(f, 0), Carry(0);
    var v := Decide(map[], tid, tid, "p", "p", cfg, matches, true);
    TunedTracked(cfg, matches, tid);
    var b := Boot(cfg);
    var s1 := b.(flights := map[0 := Submitting(ev)]);
    var s2 := b.(queue := [ev]);
    var s3 := b.(daemon := Handling(ev));
    var s4 := b.(daemon := Applying(tid, tid, "p", "p", false));
    var s5 := b.(managed := if v.Assign? then {tid} else {}, daemon := Storing(tid, v.entry));
    var s6 := s5.(cache := map[tid := v.entry], daemon := Marking(tid));
    var s7 := s6.(managed := {tid}, daemon := Idle);
    var s8 := s7.(flights := map[0 := Removing(tid, tid)]);
    var s9 := s8.(managed := {}, flights := map[0 := Submitting(done)]);
    var s10 := s9.(queue := [done], flights := map[]);
    WindowOpens(cfg, matches, tid, v, f);
    WindowShuts(s7, tid);
    Reached0(cfg, matches);
    assert [ev][1..] == [];
    var r1 := ReachedMore(cfg, [], b, Fire(0, OnRename(tid, tid, "p", true)), s1, matches);
    var r2 := ReachedMore(cfg, r1, s1, next, s2, matches);
    var r3 := ReachedMore(cfg, r2, s2, take, s3, matches);
    var r4 := ReachedMore(cfg, r3, s3, go, s4, matches);
    var r5 := ReachedMore(cfg, r4, s4, go, s5, matches);
    var r6 := ReachedMore(cfg, r5, s5, go, s6, matches);
    var r7 := ReachedMore(cfg, r6, s6, go, s7, matches);
    var r8 := ReachedMore(cfg, r7, s7, Fire(0, OnExit(tid, tid)), s8, matches);
    var r9 := ReachedMore(cfg, r8, s8, next, s9, matches);
    var r10 := ReachedMore(cfg, r9, s9, next, s10, matches);
    assert tid in s9.cache && tid in s10.cache;
  }

  lemma {:induction false} TunedTracked(cfg: AppConfig, matches: (string, string) -> bool, tid: int)
    ensures !Decide(map[], tid, tid, "p", "p", cfg, matches, true).Ignore?
  {
    hide ThreadAffinity;
  }

  lemma {:induction false} WindowOpens(cfg: AppConfig, matches: (string, string) -> bool, tid: int, v: Verdict, f: Find)
    requires tid != 0 && "p" in cfg.pkgs && f == Find(None, true, false, {})
    requires v == Decide(map[], tid, tid, "p", "p", cfg, matches, true) && !v.Ignore?
    ensures var b := Boot(cfg); var e := Event(Rename, tid, tid, "p");
            var s1 := b.(flights := map[0 := Submitting(e)]);
            var s5 := b.(managed := if v.Assign? then {tid} else {}, daemon := Storing(tid, v.entry));
            var s6 := s5.(cache := map[tid := v.entry], daemon := Marking(tid));
            && Enter(b, 0, OnRename(tid, tid, "p", true)) == s1 && Proceed(s1, 0) == b.(queue := [e])
            && DaemonStep(b.(daemon := Handling(e)), matches, f, 0) == b.(daemon := Applying(tid, tid, "p", "p", false))
            && DaemonStep(b.(daemon := Applying(tid, tid, "p", "p", false)), matches, f, 0) == s5
            && DaemonStep(s5, matches, f, 0) == s6
            && DaemonStep(s6, matches, f, 0) == s6.(managed := {tid}, daemon := Idle)
  {
    hide Decide;
    assert map[][tid := v.entry] == map[tid := v.entry];
    var one := map[0 := Submitting(Event(Rename, tid, tid, "p"))];
    assert map[][0 := one[0]] == one && one - {0} == map[];
  }

  lemma {:induction false} WindowShuts(s: Sys, tid: int)
    requires s.managed == {tid} && s.flights == map[] && s.queue == []
    ensures var e := Event(Exit, tid, tid, "");
            var s8 := s.(flights := map[0 := Removing(tid, tid)]);
            var s9 := s8.(managed := {}, flights := map[0 := Submitting(e)]);
            && Enter(s, 0, OnExit(tid, tid)) == s8 && Proceed(s8, 0) == s9
            && Proceed(s9, 0) == s9.(queue := [e], flights := map[])
  {
    var one, two := map[0 := Removing(tid, tid)], map[0 := Submitting(Event(Exit, tid, tid, ""))];
    assert map[][0 := one[0]] == one && one[0 := two[0]] == two && two - {0} == map[];
  }

  lemma {:induction false} Reached0(cfg: AppConfig, matches: (string, string) -> bool)
    ensures Reaches(cfg, [], Boot(cfg), matches)
  {
  }

  lemma {:induction false} ReachedMore(first: AppConfig, acts: seq<Act>, p: Sys, a: Act, s: Sys, matches: (string, string) -> bool)
    returns (all: seq<Act>)
    requires Reaches(first, acts, p, matches) && Allowed(p, a) && s == NextSys(p, a, matches)
    ensures Reaches(first, all, s, matches)
  {
    hide NextSys, Allowed;
    all := acts + [a];
    assert all[..|all| - 1] == acts && all[|all| - 1] == a;
    assert Reaches(first, all[..|all| - 1], p, matches);
  }

  // ---- directories agree with masks

  /** Every configuration of the run came from the loader. */
  ghost predicate ConfigsOk(first: AppConfig, acts: seq<Act>) {
    ConfigOk(first) && forall a | a in acts && a.Begin? && a.job.Adopt? :: ConfigOk(a.job.cfg)
  }

  /** Whatever is cached or about to be stored fits. */
  predicate Fitting(s: Sys) {
    && (forall tid | tid in s.cache :: EntryFits(s.cache[tid]))
    && (s.daemon.Storing? ==> EntryFits(s.daemon.entry))
    && ConfigOk(s.cfg)
  }

  lemma {:induction false} FittingKept(s: Sys, a: Act, matches: (string, string) -> bool)
    requires Fitting(s) && Allowed(s, a) && (a.Begin? && a.job.Adopt? ==> ConfigOk(a.job.cfg))
    ensures Fitting(NextSys(s, a, matches))
  {
    hide EntryFits, Decide, LookupPkg, ConfigOk;
    if a.Go? && s.daemon.Applying? {
      var d := s.daemon;
      DecideFits(s.cache, d.tid, d.pid, d.pkg, d.comm, s.cfg, matches, a.find.tuned);
    }
  }

  lemma {:induction false} ReachedFitting(first: AppConfig, acts: seq<Act>, s: Sys, matches: (string, string) -> bool)
    requires Reaches(first, acts, s, matches) && ConfigsOk(first, acts)
    ensures Fitting(s)
    decreases |acts|
  {
    hide NextSys, Allowed, EntryFits, ConfigOk;
    if acts != [] {
      var last := acts[|acts| - 1];
      var p :| Reaches(first, acts[..|acts| - 1], p, matches) && Allowed(p, last) && s == NextSys(p, last, matches);
      ReachedFitting(first, acts[..|acts| - 1], p, matches);
      assert last in acts;
      FittingKept(p, last, matches);
    }
  }

  /**
   * In every reachable state each cached directory is empty or the printed form of the cached
   * mask, whatever configurations the daemon went through and whoever owns the threads.
   */
  lemma {:induction false} DirsAgree(first: AppConfig, acts: seq<Act>, s: Sys, matches: (string, string) -> bool, tid: int)
    requires Reaches(first, acts, s, matches) && ConfigsOk(first, acts) && tid in s.cache
    ensures var e := s.cache[tid]; e.dir == "" || (e.cpus.Some? && e.dir == RangeString(e.cpus.value))
  {
    hide Reaches, ConfigOk, RangeString;
    ReachedFitting(first, acts, s, matches);
    assert EntryFits(s.cache[tid]);
  }

  // ---- thread rules stick

  /** Each thread belongs to one package, and the daemon only ever looks it up as that. */
  ghost predicate Faithful(s: Sys, a: Act, owner: int -> string) {
    match a
    case Begin(ScanThread(tid, _, pkg, _), _) => pkg == owner(tid)
    case Go(f, _) =>
      s.daemon.Handling? && s.daemon.ev.kind in {Exec, Rename} ==>
        var p := LookupPkg(s.cache, s.daemon.ev.pid, s.daemon.ev.comm, f.cmdline, s.cfg);
        p.Some? ==> p.value == owner(s.daemon.ev.tid)
    case _ => true
  }

  /** The cache is settled and so is what the daemon is about to store. */
  ghost predicate Settling(s: Sys, owner: int -> string) {
    && Settled(s.cache, s.cfg) && OwnedBy(s.cache, owner)
    && (s.daemon.Applying? ==> s.daemon.pkg == owner(s.daemon.tid))
    && (s.daemon.Storing? ==>
          && EntrySettled(s.daemon.entry, s.cfg) && s.daemon.entry.pkg == owner(s.daemon.tid)
          && (s.daemon.tid in s.cache && s.cache[s.daemon.tid].byThread ==> s.daemon.entry.byThread))
  }

  lemma {:induction false} SettlingKept(s: Sys, a: Act, matches: (string, string) -> bool, owner: int -> string)
    requires Settling(s, owner) && ConfigOk(s.cfg) && Allowed(s, a) && Faithful(s, a, owner)
    requires !(a.Begin? && a.job.Adopt?)
    ensures Settling(NextSys(s, a, matches), owner) && NextSys(s, a, matches).cfg == s.cfg
  {
    hide EntrySettled, LookupPkg, ConfigOk, Enter, Proceed, DaemonStep;
    match a {
      case Fire(core, k) => EnterFrame(s, core, k);
      case Carry(core) => ProceedFrame(s, core);
      case Begin(_, _) =>
      case Go(f, pick) => GoSettles(s, f, pick, matches, owner);
    }
  }

  lemma {:induction false} GoSettles(s: Sys, f: Find, pick: int, matches: (string, string) -> bool, owner: int -> string)
    requires Settling(s, owner) && ConfigOk(s.cfg) && Faithful(s, Go(f, pick), owner)
    ensures Settling(DaemonStep(s, matches, f, pick), owner) && DaemonStep(s, matches, f, pick).cfg == s.cfg
  {
    hide EntrySettled, Decide, LookupPkg, ConfigOk;
    if s.daemon.Applying? {
      var d := s.daemon;
      DecideSettled(s.cache, d.tid, d.pid, d.pkg, d.comm, s.cfg, matches, f.tuned);
    }
  }

  /** Handlers leave the daemon alone. */
  lemma {:induction false} EnterFrame(s: Sys, core: int, k: Kernel)
    ensures var t := Enter(s, core, k); t.cache == s.cache && t.daemon == s.daemon && t.cfg == s.cfg
  {
  }

  lemma {:induction false} ProceedFrame(s: Sys, core: int)
    requires core in s.flights
    ensures var t := Proceed(s, core); t.cache == s.cache && t.daemon == s.daemon && t.cfg == s.cfg
  {
  }

  /** An entry under a thread rule is only ever dropped, never turned into a package entry. */
  lemma {:induction false} StickyStep(s: Sys, a: Act, matches: (string, string) -> bool, owner: int -> string, tid: int)
    requires Settling(s, owner) && Allowed(s, a) && tid in s.cache && s.cache[tid].byThread
    ensures var t := NextSys(s, a, matches).cache; tid in t ==> t[tid].byThread
  {
    hide EntrySettled, Decide, LookupPkg;
  }

  /** Nothing is cached and nothing is about to be: the start, or a scan that has just cleared the cache. */
  predicate Clean(s: Sys) {
    s.cache == map[] && (s.daemon.Idle? || s.daemon.Listing?)
  }

  /** A stretch of a run from a clean state on, under one configuration and with one package per thread. */
  ghost predicate FaithfulRun(states: seq<Sys>, acts: seq<Act>, matches: (string, string) -> bool, owner: int -> string) {
    && |states| == |acts| + 1 && Clean(states[0]) && ConfigOk(states[0].cfg)
    && forall i | 0 <= i < |acts| ::
         && Allowed(states[i], acts[i]) && Faithful(states[i], acts[i], owner)
         && !(acts[i].Begin? && acts[i].job.Adopt?)
         && states[i + 1] == NextSys(states[i], acts[i], matches)
  }

  lemma {:induction false} RunSettles(states: seq<Sys>, acts: seq<Act>, matches: (string, string) -> bool,
                                      owner: int -> string, i: nat)
    requires FaithfulRun(states, acts, matches, owner) && i < |states|
    ensures Settling(states[i], owner) && states[i].cfg == states[0].cfg
  {
    hide NextSys, Allowed, Faithful, ConfigOk, EntrySettled;
    if i > 0 {
      RunSettles(states, acts, matches, owner, i - 1);
      SettlingKept(states[i - 1], acts[i - 1], matches, owner);
    }
  }

  /** Once a thread's entry is under a thread rule it stays so for as long as it is cached. */
  lemma {:induction false} StickyRun(states: seq<Sys>, acts: seq<Act>, matches: (string, string) -> bool,
                                     owner: int -> string, i: nat, j: nat, tid: int)
    requires FaithfulRun(states, acts, matches, owner) && i <= j < |states|
    requires forall k | i <= k <= j :: tid in states[k].cache
    requires states[i].cache[tid].byThread
    ensures states[j].cache[tid].byThread
    decreases j
  {
    hide NextSys, Allowed, Faithful, ConfigOk;
    if i < j {
      StickyRun(states, acts, matches, owner, i, j - 1, tid);
      RunSettles(states, acts, matches, owner, j - 1);
      StickyStep(states[j - 1], acts[j - 1], matches, owner, tid);
    }
  }

  /** A configuration loaded from rules is one the theorems apply to. */
  lemma {:induction false} LoadedOk(topo: Topology, rs: seq<RawRule>, tuned: set<string>, tunedThreads: set<string>)
    ensures ConfigOk(ConfigOf(topo, rs, tuned, tunedThreads))
  {
    hide RulesFit, RulesOf, DirName, SpecCpus;
    ConfigFits(topo, rs);
    var cfg := ConfigOf(topo, rs, tuned, tunedThreads);
    forall a | a in cfg.rules && a.thread != "" ensures a.pkg in cfg.threadPkgs {
      RulesOfHas(topo, rs, a);
      var r :| r in rs && RuleOf(topo, r) == a;
    }
  }
}
