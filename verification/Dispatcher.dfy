/**
 * The daemon's handlers as written: whole methods over the cache and the kernel's table. Left
 * alone by the kernel, the steps of the protocol do exactly what these methods do.
 */
module Dispatcher {
  import opened Seqs
  import opened Text
  import opened Loader
  import opened RuleMatch
  import opened TaskCache
  import opened Tracking

  // ---- what a handler does to the table and the cache

  /** Apply one thread, mark it when it is tracked. */
  ghost function ApplyOne(managed: set<int>, cache: Tasks, tid: int, pid: int, pkg: string, comm: string,
                          cfg: AppConfig, matches: (string, string) -> bool, f: Find): (set<int>, Tasks, bool) {
    var v := Decide(cache, tid, pid, pkg, comm, cfg, matches, f.tuned);
    (if Tracked(v, f.dead) then managed + {tid} else managed, Applied(cache, tid, v, f.dead), Tracked(v, f.dead))
  }

  ghost function Dispatched(managed: set<int>, cache: Tasks, ev: Event, cfg: AppConfig,
                            matches: (string, string) -> bool, f: Find): (set<int>, Tasks) {
    match ev.kind
    case Exit => (managed - {ev.tid}, cache - {ev.tid})
    case Fork => (managed, cache)
    case Exec =>
      (match LookupPkg(cache, ev.pid, ev.comm, f.cmdline, cfg)
       case None => (managed - {ev.tid}, cache - {ev.tid})
       case Some(pkg) =>
         var (m, c, ok) := ApplyOne(managed, cache, ev.tid, ev.pid, pkg, ev.comm, cfg, matches, f);
         if ok then (m, c) else (m - {ev.tid}, c - {ev.tid}))
    case Rename =>
      (match LookupPkg(cache, ev.pid, ev.comm, f.cmdline, cfg)
       case None => (managed, cache)
       case Some(pkg) =>
         var (m, c, _) := ApplyOne(managed, cache, ev.tid, ev.pid, pkg, ev.comm, cfg, matches, f);
         (m, c))
  }

  /** `n` daemon steps with nothing in between. */
  ghost function Alone(s: Sys, n: nat, matches: (string, string) -> bool, f: Find): Sys {
    if n == 0 then s else DaemonStep(Alone(s, n - 1, matches, f), matches, f, 0)
  }

  lemma {:induction false} AloneShift(s: Sys, n: nat, matches: (string, string) -> bool, f: Find)
    ensures Alone(s, n + 1, matches, f) == Alone(DaemonStep(s, matches, f, 0), n, matches, f)
  {
    hide DaemonStep;
    if n > 0 {
      AloneShift(s, n - 1, matches, f);
    } else {
      assert Alone(s, 1, matches, f) == DaemonStep(Alone(s, 0, matches, f), matches, f, 0);
    }
  }

  lemma {:induction false} FourAlone(s: Sys, matches: (string, string) -> bool, f: Find)
    ensures Alone(s, 4, matches, f)
         == DaemonStep(DaemonStep(DaemonStep(DaemonStep(s, matches, f, 0), matches, f, 0), matches, f, 0), matches, f, 0)
  {
    hide DaemonStep;
    assert Alone(s, 1, matches, f) == DaemonStep(Alone(s, 0, matches, f), matches, f, 0);
    assert Alone(s, 2, matches, f) == DaemonStep(Alone(s, 1, matches, f), matches, f, 0);
    assert Alone(s, 3, matches, f) == DaemonStep(Alone(s, 2, matches, f), matches, f, 0);
  }

  lemma {:induction false} StoringAlone(s: Sys, matches: (string, string) -> bool, f: Find)
    requires s.daemon.Storing?
    ensures DaemonStep(DaemonStep(DaemonStep(s, matches, f, 0), matches, f, 0), matches, f, 0)
         == s.(cache := s.cache[s.daemon.tid := s.daemon.entry], managed := s.managed + {s.daemon.tid}, daemon := Idle)
  {
    hide Decide;
  }

  /** An application that came to nothing: the entry goes, and on an exec the mark as well. */
  lemma {:induction false} LosingAlone(s: Sys, matches: (string, string) -> bool, f: Find)
    requires s.daemon.Idle? || s.daemon.Deleting? || s.daemon.Dropping?
    ensures var t := DaemonStep(DaemonStep(DaemonStep(s, matches, f, 0), matches, f, 0), matches, f, 0);
            match s.daemon
            case Idle => t == s
            case Deleting(tid) => t == s.(cache := s.cache - {tid}, managed := s.managed - {tid}, daemon := Idle)
            case Dropping(tid, exec) =>
              t == s.(cache := if exec then s.cache - {tid} - {tid} else s.cache - {tid},
                      managed := if exec then s.managed - {tid} else s.managed, daemon := Idle)
  {
    hide Decide;
  }

  lemma {:induction false} FirstApplied(s: Sys, matches: (string, string) -> bool, f: Find)
    requires s.daemon.Applying?
    ensures var d := s.daemon; var v := Decide(s.cache, d.tid, d.pid, d.pkg, d.comm, s.cfg, matches, f.tuned);
            DaemonStep(s, matches, f, 0)
            == match v
               case Ignore => s.(daemon := if d.exec then Deleting(d.tid) else Idle)
               case Keep(e) => s.(daemon := Storing(d.tid, e))
               case Assign(e) => if f.dead then s.(daemon := Dropping(d.tid, d.exec))
                                 else s.(managed := s.managed + {d.tid}, daemon := Storing(d.tid, e))
  {
    hide Decide;
  }

  /** A thread being applied, carried to the end without interruption. */
  lemma {:induction false} ApplyingAlone(s: Sys, matches: (string, string) -> bool, f: Find)
    requires s.daemon.Applying?
    ensures var d := s.daemon; var t := Alone(s, 4, matches, f);
            var (m, c, ok) := ApplyOne(s.managed, s.cache, d.tid, d.pid, d.pkg, d.comm, s.cfg, matches, f);
            t == (if ok || !d.exec then s.(managed := m, cache := c, daemon := Idle)
                  else s.(managed := m - {d.tid}, cache := c - {d.tid}, daemon := Idle))
  {
    hide Decide, Alone, DaemonStep;
    var d := s.daemon;
    FourAlone(s, matches, f);
    FirstApplied(s, matches, f);
    var t := DaemonStep(s, matches, f, 0);
    if t.daemon.Storing? {
      StoringAlone(t, matches, f);
      assert s.managed + {d.tid} + {d.tid} == s.managed + {d.tid};
    } else {
      LosingAlone(t, matches, f);
      assert s.cache - {d.tid} - {d.tid} == s.cache - {d.tid};
    }
  }

  lemma {:induction false} IdleStays(s: Sys, n: nat, matches: (string, string) -> bool, f: Find)
    requires s.daemon.Idle?
    ensures Alone(s, n, matches, f) == s
  {
    if n > 0 {
      IdleStays(s, n - 1, matches, f);
    }
  }

  /** Uninterrupted, the daemon's steps on one event are the handler. */
  lemma {:induction false} HandlingAlone(s: Sys, matches: (string, string) -> bool, f: Find)
    requires s.daemon.Handling?
    ensures var t := Alone(s, 5, matches, f); var (m, c) := Dispatched(s.managed, s.cache, s.daemon.ev, s.cfg, matches, f);
            t == s.(managed := m, cache := c, daemon := Idle)
  {
    hide Alone, ApplyOne, LookupPkg;
    var t := DaemonStep(s, matches, f, 0);
    AloneShift(s, 4, matches, f);
    if t.daemon.Applying? {
      ApplyingAlone(t, matches, f);
    } else if t.daemon.Deleting? {
      DeletingAlone(t, matches, f);
    } else {
      IdleStays(t, 4, matches, f);
    }
  }

  lemma {:induction false} DeletingAlone(s: Sys, matches: (string, string) -> bool, f: Find)
    requires s.daemon.Deleting?
    ensures Alone(s, 4, matches, f)
         == s.(cache := s.cache - {s.daemon.tid}, managed := s.managed - {s.daemon.tid}, daemon := Idle)
  {
    var t1 := DaemonStep(s, matches, f, 0);
    var t2 := DaemonStep(t1, matches, f, 0);
    AloneShift(s, 3, matches, f);
    AloneShift(t1, 2, matches, f);
    IdleStays(t2, 2, matches, f);
  }

  /** One thread found by a full scan. */
  datatype Seen = Seen(tid: int, pid: int, pkg: string, comm: string, tuned: bool, dead: bool)

  /** A full scan: nothing managed, nothing cached, then every thread in turn. */
  ghost function Scanned(found: seq<Seen>, cfg: AppConfig, matches: (string, string) -> bool): (set<int>, Tasks) {
    if found == [] then ({}, map[])
    else
      var x := found[|found| - 1];
      var (m, c) := Scanned(found[..|found| - 1], cfg, matches);
      var (m', c', _) := ApplyOne(m, c, x.tid, x.pid, x.pkg, x.comm, cfg, matches, Find(None, x.tuned, x.dead, {}));
      (m', c')
  }

  // ---- the handlers

  /** The kernel's table as the daemon sees it: it inserts and removes single threads. */
  class AppliedMap {
    var tids: set<int>

    constructor ()
      ensures tids == {}
    {
      tids := {};
    }

    method Insert(tid: int)
      modifies this
      ensures tids == old(tids) + {tid}
    {
      tids := tids + {tid};
    }

    method Remove(tid: int)
      modifies this
      ensures tids == old(tids) - {tid}
    {
      tids := tids - {tid};
    }
  }

  class Tracker {
    const cache: ProcCache
    const managed: AppliedMap

    constructor ()
      ensures fresh(cache) && fresh(managed) && cache.tasks == map[] && managed.tids == {}
    {
      cache := new ProcCache();
      managed := new AppliedMap();
    }

    /** Apply one thread: set its affinity, mark it, cache it, mark it again as managed. */
    method Apply(tid: int, pid: int, pkg: string, comm: string, cfg: AppConfig,
                 matches: (string, string) -> bool, tuned: bool, dead: bool) returns (tracked: bool)
      modifies cache, managed
      ensures forall f: Find | f.tuned == tuned && f.dead == dead ::
                (managed.tids, cache.tasks, tracked)
                == ApplyOne(old(managed.tids), old(cache.tasks), tid, pid, pkg, comm, cfg, matches, f)
    {
      hide Decide;
      var applied;
      tracked, applied := cache.TaskApply(tid, pid, pkg, comm, cfg, matches, tuned, dead);
      if applied && !dead {
        managed.Insert(tid);
      }
      if tracked {
        managed.Insert(tid);
      }
    }

    /** The package of a thread name, or of the process it belongs to. */
    method Lookup(pid: int, comm: string, cmdline: Option<string>, cfg: AppConfig) returns (pkg: Option<string>)
      ensures pkg == LookupPkg(cache.tasks, pid, comm, cmdline, cfg)
    {
      if comm in cfg.pkgs {
        return Some(comm);
      }
      pkg := None;
      if ByteLen(comm) >= 15 && exists p | p in cfg.pkgs :: CommFits(p, comm) {
        if cmdline.Some? && cmdline.value in cfg.pkgs {
          return cmdline;
        }
      }
      if pid in cache.tasks {
        pkg := Some(cache.tasks[pid].pkg);
      }
    }

    method Forget(tid: int)
      modifies cache, managed
      ensures cache.tasks == old(cache.tasks) - {tid} && managed.tids == old(managed.tids) - {tid}
    {
      cache.TaskDel(tid);
      managed.Remove(tid);
    }

    /** Handle one event. */
    method EventDispatch(ev: Event, cfg: AppConfig, matches: (string, string) -> bool,
                         cmdline: Option<string>, tuned: bool, dead: bool)
      modifies cache, managed
      ensures forall f: Find | f.cmdline == cmdline && f.tuned == tuned && f.dead == dead ::
                (managed.tids, cache.tasks) == Dispatched(old(managed.tids), old(cache.tasks), ev, cfg, matches, f)
    {
      hide Decide, LookupPkg;
      match ev.kind {
        case Exit => Forget(ev.tid);
        case Fork =>
        case Exec =>
          var pkg := Lookup(ev.pid, ev.comm, cmdline, cfg);
          var ok := false;
          if pkg.Some? {
            ok := Apply(ev.tid, ev.pid, pkg.value, ev.comm, cfg, matches, tuned, dead);
          }
          if !ok {
            Forget(ev.tid);
          }
        case Rename =>
          var pkg := Lookup(ev.pid, ev.comm, cmdline, cfg);
          if pkg.Some? {
            var _ := Apply(ev.tid, ev.pid, pkg.value, ev.comm, cfg, matches, tuned, dead);
          }
      }
    }

    /** Drop the threads that are gone, from the cache and from the table. */
    method AffinityCheck(gone: set<int>)
      modifies cache, managed
      ensures var dead := old(cache.tasks.Keys) * gone;
              cache.tasks == old(cache.tasks) - dead && managed.tids == old(managed.tids) - dead
    {
      var dead := cache.AffinitySync(gone);
      ghost var was := managed.tids;
      var left := dead;
      while left != {}
        invariant left <= dead && managed.tids == was - (dead - left) && cache.tasks == old(cache.tasks) - dead
        decreases |left|
      {
        var tid := ProcCache.AnyOf(left);
        managed.Remove(tid);
        left := left - {tid};
        assert left + {tid} <= dead;
      }
    }

    /** Start over: forget everything, then apply every thread that is found. */
    method FullScan(found: seq<Seen>, cfg: AppConfig, matches: (string, string) -> bool)
      modifies cache, managed
      ensures (managed.tids, cache.tasks) == Scanned(found, cfg, matches)
    {
      hide ApplyOne;
      cache.Clear();
      var keys := managed.tids;
      while keys != {}
        invariant managed.tids == keys && cache.tasks == map[]
        decreases |keys|
      {
        var tid := ProcCache.AnyOf(keys);
        managed.Remove(tid);
        keys := keys - {tid};
      }
      TakeAll(found);
      for k := 0 to |found|
        invariant (managed.tids, cache.tasks) == Scanned(found[..k], cfg, matches)
      {
        var x := found[k];
        ScannedNext(found, k, cfg, matches);
        ghost var f := Find(None, x.tuned, x.dead, {});
        var tracked := Apply(x.tid, x.pid, x.pkg, x.comm, cfg, matches, x.tuned, x.dead);
      }
    }
  }

  lemma {:induction false} ScannedNext(found: seq<Seen>, k: nat, cfg: AppConfig, matches: (string, string) -> bool)
    requires k < |found|
    ensures Scanned(found[..k + 1], cfg, matches)
         == var (m, c) := Scanned(found[..k], cfg, matches); var x := found[k];
            var (m', c', _) := ApplyOne(m, c, x.tid, x.pid, x.pkg, x.comm, cfg, matches, Find(None, x.tuned, x.dead, {}));
            (m', c')
  {
    hide ApplyOne;
    assert found[..k + 1][..k] == found[..k] && found[..k + 1][k] == found[k];
  }

  /** A scan on its own leaves every cached thread managed. */
  lemma {:induction false} ScannedManaged(found: seq<Seen>, cfg: AppConfig, matches: (string, string) -> bool)
    ensures Scanned(found, cfg, matches).1.Keys <= Scanned(found, cfg, matches).0
    decreases |found|
  {
    hide Decide;
    if found != [] {
      ScannedManaged(found[..|found| - 1], cfg, matches);
    }
  }

  // ---- the kernel's handlers

  /** The handlers on the kernel's side, over the same table and the event queue. */
  class KernelSide {
    const managed: AppliedMap
    var events: seq<Event>

    constructor (table: AppliedMap)
      ensures managed == table && events == []
    {
      managed := table;
      events := [];
    }

    /** What the handlers' step does to the table and the queue. */
    ghost predicate Stepped(was: set<int>, queued: seq<Event>, k: Kernel)
      reads this, managed
    {
      forall s: Sys | s.managed == was && s.queue == queued ::
        KernelStep(s, k) == s.(managed := managed.tids, queue := events)
    }

    method Submit(ev: Event)
      modifies this
      ensures events == old(events) + [ev]
    {
      events := events + [ev];
    }

    /** A fork of a managed thread marks the child before its first rename can be filtered. */
    method ProcessFork(parent: int, child: int, pid: int, comm: string, listed: bool)
      modifies this, managed
      ensures Stepped(old(managed.tids), old(events), OnFork(parent, child, pid, comm, listed))
    {
      var tracked := parent in managed.tids;
      if !tracked && !listed {
        return;
      }
      if tracked {
        managed.Insert(child);
      }
      Submit(Event(Fork, child, pid, comm));
    }

    method ProcessExec(tid: int, pid: int, comm: string, listed: bool)
      modifies this
      ensures Stepped(old(managed.tids), old(events), OnExec(tid, pid, comm, listed))
    {
      if tid !in managed.tids && !listed {
        return;
      }
      Submit(Event(Exec, tid, pid, comm));
    }

    method TaskRename(tid: int, pid: int, comm: string, listed: bool)
      modifies this
      ensures Stepped(old(managed.tids), old(events), OnRename(tid, pid, comm, listed))
    {
      if tid == 0 {
        return;
      }
      if tid !in managed.tids && !listed {
        return;
      }
      Submit(Event(Rename, tid, pid, comm));
    }

    method ProcessExit(tid: int, pid: int)
      modifies this, managed
      ensures Stepped(old(managed.tids), old(events), OnExit(tid, pid))
    {
      if tid !in managed.tids {
        return;
      }
      managed.Remove(tid);
      Submit(Event(Exit, tid, pid, ""));
    }
  }
}
