/** Parts of a rule list, kept in order. */
module RuleSets {
  import opened Seqs
  import opened Loader

  datatype Part =
    | OtherPkgs(pkg: string)
    | PkgRules(pkg: string)
    | PkgThreads(pkg: string)
    | AllBut(pkg: string, thread: string)
    | Just(pkg: string, thread: string)

  predicate Holds(p: Part, r: RawRule) {
    match p
    case OtherPkgs(pkg) => r.pkg != pkg
    case PkgRules(pkg) => r.pkg == pkg && r.thread == ""
    case PkgThreads(pkg) => r.pkg == pkg && r.thread != ""
    case AllBut(pkg, thread) => !(r.pkg == pkg && r.thread == thread)
    case Just(pkg, thread) => r.pkg == pkg && r.thread == thread
  }

  function Select(rs: seq<RawRule>, p: Part): seq<RawRule> {
    if rs == [] then [] else (if Holds(p, rs[0]) then [rs[0]] else []) + Select(rs[1..], p)
  }

  lemma {:induction false} SelectConcat(a: seq<RawRule>, b: seq<RawRule>, p: Part)
    ensures Select(a + b, p) == Select(a, p) + Select(b, p)
    decreases |a|
  {
    hide Holds;
    if a == [] {
      NilLeft(b);
    } else {
      ConsDrop(a, b);
      SelectConcat(a[1..], b, p);
    }
  }

  lemma {:induction false} SelectOne(r: RawRule, p: Part)
    ensures Select([r], p) == if Holds(p, r) then [r] else []
  {
    assert [r][1..] == [];
  }

  lemma {:induction false} SelectAll(rs: seq<RawRule>, p: Part)
    requires forall r | r in rs :: Holds(p, r)
    ensures Select(rs, p) == rs
    decreases |rs|
  {
    if rs != [] {
      Uncons(rs);
      SelectAll(rs[1..], p);
    }
  }

  lemma {:induction false} SelectNone(rs: seq<RawRule>, p: Part)
    requires forall r | r in rs :: !Holds(p, r)
    ensures Select(rs, p) == []
    decreases |rs|
  {
    if rs != [] {
      SelectNone(rs[1..], p);
    }
  }

  lemma {:induction false} SelectFrom(rs: seq<RawRule>, p: Part)
    ensures forall r :: r in Select(rs, p) <==> r in rs && Holds(p, r)
    decreases |rs|
  {
    if rs != [] {
      Uncons(rs);
      SelectFrom(rs[1..], p);
    }
  }

  /** The multiset of a part is decided by the multiset of the whole. */
  lemma {:induction false} SelectCount(rs: seq<RawRule>, p: Part, r: RawRule)
    ensures multiset(Select(rs, p))[r] == if Holds(p, r) then multiset(rs)[r] else 0
    decreases |rs|
  {
    hide Holds;
    if rs != [] {
      Uncons(rs);
      SelectCount(rs[1..], p, r);
    }
  }

  lemma {:induction false} SelectMultiset(a: seq<RawRule>, b: seq<RawRule>, p: Part)
    requires multiset(a) == multiset(b)
    ensures multiset(Select(a, p)) == multiset(Select(b, p))
  {
    forall r ensures multiset(Select(a, p))[r] == multiset(Select(b, p))[r] {
      SelectCount(a, p, r);
      SelectCount(b, p, r);
    }
  }

  /** The same rules, except that thread rules of `pkg` may come in another order. */
  predicate SameFor(a: seq<RawRule>, b: seq<RawRule>, pkg: string) {
    && multiset(a) == multiset(b)
    && Select(a, OtherPkgs(pkg)) == Select(b, OtherPkgs(pkg))
    && Select(a, PkgRules(pkg)) == Select(b, PkgRules(pkg))
  }
}
