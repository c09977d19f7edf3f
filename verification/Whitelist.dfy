/**
 * The kernel's whitelist of thread names: 15-byte keys built from package names, and the
 * sliding window the kernel matches 16-byte thread names with.
 */
module Whitelist {
  import opened Seqs

  newtype byte = b: int | 0 <= b < 256

  type Bytes = seq<byte>

  const KeyLen: nat := 15
  const CommLen: nat := 16

  /** A name padded with zero bytes. */
  function Padded(s: Bytes, n: nat): (r: Bytes)
    ensures |r| == if |s| < n then n else |s|
  {
    s + seq(if |s| < n then n - |s| else 0, _ => 0 as byte)
  }

  function First(pkg: Bytes): Bytes { pkg[..if |pkg| < KeyLen then |pkg| else KeyLen] }

  function Last(pkg: Bytes): Bytes { pkg[if |pkg| < KeyLen then 0 else |pkg| - KeyLen..] }

  /** The keys of one package: its first 15 bytes, and its last 15 if it is longer. */
  function KeysOf(pkg: Bytes): seq<Bytes> {
    if pkg == [] then []
    else [Padded(First(pkg), KeyLen)] + (if |pkg| > KeyLen then [Last(pkg)] else [])
  }

  function RawKeys(pkgs: seq<Bytes>): seq<Bytes> {
    if pkgs == [] then [] else KeysOf(pkgs[0]) + RawKeys(pkgs[1..])
  }

  predicate IsKey(pkgs: seq<Bytes>, k: Bytes) {
    exists p | p in pkgs :: k in KeysOf(p)
  }

  lemma {:induction false} RawKeysAre(pkgs: seq<Bytes>, k: Bytes)
    ensures k in RawKeys(pkgs) <==> IsKey(pkgs, k)
    decreases |pkgs|
  {
    hide KeysOf;
    if pkgs != [] {
      Uncons(pkgs);
      RawKeysAre(pkgs[1..], k);
    }
  }

  lemma {:induction false} RawKeysFew(pkgs: seq<Bytes>)
    ensures |RawKeys(pkgs)| <= 2 * |pkgs|
    decreases |pkgs|
  {
    if pkgs != [] {
      RawKeysFew(pkgs[1..]);
    }
  }

  lemma {:induction false} RawKeysConcat(a: seq<Bytes>, b: seq<Bytes>)
    ensures RawKeys(a + b) == RawKeys(a) + RawKeys(b)
    decreases |a|
  {
    hide KeysOf;
    if a == [] {
      NilLeft(b);
      NilLeft(RawKeys(b));
    } else {
      ConsDrop(a, b);
      RawKeysConcat(a[1..], b);
      Assoc3(KeysOf(a[0]), RawKeys(a[1..]), RawKeys(b));
    }
  }

  // ---- sorted and without duplicates

  /** Byte order. */
  predicate Less(a: Bytes, b: Bytes)
    decreases |a|
  {
    if a == [] || b == [] then a == [] && b != []
    else a[0] < b[0] || (a[0] == b[0] && Less(a[1..], b[1..]))
  }

  lemma {:induction false} LessTotal(a: Bytes, b: Bytes)
    ensures Less(a, b) || a == b || Less(b, a)
    decreases |a|
  {
    if a != [] && b != [] && a[0] == b[0] {
      Uncons(a);
      Uncons(b);
      LessTotal(a[1..], b[1..]);
    }
  }

  lemma {:induction false} LessTrans(a: Bytes, b: Bytes, c: Bytes)
    requires Less(a, b) && Less(b, c)
    ensures Less(a, c)
    decreases |a|
  {
    if a != [] && a[0] == b[0] == c[0] {
      LessTrans(a[1..], b[1..], c[1..]);
    }
  }

  predicate Increasing(ks: seq<Bytes>) {
    forall i, j | 0 <= i < j < |ks| :: Less(ks[i], ks[j])
  }

  lemma {:induction false} Placed(ks: seq<Bytes>, i: nat, k: Bytes)
    requires Increasing(ks) && i <= |ks|
    requires (forall j | 0 <= j < i :: Less(ks[j], k)) && (i < |ks| ==> Less(k, ks[i]))
    ensures Increasing(ks[..i] + [k] + ks[i..])
    ensures forall x :: x in ks[..i] + [k] + ks[i..] <==> x in ks || x == k
  {
    var out := ks[..i] + [k] + ks[i..];
    assert forall j | 0 <= j < |out| :: out[j] == if j < i then ks[j] else if j == i then k else ks[j - 1];
    forall a, b | 0 <= a < b < |out| ensures Less(out[a], out[b]) {
      if a == i && b > i + 1 {
        LessTrans(k, ks[i], ks[b - 1]);
      } else if a < i && b > i {
        if a < i < |ks| && b - 1 == i { LessTrans(ks[a], k, ks[i]); }
      }
    }
    forall x ensures x in out <==> x in ks || x == k {
      if x in ks {
        var j :| 0 <= j < |ks| && ks[j] == x;
        assert out[if j < i then j else j + 1] == x;
      }
      assert out[i] == k;
    }
  }

  /** Sorting and dropping duplicates, one key at a time. */
  method SortedUnique(entries: seq<Bytes>) returns (ks: seq<Bytes>)
    ensures Increasing(ks) && |ks| <= |entries| && forall x :: x in ks <==> x in entries
  {
    hide Less;
    ks := [];
    TakeAll(entries);
    for n := 0 to |entries|
      invariant Increasing(ks) && |ks| <= n && forall x :: x in ks <==> x in entries[..n]
    {
      var k := entries[n];
      SplitAround(entries, n);
      var i := 0;
      while i < |ks| && Less(ks[i], k)
        invariant i <= |ks| && forall j | 0 <= j < i :: Less(ks[j], k)
      {
        i := i + 1;
      }
      if i < |ks| {
        LessTotal(ks[i], k);
      }
      if i == |ks| || ks[i] != k {
        Placed(ks, i, k);
        ks := ks[..i] + [k] + ks[i..];
      }
    }
  }

  /** The keys of all packages, sorted and without duplicates. */
  method BuildKeys(pkgs: seq<Bytes>) returns (keys: seq<Bytes>)
    ensures Increasing(keys) && (forall k :: k in keys <==> IsKey(pkgs, k)) && |keys| <= 2 * |pkgs|
  {
    hide KeysOf, Increasing;
    var entries: seq<Bytes> := [];
    TakeAll(pkgs);
    for n := 0 to |pkgs|
      invariant entries == RawKeys(pkgs[..n])
    {
      SplitAround(pkgs, n);
      RawKeysConcat(pkgs[..n], [pkgs[n]]);
      OneRaw(pkgs[n]);
      entries := entries + KeysOf(pkgs[n]);
    }
    RawKeysFew(pkgs);
    keys := SortedUnique(entries);
    forall k ensures k in keys <==> IsKey(pkgs, k) {
      RawKeysAre(pkgs, k);
    }
  }

  lemma {:induction false} OneRaw(pkg: Bytes)
    ensures RawKeys([pkg]) == KeysOf(pkg)
  {
    hide KeysOf;
    assert [pkg][1..] == [];
    NilLeft(KeysOf(pkg));
  }

  // ---- the window

  /** Fifteen bytes of the name, from the first or the second on. */
  function Window(comm: Bytes, pos: nat): Bytes
    requires |comm| == CommLen && pos < 2
  {
    comm[pos..pos + KeyLen]
  }

  /** The kernel's loop over the two window positions. */
  method WhitelistMatched(comm: Bytes, keys: set<Bytes>) returns (yes: bool)
    requires |comm| == CommLen
    ensures yes <==> Accepted(comm, keys)
  {
    for pos := 0 to 2
      invariant forall p: nat | p < pos :: Window(comm, p) !in keys
    {
      if Window(comm, pos) in keys {
        return true;
      }
    }
    return false;
  }

  predicate Accepted(comm: Bytes, keys: set<Bytes>)
    requires |comm| == CommLen
  {
    Window(comm, 0) in keys || Window(comm, 1) in keys
  }

  /** The name the kernel has for a process: up to 15 bytes and zeros. */
  function CommOf(name: Bytes): (c: Bytes)
    requires |name| <= KeyLen
    ensures |c| == CommLen
  {
    Padded(name, CommLen)
  }

  lemma {:induction false} PaddedPrefix(name: Bytes)
    requires |name| <= KeyLen
    ensures Window(CommOf(name), 0) == Padded(name, KeyLen)
  {
  }

  /** Every configured package is accepted under its first and under its last 15 bytes. */
  lemma {:induction false} Complete(pkgs: seq<Bytes>, keys: set<Bytes>, pkg: Bytes)
    requires (forall k :: k in keys <==> IsKey(pkgs, k)) && pkg in pkgs && pkg != []
    ensures Accepted(CommOf(First(pkg)), keys) && Accepted(CommOf(Last(pkg)), keys)
  {
    PaddedPrefix(First(pkg));
    PaddedPrefix(Last(pkg));
    assert Padded(First(pkg), KeyLen) in KeysOf(pkg);
    if |pkg| > KeyLen {
      assert Padded(Last(pkg), KeyLen) == Last(pkg);
      assert Last(pkg) in KeysOf(pkg);
    } else {
      assert Last(pkg) == First(pkg) == pkg;
    }
  }

  /** A name is accepted only for a package it begins with, ends with, or carries behind one more byte. */
  lemma {:induction false} AcceptedOnly(pkgs: seq<Bytes>, keys: set<Bytes>, comm: Bytes)
    requires (forall k :: k in keys <==> IsKey(pkgs, k)) && |comm| == CommLen && Accepted(comm, keys)
    ensures exists p | p in pkgs :: p != [] && (Window(comm, 0) in KeysOf(p) || Window(comm, 1) in KeysOf(p))
  {
    var k := Window(comm, if Window(comm, 0) in keys then 0 else 1);
    assert IsKey(pkgs, k);
    var p :| p in pkgs && k in KeysOf(p);
  }

  // ---- capacity

  /** The least power of two that is at least `n`, from `p` up. */
  function PowerFrom(n: nat, p: nat): (r: nat)
    requires p > 0
    ensures n <= r && p <= r
    decreases n - p
  {
    if n <= p then p else PowerFrom(n, 2 * p)
  }

  /** Room for two keys a package, at least 512, rounded up to a power of two. */
  function Capacity(packages: nat): nat {
    PowerFrom(if 2 * packages < 512 then 512 else 2 * packages, 1)
  }

  /** After a reload the keys of the same packages always fit. */
  method InitKeys(pkgs: seq<Bytes>, capacity: nat) returns (keys: set<Bytes>, reload: bool)
    ensures reload ==> capacity < 2 * |pkgs|
    ensures !reload ==> |keys| <= capacity && forall k :: k in keys <==> IsKey(pkgs, k)
    ensures capacity == Capacity(|pkgs|) ==> !reload
  {
    hide IsKey, Increasing;
    var entries := BuildKeys(pkgs);
    keys, reload := {}, |entries| > capacity;
    if reload {
      return;
    }
    TakeAll(entries);
    for n := 0 to |entries|
      invariant |keys| <= n && forall k :: k in keys <==> k in entries[..n]
    {
      SplitAround(entries, n);
      keys := keys + {entries[n]};
    }
  }
}
