/** The CPU set as it is stored: sixteen 64-bit words, changed in place. */
module CpuWords {
  import opened Bits
  import opened Seqs
  import opened Text
  import opened CpuSpec
  import opened CpuRanges

  const WordBits: nat := 64
  const Words: nat := 16

  /** CPU `c` is in the words. */
  predicate Has(words: seq<bv64>, c: nat) {
    |words| == Words && c < SetSize && Bit(words[c / WordBits], c % WordBits)
  }

  function Below(words: seq<bv64>, n: nat): set<nat> {
    set c: nat | c < n && Has(words, c)
  }

  function Members(words: seq<bv64>): (s: set<nat>)
    ensures InSet(s)
    ensures forall c: nat :: c in s <==> Has(words, c)
  {
    Below(words, SetSize)
  }

  /** Set bits of a word below `n`; `u64::count_ones` for all 64. */
  function Ones(w: bv64, n: nat): nat
    requires n <= WordBits
  {
    if n == 0 then 0 else Ones(w, n - 1) + (if Bit(w, n - 1) then 1 else 0)
  }

  lemma {:induction false} BelowNext(words: seq<bv64>, n: nat)
    ensures Below(words, n + 1) == Below(words, n) + (if Has(words, n) then {n} else {})
    ensures |Below(words, n + 1)| == |Below(words, n)| + (if Has(words, n) then 1 else 0)
  {
    hide Has;
    assert Below(words, n + 1) == Below(words, n) + (if Has(words, n) then {n} else {});
  }

  lemma {:induction false} WordOnes(words: seq<bv64>, i: nat, n: nat)
    requires |words| == Words && i < Words && n <= WordBits
    ensures |Below(words, i * WordBits + n)| == |Below(words, i * WordBits)| + Ones(words[i], n)
  {
    hide Bit, Below;
    if n > 0 {
      WordOnes(words, i, n - 1);
      var c := i * WordBits + n - 1;
      BelowNext(words, c);
      assert c / WordBits == i && c % WordBits == n - 1;
    }
  }

  /** Words with bit `cpu` set. */
  lemma {:induction false} SetHas(words: seq<bv64>, cpu: nat, c: nat)
    requires |words| == Words && cpu < SetSize
    ensures cpu / WordBits < Words
    ensures Has(words[cpu / WordBits := WithBit(words[cpu / WordBits], cpu % WordBits)], c) <==> Has(words, c) || c == cpu
  {
    hide Bit, WithBit, Either;
    if c < SetSize && c / WordBits == cpu / WordBits {
      SetBit(words[cpu / WordBits], cpu % WordBits, c % WordBits);
    }
  }

  lemma {:induction false} ZeroHas(words: seq<bv64>, c: nat)
    requires |words| == Words && forall i | 0 <= i < Words :: words[i] == 0
    ensures !Has(words, c)
  {
    hide Bit, WithBit, Either;
    if c < SetSize {
      NoBit(c % WordBits);
    }
  }

  lemma {:induction false} OrHas(a: seq<bv64>, b: seq<bv64>, out: seq<bv64>, c: nat)
    requires |a| == |b| == |out| == Words && forall i | 0 <= i < Words :: out[i] == Either(a[i], b[i])
    ensures Has(out, c) <==> Has(a, c) || Has(b, c)
  {
    hide Bit, WithBit, Either;
    if c < SetSize {
      OrBit(a[c / WordBits], b[c / WordBits], c % WordBits);
    }
  }

  lemma {:induction false} RunsNoMember(s: set<nat>, n: nat, m: nat)
    requires n <= m && forall c | n <= c < m :: c !in s
    ensures RunsTo(s, m) == RunsTo(s, n)
    decreases m
  {
    hide Extend;
    if n < m {
      RunsNoMember(s, n, m - 1);
    }
  }

  lemma {:induction false} RunsTextSnoc(runs: seq<Run>, r: Run)
    ensures RunsText(runs + [r]) == if runs == [] then RunText(r) else RunsText(runs) + "," + RunText(r)
  {
    hide RunText;
    assert (runs + [r])[..|runs|] == runs;
  }

  class CpuSet {
    var bits: array<bv64>

    ghost predicate Valid()
      reads this, bits
    {
      bits.Length == Words
    }

    ghost function Cpus(): (s: set<nat>)
      reads this, bits
      ensures InSet(s)
    {
      Members(bits[..])
    }

    constructor ()
      ensures Valid() && fresh(bits) && Cpus() == {}
    {
      bits := new bv64[Words](_ => 0);
      new;
      forall c: nat ensures !Has(bits[..], c) {
        ZeroHas(bits[..], c);
      }
    }

    /** CPUs the array cannot hold are ignored. */
    method Set(cpu: nat)
      requires Valid()
      modifies bits
      ensures Valid() && Cpus() == old(Cpus()) + (if cpu < SetSize then {cpu} else {})
    {
      hide Bit, WithBit;
      if cpu < SetSize {
        ghost var was := bits[..];
        var w := cpu / WordBits;
        bits[w] := WithBit(bits[w], cpu % WordBits);
        assert bits[..] == was[w := WithBit(was[w], cpu % WordBits)];
        forall c: nat ensures Has(bits[..], c) <==> Has(was, c) || c == cpu {
          SetHas(was, cpu, c);
        }
      }
    }

    method IsSet(cpu: nat) returns (yes: bool)
      requires Valid()
      ensures yes <==> cpu in Cpus()
    {
      yes := cpu < SetSize && Bit(bits[cpu / WordBits], cpu % WordBits);
    }

    method Count() returns (n: nat)
      requires Valid()
      ensures n == |Cpus()|
    {
      hide Below, Has;
      n := 0;
      NoneBelow(bits[..]);
      for i := 0 to Words
        invariant n == |Below(bits[..], i * WordBits)|
      {
        WordOnes(bits[..], i, WordBits);
        n := n + Ones(bits[i], WordBits);
      }
    }

    method Or(other: CpuSet)
      requires Valid() && other.Valid()
      modifies bits
      ensures Valid() && Cpus() == old(Cpus()) + old(other.Cpus())
    {
      hide Bit, Either;
      ghost var a, b := bits[..], other.bits[..];
      for i := 0 to Words
        invariant forall k | 0 <= k < i :: bits[k] == Either(a[k], b[k])
        invariant forall k | i <= k < Words :: bits[k] == a[k]
        invariant other.bits == bits || other.bits[..] == b
      {
        bits[i] := Either(bits[i], other.bits[i]);
      }
      forall c: nat ensures Has(bits[..], c) <==> Has(a, c) || Has(b, c) {
        OrHas(a, b, bits[..], c);
      }
    }

    /** The printed ranges: word by word, skipping empty words, bit by bit. */
    method ToRangeString() returns (result: string)
      requires Valid()
      ensures result == RangeString(Cpus())
    {
      hide RunsText, RunText, RunsTo, Members, Has, Bit, Extend, Covers;
      ghost var s := Cpus();
      ghost var done: seq<Run> := [];
      var start: Option<nat>, end: nat := None, 0;
      var first := true;
      result := "";
      NoRunsYet(s);
      NoTextYet();
      for i := 0 to Words
        invariant Printing(s, i * WordBits, done, start, end, first, result)
      {
        if bits[i] == 0 {
          EmptyWord(bits[..], i);
          RunsNoMember(s, i * WordBits, (i + 1) * WordBits);
          if start.Some? {
            RunsMaximal(s, i * WordBits);
            result := PushRange(done, start.value, end, first, result);
            done := done + [Run(start.value, end)];
            start, first := None, false;
          }
          continue;
        }
        var base := i * WordBits;
        for bit := 0 to WordBits
          invariant Printing(s, base + bit, done, start, end, first, result)
        {
          var cpu := base + bit;
          assert cpu / WordBits == i && cpu % WordBits == bit;
          BitIsMember(bits[..], cpu);
          NilLeft(done);
          RunsStep(s, cpu);
          if Bit(bits[i], bit) {
            if start.None? {
              NewRun(s, cpu, done, end);
              start, end := Some(cpu), cpu;
            } else if cpu == end + 1 {
              LongerRun(done, Run(start.value, end), cpu);
              end := cpu;
            } else {
              RunsMaximal(s, cpu);
              result := PushRange(done, start.value, end, first, result);
              done, first := done + [Run(start.value, end)], false;
              NewRun(s, cpu, done, end);
              start, end := Some(cpu), cpu;
            }
          }
        }
      }
      if start.Some? {
        result := PushRange(done, start.value, end, first, result);
      } else {
        NilLeft(done);
      }
    }

    /** Append the finished run. */
    static method PushRange(ghost done: seq<Run>, lo: nat, hi: nat, first: bool, text: string) returns (text': string)
      requires text == RunsText(done) && (first <==> done == [])
      ensures text' == RunsText(done + [Run(lo, hi)])
    {
      hide RunText, RunsText;
      RunsTextSnoc(done, Run(lo, hi));
      NoTextYet();
      text' := text;
      if !first {
        text' := text' + ",";
      }
      text' := text' + RunTextOf(lo, hi);
      NilLeft(RunText(Run(lo, hi)));
    }

    static function RunTextOf(lo: nat, hi: nat): (t: string)
      ensures t == RunText(Run(lo, hi))
    {
      if lo == hi then NumberText(lo) else NumberText(lo) + "-" + NumberText(hi)
    }
  }

  lemma {:induction false} NoTextYet()
    ensures RunsText([]) == ""
  {
  }

  lemma {:induction false} NoneBelow(words: seq<bv64>)
    ensures Below(words, 0) == {}
  {
  }

  lemma {:induction false} EmptyWord(words: seq<bv64>, i: nat)
    requires |words| == Words && i < Words && words[i] == 0
    ensures forall c | i * WordBits <= c < (i + 1) * WordBits :: c !in Members(words)
  {
    hide Bit, Members;
    forall c | i * WordBits <= c < (i + 1) * WordBits ensures c !in Members(words) {
      assert c / WordBits == i;
      NoBit(c % WordBits);
    }
  }

  lemma {:induction false} BitIsMember(words: seq<bv64>, cpu: nat)
    requires |words| == Words && cpu < SetSize
    ensures cpu in Members(words) <==> Bit(words[cpu / WordBits], cpu % WordBits)
  {
    hide Bit;
  }

  /** What the printing loop has done: finished runs in the text, and the one still open. */
  ghost predicate Printing(s: set<nat>, n: nat, done: seq<Run>, start: Option<nat>, end: nat, first: bool, text: string) {
    && RunsTo(s, n) == done + (if start.Some? then [Run(start.value, end)] else [])
    && text == RunsText(done) && (first <==> done == [])
    && (start.None? && done != [] ==> done[|done| - 1].hi + 1 < n)
  }

  lemma {:induction false} NoRunsYet(s: set<nat>)
    ensures RunsTo(s, 0) == []
  {
  }

  lemma {:induction false} RunsStep(s: set<nat>, cpu: nat)
    ensures RunsTo(s, cpu + 1) == if cpu in s then Extend(RunsTo(s, cpu), cpu) else RunsTo(s, cpu)
  {
    hide Extend;
  }

  lemma {:induction false} LongerRun(done: seq<Run>, r: Run, cpu: nat)
    requires cpu == r.hi + 1
    ensures Extend(done + [r], cpu) == done + [Run(r.lo, cpu)]
  {
    assert (done + [r])[..|done|] == done;
  }

  lemma {:induction false} NewRun(s: set<nat>, cpu: nat, done: seq<Run>, end: nat)
    requires done == [] || done[|done| - 1].hi + 1 != cpu
    ensures Extend(done, cpu) == done + [Run(cpu, cpu)]
  {
  }
}
