/**
 Token counters that stop at the largest value they can hold
 (containers/agent/src/engine_support.rs).
 */
module Usage {
  /** `usize` on the 64-bit container. */
  const MAX: nat := 0xFFFF_FFFF_FFFF_FFFF

  type Count = n: nat | n <= MAX

  function SaturatingAdd(a: Count, b: Count): Count {
    if a + b <= MAX then a + b else MAX
  }

  datatype UsageSnapshot = UsageSnapshot(inputTokens: Count, outputTokens: Count, cachedInputTokens: Count)

  const NO_USAGE := UsageSnapshot(0, 0, 0)

  function Add(a: UsageSnapshot, b: UsageSnapshot): UsageSnapshot {
    UsageSnapshot(
      SaturatingAdd(a.inputTokens, b.inputTokens),
      SaturatingAdd(a.outputTokens, b.outputTokens),
      SaturatingAdd(a.cachedInputTokens, b.cachedInputTokens))
  }

  /** The usage after `records` were added one by one. */
  function Accumulate(start: UsageSnapshot, records: seq<UsageSnapshot>): UsageSnapshot
    decreases records
  {
    if records == [] then start else Accumulate(Add(start, records[0]), records[1..])
  }

  function Capped(n: nat): Count {
    if n <= MAX then n else MAX
  }

  function Sum(counts: seq<nat>): nat {
    if counts == [] then 0 else counts[0] + Sum(counts[1..])
  }

  function InputsOf(records: seq<UsageSnapshot>): seq<nat> {
    if records == [] then [] else [records[0].inputTokens as nat] + InputsOf(records[1..])
  }

  function OutputsOf(records: seq<UsageSnapshot>): seq<nat> {
    if records == [] then [] else [records[0].outputTokens as nat] + OutputsOf(records[1..])
  }

  function CachedOf(records: seq<UsageSnapshot>): seq<nat> {
    if records == [] then [] else [records[0].cachedInputTokens as nat] + CachedOf(records[1..])
  }

  /** Saturating at every step gives the exact total, capped once. */
  lemma {:induction false} AccumulateIsCappedSum(start: UsageSnapshot, records: seq<UsageSnapshot>)
    ensures Accumulate(start, records) == UsageSnapshot(
              Capped(start.inputTokens + Sum(InputsOf(records))),
              Capped(start.outputTokens + Sum(OutputsOf(records))),
              Capped(start.cachedInputTokens + Sum(CachedOf(records))))
    decreases records
  {
    if records == [] {
    } else {
      AccumulateIsCappedSum(Add(start, records[0]), records[1..]);
    }
  }

  lemma {:induction false} AccumulateConcat(start: UsageSnapshot, a: seq<UsageSnapshot>, b: seq<UsageSnapshot>)
    ensures Accumulate(start, a + b) == Accumulate(Accumulate(start, a), b)
    decreases a
  {
    if a == [] {
      assert a + b == b;
    } else {
      assert (a + b)[1..] == a[1..] + b;
      AccumulateConcat(Add(start, a[0]), a[1..], b);
    }
  }

  class UsageTracker {
    var inner: UsageSnapshot

    constructor ()
      ensures inner == NO_USAGE
    {
      inner := NO_USAGE;
    }

    method Record(usage: UsageSnapshot)
      modifies this
      ensures inner == Add(old(inner), usage)
    {
      inner := UsageSnapshot(
        SaturatingAdd(inner.inputTokens, usage.inputTokens),
        SaturatingAdd(inner.outputTokens, usage.outputTokens),
        SaturatingAdd(inner.cachedInputTokens, usage.cachedInputTokens));
    }

    method Restore(snapshot: UsageSnapshot)
      modifies this
      ensures inner == snapshot
    {
      inner := snapshot;
    }
  }
}
