/** The two pure derivations the dashboard computes from an inventory
    snapshot on every render: the per-group stock level shown on the
    inventory tab, and the "Units Available" statistic. */
module Stock {
  import opened Wrappers
  import opened Records

  datatype Level = Critical | Low | Ok

  /** Severity, for comparing levels: critical is the most severe. */
  function Severity(l: Level): nat {
    match l
    case Critical => 2
    case Low => 1
    case Ok => 0
  }

  const DefaultCritical: int := 2
  const DefaultLow: int := 5

  /** `raw || default`: an absent threshold and a threshold of 0 are both
      falsy, so both fall back to the default. */
  function Threshold(raw: Option<int>, default: int): int {
    match raw
    case None => default
    case Some(t) => if t == 0 then default else t
  }

  /** `Number(val || 0)`: an absent count reads as zero. */
  function Count(c: Option<nat>): nat {
    c.GetOr(0)
  }

  /** The level of a count, decided in order: at or below the critical
      threshold it is critical, otherwise at or below the low threshold it
      is low, otherwise it is ok. */
  function Classify(n: int, critical: Option<int>, low: Option<int>): (l: Level)
    ensures l == Critical <==> n <= Threshold(critical, DefaultCritical)
    ensures l == Low <==> Threshold(critical, DefaultCritical) < n <= Threshold(low, DefaultLow)
    ensures l == Ok <==> n > Threshold(critical, DefaultCritical) && n > Threshold(low, DefaultLow)
  {
    if n <= Threshold(critical, DefaultCritical) then Critical
    else if n <= Threshold(low, DefaultLow) then Low
    else Ok
  }

  /** The level of one inventory entry, as the inventory tab renders it:
      its count, absent read as 0, against the snapshot's thresholds. An
      entry without a count is critical unless the critical threshold is
      negative. */
  function EntryLevel(inv: Inventory, e: UnitEntry): (l: Level)
    ensures l == Critical <==> Count(e.count) <= Threshold(inv.criticalThreshold, DefaultCritical)
    ensures l == Ok <==> Count(e.count) > Threshold(inv.criticalThreshold, DefaultCritical)
                         && Count(e.count) > Threshold(inv.lowThreshold, DefaultLow)
    ensures e.count.None? && Threshold(inv.criticalThreshold, DefaultCritical) >= 0 ==> l == Critical
  {
    Classify(Count(e.count), inv.criticalThreshold, inv.lowThreshold)
  }

  /** More stock is never more severe. */
  lemma ClassifyMonotone(n: int, m: int, critical: Option<int>, low: Option<int>)
    requires n <= m
    ensures Severity(Classify(m, critical, low)) <= Severity(Classify(n, critical, low))
  {
  }

  /** A missing threshold and a threshold of 0 classify alike, as 2 and 5. */
  lemma ClassifyDefaults(n: int)
    ensures Classify(n, None, None) == Classify(n, Some(0), Some(0)) == Classify(n, Some(2), Some(5))
  {
  }

  /** When the critical threshold reaches the low one, no count is low. */
  lemma ClassifyNeverLowWhenThresholdsCross(n: int, critical: Option<int>, low: Option<int>)
    requires Threshold(low, DefaultLow) <= Threshold(critical, DefaultCritical)
    ensures Classify(n, critical, low) != Low
  {
  }

  /** The boundary cases with the default thresholds. */
  lemma ClassifyExamples()
    ensures Classify(1, Some(2), Some(5)) == Critical
    ensures Classify(2, Some(2), Some(5)) == Critical
    ensures Classify(3, Some(2), Some(5)) == Low
    ensures Classify(5, Some(2), Some(5)) == Low
    ensures Classify(6, Some(2), Some(5)) == Ok
  {
  }

  /** Reference meaning of the statistic: the sum of all counts. */
  function Sum(es: seq<UnitEntry>): nat {
    if es == [] then 0 else Count(es[0].count) + Sum(es[1..])
  }

  /** `reduce((a, b) => a + Number(b || 0), acc)` over the entries, left to right. */
  function FoldUnits(acc: nat, es: seq<UnitEntry>): (total: nat)
    ensures acc <= total
    ensures total == acc <== forall i :: 0 <= i < |es| ==> Count(es[i].count) == 0
    decreases |es|
  {
    if es == [] then acc else FoldUnits(acc + Count(es[0].count), es[1..])
  }

  /** The left-to-right fold adds the sum of the entries to its seed. */
  lemma {:induction false} FoldUnitsIsSum(acc: nat, es: seq<UnitEntry>)
    ensures FoldUnits(acc, es) == acc + Sum(es)
    decreases |es|
  {
    if es != [] {
      FoldUnitsIsSum(acc + Count(es[0].count), es[1..]);
    }
  }

  /** "Units Available": 0 without an inventory or without its `units`
      object, otherwise the sum of all counts. */
  function UnitsTotal(inv: Option<Inventory>): (total: nat)
    ensures inv.None? || inv.value.units.None? ==> total == 0
    ensures inv.Some? && inv.value.units.Some? ==> total == Sum(inv.value.units.value)
  {
    match inv
    case None => 0
    case Some(i) =>
      match i.units
      case None => 0
      case Some(es) => FoldUnitsIsSum(0, es); FoldUnits(0, es)
  }

  lemma {:induction false} SumAppend(a: seq<UnitEntry>, b: seq<UnitEntry>)
    ensures Sum(a + b) == Sum(a) + Sum(b)
  {
    if a != [] {
      assert (a + b)[1..] == a[1..] + b;
      SumAppend(a[1..], b);
    } else {
      assert a + b == b;
    }
  }

  /** Every entry's count is part of the total, and the total is zero
      exactly when every entry is absent or zero. */
  lemma {:induction false} SumBoundsEntries(es: seq<UnitEntry>)
    ensures forall i :: 0 <= i < |es| ==> Count(es[i].count) <= Sum(es)
    ensures Sum(es) == 0 <==> forall i :: 0 <= i < |es| ==> Count(es[i].count) == 0
  {
    if es != [] {
      SumBoundsEntries(es[1..]);
      assert forall i :: 1 <= i < |es| ==> es[i] == es[1..][i - 1];
    }
  }

  /** Taking one entry out of the middle lowers the total by its count. */
  lemma {:induction false} SumRemove(b: seq<UnitEntry>, j: nat)
    requires j < |b|
    ensures Sum(b) == Count(b[j].count) + Sum(b[..j] + b[j + 1..])
    decreases j
  {
    if j == 0 {
      assert b[..0] + b[1..] == b[1..];
    } else {
      var tail := b[1..];
      SumRemove(tail, j - 1);
      assert tail[j - 1] == b[j];
      var rest := b[..j] + b[j + 1..];
      assert rest == [b[0]] + (tail[..j - 1] + tail[j..]);
      assert rest[1..] == tail[..j - 1] + tail[j..];
    }
  }

  /** Removing a matching first entry from `a` and the `j`th from `b`
      leaves equal multisets. */
  lemma MultisetRemove(a: seq<UnitEntry>, b: seq<UnitEntry>, j: nat)
    requires multiset(a) == multiset(b)
    requires a != [] && j < |b| && b[j] == a[0]
    ensures multiset(a[1..]) == multiset(b[..j] + b[j + 1..])
  {
    assert b == b[..j] + [b[j]] + b[j + 1..];
    assert a == [a[0]] + a[1..];
    calc {
      multiset(a[1..]);
      multiset(a) - multiset{a[0]};
      multiset(b) - multiset{a[0]};
      multiset(b[..j] + b[j + 1..]);
    }
  }

  /** Entries do not interact: the statistic does not depend on their order. */
  lemma {:induction false} SumPermutation(a: seq<UnitEntry>, b: seq<UnitEntry>)
    requires multiset(a) == multiset(b)
    ensures Sum(a) == Sum(b)
    decreases |a|
  {
    if a != [] {
      var x := a[0];
      assert x in multiset(b);
      var j :| 0 <= j < |b| && b[j] == x;
      var rest := b[..j] + b[j + 1..];
      MultisetRemove(a, b, j);
      SumPermutation(a[1..], rest);
      SumRemove(b, j);
    }
  }
}
