/** The ranking chain of `respondStreams` (index.js): drop records with too
    few seeders, sort by seeders with the add-on's comparator, keep the first
    `maximumResults`. */
module Ranking {
  import opened JsValues
  import opened Torznab

  /** A configuration number is truthy unless it is absent or 0. */
  predicate Configured(n: Option<int>)
  {
    n.Some? && n.value != 0
  }

  /** `el.seeders` when it holds an integer. */
  function SeedCount(rec: Record): Option<int>
  {
    if "seeders" in rec && rec["seeders"].Num? && rec["seeders"].n.Int? then Some(rec["seeders"].n.i) else None
  }

  /** The filter test: `el.seeders && el.seeders > minimumSeeds - 1`. A missing,
      NaN or zero seed count is falsy and fails it. */
  predicate Keeps(rec: Record, minimumSeeds: int)
  {
    SeedCount(rec).Some? && SeedCount(rec).value != 0 && SeedCount(rec).value > minimumSeeds - 1
  }

  function KeepSeeded(records: seq<Record>, minimumSeeds: int): seq<Record>
  {
    if records == [] then []
    else (if Keeps(records[0], minimumSeeds) then [records[0]] else []) + KeepSeeded(records[1..], minimumSeeds)
  }

  /** The filter step, applied only when `minimumSeeds` is configured. */
  function Filtered(records: seq<Record>, minimumSeeds: Option<int>): seq<Record>
  {
    if Configured(minimumSeeds) then KeepSeeded(records, minimumSeeds.value) else records
  }

  /** The filter keeps exactly the records that pass the test, each as often
      as it occurs, in their original order. */
  lemma {:induction false} KeepSeededExactly(records: seq<Record>, minimumSeeds: int)
    ensures forall rec :: multiset(KeepSeeded(records, minimumSeeds))[rec]
                          == if Keeps(rec, minimumSeeds) then multiset(records)[rec] else 0
    ensures |KeepSeeded(records, minimumSeeds)| <= |records|
  {
    if records != [] {
      KeepSeededExactly(records[1..], minimumSeeds);
      assert records == [records[0]] + records[1..];
    }
  }

  lemma {:induction false} KeepSeededOrder(a: seq<Record>, b: seq<Record>, minimumSeeds: int)
    ensures KeepSeeded(a + b, minimumSeeds) == KeepSeeded(a, minimumSeeds) + KeepSeeded(b, minimumSeeds)
  {
    if a != [] {
      assert (a + b)[1..] == a[1..] + b;
      KeepSeededOrder(a[1..], b, minimumSeeds);
    } else {
      assert a + b == b;
    }
  }

  /** With a positive threshold every kept record has at least that many
      seeders; a missing or zero count is never kept when a threshold is set. */
  lemma FilteredThreshold(records: seq<Record>, minimumSeeds: Option<int>)
    ensures multiset(Filtered(records, minimumSeeds)) <= multiset(records)
    ensures Configured(minimumSeeds) ==> forall rec :: rec in Filtered(records, minimumSeeds) ==>
      SeedCount(rec).Some? && SeedCount(rec).value != 0 && SeedCount(rec).value >= minimumSeeds.value
    ensures !Configured(minimumSeeds) ==> Filtered(records, minimumSeeds) == records
  {
    if Configured(minimumSeeds) {
      var kept := KeepSeeded(records, minimumSeeds.value);
      KeepSeededExactly(records, minimumSeeds.value);
      forall rec | rec in kept ensures Keeps(rec, minimumSeeds.value) {
        assert multiset(kept)[rec] > 0;
      }
    }
  }

  /** The comparator `a.seeders < b.seeders ? 1 : -1` puts `a` after `b` only
      when both counts are numbers and `a`'s is smaller; comparisons with an
      undefined or NaN count are false. */
  predicate FewerSeeds(a: Record, b: Record)
  {
    SeedCount(a).Some? && SeedCount(b).Some? && SeedCount(a).value < SeedCount(b).value
  }

  /** Inserts `rec` before the first element the comparator does not put it after. */
  function Insert(rec: Record, sorted: seq<Record>): seq<Record>
  {
    if sorted == [] then [rec]
    else if !FewerSeeds(rec, sorted[0]) then [rec] + sorted
    else [sorted[0]] + Insert(rec, sorted[1..])
  }

  /** `Array.prototype.sort` with the add-on's comparator, as an insertion sort. */
  function SortBySeeders(records: seq<Record>): seq<Record>
  {
    if records == [] then [] else Insert(records[0], SortBySeeders(records[1..]))
  }

  predicate AllCounted(records: seq<Record>)
  {
    forall i :: 0 <= i < |records| ==> SeedCount(records[i]).Some?
  }

  /** The seed count of a record that has one. */
  function Seeds(rec: Record): int
  {
    if SeedCount(rec).Some? then SeedCount(rec).value else 0
  }

  /** Non-increasing in seeders. */
  predicate Descending(records: seq<Record>)
  {
    forall i, j :: 0 <= i < j < |records| ==> Seeds(records[j]) <= Seeds(records[i])
  }

  predicate AtMost(records: seq<Record>, bound: int)
  {
    forall i :: 0 <= i < |records| ==> Seeds(records[i]) <= bound
  }

  lemma {:induction false} InsertPermutes(rec: Record, sorted: seq<Record>)
    ensures multiset(Insert(rec, sorted)) == multiset(sorted) + multiset{rec}
  {
    if sorted != [] && FewerSeeds(rec, sorted[0]) {
      InsertPermutes(rec, sorted[1..]);
      assert sorted == [sorted[0]] + sorted[1..];
    }
  }

  /** Sorting only reorders the records. */
  lemma {:induction false} SortPermutes(records: seq<Record>)
    ensures multiset(SortBySeeders(records)) == multiset(records)
    ensures |SortBySeeders(records)| == |records|
  {
    if records != [] {
      SortPermutes(records[1..]);
      InsertPermutes(records[0], SortBySeeders(records[1..]));
      assert records == [records[0]] + records[1..];
    }
  }

  lemma {:induction false} InsertKeepsBound(rec: Record, sorted: seq<Record>, bound: int)
    requires Seeds(rec) <= bound && AtMost(sorted, bound)
    requires SeedCount(rec).Some? && AllCounted(sorted)
    ensures AtMost(Insert(rec, sorted), bound) && AllCounted(Insert(rec, sorted))
  {
    if sorted != [] && FewerSeeds(rec, sorted[0]) {
      InsertKeepsBound(rec, sorted[1..], bound);
    }
  }

  lemma {:induction false} InsertDescending(rec: Record, sorted: seq<Record>)
    requires SeedCount(rec).Some? && AllCounted(sorted) && Descending(sorted)
    ensures AllCounted(Insert(rec, sorted)) && Descending(Insert(rec, sorted))
  {
    if sorted == [] {
    } else if !FewerSeeds(rec, sorted[0]) {
      assert AtMost(sorted, Seeds(rec));
    } else {
      var tail := sorted[1..];
      InsertDescending(rec, tail);
      InsertKeepsBound(rec, tail, Seeds(sorted[0]));
      var t := Insert(rec, tail);
      var r := [sorted[0]] + t;
      assert r == Insert(rec, sorted);
      forall i, j | 0 <= i < j < |r| ensures Seeds(r[j]) <= Seeds(r[i]) {
        assert r[j] == t[j - 1];
        if i > 0 {
          assert r[i] == t[i - 1];
        }
      }
    }
  }

  /** When every record has a numeric seed count, the sort leaves them in
      non-increasing order of seeders. */
  lemma {:induction false} SortDescending(records: seq<Record>)
    requires AllCounted(records)
    ensures AllCounted(SortBySeeders(records)) && Descending(SortBySeeders(records))
  {
    if records != [] {
      SortDescending(records[1..]);
      InsertDescending(records[0], SortBySeeders(records[1..]));
    }
  }

  /** `records.slice(0, end)`: a negative end counts from the back. */
  function SliceTo(records: seq<Record>, end: int): seq<Record>
  {
    var n := |records|;
    var stop := if end < 0 then (if n + end < 0 then 0 else n + end) else (if end > n then n else end);
    records[..stop]
  }

  /** The truncation step, applied only when `maximumResults` is configured. */
  function Truncated(records: seq<Record>, maximumResults: Option<int>): (r: seq<Record>)
    ensures Configured(maximumResults) && maximumResults.value > 0 ==>
      r == records[..if maximumResults.value < |records| then maximumResults.value else |records|]
    ensures !Configured(maximumResults) ==> r == records
    ensures |r| <= |records| && r == records[..|r|]
  {
    if Configured(maximumResults) then SliceTo(records, maximumResults.value) else records
  }

  /** Filter, sort, truncate. */
  function Rank(records: seq<Record>, minimumSeeds: Option<int>, maximumResults: Option<int>): seq<Record>
  {
    Truncated(SortBySeeders(Filtered(records, minimumSeeds)), maximumResults)
  }

  /** The ranked list draws only on the input records, respects the seed
      threshold and the result limit, and is a prefix of the sorted filtered
      list, which is non-increasing in seeders when all counts are numbers. */
  lemma RankProperties(records: seq<Record>, minimumSeeds: Option<int>, maximumResults: Option<int>)
    ensures multiset(Rank(records, minimumSeeds, maximumResults)) <= multiset(records)
    ensures Configured(minimumSeeds) ==> forall rec :: rec in Rank(records, minimumSeeds, maximumResults) ==>
      SeedCount(rec).Some? && SeedCount(rec).value >= minimumSeeds.value
    ensures Configured(maximumResults) && maximumResults.value > 0 ==>
      |Rank(records, minimumSeeds, maximumResults)| <= maximumResults.value
    ensures AllCounted(Filtered(records, minimumSeeds)) ==>
      AllCounted(Rank(records, minimumSeeds, maximumResults)) && Descending(Rank(records, minimumSeeds, maximumResults))
  {
    var filtered := Filtered(records, minimumSeeds);
    var sorted := SortBySeeders(filtered);
    var ranked := Rank(records, minimumSeeds, maximumResults);
    FilteredThreshold(records, minimumSeeds);
    SortPermutes(filtered);
    PrefixProperties(ranked, sorted);
    forall rec | rec in ranked ensures rec in filtered {
      assert rec in multiset(sorted);
    }
    if AllCounted(filtered) {
      SortDescending(filtered);
    }
  }

  /** A prefix draws only on the list, and keeps its seed counts and order. */
  lemma PrefixProperties(prefix: seq<Record>, records: seq<Record>)
    requires |prefix| <= |records| && prefix == records[..|prefix|]
    ensures multiset(prefix) <= multiset(records)
    ensures AllCounted(records) && Descending(records) ==> AllCounted(prefix) && Descending(prefix)
  {
    assert records == prefix + records[|prefix|..];
    assert forall i :: 0 <= i < |prefix| ==> prefix[i] == records[i];
  }

  /** A record without a seed count is dropped whenever a threshold is
      configured, and kept, in the same multiplicity, when none is. */
  lemma MissingSeedersRule(records: seq<Record>, minimumSeeds: Option<int>, rec: Record)
    requires rec in records && SeedCount(rec).None?
    ensures Configured(minimumSeeds) ==> rec !in SortBySeeders(Filtered(records, minimumSeeds))
    ensures !Configured(minimumSeeds) ==> rec in SortBySeeders(Filtered(records, minimumSeeds))
  {
    var filtered := Filtered(records, minimumSeeds);
    SortPermutes(filtered);
    FilteredThreshold(records, minimumSeeds);
    if rec in SortBySeeders(filtered) {
      assert rec in multiset(SortBySeeders(filtered));
    }
    if !Configured(minimumSeeds) {
      assert rec in multiset(filtered);
    }
  }
}
