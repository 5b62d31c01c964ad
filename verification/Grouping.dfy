/** Grouping with counts and maxima, and what a grouping of a list of samples is. */
module Grouping {
  import opened Types
  import opened Sequences
  import opened StoreSpec
  import opened MemoryStore

  /** The labels of a group by column name. */
  type Bucket = map<string, Value>

  /** One grouped item: the text its bucket is keyed by, the bucket, and its duration where durations are wanted. */
  datatype Sample = Sample(key: string, bucket: Bucket, duration: Option<int>)

  datatype AggregateRow = AggregateRow(bucket: Bucket, count: nat, maxDurationMs: Option<int>)

  function WithKey(key: string): Sample -> bool {
    (s: Sample) => s.key == key
  }

  function InBucket(bucket: Bucket): Sample -> bool {
    (s: Sample) => s.bucket == bucket
  }

  /** Keys and buckets tell the same samples apart. */
  ghost predicate KeysMatchBuckets(samples: seq<Sample>) {
    forall a, b :: a in samples && b in samples ==> (a.key == b.key <==> a.bucket == b.bucket)
  }

  /** `m` is the largest of the durations given: attained, dominating, and missing only when none is given. */
  ghost predicate IsMaximum(m: Option<int>, samples: seq<Sample>) {
    && (forall s :: s in samples && s.duration.Some? ==> m.Some? && s.duration.value <= m.value)
    && (m.Some? ==> exists s :: s in samples && s.duration == m)
  }

  function Larger(current: Option<int>, duration: Option<int>): Option<int> {
    if duration.None? then current
    else if current.None? || current.value < duration.value then duration
    else current
  }

  lemma LargerIsMaximum(m: Option<int>, samples: seq<Sample>, s: Sample)
    requires IsMaximum(m, samples)
    ensures IsMaximum(Larger(m, s.duration), samples + [s])
  {
    var all := samples + [s];
    assert forall x :: x in all <==> x in samples || x == s;
    assert s in all;
  }

  /** One row per bucket that occurs, each with the number of its samples and their largest duration, the counts
      adding up to the number of samples, in ascending order of the keys. */
  ghost predicate IsGrouping(rows: seq<AggregateRow>, samples: seq<Sample>) {
    && (forall i, j :: 0 <= i < j < |rows| ==> rows[i].bucket != rows[j].bucket)
    && (forall s :: s in samples ==> exists i :: 0 <= i < |rows| && rows[i].bucket == s.bucket)
    && (forall i :: 0 <= i < |rows| ==> IsRowOf(rows[i], samples))
    && SumCounts(rows) == |samples|
    && (forall a, b, i, j :: a in samples && b in samples && 0 <= i < j < |rows| && a.bucket == rows[i].bucket && b.bucket == rows[j].bucket ==>
          StringLe(a.key, b.key))
  }

  ghost predicate IsRowOf(row: AggregateRow, samples: seq<Sample>) {
    && row.count > 0
    && row.count == |Filter(samples, InBucket(row.bucket))|
    && IsMaximum(row.maxDurationMs, Filter(samples, InBucket(row.bucket)))
  }

  function SumCounts(rows: seq<AggregateRow>): nat {
    if rows == [] then 0 else rows[0].count + SumCounts(rows[1..])
  }

  /** The ordered map holds the groups of the samples. */
  ghost predicate GroupsOf(entries: map<string, AggregateRow>, samples: seq<Sample>) {
    && KeysMatchBuckets(samples)
    && (forall s :: s in samples ==> s.key in entries && entries[s.key].bucket == s.bucket)
    && (forall k :: k in entries ==> IsEntryOf(k, entries[k], samples))
  }

  /** The ordered map from keys to groups. */
  class Groups {
    var entries: map<string, AggregateRow>
    ghost var samples: seq<Sample>

    ghost predicate Valid()
      reads this
    {
      GroupsOf(entries, samples)
    }

    constructor ()
      ensures Valid() && samples == []
    {
      entries, samples := map[], [];
    }

    method Record(key: string, bucket: Bucket, duration: Option<int>)
      requires Valid() && KeysMatchBuckets(samples + [Sample(key, bucket, duration)])
      modifies this
      ensures Valid() && samples == old(samples) + [Sample(key, bucket, duration)]
    {
      RecordedGroups(entries, samples, Sample(key, bucket, duration));
      CountIn(key, bucket, duration);
    }

    method CountIn(key: string, bucket: Bucket, duration: Option<int>)
      modifies this
      ensures var s := Sample(key, bucket, duration);
              entries == old(entries)[key := Bumped(EntryFor(old(entries), s), s)] && samples == old(samples) + [s]
    {
      if key !in entries {
        entries := entries[key := AggregateRow(bucket, 0, None)];
      }
      var entry := entries[key];
      entries := entries[key := entry.(count := entry.count + 1, maxDurationMs := Larger(entry.maxDurationMs, duration))];
      samples := samples + [Sample(key, bucket, duration)];
    }

    method IntoRows() returns (rows: seq<AggregateRow>)
      requires Valid()
      ensures IsGrouping(rows, samples)
    {
      var keys := MapOrder(entries);
      keys := StableSort(keys, Alphabetical());
      AlphabeticalIsTotal();
      SortedKeys(entries, keys);
      rows := [];
      for i := 0 to |keys|
        invariant |rows| == i
        invariant forall j :: 0 <= j < i ==> keys[j] in entries && rows[j] == entries[keys[j]]
      {
        assert keys[i] in keys;
        rows := rows + [entries[keys[i]]];
      }
      EntriesMakeAGrouping(entries, samples, keys, rows);
    }
  }

  /** The group kept under a key. */
  ghost predicate IsEntryOf(key: string, entry: AggregateRow, samples: seq<Sample>) {
    && entry.count > 0
    && (exists s :: s in samples && s.key == key && s.bucket == entry.bucket)
    && entry.count == |Filter(samples, WithKey(key))|
    && IsMaximum(entry.maxDurationMs, Filter(samples, WithKey(key)))
  }

  lemma NoneYet(samples: seq<Sample>, entries: map<string, AggregateRow>, key: string)
    requires forall s :: s in samples ==> s.key in entries
    requires key !in entries
    ensures Filter(samples, WithKey(key)) == []
  {
    FilterNone(samples, WithKey(key));
  }

  lemma EntryGrows(samples: seq<Sample>, s: Sample, key: string, entry: AggregateRow, entry': AggregateRow)
    requires s.key == key && s.bucket == entry.bucket
    requires entry.count == |Filter(samples, WithKey(key))| && IsMaximum(entry.maxDurationMs, Filter(samples, WithKey(key)))
    requires entry' == entry.(count := entry.count + 1, maxDurationMs := Larger(entry.maxDurationMs, s.duration))
    ensures IsEntryOf(key, entry', samples + [s])
  {
    FilterConcat(samples, [s], WithKey(key));
    assert Filter([s], WithKey(key)) == [s];
    LargerIsMaximum(entry.maxDurationMs, Filter(samples, WithKey(key)), s);
    assert (samples + [s])[|samples|] == s;
  }

  lemma OtherEntryStays(samples: seq<Sample>, s: Sample, key: string, entry: AggregateRow)
    requires s.key != key && IsEntryOf(key, entry, samples)
    ensures IsEntryOf(key, entry, samples + [s])
  {
    FilterConcat(samples, [s], WithKey(key));
    assert Filter([s], WithKey(key)) == [];
    var x :| x in samples && x.key == key && x.bucket == entry.bucket;
    assert x in samples + [s];
  }

  function EntryFor(entries: map<string, AggregateRow>, s: Sample): AggregateRow {
    if s.key in entries then entries[s.key] else AggregateRow(s.bucket, 0, None)
  }

  function Bumped(entry: AggregateRow, s: Sample): AggregateRow {
    entry.(count := entry.count + 1, maxDurationMs := Larger(entry.maxDurationMs, s.duration))
  }

  lemma EntryForFits(entries: map<string, AggregateRow>, samples: seq<Sample>, s: Sample)
    requires GroupsOf(entries, samples) && KeysMatchBuckets(samples + [s])
    ensures var entry := EntryFor(entries, s);
            && entry.bucket == s.bucket && entry.count == |Filter(samples, WithKey(s.key))|
            && IsMaximum(entry.maxDurationMs, Filter(samples, WithKey(s.key)))
  {
    var all := samples + [s];
    if s.key in entries {
      assert IsEntryOf(s.key, entries[s.key], samples);
      var x :| x in samples && x.key == s.key && x.bucket == entries[s.key].bucket;
      assert x in all && all[|samples|] == s;
    } else {
      NoneYet(samples, entries, s.key);
    }
  }

  lemma RecordedGroups(entries: map<string, AggregateRow>, samples: seq<Sample>, s: Sample)
    requires GroupsOf(entries, samples) && KeysMatchBuckets(samples + [s])
    ensures GroupsOf(entries[s.key := Bumped(EntryFor(entries, s), s)], samples + [s])
  {
    var entry := EntryFor(entries, s);
    var entries' := entries[s.key := Bumped(entry, s)];
    var all := samples + [s];
    EntryForFits(entries, samples, s);
    EntryGrows(samples, s, s.key, entry, Bumped(entry, s));
    forall k | k in entries'
      ensures IsEntryOf(k, entries'[k], all)
    {
      if k != s.key {
        OtherEntryStays(samples, s, k, entries[k]);
      }
    }
    forall x | x in all
      ensures x.key in entries' && entries'[x.key].bucket == x.bucket
    {
      assert x in samples || x == s;
    }
  }

  function Alphabetical(): (string, string) -> bool {
    (a: string, b: string) => StringLe(a, b)
  }

  lemma AlphabeticalIsTotal()
    ensures TotalPreorder(Alphabetical())
  {
    forall a, b
      ensures Alphabetical()(a, b) || Alphabetical()(b, a)
    {
      StringLeTotal(a, b);
    }
    forall a, b, c | Alphabetical()(a, b) && Alphabetical()(b, c)
      ensures Alphabetical()(a, c)
    {
      StringLeTransitive(a, b, c);
    }
  }

  lemma SortedKeys(entries: map<string, AggregateRow>, keys: seq<string>)
    requires exists order :: Enumerates(order, entries) && keys == StableSort(order, Alphabetical())
    ensures Enumerates(keys, entries) && SortedBy(keys, Alphabetical())
  {
    var order :| Enumerates(order, entries) && keys == StableSort(order, Alphabetical());
    AlphabeticalIsTotal();
    StableSortMultiset(order, Alphabetical());
    StableSortOrders(order, Alphabetical());
    DistinctMultiset(order, keys);
  }

  lemma {:induction false} FilterSplits<T>(s: seq<T>, p: T -> bool, q: T -> bool)
    requires forall x :: x in s ==> p(x) != q(x)
    ensures |s| == |Filter(s, p)| + |Filter(s, q)|
  {
    if s != [] {
      FilterSplits(s[1..], p, q);
    }
  }

  function NotInBucket(bucket: Bucket): Sample -> bool {
    (s: Sample) => s.bucket != bucket
  }

  lemma {:induction false} FilterTwice(samples: seq<Sample>, bucket: Bucket, other: Bucket)
    requires bucket != other
    ensures Filter(Filter(samples, NotInBucket(other)), InBucket(bucket)) == Filter(samples, InBucket(bucket))
  {
    if samples != [] {
      FilterTwice(samples[1..], bucket, other);
      if samples[0].bucket != other {
        FilterConcat([samples[0]], Filter(samples[1..], NotInBucket(other)), InBucket(bucket));
      }
    }
  }

  /** Groups with different buckets that cover all samples have counts adding up to the number of samples. */
  lemma {:induction false} CountsAddUp(rows: seq<AggregateRow>, samples: seq<Sample>)
    requires forall i, j :: 0 <= i < j < |rows| ==> rows[i].bucket != rows[j].bucket
    requires forall s :: s in samples ==> exists i :: 0 <= i < |rows| && rows[i].bucket == s.bucket
    requires forall i :: 0 <= i < |rows| ==> rows[i].count == |Filter(samples, InBucket(rows[i].bucket))|
    ensures SumCounts(rows) == |samples|
  {
    assert |samples| > 0 ==> samples[0] in samples;
    if rows != [] {
      var b := rows[0].bucket;
      var rest := Filter(samples, NotInBucket(b));
      FilterMembers(samples, NotInBucket(b));
      FilterSplits(samples, InBucket(b), NotInBucket(b));
      forall i | 0 <= i < |rows| - 1
        ensures rows[1..][i].count == |Filter(rest, InBucket(rows[1..][i].bucket))|
      {
        FilterTwice(samples, rows[i + 1].bucket, b);
      }
      forall s | s in rest
        ensures exists i :: 0 <= i < |rows[1..]| && rows[1..][i].bucket == s.bucket
      {
        assert s in samples;
        var i :| 0 <= i < |rows| && rows[i].bucket == s.bucket;
        assert rows[1..][i - 1] == rows[i];
      }
      CountsAddUp(rows[1..], rest);
    }
  }

  lemma EntryIsRow(key: string, entry: AggregateRow, samples: seq<Sample>)
    requires KeysMatchBuckets(samples) && IsEntryOf(key, entry, samples)
    ensures IsRowOf(entry, samples)
    ensures forall s :: s in samples ==> (s.key == key <==> s.bucket == entry.bucket)
  {
    FilterExtensional(samples, WithKey(key), InBucket(entry.bucket));
  }

  /** The groups listed by their keys. */
  ghost predicate Listed(entries: map<string, AggregateRow>, keys: seq<string>, rows: seq<AggregateRow>) {
    && Enumerates(keys, entries) && SortedBy(keys, Alphabetical())
    && |rows| == |keys| && forall j :: 0 <= j < |keys| ==> keys[j] in entries && rows[j] == entries[keys[j]]
  }

  lemma ListedRowsAreRows(entries: map<string, AggregateRow>, samples: seq<Sample>, keys: seq<string>, rows: seq<AggregateRow>, i: nat)
    requires GroupsOf(entries, samples) && Listed(entries, keys, rows) && i < |rows|
    ensures IsRowOf(rows[i], samples)
    ensures forall s :: s in samples ==> (s.key == keys[i] <==> s.bucket == rows[i].bucket)
    ensures exists s :: s in samples && s.key == keys[i] && s.bucket == rows[i].bucket
  {
    assert IsEntryOf(keys[i], entries[keys[i]], samples);
    EntryIsRow(keys[i], entries[keys[i]], samples);
  }

  lemma ListedBucketsDiffer(entries: map<string, AggregateRow>, samples: seq<Sample>, keys: seq<string>, rows: seq<AggregateRow>, i: nat, j: nat)
    requires GroupsOf(entries, samples) && Listed(entries, keys, rows) && i < j < |rows|
    ensures rows[i].bucket != rows[j].bucket
  {
    ListedRowsAreRows(entries, samples, keys, rows, i);
    ListedRowsAreRows(entries, samples, keys, rows, j);
    assert keys[i] != keys[j];
  }

  lemma ListedRowsAscend(entries: map<string, AggregateRow>, samples: seq<Sample>, keys: seq<string>, rows: seq<AggregateRow>, a: Sample, b: Sample, i: nat, j: nat)
    requires GroupsOf(entries, samples) && Listed(entries, keys, rows) && i < j < |rows|
    requires a in samples && b in samples && a.bucket == rows[i].bucket && b.bucket == rows[j].bucket
    ensures StringLe(a.key, b.key)
  {
    ListedRowsAreRows(entries, samples, keys, rows, i);
    ListedRowsAreRows(entries, samples, keys, rows, j);
    assert Alphabetical()(keys[i], keys[j]);
  }

  lemma ListedRowsCover(entries: map<string, AggregateRow>, samples: seq<Sample>, keys: seq<string>, rows: seq<AggregateRow>, s: Sample)
    requires GroupsOf(entries, samples) && Listed(entries, keys, rows) && s in samples
    ensures exists i :: 0 <= i < |rows| && rows[i].bucket == s.bucket
  {
    assert s.key in keys;
    var i :| 0 <= i < |keys| && keys[i] == s.key;
    assert rows[i].bucket == s.bucket;
  }

  lemma ListedRowsAddUp(entries: map<string, AggregateRow>, samples: seq<Sample>, keys: seq<string>, rows: seq<AggregateRow>)
    requires GroupsOf(entries, samples) && Listed(entries, keys, rows)
    ensures SumCounts(rows) == |samples|
  {
    forall i | 0 <= i < |rows|
      ensures rows[i].count == |Filter(samples, InBucket(rows[i].bucket))|
    {
      ListedRowsAreRows(entries, samples, keys, rows, i);
    }
    forall i, j | 0 <= i < j < |rows|
      ensures rows[i].bucket != rows[j].bucket
    {
      ListedBucketsDiffer(entries, samples, keys, rows, i, j);
    }
    forall s | s in samples
      ensures exists i :: 0 <= i < |rows| && rows[i].bucket == s.bucket
    {
      ListedRowsCover(entries, samples, keys, rows, s);
    }
    CountsAddUp(rows, samples);
  }

  lemma EntriesMakeAGrouping(entries: map<string, AggregateRow>, samples: seq<Sample>, keys: seq<string>, rows: seq<AggregateRow>)
    requires GroupsOf(entries, samples) && Listed(entries, keys, rows)
    ensures IsGrouping(rows, samples)
  {
    forall i | 0 <= i < |rows|
      ensures IsRowOf(rows[i], samples)
    {
      ListedRowsAreRows(entries, samples, keys, rows, i);
    }
    forall i, j | 0 <= i < j < |rows|
      ensures rows[i].bucket != rows[j].bucket
    {
      ListedBucketsDiffer(entries, samples, keys, rows, i, j);
    }
    forall s | s in samples
      ensures exists i :: 0 <= i < |rows| && rows[i].bucket == s.bucket
    {
      ListedRowsCover(entries, samples, keys, rows, s);
    }
    forall a, b, i, j | a in samples && b in samples && 0 <= i < j < |rows| && a.bucket == rows[i].bucket && b.bucket == rows[j].bucket
      ensures StringLe(a.key, b.key)
    {
      ListedRowsAscend(entries, samples, keys, rows, a, b, i, j);
    }
    ListedRowsAddUp(entries, samples, keys, rows);
  }
}
