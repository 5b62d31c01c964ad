/** Importing an exported tree restores the exported workflows exactly, and when it can fail. */
module RoundTrip {
  import opened Types
  import opened Sequences
  import opened StoreSpec
  import opened Transfer
  import opened Import

  // ----- agreement of two stores on one workflow -----

  ghost predicate SameSteps(a: Steps, b: Steps, id: string) {
    forall n :: ((id, n) in a <==> (id, n) in b) && ((id, n) in a ==> a[(id, n)] == b[(id, n)])
  }

  ghost predicate SameEvents(a: Events, b: Events, id: string) {
    forall k :: ((id, k) in a <==> (id, k) in b) && ((id, k) in a ==> a[(id, k)] == b[(id, k)])
  }

  ghost predicate SameStreams(a: Streams, b: Streams, id: string) {
    forall k :: StreamOf(a, id, k) == StreamOf(b, id, k)
  }

  ghost predicate SameMessages(a: seq<WorkflowMessage>, b: seq<WorkflowMessage>, id: string) {
    Filter(a, AddressedTo(id)) == Filter(b, AddressedTo(id))
  }

  ghost predicate SameData(a: Store, b: Store, id: string) {
    && SameSteps(a.steps, b.steps, id)
    && SameEvents(a.events, b.events, id)
    && SameStreams(a.streams, b.streams, id)
    && SameMessages(a.messages, b.messages, id)
  }

  /** The two stores hold the same row, steps, events, stream entries and messages of a workflow. */
  ghost predicate SameOn(a: Store, b: Store, id: string) {
    SameRow(a.workflows, b.workflows, id) && SameData(a, b, id)
  }

  ghost predicate NothingOf(s: Store, id: string) {
    SameOn(s, EMPTY_STORE, id)
  }

  /** Stream entries carry their position as offset, as a single writer leaves them. */
  ghost predicate OffsetsAreIndices(streams: Streams) {
    forall k, i :: k in streams && 0 <= i < |streams[k]| ==> streams[k][i].offset == i
  }

  /** The messages to each workflow were sent in the order of their time stamps. */
  ghost predicate MessagesInOrder(messages: seq<WorkflowMessage>) {
    forall id :: SortedBy(Filter(messages, AddressedTo(id)), MessageOrder())
  }

  // ----- one node -----

  lemma {:induction false} StepsRestored(source: Steps, steps: Steps, id: string, l: seq<StepInfo>, done: nat)
    requires IsStepList(source, id, l) && done <= |l|
    requires forall k :: k in source ==> k == (source[k].workflowId, source[k].stepId)
    ensures var (steps', ok) := ImportSteps(steps, id, l[done..]);
            && ok
            && (forall other :: other != id ==> SameSteps(steps', steps, other))
            && (forall n :: (exists i :: done <= i < |l| && l[i].stepId == n) ==> (id, n) in source && (id, n) in steps' && steps'[(id, n)] == source[(id, n)])
            && (forall n :: !(exists i :: done <= i < |l| && l[i].stepId == n) ==> ((id, n) in steps' <==> (id, n) in steps) && ((id, n) in steps ==> steps'[(id, n)] == steps[(id, n)]))
    decreases |l| - done
  {
    if done < |l| {
      assert l[done] in l;
      assert l[done..][1..] == l[done + 1..];
      var steps1 := RecordStep(steps, l[done]);
      StepsRestored(source, steps1, id, l, done + 1);
      forall other | other != id
        ensures SameSteps(ImportSteps(steps, id, l[done..]).0, steps, other)
      {
        assert SameSteps(ImportSteps(steps1, id, l[done + 1..]).0, steps1, other);
      }
    }
  }

  lemma NodeSteps(source: Steps, steps: Steps, id: string, l: seq<StepInfo>)
    requires IsStepList(source, id, l) && SameSteps(steps, map[], id)
    requires forall k :: k in source ==> k == (source[k].workflowId, source[k].stepId)
    ensures var (steps', ok) := ImportSteps(steps, id, l);
            ok && SameSteps(steps', source, id) && forall other :: other != id ==> SameSteps(steps', steps, other)
  {
    StepsRestored(source, steps, id, l, 0);
    assert l[0..] == l;
    forall n
      ensures (id, n) in source <==> exists i :: 0 <= i < |l| && l[i].stepId == n
    {
      if (id, n) in source {
        assert source[(id, n)] in l;
      }
      if i :| 0 <= i < |l| && l[i].stepId == n {
        assert l[i] in l;
      }
    }
  }

  lemma {:induction false} EventsRestored(source: Events, events: Events, id: string, l: seq<WorkflowEvent>, done: nat)
    requires IsEventList(source, id, l) && done <= |l|
    requires forall k :: k in source ==> k == (source[k].workflowId, source[k].key)
    ensures var (events', ok) := ImportEvents(events, id, l[done..]);
            && ok
            && (forall other :: other != id ==> SameEvents(events', events, other))
            && (forall k :: (exists i :: done <= i < |l| && l[i].key == k) ==> (id, k) in source && (id, k) in events' && events'[(id, k)] == source[(id, k)])
            && (forall k :: !(exists i :: done <= i < |l| && l[i].key == k) ==> ((id, k) in events' <==> (id, k) in events) && ((id, k) in events ==> events'[(id, k)] == events[(id, k)]))
    decreases |l| - done
  {
    if done < |l| {
      assert l[done] in l;
      assert l[done..][1..] == l[done + 1..];
      var events1 := SetEvent(events, l[done]);
      EventsRestored(source, events1, id, l, done + 1);
      forall other | other != id
        ensures SameEvents(ImportEvents(events, id, l[done..]).0, events, other)
      {
        assert SameEvents(ImportEvents(events1, id, l[done + 1..]).0, events1, other);
      }
    }
  }

  lemma NodeEvents(source: Events, events: Events, id: string, l: seq<WorkflowEvent>)
    requires IsEventList(source, id, l) && SameEvents(events, map[], id)
    requires forall k :: k in source ==> k == (source[k].workflowId, source[k].key)
    ensures var (events', ok) := ImportEvents(events, id, l);
            ok && SameEvents(events', source, id) && forall other :: other != id ==> SameEvents(events', events, other)
  {
    EventsRestored(source, events, id, l, 0);
    assert l[0..] == l;
    forall k
      ensures (id, k) in source <==> exists i :: 0 <= i < |l| && l[i].key == k
    {
      if (id, k) in source {
        assert source[(id, k)] in l;
      }
      if i :| 0 <= i < |l| && l[i].key == k {
        assert l[i] in l;
      }
    }
  }

  lemma EntryAppended(streams: Streams, id: string, l: seq<StreamEntry>, k: string)
    requires l != [] && l[0].workflowId == id
    ensures StreamOf(WriteStream(streams, l[0]), id, k) + Filter(l[1..], WithKey(k)) == StreamOf(streams, id, k) + Filter(l, WithKey(k))
  {
    assert StreamOf(WriteStream(streams, l[0]), id, k) == StreamOf(streams, id, k) + if l[0].key == k then [l[0]] else [];
  }

  lemma {:induction false} StreamsAppended(streams: Streams, id: string, l: seq<StreamEntry>)
    requires forall e :: e in l ==> e.workflowId == id
    ensures var (streams', ok) := ImportStreams(streams, id, l);
            && ok
            && (forall other :: other != id ==> SameStreams(streams', streams, other))
            && (forall k :: StreamOf(streams', id, k) == StreamOf(streams, id, k) + Filter(l, WithKey(k)))
    decreases |l|
  {
    if l != [] {
      var streams1 := WriteStream(streams, l[0]);
      StreamsAppended(streams1, id, l[1..]);
      forall k
        ensures StreamOf(streams1, id, k) + Filter(l[1..], WithKey(k)) == StreamOf(streams, id, k) + Filter(l, WithKey(k))
      {
        EntryAppended(streams, id, l, k);
      }
      forall other | other != id
        ensures SameStreams(ImportStreams(streams, id, l).0, streams, other)
      {
        assert SameStreams(ImportStreams(streams1, id, l[1..]).0, streams1, other);
      }
    }
  }

  predicate IsEntryOf(streams: Streams, id: string, e: StreamEntry) {
    e in StreamOf(streams, id, e.key)
  }

  ghost predicate StreamsWellKeyed(streams: Streams) {
    forall k, i :: k in streams && 0 <= i < |streams[k]| ==> k == (streams[k][i].workflowId, streams[k][i].key)
  }

  /** The flattened entries of a workflow are its stream entries, once each. */
  lemma {:induction false} FlattenedEntries(streams: Streams, id: string, keys: seq<(string, string)>)
    requires OffsetsAreIndices(streams) && StreamsWellKeyed(streams) && Distinct(keys)
    requires forall k :: k in keys ==> k in streams
    ensures forall e :: e in EntriesOf(streams, id, keys) <==> (id, e.key) in keys && IsEntryOf(streams, id, e)
    ensures Distinct(EntriesOf(streams, id, keys))
  {
    if keys != [] {
      FlattenedEntries(streams, id, keys[1..]);
      var rest := EntriesOf(streams, id, keys[1..]);
      assert keys[0] !in keys[1..];
      if keys[0].0 == id {
        var first := StreamOf(streams, id, keys[0].1);
        assert keys[0] == (id, keys[0].1);
        assert forall e :: e in first ==> e.key == keys[0].1;
        forall i, j | 0 <= i < j < |first + rest|
          ensures (first + rest)[i] != (first + rest)[j]
        {
          if j < |first| {
            assert first[i].offset == i && first[j].offset == j;
          } else if i < |first| {
            assert first[i] in first && rest[j - |first|] in rest;
          }
        }
      } else {
        assert EntriesOf(streams, id, keys) == rest;
      }
    }
  }

  /** The listing holds the stream entries of the workflow, once each, in order. */
  lemma ListedEntries(streams: Streams, id: string, l: seq<StreamEntry>)
    requires OffsetsAreIndices(streams) && StreamsWellKeyed(streams) && IsStreamList(streams, id, l)
    ensures Distinct(l) && SortedBy(l, StreamOrder())
    ensures forall e :: e in l <==> IsEntryOf(streams, id, e)
    ensures forall e :: e in l ==> e.workflowId == id
  {
    var keys :| Enumerates(keys, streams) && l == StableSort(EntriesOf(streams, id, keys), StreamOrder());
    var flat := EntriesOf(streams, id, keys);
    FlattenedEntries(streams, id, keys);
    StreamOrderIsTotal();
    StableSortMultiset(flat, StreamOrder());
    StableSortOrders(flat, StreamOrder());
    DistinctMultiset(flat, l);
  }

  lemma StreamIsInOrder(streams: Streams, id: string, key: string)
    requires OffsetsAreIndices(streams) && StreamsWellKeyed(streams)
    ensures var s := StreamOf(streams, id, key);
            Distinct(s) && SortedBy(s, StreamOrder()) && forall e :: e in s <==> e.key == key && IsEntryOf(streams, id, e)
  {
    var s := StreamOf(streams, id, key);
    assert forall i :: 0 <= i < |s| ==> s[i].key == key && s[i].offset == i;
  }

  lemma SameOffsetSameEntry(streams: Streams, id: string, key: string, x: StreamEntry, y: StreamEntry)
    requires OffsetsAreIndices(streams) && x in StreamOf(streams, id, key) && y in StreamOf(streams, id, key)
    ensures x.offset == y.offset ==> x == y
  {
  }

  /** The listing, cut back to one key, is that stream. */
  lemma ListedStream(streams: Streams, id: string, l: seq<StreamEntry>, key: string)
    requires OffsetsAreIndices(streams) && StreamsWellKeyed(streams) && IsStreamList(streams, id, l)
    ensures Filter(l, WithKey(key)) == StreamOf(streams, id, key)
  {
    ListedEntries(streams, id, l);
    FilterDistinct(l, WithKey(key));
    FilterSorted(l, WithKey(key), StreamOrder());
    FilterMembers(l, WithKey(key));
    StreamIsInOrder(streams, id, key);
    var got := Filter(l, WithKey(key));
    var want := StreamOf(streams, id, key);
    assert forall e :: e in got <==> e in want;
    forall x, y | x in got && y in got && StreamOrder()(x, y) && StreamOrder()(y, x)
      ensures x == y
    {
      assert x in want && y in want && x.key == y.key && x.offset == y.offset;
      SameOffsetSameEntry(streams, id, key, x, y);
    }
    SortedUnique(got, want, StreamOrder());
  }

  lemma NodeStreams(source: Streams, streams: Streams, id: string, l: seq<StreamEntry>)
    requires OffsetsAreIndices(source) && StreamsWellKeyed(source) && IsStreamList(source, id, l)
    requires SameStreams(streams, map[], id)
    ensures var (streams', ok) := ImportStreams(streams, id, l);
            ok && SameStreams(streams', source, id) && forall other :: other != id ==> SameStreams(streams', streams, other)
  {
    ListedEntries(source, id, l);
    StreamsAppended(streams, id, l);
    var streams' := ImportStreams(streams, id, l).0;
    forall k
      ensures StreamOf(streams', id, k) == StreamOf(source, id, k)
    {
      ListedStream(source, id, l, k);
      assert StreamOf(streams, id, k) == [];
    }
  }

  lemma {:induction false} MessagesAppended(messages: seq<WorkflowMessage>, id: string, l: seq<WorkflowMessage>)
    requires forall m :: m in l ==> m.destinationId == id
    ensures ImportMessages(messages, id, l) == (messages + l, true)
    decreases |l|
  {
    if l == [] {
      assert messages + l == messages;
    } else {
      MessagesAppended(messages + [l[0]], id, l[1..]);
      assert messages + [l[0]] + l[1..] == messages + l;
    }
  }

  lemma NodeMessages(source: seq<WorkflowMessage>, messages: seq<WorkflowMessage>, id: string)
    requires MessagesInOrder(source) && SameMessages(messages, [], id)
    ensures var (messages', ok) := ImportMessages(messages, id, ListMessages(source, id));
            ok && SameMessages(messages', source, id) && forall other :: other != id ==> SameMessages(messages', messages, other)
  {
    var l := Filter(source, AddressedTo(id));
    SortingSortedIsIdentity(l, MessageOrder());
    FilterMembers(source, AddressedTo(id));
    MessagesAppended(messages, id, l);
    FilterConcat(messages, l, AddressedTo(id));
    FilterAll(l, AddressedTo(id));
    forall other | other != id
      ensures SameMessages(messages + l, messages, other)
    {
      FilterConcat(messages, l, AddressedTo(other));
      FilterNone(l, AddressedTo(other));
    }
  }

  ghost predicate Exportable(source: Store) {
    WellKeyed(source) && OffsetsAreIndices(source.streams) && MessagesInOrder(source.messages)
  }

  lemma DataRestored(source: Store, t: Store, id: string, x: Export)
    requires Exportable(source) && IsExportOfOne(source, id, x) && SameData(t, EMPTY_STORE, id)
    ensures var (t', ok) := ImportData(t, id, x);
            && ok && t'.workflows == t.workflows
            && SameData(t', source, id) && forall other :: other != id ==> SameData(t', t, other)
  {
    NodeSteps(source.steps, t.steps, id, x.steps);
    NodeEvents(source.events, t.events, id, x.events);
    NodeStreams(source.streams, t.streams, id, x.streams);
    NodeMessages(source.messages, t.messages, id);
  }

  /** One node: refused exactly when its slot is taken, otherwise its workflow becomes as in the source. */
  lemma NodeRestored(source: Store, t: Store, id: string, x: Export)
    requires Exportable(source) && IsExportOfOne(source, id, x) && NothingOf(t, id)
    ensures var (t', e) := ImportNode(t, x);
            && (e.None? <==> !SlotTaken(t.workflows, x.workflow))
            && (e.None? ==> t'.workflows == t.workflows[id := x.workflow])
            && (e.None? ==> SameOn(t', source, id) && forall other :: other != id ==> SameOn(t', t, other))
  {
    var t1 := t.(workflows := t.workflows[id := x.workflow]);
    DataRestored(source, t1, id, x);
    var t' := ImportData(t1, id, x).0;
    assert SameOn(t', source, id);
    forall other | other != id
      ensures SameOn(t', t, other)
    {
      assert SameData(t', t1, other);
    }
  }

  // ----- the whole tree -----

  /** Inserting the rows one after the other, none finds its slot held by an unfinished row. */
  predicate Admits(rows: Rows, l: seq<WorkflowStatus>)
    decreases |l|
  {
    l == [] || (!SlotTaken(rows, l[0]) && Admits(rows[l[0].id := l[0]], l[1..]))
  }

  function AddAll(rows: Rows, l: seq<WorkflowStatus>): Rows
    decreases |l|
  {
    if l == [] then rows else AddAll(rows[l[0].id := l[0]], l[1..])
  }

  lemma AddOne(rows: Rows, w: WorkflowStatus)
    ensures AddAll(rows, [w]) == rows[w.id := w]
    ensures Admits(rows, [w]) <==> !SlotTaken(rows, w)
  {
    assert [w][1..] == [];
  }

  lemma {:induction false} AdmitsConcat(rows: Rows, a: seq<WorkflowStatus>, b: seq<WorkflowStatus>)
    ensures Admits(rows, a + b) <==> Admits(rows, a) && Admits(AddAll(rows, a), b)
    ensures AddAll(rows, a + b) == AddAll(AddAll(rows, a), b)
    decreases |a|
  {
    if a == [] {
      assert a + b == b;
    } else {
      AdmitsConcat(rows[a[0].id := a[0]], a[1..], b);
      assert (a + b)[1..] == a[1..] + b;
    }
  }

  /** `t'` holds the workflows `ids` as `source` does and all others as `t` does. */
  ghost predicate Restored(source: Store, t: Store, t': Store, ids: set<string>) {
    forall id :: SameOn(t', if id in ids then source else t, id)
  }

  lemma SameOnTransitive(a: Store, b: Store, c: Store, id: string)
    requires SameOn(a, b, id) && SameOn(b, c, id)
    ensures SameOn(a, c, id)
  {
    assert SameSteps(a.steps, c.steps, id);
    assert SameEvents(a.events, c.events, id);
    assert SameStreams(a.streams, c.streams, id);
  }

  lemma RestoredTwice(source: Store, t: Store, t1: Store, t2: Store, ids1: set<string>, ids2: set<string>)
    requires Restored(source, t, t1, ids1) && Restored(source, t1, t2, ids2)
    ensures Restored(source, t, t2, ids1 + ids2)
  {
    forall id
      ensures SameOn(t2, if id in ids1 + ids2 then source else t, id)
    {
      if id !in ids2 {
        SameOnTransitive(t2, t1, if id in ids1 then source else t, id);
      }
    }
  }

  /** What the import of the rows `l` comes to, starting from `t`. */
  ghost predicate Restores(source: Store, t: Store, t': Store, e: Option<DbosError>, l: seq<WorkflowStatus>) {
    && (e.None? <==> Admits(t.workflows, l))
    && (e.None? ==> t'.workflows == AddAll(t.workflows, l) && Restored(source, t, t', IdsIn(l)))
  }

  ghost predicate NothingOfAny(t: Store, ids: set<string>) {
    forall id :: id in ids ==> NothingOf(t, id)
  }

  lemma StillNothing(source: Store, t: Store, t1: Store, ids: set<string>, rest: set<string>)
    requires Restored(source, t, t1, ids) && NothingOfAny(t, rest) && ids !! rest
    ensures NothingOfAny(t1, rest)
  {
    forall id | id in rest
      ensures NothingOf(t1, id)
    {
      SameOnTransitive(t1, t, EMPTY_STORE, id);
    }
  }

  lemma SequenceRestores(source: Store, t: Store, t1: Store, t2: Store, e1: Option<DbosError>, e2: Option<DbosError>, a: seq<WorkflowStatus>, b: seq<WorkflowStatus>)
    requires Restores(source, t, t1, e1, a)
    requires e1.None? ==> Restores(source, t1, t2, e2, b)
    requires e1.Some? ==> e2.Some?
    ensures Restores(source, t, t2, e2, a + b)
  {
    AdmitsConcat(t.workflows, a, b);
    assert IdsIn(a + b) == IdsIn(a) + IdsIn(b);
    if e2.None? {
      RestoredTwice(source, t, t1, t2, IdsIn(a), IdsIn(b));
    }
  }

  lemma {:induction false} TreeRestored(source: Store, t: Store, x: Export, deep: bool)
    requires Exportable(source) && IsExport(source, x.workflow.id, x, deep) && DistinctIds(Preorder(x))
    requires NothingOfAny(t, IdsIn(Preorder(x)))
    ensures Restores(source, t, ImportTree(t, x).0, ImportTree(t, x).1, Preorder(x))
    decreases x, 0
  {
    var id := x.workflow.id;
    DistinctIdsConcat([x.workflow], PreorderAll(x.children));
    assert x.workflow in Preorder(x);
    NodeRestored(source, t, id, x);
    var (t1, e1) := ImportNode(t, x);
    assert IdsIn([x.workflow]) == {id};
    AddOne(t.workflows, x.workflow);
    assert Restores(source, t, t1, e1, [x.workflow]);
    if e1.None? {
      assert IdsIn(PreorderAll(x.children)) <= IdsIn(Preorder(x));
      StillNothing(source, t, t1, {id}, IdsIn(PreorderAll(x.children)));
      AllRestored(source, t1, x.children, deep);
    }
    SequenceRestores(source, t, t1, ImportTree(t, x).0, e1, ImportTree(t, x).1, [x.workflow], PreorderAll(x.children));
  }

  lemma {:induction false} AllRestored(source: Store, t: Store, xs: seq<Export>, deep: bool)
    requires Exportable(source) && DistinctIds(PreorderAll(xs))
    requires forall i :: 0 <= i < |xs| ==> IsExport(source, xs[i].workflow.id, xs[i], deep)
    requires NothingOfAny(t, IdsIn(PreorderAll(xs)))
    ensures Restores(source, t, ImportAll(t, xs).0, ImportAll(t, xs).1, PreorderAll(xs))
    decreases xs, 1
  {
    if xs == [] {
      assert IdsIn(PreorderAll(xs)) == {};
      assert forall id :: SameOn(t, t, id);
    } else {
      var first, rest := Preorder(xs[0]), PreorderAll(xs[1..]);
      DistinctIdsConcat(first, rest);
      assert IdsIn(PreorderAll(xs)) == IdsIn(first) + IdsIn(rest);
      TreeRestored(source, t, xs[0], deep);
      var (t1, e1) := ImportTree(t, xs[0]);
      if e1.None? {
        StillNothing(source, t, t1, IdsIn(first), IdsIn(rest));
        AllRestored(source, t1, xs[1..], deep);
      }
      SequenceRestores(source, t, t1, ImportAll(t, xs).0, e1, ImportAll(t, xs).1, first, rest);
    }
  }

  /** Every row finds its slot free both among the rows already there and among the rows before it. */
  ghost predicate NoSlotClash(rows: Rows, l: seq<WorkflowStatus>) {
    && (forall j :: 0 <= j < |l| ==> !SlotTaken(rows, l[j]))
    && (forall i, j :: 0 <= i < j < |l| ==> !HoldsSlotOf(l[i], l[j]))
  }

  lemma {:induction false} AdmitsIffNoSlotClash(rows: Rows, l: seq<WorkflowStatus>)
    requires DistinctIds(l) && IdsIn(l) !! rows.Keys
    ensures Admits(rows, l) <==> NoSlotClash(rows, l)
    decreases |l|
  {
    if l != [] {
      var rows1 := rows[l[0].id := l[0]];
      var rest := l[1..];
      assert l == [l[0]] + rest;
      DistinctIdsConcat([l[0]], rest);
      assert IdsIn([l[0]]) == {l[0].id} && IdsIn(l) == {l[0].id} + IdsIn(rest);
      AdmitsIffNoSlotClash(rows1, rest);
      forall w
        ensures SlotTaken(rows1, w) <==> SlotTaken(rows, w) || HoldsSlotOf(l[0], w)
      {
        assert l[0].id !in rows && rows1[l[0].id] == l[0];
        if id :| id in rows && HoldsSlotOf(rows[id], w) {
          assert rows1[id] == rows[id];
        }
      }
      assert forall j :: 0 < j < |l| ==> l[j] == rest[j - 1];
      assert forall j :: 0 <= j < |rest| ==> rest[j] == l[j + 1];
    }
  }

  /** Importing an export into a store that has nothing of its workflows succeeds exactly when no row, in the
      order of insertion, asks for a slot that an unfinished earlier row or a row already there holds. On success
      every workflow of the tree is as in the source and every other one as before. */
  lemma ImportRestoresTheExport(source: Store, id: string, x: Export, deep: bool, t: Store)
    requires Exportable(source) && Acyclic(source.workflows) && IsExport(source, id, x, deep)
    requires NothingOfAny(t, IdsIn(Preorder(x)))
    ensures var (t', e) := ImportTree(t, x);
            && (e.None? <==> NoSlotClash(t.workflows, Preorder(x)))
            && (e.None? ==> Restored(source, t, t', if deep then Descendants(source.workflows, id) else {id}))
  {
    ExportHasDistinctIds(source, id, x, deep);
    TreeRestored(source, t, x, deep);
    if deep {
      ExportHoldsTheDescendants(source, id, x);
    } else {
      assert IdsIn(Preorder(x)) == {id};
    }
    assert IdsIn(Preorder(x)) !! t.workflows.Keys by {
      forall d | d in IdsIn(Preorder(x))
        ensures d !in t.workflows
      {
        assert NothingOf(t, d);
      }
    }
    AdmitsIffNoSlotClash(t.workflows, Preorder(x));
  }
}
