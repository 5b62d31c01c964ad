/** The atomic calls of the system database as functions of the store's contents. */
module StoreSpec {
  import opened Types
  import opened Sequences
  import opened Listing
  import opened RowChanges

  type Rows = map<string, WorkflowStatus>

  datatype Store = Store(
    workflows: Rows,
    steps: map<(string, int), StepInfo>,
    messages: seq<WorkflowMessage>,
    events: map<(string, string), WorkflowEvent>,
    streams: map<(string, string), seq<StreamEntry>>)

  const EMPTY_STORE := Store(map[], map[], [], map[], map[])

  /** Every entry sits under the key that its own fields spell. */
  ghost predicate WellKeyed(s: Store) {
    && (forall id :: id in s.workflows ==> s.workflows[id].id == id)
    && (forall k :: k in s.steps ==> k == (s.steps[k].workflowId, s.steps[k].stepId))
    && (forall k :: k in s.events ==> k == (s.events[k].workflowId, s.events[k].key))
    && (forall k, i :: k in s.streams && 0 <= i < |s.streams[k]| ==> k == (s.streams[k][i].workflowId, s.streams[k][i].key))
  }

  // ----- workflow rows -----

  function RowsInOrder(rows: Rows, ids: seq<string>): seq<WorkflowStatus>
    requires forall id :: id in ids ==> id in rows
  {
    seq(|ids|, i requires 0 <= i < |ids| => rows[ids[i]])
  }

  predicate SameIdentity(existing: WorkflowStatus, requested: WorkflowStatus) {
    existing.name == requested.name && existing.input == requested.input
  }

  /** Accepts a repeated invocation only when name and input agree with the row already stored. */
  function EnsureWorkflowIdentityMatches(existing: WorkflowStatus, requested: WorkflowStatus): Result<WorkflowInsertResult> {
    if SameIdentity(existing, requested) then Ok(ExistingExact) else Err(ConflictingWorkflow(requested.id))
  }

  /** `item` is unfinished and holds the (queue, deduplication id) pair that `w` asks for. */
  predicate HoldsSlotOf(item: WorkflowStatus, w: WorkflowStatus) {
    && w.queueName.Some? && w.deduplicationId.Some?
    && item.queueName == w.queueName && item.deduplicationId == w.deduplicationId
    && !item.status.IsTerminal()
  }

  predicate SlotTaken(rows: Rows, w: WorkflowStatus) {
    exists id | id in rows :: HoldsSlotOf(rows[id], w)
  }

  /** `checkSlot` is true for the in-memory store; the SQL stores do not look at deduplication ids. */
  function InsertWorkflow(rows: Rows, w: WorkflowStatus, checkSlot: bool): (Rows, Result<WorkflowInsertResult>) {
    if w.id in rows then (rows, EnsureWorkflowIdentityMatches(rows[w.id], w))
    else if checkSlot && SlotTaken(rows, w) then (rows, Err(QueueDeduplicated(w.queueName.value, w.deduplicationId.value)))
    else (rows[w.id := w], Ok(Inserted))
  }

  predicate Claimable(w: WorkflowStatus) {
    (w.status == Pending || w.status == Enqueued) && w.executorId.None?
  }

  function ClaimedRow(w: WorkflowStatus, executor: string, execution: string, now: Time): WorkflowStatus {
    w.(status := Pending, executorId := Some(executor), executionId := Some(execution), updatedAt := now)
  }

  function ClaimWorkflowExecution(rows: Rows, id: string, executor: string, execution: string, now: Time): (Rows, bool) {
    if id !in rows then (rows, false)
    else if rows[id].executionId == Some(execution) then (rows, true)
    else if !Claimable(rows[id]) then (rows, false)
    else (rows[id := ClaimedRow(rows[id], executor, execution, now)], true)
  }

  function GetWorkflow(rows: Rows, id: string): Option<WorkflowStatus> {
    if id in rows then Some(rows[id]) else None
  }

  /** `save_workflow` overwrites blindly. */
  function SaveWorkflow(rows: Rows, w: WorkflowStatus): Rows {
    rows[w.id := w]
  }

  function DeleteWorkflows(s: Store, ids: set<string>): Store {
    Store(s.workflows - ids,
          map k | k in s.steps && k.0 !in ids :: s.steps[k],
          Filter(s.messages, NotFor(ids)),
          map k | k in s.events && k.0 !in ids :: s.events[k],
          map k | k in s.streams && k.0 !in ids :: s.streams[k])
  }

  function NotFor(ids: set<string>): WorkflowMessage -> bool {
    (m: WorkflowMessage) => m.destinationId !in ids
  }

  ghost predicate DistinctIds(listing: seq<WorkflowStatus>) {
    forall i, j :: 0 <= i < j < |listing| ==> listing[i].id != listing[j].id
  }

  lemma RowsInOrderAreTheTable(rows: Rows, order: seq<string>)
    requires Enumerates(order, rows) && (forall w :: w in rows ==> rows[w].id == w)
    ensures var all := RowsInOrder(rows, order);
            Distinct(all) && forall r: WorkflowStatus :: r in all <==> r.id in rows && rows[r.id] == r
  {
    var all := RowsInOrder(rows, order);
    forall r: WorkflowStatus | r.id in rows && rows[r.id] == r
      ensures r in all
    {
      var i :| 0 <= i < |order| && order[i] == r.id;
      assert all[i] == r;
    }
  }

  /** A listing without paging shows exactly the matching rows of the table, once each. */
  lemma ListedRows(rows: Rows, order: seq<string>, o: ListWorkflowsOptions)
    requires Enumerates(order, rows) && (forall w :: w in rows ==> rows[w].id == w)
    requires o.offset.None? && o.limit.None?
    ensures var listing := ListRows(RowsInOrder(rows, order), o);
            && (forall r: WorkflowStatus :: r in listing <==> r.id in rows && rows[r.id] == r && WorkflowMatches(r, o))
            && DistinctIds(listing)
  {
    var all := RowsInOrder(rows, order);
    RowsInOrderAreTheTable(rows, order);
    FilterMembers(all, MatchesOf(o));
    FilterDistinct(all, MatchesOf(o));
    StableSortMultiset(Matching(all, o), Order(o.sortDesc));
    DistinctMultiset(Matching(all, o), Sorted(Matching(all, o), o));
    var listing := ListRows(all, o);
    assert listing == Sorted(Matching(all, o), o);
    forall i, j | 0 <= i < j < |listing|
      ensures listing[i].id != listing[j].id
    {
      assert listing[i] in listing && listing[j] in listing;
    }
  }

  /** `listed` is what a listing shows when the table is iterated in the order `ids`. */
  ghost predicate ListingInOrder(rows: Rows, ids: seq<string>, o: ListWorkflowsOptions, listed: seq<WorkflowStatus>) {
    && Enumerates(ids, rows)
    && var shown := ListRows(RowsInOrder(rows, ids), o);
       |listed| == |shown| && forall i :: 0 <= i < |listed| ==> listed[i] == LoadOptions(shown[i], o)
  }

  ghost predicate Shows(listed: seq<WorkflowStatus>, id: string) {
    exists i :: 0 <= i < |listed| && listed[i].id == id
  }

  /** What a listing shows of a row: inputs and results only if they were asked for, everything else as it is. */
  predicate ShowsRow(w: WorkflowStatus, shown: WorkflowStatus, o: ListWorkflowsOptions) {
    && shown.input == (if o.loadInput then w.input else None)
    && shown.output == (if o.loadOutput then w.output else None) && shown.error == (if o.loadOutput then w.error else None)
    && shown.(input := None, output := None, error := None) == w.(input := None, output := None, error := None)
  }

  /** The whole listing: exactly the rows that pass all filters, once each, by creation time. */
  ghost predicate IsWholeListing(rows: Rows, o: ListWorkflowsOptions, all: seq<WorkflowStatus>) {
    && (forall id :: Shows(all, id) <==> id in rows && PassesAll(rows[id], o))
    && (forall i, j :: 0 <= i < j < |all| ==>
          && all[i].id != all[j].id
          && if o.sortDesc then all[i].createdAt >= all[j].createdAt else all[i].createdAt <= all[j].createdAt)
    && (forall i :: 0 <= i < |all| && all[i].id in rows ==> ShowsRow(rows[all[i].id], all[i], o))
  }

  /** At most `limit` rows, after the first `offset` ones. */
  predicate IsPageOf(all: seq<WorkflowStatus>, offset: Option<nat>, limit: Option<nat>, listed: seq<WorkflowStatus>) {
    var start := if offset.None? then 0 else if offset.value < |all| then offset.value else |all|;
    listed == if limit.Some? && start + limit.value < |all| then all[start..start + limit.value] else all[start..]
  }

  /** A page of the whole listing. */
  ghost predicate IsPageOfMatches(rows: Rows, o: ListWorkflowsOptions, listed: seq<WorkflowStatus>) {
    exists all :: IsWholeListing(rows, o, all) && IsPageOf(all, o.offset, o.limit, listed)
  }

  function Loaded(l: seq<WorkflowStatus>, o: ListWorkflowsOptions): seq<WorkflowStatus> {
    seq(|l|, i requires 0 <= i < |l| => LoadOptions(l[i], o))
  }

  /** `l` holds the rows that match, once each, in the order of the listing. */
  ghost predicate HoldsMatches(rows: Rows, o: ListWorkflowsOptions, l: seq<WorkflowStatus>) {
    && (forall r: WorkflowStatus :: r in l <==> r.id in rows && rows[r.id] == r && WorkflowMatches(r, o))
    && DistinctIds(l)
    && (forall i, j :: 0 <= i < j < |l| ==> Order(o.sortDesc)(l[i], l[j]))
  }

  lemma SortedIsWholeListing(rows: Rows, order: seq<string>, o: ListWorkflowsOptions)
    requires Enumerates(order, rows) && (forall w :: w in rows ==> rows[w].id == w)
    ensures IsWholeListing(rows, o, Loaded(Sorted(Matching(RowsInOrder(rows, order), o), o), o))
  {
    SortedHoldsMatches(rows, order, o);
    LoadedIsWholeListing(rows, Sorted(Matching(RowsInOrder(rows, order), o), o), o);
  }

  lemma SortedHoldsMatches(rows: Rows, order: seq<string>, o: ListWorkflowsOptions)
    requires Enumerates(order, rows) && (forall w :: w in rows ==> rows[w].id == w)
    ensures HoldsMatches(rows, o, Sorted(Matching(RowsInOrder(rows, order), o), o))
  {
    var unpaged := o.(offset := None, limit := None);
    ListedRows(rows, order, unpaged);
    MatchingIgnoresPaging(RowsInOrder(rows, order), o, unpaged);
    StableSortOrders(Matching(RowsInOrder(rows, order), o), Order(o.sortDesc));
    assert Sorted(Matching(RowsInOrder(rows, order), o), o) == ListRows(RowsInOrder(rows, order), unpaged);
  }

  lemma LoadedIsWholeListing(rows: Rows, l: seq<WorkflowStatus>, o: ListWorkflowsOptions)
    requires HoldsMatches(rows, o, l) && (forall w :: w in rows ==> rows[w].id == w)
    ensures IsWholeListing(rows, o, Loaded(l, o))
  {
    forall id
      ensures Shows(Loaded(l, o), id) <==> id in rows && PassesAll(rows[id], o)
    {
      ShownIff(rows, l, o, id);
    }
    LoadedKeepsOrder(l, o);
    LoadedShowsRows(rows, l, o);
  }

  lemma LoadedKeepsOrder(l: seq<WorkflowStatus>, o: ListWorkflowsOptions)
    requires DistinctIds(l) && forall i, j :: 0 <= i < j < |l| ==> Order(o.sortDesc)(l[i], l[j])
    ensures var all := Loaded(l, o);
            forall i, j :: 0 <= i < j < |all| ==>
              && all[i].id != all[j].id
              && if o.sortDesc then all[i].createdAt >= all[j].createdAt else all[i].createdAt <= all[j].createdAt
  {
    forall i, j | 0 <= i < j < |l|
      ensures if o.sortDesc then l[i].createdAt >= l[j].createdAt else l[i].createdAt <= l[j].createdAt
    {
      assert Order(o.sortDesc)(l[i], l[j]);
    }
  }

  lemma LoadedShowsRows(rows: Rows, l: seq<WorkflowStatus>, o: ListWorkflowsOptions)
    requires forall r :: r in l ==> r.id in rows && rows[r.id] == r
    ensures var all := Loaded(l, o); forall i :: 0 <= i < |all| && all[i].id in rows ==> ShowsRow(rows[all[i].id], all[i], o)
  {
    forall i | 0 <= i < |l|
      ensures ShowsRow(l[i], LoadOptions(l[i], o), o) && l[i] in l
    {
    }
  }

  lemma MatchingIgnoresPaging(rows: seq<WorkflowStatus>, o: ListWorkflowsOptions, unpaged: ListWorkflowsOptions)
    requires unpaged == o.(offset := None, limit := None)
    ensures Matching(rows, o) == Matching(rows, unpaged)
  {
    FilterExtensional(rows, MatchesOf(o), MatchesOf(unpaged));
  }

  lemma ShownIff(rows: Rows, l: seq<WorkflowStatus>, o: ListWorkflowsOptions, id: string)
    requires forall w :: w in rows ==> rows[w].id == w
    requires forall r: WorkflowStatus :: r in l <==> r.id in rows && rows[r.id] == r && WorkflowMatches(r, o)
    ensures Shows(Loaded(l, o), id) <==> id in rows && PassesAll(rows[id], o)
  {
    var all := Loaded(l, o);
    if i :| 0 <= i < |all| && all[i].id == id {
      assert l[i] in l;
      MatchesEveryFilter(l[i], o);
    }
    if id in rows && PassesAll(rows[id], o) {
      MatchesEveryFilter(rows[id], o);
      assert rows[id] in l;
      var i :| 0 <= i < |l| && l[i] == rows[id];
      assert all[i].id == id;
    }
  }

  /** Whatever order the table is iterated in, a listing is a page of the rows that pass all its filters. */
  lemma ListingIsPageOfMatches(rows: Rows, order: seq<string>, o: ListWorkflowsOptions, listed: seq<WorkflowStatus>)
    requires ListingInOrder(rows, order, o, listed) && (forall w :: w in rows ==> rows[w].id == w)
    ensures IsPageOfMatches(rows, o, listed)
  {
    var sorted := Sorted(Matching(RowsInOrder(rows, order), o), o);
    SortedIsWholeListing(rows, order, o);
    assert IsPageOf(Loaded(sorted, o), o.offset, o.limit, listed);
  }

  lemma OnlyIsUnpaged(f: Filtering)
    ensures Only(f).offset.None? && Only(f).limit.None?
  {
  }

  lemma WholePage(all: seq<WorkflowStatus>, listed: seq<WorkflowStatus>)
    requires IsPageOf(all, None, None, listed)
    ensures listed == all
  {
  }

  /** With one filter set, a listing without paging shows exactly the rows whose column passes it. */
  lemma FilterShowsItsColumn(rows: Rows, f: Filtering, listed: seq<WorkflowStatus>, id: string)
    requires IsPageOfMatches(rows, Only(f), listed)
    ensures Shows(listed, id) <==> id in rows && Passes(rows[id], f)
  {
    var all :| IsWholeListing(rows, Only(f), all) && IsPageOf(all, Only(f).offset, Only(f).limit, listed);
    OnlyIsUnpaged(f);
    WholePage(all, listed);
    if id in rows {
      OneFilterDecides(rows[id], f);
    }
  }

  /** Filters of two option sets on different columns, taken together, show exactly the rows that both show alone. */
  lemma JoinedFiltersShowBoth(rows: Rows, o: ListWorkflowsOptions, p: ListWorkflowsOptions, both: ListWorkflowsOptions,
                              l: seq<WorkflowStatus>, m: seq<WorkflowStatus>, n: seq<WorkflowStatus>, id: string)
    requires Joins(o, p, both)
    requires IsWholeListing(rows, o, l) && IsWholeListing(rows, p, m) && IsWholeListing(rows, both, n)
    ensures Shows(n, id) <==> Shows(l, id) && Shows(m, id)
  {
    if id in rows {
      JoinedFiltersDecide(rows[id], o, p, both);
    }
  }

  /** `listed` is a possible answer of `list_workflows`; hash maps are iterated in any order. */
  ghost predicate IsListing(rows: Rows, o: ListWorkflowsOptions, listed: seq<WorkflowStatus>) {
    exists ids :: ListingInOrder(rows, ids, o, listed)
  }

  /** `spawned` are the oldest enqueued workflows of a queue, as many as permitted, in order of their age. */
  ghost predicate AreTheOldest(rows: Rows, queue: string, most: nat, spawned: seq<string>) {
    && Distinct(spawned) && |spawned| <= most
    && (forall id :: id in spawned ==> id in rows && Dispatchable(rows[id], queue))
    && (forall i, j :: 0 <= i < j < |spawned| && spawned[i] in rows && spawned[j] in rows ==>
          rows[spawned[i]].createdAt <= rows[spawned[j]].createdAt)
    && (forall id :: id in rows && Dispatchable(rows[id], queue) && id !in spawned ==> LeftBehind(rows, most, spawned, id))
  }

  ghost predicate LeftBehind(rows: Rows, most: nat, spawned: seq<string>, id: string)
    requires id in rows
  {
    |spawned| == most && forall s :: s in spawned && s in rows ==> rows[s].createdAt <= rows[id].createdAt
  }

  function IdsOf(l: seq<WorkflowStatus>): (ids: seq<string>)
    ensures |ids| == |l| && forall i :: 0 <= i < |l| ==> ids[i] == l[i].id
  {
    seq(|l|, i requires 0 <= i < |l| => l[i].id)
  }

  /** The page that the dispatch listing of a queue selects holds the oldest workflows of the queue. */
  lemma DispatchedAreTheOldest(rows: Rows, order: seq<string>, queue: string, most: nat)
    requires Enumerates(order, rows) && (forall w :: w in rows ==> rows[w].id == w)
    ensures AreTheOldest(rows, queue, most, IdsOf(ListRows(RowsInOrder(rows, order), DispatchOptions(queue, most))))
  {
    var all := RowsInOrder(rows, order);
    var waiting := Filter(all, DispatchableFrom(queue));
    var picked := ListRows(all, DispatchOptions(queue, most));
    RowsInOrderAreTheTable(rows, order);
    FilterMembers(all, DispatchableFrom(queue));
    FilterDistinct(all, DispatchableFrom(queue));
    var left := DispatchTakesTheOldest(all, queue, most);
    assert multiset(picked + left) == multiset(waiting);
    DistinctMultiset(waiting, picked + left);
    PickedAreTheOldest(rows, queue, most, waiting, picked, left);
  }

  lemma PickedAreTheOldest(rows: Rows, queue: string, most: nat, waiting: seq<WorkflowStatus>, picked: seq<WorkflowStatus>, left: seq<WorkflowStatus>)
    requires forall r :: r in waiting <==> r.id in rows && rows[r.id] == r && Dispatchable(r, queue)
    requires forall w :: w in rows ==> rows[w].id == w
    requires multiset(picked + left) == multiset(waiting) && Distinct(picked + left)
    requires |picked| == if most < |waiting| then most else |waiting|
    requires forall i, j :: 0 <= i < |picked| && 0 <= j < |left| ==> picked[i].createdAt <= left[j].createdAt
    requires forall i, j :: 0 <= i < j < |picked| ==> picked[i].createdAt <= picked[j].createdAt
    ensures AreTheOldest(rows, queue, most, IdsOf(picked))
  {
    var both := picked + left;
    SameMembers(both, waiting);
    assert forall i :: 0 <= i < |picked| ==> both[i] == picked[i] && both[i] in both;
    forall id | id in rows && Dispatchable(rows[id], queue) && id !in IdsOf(picked)
      ensures LeftBehind(rows, most, IdsOf(picked), id)
    {
      assert rows[id] in both;
      OlderThanLeft(rows, picked, left, id);
    }
  }

  lemma SameMembers<T>(a: seq<T>, b: seq<T>)
    requires multiset(a) == multiset(b)
    ensures |a| == |b| && forall x :: x in a <==> x in b
  {
    assert |multiset(a)| == |multiset(b)|;
    forall x
      ensures x in a <==> x in b
    {
      assert x in multiset(a) <==> x in multiset(b);
    }
  }

  lemma OlderThanLeft(rows: Rows, picked: seq<WorkflowStatus>, left: seq<WorkflowStatus>, id: string)
    requires id in rows && rows[id].id == id && rows[id] in picked + left && id !in IdsOf(picked)
    requires forall i :: 0 <= i < |picked| ==> picked[i].id in rows && rows[picked[i].id] == picked[i]
    requires forall i, j :: 0 <= i < |picked| && 0 <= j < |left| ==> picked[i].createdAt <= left[j].createdAt
    ensures left != [] && forall s :: s in IdsOf(picked) && s in rows ==> rows[s].createdAt <= rows[id].createdAt
  {
    var spawned := IdsOf(picked);
    assert forall i :: 0 <= i < |picked| ==> spawned[i] in spawned;
    var k :| 0 <= k < |picked + left| && (picked + left)[k] == rows[id];
    assert left[k - |picked|] == rows[id];
  }

  // ----- steps, events -----

  function RecordStep(steps: map<(string, int), StepInfo>, step: StepInfo): map<(string, int), StepInfo> {
    steps[(step.workflowId, step.stepId) := step]
  }

  function SetEvent(events: map<(string, string), WorkflowEvent>, event: WorkflowEvent): map<(string, string), WorkflowEvent> {
    events[(event.workflowId, event.key) := event]
  }

  function ByStepId(): (StepInfo, StepInfo) -> bool {
    (left: StepInfo, right: StepInfo) => left.stepId <= right.stepId
  }

  function ByCreation(): (WorkflowEvent, WorkflowEvent) -> bool {
    (left: WorkflowEvent, right: WorkflowEvent) => left.createdAt <= right.createdAt
  }

  /** `l` lists the steps of a workflow: all of them, once each, by ascending step id. */
  ghost predicate IsStepList(steps: map<(string, int), StepInfo>, id: string, l: seq<StepInfo>) {
    && (forall i, j :: 0 <= i < j < |l| ==> l[i].stepId < l[j].stepId)
    && (forall x :: x in l <==> (id, x.stepId) in steps && steps[(id, x.stepId)] == x)
  }

  /** `l` lists the events of a workflow: all of them, once each, by creation time. */
  ghost predicate IsEventList(events: map<(string, string), WorkflowEvent>, id: string, l: seq<WorkflowEvent>) {
    && (forall i, j :: 0 <= i < j < |l| ==> l[i].createdAt <= l[j].createdAt && l[i].key != l[j].key)
    && (forall x :: x in l <==> (id, x.key) in events && events[(id, x.key)] == x)
  }

  // ----- messages -----

  predicate Deliverable(m: WorkflowMessage, destination: string, topic: string) {
    !m.consumed && m.destinationId == destination && m.topic == topic
  }

  /** Position of the first deliverable message, or the length of the vector. */
  function FirstDeliverable(messages: seq<WorkflowMessage>, destination: string, topic: string): (i: nat)
    ensures i <= |messages|
    ensures i < |messages| ==> Deliverable(messages[i], destination, topic)
    ensures forall j :: 0 <= j < i ==> !Deliverable(messages[j], destination, topic)
  {
    if messages == [] || Deliverable(messages[0], destination, topic) then 0
    else FirstDeliverable(messages[1..], destination, topic) + 1
  }

  /** The oldest deliverable message is marked consumed and handed out. */
  function RecvMessage(messages: seq<WorkflowMessage>, destination: string, topic: string): (seq<WorkflowMessage>, Option<WorkflowMessage>) {
    var i := FirstDeliverable(messages, destination, topic);
    if i == |messages| then (messages, None)
    else
      var taken := messages[i].(consumed := true);
      (messages[i := taken], Some(taken))
  }

  function AddressedTo(id: string): WorkflowMessage -> bool {
    (m: WorkflowMessage) => m.destinationId == id
  }

  function MessageOrder(): (WorkflowMessage, WorkflowMessage) -> bool {
    (left: WorkflowMessage, right: WorkflowMessage) => left.createdAt <= right.createdAt
  }

  function ListMessages(messages: seq<WorkflowMessage>, id: string): seq<WorkflowMessage> {
    StableSort(Filter(messages, AddressedTo(id)), MessageOrder())
  }

  /** A listing of messages holds those addressed to the workflow, as often as they were sent, by creation time, and
      messages created at the same instant in the order of sending. */
  lemma ListedMessages(messages: seq<WorkflowMessage>, id: string)
    ensures var l := ListMessages(messages, id);
            && (forall m: WorkflowMessage :: multiset(l)[m] == if m.destinationId == id then multiset(messages)[m] else 0)
            && (forall i, j :: 0 <= i < j < |l| ==> l[i].createdAt <= l[j].createdAt)
  {
    StableSortMultiset(Filter(messages, AddressedTo(id)), MessageOrder());
    StableSortOrders(Filter(messages, AddressedTo(id)), MessageOrder());
    var l := ListMessages(messages, id);
    forall m: WorkflowMessage
      ensures multiset(l)[m] == if m.destinationId == id then multiset(messages)[m] else 0
    {
      FilterCounts(messages, AddressedTo(id), m);
    }
    forall i, j | 0 <= i < j < |l|
      ensures l[i].createdAt <= l[j].createdAt
    {
      assert MessageOrder()(l[i], l[j]);
    }
  }

  lemma {:induction false} FilterCounts(messages: seq<WorkflowMessage>, keep: WorkflowMessage -> bool, m: WorkflowMessage)
    ensures multiset(Filter(messages, keep))[m] == if keep(m) then multiset(messages)[m] else 0
  {
    if messages != [] {
      FilterCounts(messages[1..], keep, m);
      assert messages == [messages[0]] + messages[1..];
    }
  }

  // ----- streams -----

  function StreamOf(streams: map<(string, string), seq<StreamEntry>>, id: string, key: string): seq<StreamEntry> {
    if (id, key) in streams then streams[(id, key)] else []
  }

  function WriteStream(streams: map<(string, string), seq<StreamEntry>>, entry: StreamEntry): map<(string, string), seq<StreamEntry>> {
    streams[(entry.workflowId, entry.key) := StreamOf(streams, entry.workflowId, entry.key) + [entry]]
  }

  function ClosedMarker(id: string, key: string, offset: nat, now: Time): StreamEntry {
    StreamEntry(id, key, offset, None, "DBOS_JSON", true, now)
  }

  function CloseStream(streams: map<(string, string), seq<StreamEntry>>, id: string, key: string, now: Time): map<(string, string), seq<StreamEntry>> {
    WriteStream(streams, ClosedMarker(id, key, |StreamOf(streams, id, key)|, now))
  }

  /** The order of `list_streams`: by key, then by offset. */
  predicate StreamEntryLe(left: StreamEntry, right: StreamEntry) {
    if left.key == right.key then left.offset <= right.offset else StringLe(left.key, right.key)
  }

  function StreamOrder(): (StreamEntry, StreamEntry) -> bool {
    (left: StreamEntry, right: StreamEntry) => StreamEntryLe(left, right)
  }

  function WithKey(key: string): StreamEntry -> bool {
    (e: StreamEntry) => e.key == key
  }

  /** The entries of the streams of one workflow, stream after stream in the order `keys`. */
  function EntriesOf(streams: map<(string, string), seq<StreamEntry>>, id: string, keys: seq<(string, string)>): seq<StreamEntry> {
    if keys == [] then []
    else (if keys[0].0 == id then StreamOf(streams, id, keys[0].1) else []) + EntriesOf(streams, id, keys[1..])
  }

  /** `keys` is an iteration order of a hash map. */
  ghost predicate Enumerates<K(!new), V>(keys: seq<K>, m: map<K, V>) {
    Distinct(keys) && forall k :: k in keys <==> k in m
  }

  /** `l` is a possible answer of `list_streams`. */
  ghost predicate IsStreamList(streams: map<(string, string), seq<StreamEntry>>, id: string, l: seq<StreamEntry>) {
    exists keys :: Enumerates(keys, streams) && l == StableSort(EntriesOf(streams, id, keys), StreamOrder())
  }

  /** A listing of streams goes key by key in alphabetical order, each stream by ascending offset. */
  lemma ListedStreamsAscend(streams: map<(string, string), seq<StreamEntry>>, id: string, l: seq<StreamEntry>, i: nat, j: nat)
    requires IsStreamList(streams, id, l) && i < j < |l|
    ensures StringLe(l[i].key, l[j].key) && (l[i].key == l[j].key ==> l[i].offset <= l[j].offset)
  {
    var keys :| Enumerates(keys, streams) && l == StableSort(EntriesOf(streams, id, keys), StreamOrder());
    StreamOrderIsTotal();
    StableSortOrders(EntriesOf(streams, id, keys), StreamOrder());
    assert StreamOrder()(l[i], l[j]);
    StringLeTotal(l[i].key, l[i].key);
  }

  lemma StreamOrderIsTotal()
    ensures TotalPreorder(StreamOrder())
  {
    var le := StreamOrder();
    forall x, y
      ensures le(x, y) || le(y, x)
    {
      StringLeTotal(x.key, y.key);
    }
    forall x, y, z | le(x, y) && le(y, z)
      ensures le(x, z)
    {
      StreamEntryLeTransitive(x, y, z);
    }
  }

  lemma StreamEntryLeTransitive(x: StreamEntry, y: StreamEntry, z: StreamEntry)
    requires StreamEntryLe(x, y) && StreamEntryLe(y, z)
    ensures StreamEntryLe(x, z)
  {
    if x.key != y.key && y.key != z.key {
      StringLeTransitive(x.key, y.key, z.key);
      if x.key == z.key {
        StringLeTotal(x.key, y.key);
      }
    }
  }

  // ----- facts about single calls -----

  predicate SameRow(rows: Rows, rows': Rows, id: string) {
    (id in rows' <==> id in rows) && (id in rows ==> rows'[id] == rows[id])
  }

  ghost predicate OthersStay(rows: Rows, rows': Rows, id: string) {
    forall other :: other != id ==> SameRow(rows, rows', other)
  }

  /** Two requests ask for one deduplication slot: the same queue and the same deduplication id. */
  predicate AsksForSameSlot(a: WorkflowStatus, b: WorkflowStatus) {
    a.queueName.Some? && a.deduplicationId.Some? && a.queueName == b.queueName && a.deduplicationId == b.deduplicationId
  }

  predicate IsUnfinished(w: WorkflowStatus) {
    w.status == Pending || w.status == Enqueued || w.status == Delayed
  }

  /** An insert under a known id only compares name and input; under a new id it is refused exactly when an unfinished
      workflow holds the slot it asks for, and adds its row otherwise. */
  ghost predicate AnswersInsert(rows: Rows, rows': Rows, w: WorkflowStatus, r: Result<WorkflowInsertResult>) {
    if w.id in rows then
      && rows' == rows
      && r == if rows[w.id].name == w.name && rows[w.id].input == w.input then Ok(ExistingExact) else Err(ConflictingWorkflow(w.id))
    else if exists id :: id in rows && AsksForSameSlot(w, rows[id]) && IsUnfinished(rows[id]) then
      && rows' == rows && w.queueName.Some? && w.deduplicationId.Some?
      && r == Err(QueueDeduplicated(w.queueName.value, w.deduplicationId.value))
    else rows' == rows[w.id := w] && r == Ok(Inserted)
  }

  lemma SlotTakenIff(rows: Rows, w: WorkflowStatus)
    ensures SlotTaken(rows, w) <==> exists id :: id in rows && AsksForSameSlot(w, rows[id]) && IsUnfinished(rows[id])
  {
    if id :| id in rows && HoldsSlotOf(rows[id], w) {
      assert AsksForSameSlot(w, rows[id]) && IsUnfinished(rows[id]);
    }
    if id :| id in rows && AsksForSameSlot(w, rows[id]) && IsUnfinished(rows[id]) {
      assert HoldsSlotOf(rows[id], w);
    }
  }

  /** The claim is answered true exactly when the row carries the execution id already or is unowned and pending or
      enqueued. Only in the second case does it change anything: four columns of this row. */
  ghost predicate AnswersClaim(rows: Rows, rows': Rows, id: string, executor: string, execution: string, now: Time, claimed: bool) {
    && OthersStay(rows, rows', id) && (id !in rows ==> id !in rows' && !claimed)
    && (id in rows ==>
          var w := rows[id];
          && id in rows'
          && if w.executionId == Some(execution) then claimed && rows'[id] == w
             else if (w.status == Pending || w.status == Enqueued) && w.executorId.None? then claimed && IsClaimed(w, rows'[id], executor, execution, now)
             else !claimed && rows'[id] == w)
  }

  /** A granted claim makes the row pending and owned, touches nothing else, and a second claim under another
      execution id is refused whoever makes it. */
  lemma ClaimExcludesLaterClaims(rows: Rows, id: string, executor: string, execution: string, now: Time, executor2: string, execution2: string, now2: Time)
    requires ClaimWorkflowExecution(rows, id, executor, execution, now).1
    requires execution != execution2
    requires id in rows && rows[id].executionId.Some? ==> rows[id].executorId.Some?
    ensures var rows' := ClaimWorkflowExecution(rows, id, executor, execution, now).0;
            && rows'.Keys == rows.Keys
            && (forall other :: other in rows && other != id ==> rows'[other] == rows[other])
            && rows'[id].executionId == Some(execution)
            && rows'[id].executorId.Some?
            && ClaimWorkflowExecution(rows', id, executor2, execution2, now2) == (rows', false)
            && ClaimWorkflowExecution(rows', id, executor, execution, now2) == (rows', true)
  {
  }

  /** Exact retries are accepted without touching the row; an invocation that differs in name or input is
      refused, again without touching anything. */
  lemma RepeatedInsertIsIdempotent(rows: Rows, w: WorkflowStatus, again: WorkflowStatus, checkSlot: bool)
    requires InsertWorkflow(rows, w, checkSlot).1.Ok? && again.id == w.id
    ensures var rows' := InsertWorkflow(rows, w, checkSlot).0;
            && w.id in rows'
            && InsertWorkflow(rows', again, checkSlot).0 == rows'
            && (InsertWorkflow(rows', again, checkSlot).1.Ok? <==> again.name == w.name && again.input == w.input)
            && InsertWorkflow(rows', again, checkSlot).1 != Ok(Inserted)
  {
  }

  /** Deleting removes every trace of the given workflows and nothing of the others. */
  lemma DeleteIsExact(s: Store, ids: set<string>, id: string)
    ensures var s' := DeleteWorkflows(s, ids);
            && (id in s'.workflows <==> id in s.workflows && id !in ids)
            && (id in s'.workflows ==> s'.workflows[id] == s.workflows[id])
            && (forall n :: (id, n) in s'.steps <==> (id, n) in s.steps && id !in ids)
            && (forall n :: (id, n) in s'.steps ==> s'.steps[(id, n)] == s.steps[(id, n)])
            && (forall k :: (id, k) in s'.events <==> (id, k) in s.events && id !in ids)
            && (forall k :: StreamOf(s'.streams, id, k) == if id in ids then [] else StreamOf(s.streams, id, k))
            && ListMessages(s'.messages, id) == if id in ids then [] else ListMessages(s.messages, id)
  {
    DeletedMessages(s.messages, ids, id);
  }

  lemma {:induction false} DeletedMessages(messages: seq<WorkflowMessage>, ids: set<string>, id: string)
    ensures Filter(Filter(messages, NotFor(ids)), AddressedTo(id)) == if id in ids then [] else Filter(messages, AddressedTo(id))
  {
    if messages != [] {
      DeletedMessages(messages[1..], ids, id);
      if NotFor(ids)(messages[0]) {
        FilterConcat([messages[0]], Filter(messages[1..], NotFor(ids)), AddressedTo(id));
      }
    }
  }
}
