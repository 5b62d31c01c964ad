/** Filtering, sorting and paging of workflow rows, and the supervisor's choice of what to dispatch. */
module Listing {
  import opened Types
  import opened Sequences

  datatype ListWorkflowsOptions = ListWorkflowsOptions(
    workflowIds: seq<string> := [],
    authenticatedUser: Option<string> := None,
    authenticatedUsers: seq<string> := [],
    startTime: Option<Time> := None,
    endTime: Option<Time> := None,
    status: seq<WorkflowStatusType> := [],
    applicationVersion: Option<string> := None,
    applicationVersions: seq<string> := [],
    workflowName: Option<string> := None,
    workflowNames: seq<string> := [],
    limit: Option<nat> := None,
    offset: Option<nat> := None,
    sortDesc: bool := false,
    workflowIdPrefix: Option<string> := None,
    workflowIdPrefixes: seq<string> := [],
    loadInput: bool := false,
    loadOutput: bool := false,
    queueName: Option<string> := None,
    queueNames: seq<string> := [],
    queuesOnly: bool := false,
    deduplicationId: Option<string> := None,
    deduplicationIds: seq<string> := [],
    executorIds: seq<string> := [],
    forkedFrom: seq<string> := [],
    parentWorkflowIds: seq<string> := [],
    completedAfter: Option<Time> := None,
    completedBefore: Option<Time> := None,
    dequeuedAfter: Option<Time> := None,
    dequeuedBefore: Option<Time> := None,
    wasForkedFrom: Option<bool> := None,
    hasParent: Option<bool> := None)

  // ----- what the options ask for -----

  /** One filter of a listing, with the values it is set to. */
  datatype Filtering =
    | ByIds(ids: seq<string>)
    | ByPrefix(prefix: Option<string>, prefixes: seq<string>)
    | ByUser(user: Option<string>, users: seq<string>)
    | ByName(name: Option<string>, names: seq<string>)
    | ByVersion(version: Option<string>, versions: seq<string>)
    | ByStatus(status: seq<WorkflowStatusType>)
    | ByQueue(queue: Option<string>, queues: seq<string>)
    | ByDeduplicationId(deduplicationId: Option<string>, deduplicationIds: seq<string>)
    | ByExecutor(executors: seq<string>)
    | ByFork(forkedFrom: seq<string>)
    | ByParent(parents: seq<string>)
    | CreatedWithin(from: Option<Time>, to: Option<Time>)
    | CompletedWithin(from: Option<Time>, to: Option<Time>)
    | DequeuedWithin(from: Option<Time>, to: Option<Time>)
    | OnQueues(queuesOnly: bool)
    | IsFork(wasForked: Option<bool>)
    | HavingParent(hasParent: Option<bool>)

  /** The options that set this filter and no other. */
  function Only(f: Filtering): ListWorkflowsOptions {
    match f
    case ByIds(ids) => ListWorkflowsOptions(workflowIds := ids)
    case ByPrefix(prefix, prefixes) => ListWorkflowsOptions(workflowIdPrefix := prefix, workflowIdPrefixes := prefixes)
    case ByUser(user, users) => ListWorkflowsOptions(authenticatedUser := user, authenticatedUsers := users)
    case ByName(name, names) => ListWorkflowsOptions(workflowName := name, workflowNames := names)
    case ByVersion(version, versions) => ListWorkflowsOptions(applicationVersion := version, applicationVersions := versions)
    case ByStatus(status) => ListWorkflowsOptions(status := status)
    case ByQueue(queue, queues) => ListWorkflowsOptions(queueName := queue, queueNames := queues)
    case ByDeduplicationId(id, ids) => ListWorkflowsOptions(deduplicationId := id, deduplicationIds := ids)
    case ByExecutor(executors) => ListWorkflowsOptions(executorIds := executors)
    case ByFork(forkedFrom) => ListWorkflowsOptions(forkedFrom := forkedFrom)
    case ByParent(parents) => ListWorkflowsOptions(parentWorkflowIds := parents)
    case CreatedWithin(from, to) => ListWorkflowsOptions(startTime := from, endTime := to)
    case CompletedWithin(from, to) => ListWorkflowsOptions(completedAfter := from, completedBefore := to)
    case DequeuedWithin(from, to) => ListWorkflowsOptions(dequeuedAfter := from, dequeuedBefore := to)
    case OnQueues(queuesOnly) => ListWorkflowsOptions(queuesOnly := queuesOnly)
    case IsFork(wasForked) => ListWorkflowsOptions(wasForkedFrom := wasForked)
    case HavingParent(hasParent) => ListWorkflowsOptions(hasParent := hasParent)
  }

  /** A filter with no value lets every row pass. */
  predicate IsSet(f: Filtering) {
    match f
    case ByIds(ids) => ids != []
    case ByPrefix(prefix, prefixes) => prefix.Some? || prefixes != []
    case ByUser(user, users) => user.Some? || users != []
    case ByName(name, names) => name.Some? || names != []
    case ByVersion(version, versions) => version.Some? || versions != []
    case ByStatus(status) => status != []
    case ByQueue(queue, queues) => queue.Some? || queues != []
    case ByDeduplicationId(id, ids) => id.Some? || ids != []
    case ByExecutor(executors) => executors != []
    case ByFork(forkedFrom) => forkedFrom != []
    case ByParent(parents) => parents != []
    case CreatedWithin(from, to) => from.Some? || to.Some?
    case CompletedWithin(from, to) => from.Some? || to.Some?
    case DequeuedWithin(from, to) => from.Some? || to.Some?
    case OnQueues(queuesOnly) => queuesOnly
    case IsFork(wasForked) => wasForked.Some?
    case HavingParent(hasParent) => hasParent.Some?
  }

  /** The text is the single value or one of the several. */
  predicate OneOf(text: string, single: Option<string>, several: seq<string>) {
    single == Some(text) || exists i :: 0 <= i < |several| && several[i] == text
  }

  predicate BeginsWithOneOf(text: string, single: Option<string>, several: seq<string>) {
    (single.Some? && single.value <= text) || exists i :: 0 <= i < |several| && several[i] <= text
  }

  /** The column has a value, and it is one of those. */
  predicate HasOneOf(column: Option<string>, single: Option<string>, several: seq<string>) {
    column.Some? && OneOf(column.value, single, several)
  }

  predicate Within(at: Time, from: Option<Time>, to: Option<Time>) {
    (from.Some? ==> from.value <= at) && (to.Some? ==> at <= to.value)
  }

  predicate HappenedWithin(at: Option<Time>, from: Option<Time>, to: Option<Time>) {
    at.Some? && Within(at.value, from, to)
  }

  /** The row passes the filter: a column that is missing passes none that is set. */
  predicate Passes(w: WorkflowStatus, f: Filtering) {
    IsSet(f) ==>
      match f
      case ByIds(ids) => OneOf(w.id, None, ids)
      case ByPrefix(prefix, prefixes) => BeginsWithOneOf(w.id, prefix, prefixes)
      case ByUser(user, users) => HasOneOf(w.authenticatedUser, user, users)
      case ByName(name, names) => OneOf(w.name, name, names)
      case ByVersion(version, versions) => OneOf(w.applicationVersion, version, versions)
      case ByStatus(status) => exists i :: 0 <= i < |status| && status[i] == w.status
      case ByQueue(queue, queues) => HasOneOf(w.queueName, queue, queues)
      case ByDeduplicationId(id, ids) => HasOneOf(w.deduplicationId, id, ids)
      case ByExecutor(executors) => HasOneOf(w.executorId, None, executors)
      case ByFork(forkedFrom) => HasOneOf(w.forkedFrom, None, forkedFrom)
      case ByParent(parents) => HasOneOf(w.parentWorkflowId, None, parents)
      case CreatedWithin(from, to) => Within(w.createdAt, from, to)
      case CompletedWithin(from, to) => HappenedWithin(w.completedAt, from, to)
      case DequeuedWithin(from, to) => HappenedWithin(w.startedAt, from, to)
      case OnQueues(_) => w.queueName.Some?
      case IsFork(wasForked) => w.wasForkedFrom == wasForked.value
      case HavingParent(hasParent) => if hasParent.value then w.parentWorkflowId.Some? else w.parentWorkflowId.None?
  }

  /** The columns that filters look at. */
  datatype Column =
    | OnId | OnIdPrefix | OnUser | OnName | OnVersion | OnStatus | OnQueue | OnDeduplicationId | OnExecutor
    | OnForkedFrom | OnParent | OnCreation | OnCompletion | OnDequeuing | OnQueueOnly | OnWasForked | OnHasParent

  /** The filter that the options set on a column. */
  function FilterOn(o: ListWorkflowsOptions, c: Column): Filtering {
    match c
    case OnId => ByIds(o.workflowIds)
    case OnIdPrefix => ByPrefix(o.workflowIdPrefix, o.workflowIdPrefixes)
    case OnUser => ByUser(o.authenticatedUser, o.authenticatedUsers)
    case OnName => ByName(o.workflowName, o.workflowNames)
    case OnVersion => ByVersion(o.applicationVersion, o.applicationVersions)
    case OnStatus => ByStatus(o.status)
    case OnQueue => ByQueue(o.queueName, o.queueNames)
    case OnDeduplicationId => ByDeduplicationId(o.deduplicationId, o.deduplicationIds)
    case OnExecutor => ByExecutor(o.executorIds)
    case OnForkedFrom => ByFork(o.forkedFrom)
    case OnParent => ByParent(o.parentWorkflowIds)
    case OnCreation => CreatedWithin(o.startTime, o.endTime)
    case OnCompletion => CompletedWithin(o.completedAfter, o.completedBefore)
    case OnDequeuing => DequeuedWithin(o.dequeuedAfter, o.dequeuedBefore)
    case OnQueueOnly => OnQueues(o.queuesOnly)
    case OnWasForked => IsFork(o.wasForkedFrom)
    case OnHasParent => HavingParent(o.hasParent)
  }

  ghost predicate PassesAll(w: WorkflowStatus, o: ListWorkflowsOptions) {
    forall c :: Passes(w, FilterOn(o, c))
  }

  // ----- how the store decides it -----

  predicate MatchesStringFilter(value: string, single: Option<string>, many: seq<string>) {
    || (single.None? && many == [])
    || single == Some(value)
    || value in many
  }

  predicate MatchesOptionalStringFilter(value: Option<string>, single: Option<string>, many: seq<string>) {
    || (single.None? && many == [])
    || (value.Some? && MatchesStringFilter(value.value, single, many))
  }

  predicate MatchesPrefixFilter(value: string, single: Option<string>, many: seq<string>) {
    || (single.None? && many == [])
    || (single.Some? && single.value <= value)
    || exists prefix | prefix in many :: prefix <= value
  }

  predicate NotBefore(at: Option<Time>, bound: Option<Time>) {
    bound.Some? ==> at.Some? && at.value >= bound.value
  }

  predicate NotAfter(at: Option<Time>, bound: Option<Time>) {
    bound.Some? ==> at.Some? && at.value <= bound.value
  }

  predicate WorkflowMatches(w: WorkflowStatus, o: ListWorkflowsOptions) {
    && (o.workflowIds == [] || w.id in o.workflowIds)
    && MatchesOptionalStringFilter(w.authenticatedUser, o.authenticatedUser, o.authenticatedUsers)
    && NotBefore(Some(w.createdAt), o.startTime)
    && NotAfter(Some(w.createdAt), o.endTime)
    && (o.status == [] || w.status in o.status)
    && MatchesStringFilter(w.applicationVersion, o.applicationVersion, o.applicationVersions)
    && MatchesStringFilter(w.name, o.workflowName, o.workflowNames)
    && MatchesPrefixFilter(w.id, o.workflowIdPrefix, o.workflowIdPrefixes)
    && MatchesOptionalStringFilter(w.queueName, o.queueName, o.queueNames)
    && (o.queuesOnly ==> w.queueName.Some?)
    && MatchesOptionalStringFilter(w.deduplicationId, o.deduplicationId, o.deduplicationIds)
    && MatchesOptionalStringFilter(w.executorId, None, o.executorIds)
    && MatchesOptionalStringFilter(w.forkedFrom, None, o.forkedFrom)
    && MatchesOptionalStringFilter(w.parentWorkflowId, None, o.parentWorkflowIds)
    && NotBefore(w.completedAt, o.completedAfter)
    && NotAfter(w.completedAt, o.completedBefore)
    && NotBefore(w.startedAt, o.dequeuedAfter)
    && NotAfter(w.startedAt, o.dequeuedBefore)
    && (o.wasForkedFrom.Some? ==> w.wasForkedFrom == o.wasForkedFrom.value)
    && (o.hasParent.Some? ==> w.parentWorkflowId.Some? == o.hasParent.value)
  }

  lemma StringFilterPasses(text: string, single: Option<string>, several: seq<string>)
    ensures MatchesStringFilter(text, single, several) <==> (single.Some? || several != [] ==> OneOf(text, single, several))
  {
    assert text in several <==> exists i :: 0 <= i < |several| && several[i] == text;
  }

  lemma OptionalFilterPasses(column: Option<string>, single: Option<string>, several: seq<string>)
    ensures MatchesOptionalStringFilter(column, single, several) <==> (single.Some? || several != [] ==> HasOneOf(column, single, several))
  {
    if column.Some? {
      StringFilterPasses(column.value, single, several);
    }
  }

  lemma PrefixFilterPasses(text: string, single: Option<string>, several: seq<string>)
    ensures MatchesPrefixFilter(text, single, several) <==> (single.Some? || several != [] ==> BeginsWithOneOf(text, single, several))
  {
    if prefix :| prefix in several && prefix <= text {
      var i :| 0 <= i < |several| && several[i] == prefix;
    }
    if i :| 0 <= i < |several| && several[i] <= text {
      assert several[i] in several;
    }
  }

  /** What the store decides about one column. */
  predicate ColumnMatches(w: WorkflowStatus, o: ListWorkflowsOptions, c: Column) {
    match c
    case OnId => o.workflowIds == [] || w.id in o.workflowIds
    case OnIdPrefix => MatchesPrefixFilter(w.id, o.workflowIdPrefix, o.workflowIdPrefixes)
    case OnUser => MatchesOptionalStringFilter(w.authenticatedUser, o.authenticatedUser, o.authenticatedUsers)
    case OnName => MatchesStringFilter(w.name, o.workflowName, o.workflowNames)
    case OnVersion => MatchesStringFilter(w.applicationVersion, o.applicationVersion, o.applicationVersions)
    case OnStatus => o.status == [] || w.status in o.status
    case OnQueue => MatchesOptionalStringFilter(w.queueName, o.queueName, o.queueNames)
    case OnDeduplicationId => MatchesOptionalStringFilter(w.deduplicationId, o.deduplicationId, o.deduplicationIds)
    case OnExecutor => MatchesOptionalStringFilter(w.executorId, None, o.executorIds)
    case OnForkedFrom => MatchesOptionalStringFilter(w.forkedFrom, None, o.forkedFrom)
    case OnParent => MatchesOptionalStringFilter(w.parentWorkflowId, None, o.parentWorkflowIds)
    case OnCreation => NotBefore(Some(w.createdAt), o.startTime) && NotAfter(Some(w.createdAt), o.endTime)
    case OnCompletion => NotBefore(w.completedAt, o.completedAfter) && NotAfter(w.completedAt, o.completedBefore)
    case OnDequeuing => NotBefore(w.startedAt, o.dequeuedAfter) && NotAfter(w.startedAt, o.dequeuedBefore)
    case OnQueueOnly => o.queuesOnly ==> w.queueName.Some?
    case OnWasForked => o.wasForkedFrom.Some? ==> w.wasForkedFrom == o.wasForkedFrom.value
    case OnHasParent => o.hasParent.Some? ==> w.parentWorkflowId.Some? == o.hasParent.value
  }

  lemma ColumnAgrees(w: WorkflowStatus, o: ListWorkflowsOptions, c: Column)
    ensures ColumnMatches(w, o, c) <==> Passes(w, FilterOn(o, c))
  {
    match c
    case OnIdPrefix => PrefixFilterPasses(w.id, o.workflowIdPrefix, o.workflowIdPrefixes);
    case OnUser => OptionalFilterPasses(w.authenticatedUser, o.authenticatedUser, o.authenticatedUsers);
    case OnName => StringFilterPasses(w.name, o.workflowName, o.workflowNames);
    case OnVersion => StringFilterPasses(w.applicationVersion, o.applicationVersion, o.applicationVersions);
    case OnQueue => OptionalFilterPasses(w.queueName, o.queueName, o.queueNames);
    case OnDeduplicationId => OptionalFilterPasses(w.deduplicationId, o.deduplicationId, o.deduplicationIds);
    case OnExecutor => OptionalFilterPasses(w.executorId, None, o.executorIds);
    case OnForkedFrom => OptionalFilterPasses(w.forkedFrom, None, o.forkedFrom);
    case OnParent => OptionalFilterPasses(w.parentWorkflowId, None, o.parentWorkflowIds);
    case _ =>
  }

  lemma MatchEveryColumn(w: WorkflowStatus, o: ListWorkflowsOptions, c: Column)
    requires WorkflowMatches(w, o)
    ensures ColumnMatches(w, o, c)
  {
  }

  lemma IdColumnsMatch(w: WorkflowStatus, o: ListWorkflowsOptions)
    requires forall c :: ColumnMatches(w, o, c)
    ensures o.workflowIds == [] || w.id in o.workflowIds
    ensures MatchesPrefixFilter(w.id, o.workflowIdPrefix, o.workflowIdPrefixes)
    ensures MatchesOptionalStringFilter(w.authenticatedUser, o.authenticatedUser, o.authenticatedUsers)
    ensures MatchesStringFilter(w.name, o.workflowName, o.workflowNames)
    ensures MatchesStringFilter(w.applicationVersion, o.applicationVersion, o.applicationVersions)
    ensures o.status == [] || w.status in o.status
  {
    assert ColumnMatches(w, o, OnId) && ColumnMatches(w, o, OnIdPrefix) && ColumnMatches(w, o, OnUser) && ColumnMatches(w, o, OnName) && ColumnMatches(w, o, OnVersion) && ColumnMatches(w, o, OnStatus);
  }

  lemma OptionalColumnsMatch(w: WorkflowStatus, o: ListWorkflowsOptions)
    requires forall c :: ColumnMatches(w, o, c)
    ensures MatchesOptionalStringFilter(w.queueName, o.queueName, o.queueNames)
    ensures MatchesOptionalStringFilter(w.deduplicationId, o.deduplicationId, o.deduplicationIds)
    ensures MatchesOptionalStringFilter(w.executorId, None, o.executorIds)
    ensures MatchesOptionalStringFilter(w.forkedFrom, None, o.forkedFrom)
    ensures MatchesOptionalStringFilter(w.parentWorkflowId, None, o.parentWorkflowIds)
  {
    assert ColumnMatches(w, o, OnQueue) && ColumnMatches(w, o, OnDeduplicationId) && ColumnMatches(w, o, OnExecutor) && ColumnMatches(w, o, OnForkedFrom) && ColumnMatches(w, o, OnParent);
  }

  lemma TimeColumnsMatch(w: WorkflowStatus, o: ListWorkflowsOptions)
    requires forall c :: ColumnMatches(w, o, c)
    ensures NotBefore(Some(w.createdAt), o.startTime) && NotAfter(Some(w.createdAt), o.endTime)
    ensures NotBefore(w.completedAt, o.completedAfter) && NotAfter(w.completedAt, o.completedBefore)
    ensures NotBefore(w.startedAt, o.dequeuedAfter) && NotAfter(w.startedAt, o.dequeuedBefore)
    ensures o.queuesOnly ==> w.queueName.Some?
    ensures o.wasForkedFrom.Some? ==> w.wasForkedFrom == o.wasForkedFrom.value
    ensures o.hasParent.Some? ==> w.parentWorkflowId.Some? == o.hasParent.value
  {
    assert ColumnMatches(w, o, OnCreation) && ColumnMatches(w, o, OnCompletion) && ColumnMatches(w, o, OnDequeuing) && ColumnMatches(w, o, OnQueueOnly) && ColumnMatches(w, o, OnWasForked) && ColumnMatches(w, o, OnHasParent);
  }

  lemma EveryColumnMatches(w: WorkflowStatus, o: ListWorkflowsOptions)
    requires forall c :: ColumnMatches(w, o, c)
    ensures WorkflowMatches(w, o)
  {
    IdColumnsMatch(w, o);
    OptionalColumnsMatch(w, o);
    TimeColumnsMatch(w, o);
  }

  /** A row matches exactly when it passes the filter on each column. */
  lemma MatchesEveryFilter(w: WorkflowStatus, o: ListWorkflowsOptions)
    ensures WorkflowMatches(w, o) <==> PassesAll(w, o)
  {
    forall c
      ensures ColumnMatches(w, o, c) <==> Passes(w, FilterOn(o, c))
      ensures WorkflowMatches(w, o) ==> ColumnMatches(w, o, c)
    {
      ColumnAgrees(w, o, c);
      if WorkflowMatches(w, o) {
        MatchEveryColumn(w, o, c);
      }
    }
    if forall c :: ColumnMatches(w, o, c) {
      EveryColumnMatches(w, o);
    }
  }

  function ColumnOf(f: Filtering): Column {
    match f
    case ByIds(_) => OnId
    case ByPrefix(_, _) => OnIdPrefix
    case ByUser(_, _) => OnUser
    case ByName(_, _) => OnName
    case ByVersion(_, _) => OnVersion
    case ByStatus(_) => OnStatus
    case ByQueue(_, _) => OnQueue
    case ByDeduplicationId(_, _) => OnDeduplicationId
    case ByExecutor(_) => OnExecutor
    case ByFork(_) => OnForkedFrom
    case ByParent(_) => OnParent
    case CreatedWithin(_, _) => OnCreation
    case CompletedWithin(_, _) => OnCompletion
    case DequeuedWithin(_, _) => OnDequeuing
    case OnQueues(_) => OnQueueOnly
    case IsFork(_) => OnWasForked
    case HavingParent(_) => OnHasParent
  }

  const NO_FILTER := ListWorkflowsOptions()

  /** The options that set one filter leave the others unset. */
  lemma OnlySetsOne(f: Filtering, c: Column)
    ensures !IsSet(FilterOn(NO_FILTER, c))
    ensures FilterOn(Only(f), c) == if c == ColumnOf(f) then f else FilterOn(NO_FILTER, c)
  {
  }

  lemma OneFilterDecides(w: WorkflowStatus, f: Filtering)
    ensures PassesAll(w, Only(f)) <==> Passes(w, f)
  {
    OnlySetsOne(f, ColumnOf(f));
    forall c
      ensures c != ColumnOf(f) ==> Passes(w, FilterOn(Only(f), c))
    {
      OnlySetsOne(f, c);
    }
  }

  /** The filters of `both` are those that `o` or `p` sets, on every column at most one of them. */
  ghost predicate Joins(o: ListWorkflowsOptions, p: ListWorkflowsOptions, both: ListWorkflowsOptions) {
    forall c :: JoinsOn(FilterOn(o, c), FilterOn(p, c), FilterOn(both, c))
  }

  predicate JoinsOn(f: Filtering, g: Filtering, both: Filtering) {
    (both == f && !IsSet(g)) || (both == g && !IsSet(f))
  }

  lemma JoinedFiltersDecide(w: WorkflowStatus, o: ListWorkflowsOptions, p: ListWorkflowsOptions, both: ListWorkflowsOptions)
    requires Joins(o, p, both)
    ensures PassesAll(w, both) <==> PassesAll(w, o) && PassesAll(w, p)
  {
    forall c
      ensures Passes(w, FilterOn(both, c)) <==> Passes(w, FilterOn(o, c)) && Passes(w, FilterOn(p, c))
    {
      JoinedFilterPasses(w, FilterOn(o, c), FilterOn(p, c), FilterOn(both, c));
    }
  }

  lemma JoinedFilterPasses(w: WorkflowStatus, f: Filtering, g: Filtering, both: Filtering)
    requires JoinsOn(f, g, both)
    ensures Passes(w, both) <==> Passes(w, f) && Passes(w, g)
  {
  }

  function MatchesOf(o: ListWorkflowsOptions): WorkflowStatus -> bool {
    w => WorkflowMatches(w, o)
  }

  function Matching(rows: seq<WorkflowStatus>, o: ListWorkflowsOptions): seq<WorkflowStatus> {
    Filter(rows, MatchesOf(o))
  }

  /** The listing order: descending sorts compare the operands the other way round. */
  function Order(desc: bool): (WorkflowStatus, WorkflowStatus) -> bool {
    (left: WorkflowStatus, right: WorkflowStatus) => if desc then right.createdAt <= left.createdAt else left.createdAt <= right.createdAt
  }

  function Sorted(rows: seq<WorkflowStatus>, o: ListWorkflowsOptions): seq<WorkflowStatus> {
    StableSort(rows, Order(o.sortDesc))
  }

  function Page<T>(rows: seq<T>, offset: Option<nat>, limit: Option<nat>): seq<T> {
    var start := if offset.Some? && offset.value < |rows| then offset.value else if offset.Some? then |rows| else 0;
    var rest := rows[start..];
    if limit.Some? && limit.value < |rest| then rest[..limit.value] else rest
  }

  function LoadOptions(w: WorkflowStatus, o: ListWorkflowsOptions): WorkflowStatus {
    var w1 := if o.loadInput then w else w.(input := None);
    if o.loadOutput then w1 else w1.(output := None, error := None)
  }

  /** The rows a listing shows before the load options blank columns; `rows` is the store's iteration order. */
  function ListRows(rows: seq<WorkflowStatus>, o: ListWorkflowsOptions): seq<WorkflowStatus> {
    Page(Sorted(Matching(rows, o), o), o.offset, o.limit)
  }

  /** The rows vector that the store sorts and pages in place. */
  class WorkflowRows {
    var items: seq<WorkflowStatus>

    constructor (items: seq<WorkflowStatus>)
      ensures this.items == items
    {
      this.items := items;
    }

    method SortAndPage(o: ListWorkflowsOptions)
      modifies this
      ensures items == Page(Sorted(old(items), o), o.offset, o.limit)
    {
      items := StableSort(items, Order(o.sortDesc));
      var offset := if o.offset.None? then 0 else if o.offset.value < |items| then o.offset.value else |items|;
      if offset > 0 {
        items := items[offset..];
      }
      if o.limit.Some? && |items| > o.limit.value {
        items := items[..o.limit.value];
      }
    }

    method ApplyLoadOptions(o: ListWorkflowsOptions)
      modifies this
      ensures |items| == |old(items)|
      ensures forall i :: 0 <= i < |items| ==> items[i] == LoadOptions(old(items)[i], o)
    {
      for i := 0 to |items|
        invariant |items| == |old(items)|
        invariant forall j :: 0 <= j < i ==> items[j] == LoadOptions(old(items)[j], o)
        invariant forall j :: i <= j < |items| ==> items[j] == old(items)[j]
      {
        if !o.loadInput {
          items := items[i := items[i].(input := None)];
        }
        if !o.loadOutput {
          items := items[i := items[i].(output := None, error := None)];
        }
      }
    }
  }

  function CreatedAt(at: Time): WorkflowStatus -> bool {
    (w: WorkflowStatus) => w.createdAt == at
  }

  /** The sorted listing holds exactly the matching rows, each as often as the store does, in ascending key
      order, and rows created at the same instant keep the store's order. */
  lemma ListingIsStableSortOfMatches(rows: seq<WorkflowStatus>, o: ListWorkflowsOptions, at: Time)
    ensures var l := Sorted(Matching(rows, o), o);
            && (forall w :: w in l <==> w in rows && PassesAll(w, o))
            && multiset(l) == multiset(Matching(rows, o))
            && (forall i, j :: 0 <= i < j < |l| ==> if o.sortDesc then l[i].createdAt >= l[j].createdAt else l[i].createdAt <= l[j].createdAt)
            && Filter(l, CreatedAt(at)) == Filter(Matching(rows, o), CreatedAt(at))
  {
    FilterMembers(rows, MatchesOf(o));
    forall w
      ensures WorkflowMatches(w, o) <==> PassesAll(w, o)
    {
      MatchesEveryFilter(w, o);
    }
    StableSortMultiset(Matching(rows, o), Order(o.sortDesc));
    StableSortOrders(Matching(rows, o), Order(o.sortDesc));
    TiesKeepOrder(Matching(rows, o), o, at);
  }

  lemma TiesKeepOrder(rows: seq<WorkflowStatus>, o: ListWorkflowsOptions, at: Time)
    ensures Filter(Sorted(rows, o), CreatedAt(at)) == Filter(rows, CreatedAt(at))
  {
    var pivot := NewWorkflow("", "", "", "", at);
    StableSortStable(rows, Order(o.sortDesc), pivot);
    FilterExtensional(Sorted(rows, o), TiedWith(Order(o.sortDesc), pivot), CreatedAt(at));
    FilterExtensional(rows, TiedWith(Order(o.sortDesc), pivot), CreatedAt(at));
  }

  /** The first `k` pages of `size` rows each, one after the other. */
  function Pages<T>(rows: seq<T>, size: nat, k: nat): seq<T> {
    if k == 0 then [] else Pages(rows, size, k - 1) + Page(rows, Some((k - 1) * size), Some(size))
  }

  /** Consecutive pages are consecutive slices: no row is skipped or shown twice. */
  lemma {:induction false} PagesArePrefix<T>(rows: seq<T>, size: nat, k: nat)
    requires size > 0
    ensures Pages(rows, size, k) == rows[..if k * size <= |rows| then k * size else |rows|]
  {
    if k > 0 {
      PagesArePrefix(rows, size, k - 1);
      assert k * size == (k - 1) * size + size;
      PageContinues(rows, (k - 1) * size, size);
    }
  }

  lemma PageContinues<T>(rows: seq<T>, start: nat, size: nat)
    ensures rows[..if start <= |rows| then start else |rows|] + Page(rows, Some(start), Some(size))
            == rows[..if start + size <= |rows| then start + size else |rows|]
  {
    if start < |rows| && start + size <= |rows| {
      assert rows[start..][..size] == rows[start..start + size];
    }
  }

  /** Enough consecutive pages of any positive size make up the whole listing of `o`. */
  lemma PagesMakeTheWholeListing(rows: seq<WorkflowStatus>, o: ListWorkflowsOptions, size: nat, k: nat)
    requires size > 0 && o.offset.None? && o.limit.None?
    requires k * size >= |ListRows(rows, o)|
    ensures Pages(ListRows(rows, o), size, k) == ListRows(rows, o)
    ensures forall i: nat :: i < k ==>
              ListRows(rows, o.(offset := Some(i * size), limit := Some(size))) == Page(ListRows(rows, o), Some(i * size), Some(size))
  {
    PagesArePrefix(ListRows(rows, o), size, k);
    forall i: nat | i < k
      ensures ListRows(rows, o.(offset := Some(i * size), limit := Some(size))) == Page(ListRows(rows, o), Some(i * size), Some(size))
    {
      var paged := o.(offset := Some(i * size), limit := Some(size));
      FilterExtensional(rows, MatchesOf(o), MatchesOf(paged));
      assert Sorted(Matching(rows, o), o) == Sorted(Matching(rows, paged), paged);
    }
  }

  /** What the queue supervisor asks the store for. */
  function DispatchOptions(queue: string, maxTasks: nat): ListWorkflowsOptions {
    ListWorkflowsOptions(status := [Enqueued], queueName := Some(queue), loadInput := true, limit := Some(maxTasks))
  }

  predicate Dispatchable(w: WorkflowStatus, queue: string) {
    w.status == Enqueued && w.queueName == Some(queue)
  }

  function DispatchableFrom(queue: string): WorkflowStatus -> bool {
    w => Dispatchable(w, queue)
  }

  lemma DispatchableMatch(queue: string, maxTasks: nat)
    ensures forall w :: MatchesOf(DispatchOptions(queue, maxTasks))(w) == DispatchableFrom(queue)(w)
  {
    forall w
      ensures WorkflowMatches(w, DispatchOptions(queue, maxTasks)) == Dispatchable(w, queue)
    {
    }
  }

  /** One pass dispatches exactly min(max, n) of the n enqueued rows of a queue, oldest first: together with
      the rows it leaves behind they are all the enqueued rows, and none left behind is older. */
  lemma DispatchTakesTheOldest(rows: seq<WorkflowStatus>, queue: string, maxTasks: nat)
    returns (left: seq<WorkflowStatus>)
    ensures var waiting := Filter(rows, DispatchableFrom(queue));
            var picked := ListRows(rows, DispatchOptions(queue, maxTasks));
            && |picked| == (if maxTasks < |waiting| then maxTasks else |waiting|)
            && multiset(picked) + multiset(left) == multiset(waiting)
            && (forall i, j :: 0 <= i < |picked| && 0 <= j < |left| ==> picked[i].createdAt <= left[j].createdAt)
            && (forall i, j :: 0 <= i < j < |picked| ==> picked[i].createdAt <= picked[j].createdAt)
  {
    DispatchableMatch(queue, maxTasks);
    FilterExtensional(rows, MatchesOf(DispatchOptions(queue, maxTasks)), DispatchableFrom(queue));
    left := FirstAreTheOldest(Filter(rows, DispatchableFrom(queue)), maxTasks);
  }

  lemma FirstAreTheOldest(waiting: seq<WorkflowStatus>, most: nat) returns (left: seq<WorkflowStatus>)
    ensures var picked := Page(StableSort(waiting, Order(false)), None, Some(most));
            && |picked| == (if most < |waiting| then most else |waiting|)
            && multiset(picked) + multiset(left) == multiset(waiting)
            && (forall i, j :: 0 <= i < |picked| && 0 <= j < |left| ==> picked[i].createdAt <= left[j].createdAt)
            && (forall i, j :: 0 <= i < j < |picked| ==> picked[i].createdAt <= picked[j].createdAt)
  {
    StableSortMultiset(waiting, Order(false));
    StableSortOrders(waiting, Order(false));
    left := FrontOfSorted(StableSort(waiting, Order(false)), waiting, most);
  }

  lemma FrontOfSorted(sorted: seq<WorkflowStatus>, waiting: seq<WorkflowStatus>, most: nat) returns (left: seq<WorkflowStatus>)
    requires SortedBy(sorted, Order(false)) && multiset(sorted) == multiset(waiting)
    ensures var picked := Page(sorted, None, Some(most));
            && |picked| == (if most < |waiting| then most else |waiting|)
            && multiset(picked) + multiset(left) == multiset(waiting)
            && (forall i, j :: 0 <= i < |picked| && 0 <= j < |left| ==> picked[i].createdAt <= left[j].createdAt)
            && (forall i, j :: 0 <= i < j < |picked| ==> picked[i].createdAt <= picked[j].createdAt)
  {
    assert |multiset(sorted)| == |multiset(waiting)|;
    var n := if most < |sorted| then most else |sorted|;
    left := sorted[n..];
    assert sorted == sorted[..n] + left;
    SortedSplits(sorted, n);
  }

  lemma SortedSplits(sorted: seq<WorkflowStatus>, n: nat)
    requires n <= |sorted| && SortedBy(sorted, Order(false))
    ensures forall i, j :: 0 <= i < n && n <= j < |sorted| ==> sorted[i].createdAt <= sorted[j].createdAt
    ensures forall i, j :: 0 <= i < j < n ==> sorted[i].createdAt <= sorted[j].createdAt
  {
    forall i, j | 0 <= i < j < |sorted|
      ensures sorted[i].createdAt <= sorted[j].createdAt
    {
      assert Order(false)(sorted[i], sorted[j]);
    }
  }
}
