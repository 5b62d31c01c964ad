/** The aggregate queries over workflows and steps, and the time buckets they can group by. */
module Aggregates {
  import opened Types
  import opened Sequences
  import opened Listing
  import opened StoreSpec
  import opened MemoryStore
  import opened Grouping
  import R = Replay
  import Serialization

  const MIN_I64 := -0x8000_0000_0000_0000
  const MAX_I64 := 0x7FFF_FFFF_FFFF_FFFF

  /** The instants the date library can represent, in milliseconds. */
  const CHRONO_MIN := -8_334_601_228_800_000
  const CHRONO_MAX := 8_210_266_876_799_999

  /** Texts that libraries produce: time stamps, and the key of a bucket, which is its JSON text. */
  datatype Texts = Texts(format: Time -> string, key: Bucket -> string)

  ghost predicate LawfulTexts(t: Texts) {
    && (forall a, b :: t.format(a) == t.format(b) ==> a == b)
    && (forall a, b :: t.key(a) == t.key(b) ==> a == b)
  }

  // ----- time buckets -----

  /** A size that the query accepts, in milliseconds; durations count nanoseconds. */
  function BucketSize(sizeNs: nat): Result<int> {
    var ms := sizeNs / 1_000_000;
    if sizeNs == 0 || ms > MAX_I64 || ms == 0 then Err(InvalidArgument) else Ok(ms)
  }

  function BucketStart(at: Time, sizeMs: int): int
    requires sizeMs > 0
  {
    at - at % sizeMs
  }

  function TimeBucketValue(t: Texts, at: Time, sizeNs: nat): Result<Value> {
    var size := BucketSize(sizeNs);
    if size.Err? then Err(size.error)
    else
      var start := BucketStart(at, size.value);
      Ok(if CHRONO_MIN <= start <= CHRONO_MAX then String(t.format(start)) else Number(start))
  }

  /** The start of a bucket is a multiple of the size at or before the instant, less than one size away, and for
      every instant of the date library and every accepted size it fits into 64 bits. */
  lemma BucketStartBounds(at: Time, sizeMs: int)
    requires 0 < sizeMs
    ensures var start := BucketStart(at, sizeMs);
            && start == (at / sizeMs) * sizeMs
            && start <= at < start + sizeMs
            && (sizeMs <= MAX_I64 && CHRONO_MIN <= at <= CHRONO_MAX ==> MIN_I64 < start <= MAX_I64)
  {
    Division(at, sizeMs);
    if sizeMs <= MAX_I64 && CHRONO_MIN <= at <= CHRONO_MAX {
      StartFits(at, sizeMs, at / sizeMs, BucketStart(at, sizeMs));
    }
  }

  lemma Division(at: int, size: int)
    requires size > 0
    ensures at - at % size == (at / size) * size
  {
  }

  lemma StartFits(at: int, size: int, q: int, start: int)
    requires size > 0 && start == q * size && start <= at < start + size
    requires CHRONO_MIN <= at <= CHRONO_MAX && size <= MAX_I64
    ensures MIN_I64 < start <= MAX_I64
  {
    if at < 0 {
      NotFarBelow(at, size, q, start);
    } else {
      NotNegative(at, size, q);
    }
  }

  lemma NotNegative(at: int, size: int, q: int)
    requires size > 0 && 0 <= at < q * size + size
    ensures q * size >= 0
  {
    if q < 0 {
      Times(q + 1, 0, size);
    }
    Times(0, if q < 0 then 0 else q, size);
  }

  lemma NotFarBelow(at: int, size: int, q: int, start: int)
    requires size > 0 && start == q * size && start <= at < start + size && at < 0
    ensures start >= -size || start > 2 * at
  {
    if q < -1 {
      Times(q + 1, -1, size);
    } else {
      Times(-1, q, size);
    }
  }

  lemma Times(x: int, y: int, size: int)
    requires size > 0 && x <= y
    ensures x * size <= y * size
  {
  }

  /** Two instants get the same bucket value exactly when no multiple of the size separates them. */
  lemma SameBucketIff(t: Texts, a: Time, b: Time, sizeNs: nat)
    requires LawfulTexts(t) && BucketSize(sizeNs).Ok?
    ensures TimeBucketValue(t, a, sizeNs) == TimeBucketValue(t, b, sizeNs) <==> a / BucketSize(sizeNs).value == b / BucketSize(sizeNs).value
  {
    var size := BucketSize(sizeNs).value;
    BucketStartBounds(a, size);
    BucketStartBounds(b, size);
    SameMultiple(a / size, b / size, size);
  }

  lemma SameMultiple(x: int, y: int, size: int)
    requires size > 0
    ensures x * size == y * size <==> x == y
  {
    if x < y {
      assert (x + 1) * size <= y * size;
    } else if y < x {
      assert (y + 1) * size <= x * size;
    }
  }

  // ----- what labels mean -----

  /** The debug name of a status. */
  predicate NamesStatus(text: string, s: WorkflowStatusType) {
    && (text == "Pending" <==> s == Pending) && (text == "Enqueued" <==> s == Enqueued) && (text == "Delayed" <==> s == Delayed)
    && (text == "Success" <==> s == Success) && (text == "Error" <==> s == Error) && (text == "Cancelled" <==> s == Cancelled)
    && (text == "MaxRecoveryAttemptsExceeded" <==> s == MaxRecoveryAttemptsExceeded)
  }

  /** The column labels the group if and only if it was asked for, and then with this value. */
  predicate HasLabel(b: Bucket, column: string, wanted: bool, value: Value) {
    (column in b <==> wanted) && (wanted ==> b[column] == value)
  }

  predicate LabelsText(v: Value, s: Option<string>) {
    if s.None? then v == Null else v == String(s.value)
  }

  /** The last multiple of the size that is not after the instant. */
  predicate IsLastMultiple(start: int, at: Time, ms: int) {
    ms > 0 && start % ms == 0 && start <= at < start + ms
  }

  /** `v` names the bucket of the instant. */
  ghost predicate LabelsInstant(t: Texts, v: Value, at: Time, sizeNs: nat) {
    exists start ::
      && IsLastMultiple(start, at, sizeNs / 1_000_000)
      && v == if CHRONO_MIN <= start <= CHRONO_MAX then String(t.format(start)) else Number(start)
  }

  lemma BucketLabelsInstant(t: Texts, at: Time, sizeNs: nat)
    requires TimeBucketValue(t, at, sizeNs).Ok?
    ensures LabelsInstant(t, TimeBucketValue(t, at, sizeNs).value, at, sizeNs)
  {
    var ms := sizeNs / 1_000_000;
    BucketStartBounds(at, ms);
    MultipleHasNoRest(at / ms, ms);
    assert IsLastMultiple(BucketStart(at, ms), at, ms);
  }

  lemma MultipleHasNoRest(q: int, ms: int)
    requires ms > 0
    ensures (q * ms) % ms == 0
  {
    assert q * ms == ms * q + 0;
    DivisionIsUnique(q * ms, ms, q, 0);
  }

  lemma DivisionIsUnique(x: int, ms: int, q: int, r: int)
    requires ms > 0 && x == ms * q + r && 0 <= r < ms
    ensures x % ms == r
  {
    var q2, r2 := x / ms, x % ms;
    assert x == ms * q2 + r2;
    if q < q2 {
      Times(q + 1, q2, ms);
    } else if q2 < q {
      Times(q2 + 1, q, ms);
    }
  }

  // ----- workflows -----

  function StatusText(s: WorkflowStatusType): string {
    match s
    case Pending => "Pending"
    case Enqueued => "Enqueued"
    case Delayed => "Delayed"
    case Success => "Success"
    case Error => "Error"
    case Cancelled => "Cancelled"
    case MaxRecoveryAttemptsExceeded => "MaxRecoveryAttemptsExceeded"
  }

  function StatusBucket(w: WorkflowStatus): Bucket {
    map["status" := String(StatusText(w.status))]
  }

  /** `samples` are those of the workflows, in order: each labelled with the name of its status. */
  ghost predicate AreStatusSamples(rows: seq<WorkflowStatus>, samples: seq<Sample>) {
    && |samples| == |rows|
    && forall i :: 0 <= i < |rows| ==>
         && NamesStatus(samples[i].key, rows[i].status) && samples[i].bucket == map["status" := String(samples[i].key)]
         && samples[i].duration == None
  }

  lemma StatusKeysMatch(samples: seq<Sample>)
    requires forall s :: s in samples ==> s.bucket == map["status" := String(s.key)]
    ensures KeysMatchBuckets(samples)
  {
    forall a, b | a in samples && b in samples
      ensures a.key == b.key <==> a.bucket == b.bucket
    {
      assert a.bucket["status"] == String(a.key) && b.bucket["status"] == String(b.key);
    }
  }

  lemma OneMoreStatus(rows: seq<WorkflowStatus>, i: nat, samples: seq<Sample>)
    requires i < |rows| && AreStatusSamples(rows[..i], samples)
    ensures var all := samples + [Sample(StatusText(rows[i].status), StatusBucket(rows[i]), None)];
            AreStatusSamples(rows[..i + 1], all) && KeysMatchBuckets(all)
  {
    var s := Sample(StatusText(rows[i].status), StatusBucket(rows[i]), None);
    forall x | x in samples + [s]
      ensures x.bucket == map["status" := String(x.key)]
    {
      assert x in samples || x == s;
    }
    StatusKeysMatch(samples + [s]);
  }

  /** The number of workflows by status. */
  method WorkflowCountsByStatus(rows: seq<WorkflowStatus>) returns (counts: seq<AggregateRow>)
    ensures exists samples :: AreStatusSamples(rows, samples) && IsGrouping(counts, samples)
  {
    var groups := new Groups();
    for i := 0 to |rows|
      invariant fresh(groups) && groups.Valid()
      invariant AreStatusSamples(rows[..i], groups.samples)
    {
      OneMoreStatus(rows, i, groups.samples);
      groups.Record(StatusText(rows[i].status), StatusBucket(rows[i]), None);
    }
    assert rows[..|rows|] == rows;
    ghost var samples := groups.samples;
    counts := groups.IntoRows();
    assert AreStatusSamples(rows, samples) && IsGrouping(counts, samples);
  }

  datatype WorkflowAggregatesInput = WorkflowAggregatesInput(
    filter: ListWorkflowsOptions,
    groupByStatus: bool,
    groupByWorkflowName: bool,
    groupByQueueName: bool,
    groupByExecutorId: bool,
    groupByApplicationVersion: bool,
    timeBucketSize: Option<nat>)

  function OptionalText(s: Option<string>): Value {
    if s.Some? then String(s.value) else Null
  }

  predicate GroupsByAny(input: WorkflowAggregatesInput) {
    || input.groupByStatus || input.groupByWorkflowName || input.groupByQueueName || input.groupByExecutorId
    || input.groupByApplicationVersion || input.timeBucketSize.Some?
  }

  /** The columns asked for; the status when none is. */
  function PlainBucket(input: WorkflowAggregatesInput, w: WorkflowStatus): Bucket {
    var b := Labelled(map[], "status", !GroupsByAny(input) || input.groupByStatus, String(StatusText(w.status)));
    var b := Labelled(b, "workflow_name", input.groupByWorkflowName, String(w.name));
    var b := Labelled(b, "queue_name", input.groupByQueueName, OptionalText(w.queueName));
    var b := Labelled(b, "executor_id", input.groupByExecutorId, OptionalText(w.executorId));
    Labelled(b, "application_version", input.groupByApplicationVersion, String(w.applicationVersion))
  }

  function Labelled(b: Bucket, column: string, wanted: bool, value: Value): Bucket {
    if wanted then b[column := value] else b
  }

  function WorkflowBucket(t: Texts, input: WorkflowAggregatesInput, w: WorkflowStatus): Result<Bucket> {
    if input.timeBucketSize.None? then Ok(PlainBucket(input, w))
    else
      var value := TimeBucketValue(t, w.createdAt, input.timeBucketSize.value);
      if value.Ok? then Ok(PlainBucket(input, w)["created_at_bucket" := value.value]) else Err(value.error)
  }

  function WorkflowSample(t: Texts, input: WorkflowAggregatesInput, w: WorkflowStatus): Sample
    requires WorkflowBucket(t, input, w).Ok?
  {
    var bucket := WorkflowBucket(t, input, w).value;
    Sample(t.key(bucket), bucket, None)
  }

  const PLAIN_COLUMNS := {"status", "workflow_name", "queue_name", "executor_id", "application_version"}

  /** The group's labels are the workflow's own columns that were asked for; its status when none was. */
  predicate LabelsColumns(input: WorkflowAggregatesInput, w: WorkflowStatus, b: Bucket) {
    var others := input.groupByWorkflowName || input.groupByQueueName || input.groupByExecutorId || input.groupByApplicationVersion || input.timeBucketSize.Some?;
    && ("status" in b <==> input.groupByStatus || !others)
    && ("status" in b ==> b["status"].String? && NamesStatus(b["status"].s, w.status))
    && HasLabel(b, "workflow_name", input.groupByWorkflowName, String(w.name))
    && ("queue_name" in b <==> input.groupByQueueName) && ("queue_name" in b ==> LabelsText(b["queue_name"], w.queueName))
    && ("executor_id" in b <==> input.groupByExecutorId) && ("executor_id" in b ==> LabelsText(b["executor_id"], w.executorId))
    && HasLabel(b, "application_version", input.groupByApplicationVersion, String(w.applicationVersion))
  }

  /** And the bucket of its creation time. */
  ghost predicate LabelsWorkflow(t: Texts, input: WorkflowAggregatesInput, w: WorkflowStatus, b: Bucket) {
    && b.Keys <= PLAIN_COLUMNS + {"created_at_bucket"} && LabelsColumns(input, w, b)
    && ("created_at_bucket" in b <==> input.timeBucketSize.Some?)
    && ("created_at_bucket" in b ==> LabelsInstant(t, b["created_at_bucket"], w.createdAt, input.timeBucketSize.value))
  }

  ghost predicate IsSampleOf(t: Texts, input: WorkflowAggregatesInput, w: WorkflowStatus, s: Sample) {
    s.key == t.key(s.bucket) && s.duration == None && LabelsWorkflow(t, input, w, s.bucket)
  }

  /** `samples` are those of the workflows, in order. */
  ghost predicate AreWorkflowSamples(t: Texts, input: WorkflowAggregatesInput, listed: seq<WorkflowStatus>, samples: seq<Sample>) {
    && |samples| == |listed|
    && forall i :: 0 <= i < |listed| ==> IsSampleOf(t, input, listed[i], samples[i])
  }

  lemma PlainBucketLabels(input: WorkflowAggregatesInput, w: WorkflowStatus)
    ensures PlainBucket(input, w).Keys <= PLAIN_COLUMNS && LabelsColumns(input, w, PlainBucket(input, w))
  {
    var b := PlainBucket(input, w);
    assert "status" in b <==> !GroupsByAny(input) || input.groupByStatus;
    assert "workflow_name" in b <==> input.groupByWorkflowName;
    assert "queue_name" in b <==> input.groupByQueueName;
    assert "executor_id" in b <==> input.groupByExecutorId;
    assert "application_version" in b <==> input.groupByApplicationVersion;
  }

  lemma WorkflowSampleIsOne(t: Texts, input: WorkflowAggregatesInput, w: WorkflowStatus)
    requires WorkflowBucket(t, input, w).Ok?
    ensures IsSampleOf(t, input, w, WorkflowSample(t, input, w))
  {
    PlainBucketLabels(input, w);
    if input.timeBucketSize.Some? {
      BucketLabelsInstant(t, w.createdAt, input.timeBucketSize.value);
    }
  }

  lemma TextKeysMatch(t: Texts, samples: seq<Sample>)
    requires LawfulTexts(t) && forall s :: s in samples ==> s.key == t.key(s.bucket)
    ensures KeysMatchBuckets(samples)
  {
  }

  /** The size is not a positive number of milliseconds within 64 bits. */
  predicate UnusableSize(sizeNs: Option<nat>) {
    sizeNs.Some? && !(1 <= sizeNs.value / 1_000_000 <= MAX_I64)
  }

  lemma BucketFailsIff(t: Texts, input: WorkflowAggregatesInput, w: WorkflowStatus)
    ensures WorkflowBucket(t, input, w).Err? <==> UnusableSize(input.timeBucketSize)
  {
  }

  lemma OneMoreSample(t: Texts, input: WorkflowAggregatesInput, workflows: seq<WorkflowStatus>, i: nat, samples: seq<Sample>)
    requires LawfulTexts(t) && i < |workflows| && !UnusableSize(input.timeBucketSize)
    requires AreWorkflowSamples(t, input, workflows[..i], samples)
    ensures WorkflowBucket(t, input, workflows[i]).Ok?
    ensures AreWorkflowSamples(t, input, workflows[..i + 1], samples + [WorkflowSample(t, input, workflows[i])])
    ensures KeysMatchBuckets(samples + [WorkflowSample(t, input, workflows[i])])
  {
    BucketFailsIff(t, input, workflows[i]);
    WorkflowSampleIsOne(t, input, workflows[i]);
    TextKeysMatch(t, samples + [WorkflowSample(t, input, workflows[i])]);
  }

  method GroupWorkflows(t: Texts, input: WorkflowAggregatesInput, workflows: seq<WorkflowStatus>) returns (r: Result<seq<AggregateRow>>, ghost samples: seq<Sample>)
    requires LawfulTexts(t)
    ensures r.Err? <==> workflows != [] && UnusableSize(input.timeBucketSize)
    ensures r.Err? ==> r.error == InvalidArgument
    ensures r.Ok? ==> AreWorkflowSamples(t, input, workflows, samples) && IsGrouping(r.value, samples)
  {
    var groups := new Groups();
    for i := 0 to |workflows|
      invariant fresh(groups) && groups.Valid()
      invariant AreWorkflowSamples(t, input, workflows[..i], groups.samples)
      invariant i > 0 ==> !UnusableSize(input.timeBucketSize)
    {
      BucketFailsIff(t, input, workflows[i]);
      var bucket := WorkflowBucket(t, input, workflows[i]);
      if bucket.Err? {
        return Err(bucket.error), [];
      }
      OneMoreSample(t, input, workflows, i, groups.samples);
      groups.Record(t.key(bucket.value), bucket.value, None);
    }
    assert workflows[..|workflows|] == workflows;
    samples := groups.samples;
    var rows := groups.IntoRows();
    r := Ok(rows);
  }

  /** `r` answers the query over the listed workflows, whose samples are `samples`. */
  ghost predicate AnswersForWorkflows(rows: Rows, t: Texts, input: WorkflowAggregatesInput, r: Result<seq<AggregateRow>>,
                                      listed: seq<WorkflowStatus>, samples: seq<Sample>) {
    && IsListing(rows, input.filter, listed)
    && (r.Err? <==> listed != [] && UnusableSize(input.timeBucketSize))
    && (r.Err? ==> r.error == InvalidArgument)
    && (r.Ok? ==> AreWorkflowSamples(t, input, listed, samples) && IsGrouping(r.value, samples))
  }

  method GetWorkflowAggregatesWithInput(store: MemoryStore, t: Texts, input: WorkflowAggregatesInput) returns (r: Result<seq<AggregateRow>>)
    requires store.Valid() && LawfulTexts(t)
    ensures exists listed, samples :: AnswersForWorkflows(store.workflows, t, input, r, listed, samples)
  {
    var workflows := store.ListWorkflows(input.filter);
    ghost var samples;
    r, samples := GroupWorkflows(t, input, workflows);
    assert AnswersForWorkflows(store.workflows, t, input, r, workflows, samples);
  }

  // ----- steps -----

  function DurationMs(s: StepInfo): int {
    s.completedAt - s.startedAt
  }

  /** `samples` are those of the steps, in order: each labelled with its name, with the time from its start to its end. */
  ghost predicate AreNameSamples(steps: seq<StepInfo>, samples: seq<Sample>) {
    && |samples| == |steps|
    && forall i :: 0 <= i < |steps| ==>
         samples[i] == Sample(steps[i].stepName, map["function_name" := String(steps[i].stepName)], Some(steps[i].completedAt - steps[i].startedAt))
  }

  lemma OneMoreName(steps: seq<StepInfo>, i: nat, samples: seq<Sample>)
    requires i < |steps| && AreNameSamples(steps[..i], samples)
    ensures var all := samples + [Sample(steps[i].stepName, map["function_name" := String(steps[i].stepName)], Some(DurationMs(steps[i])))];
            AreNameSamples(steps[..i + 1], all) && KeysMatchBuckets(all)
  {
    var s := Sample(steps[i].stepName, map["function_name" := String(steps[i].stepName)], Some(DurationMs(steps[i])));
    forall x | x in samples + [s]
      ensures x.bucket == map["function_name" := String(x.key)]
    {
      assert x in samples || x == s;
    }
    NameKeysMatch(samples + [s]);
  }

  /** The number of steps by name, with the longest duration of each. */
  method StepCountsByName(steps: seq<StepInfo>) returns (counts: seq<AggregateRow>)
    ensures exists samples :: AreNameSamples(steps, samples) && IsGrouping(counts, samples)
  {
    var groups := new Groups();
    for i := 0 to |steps|
      invariant fresh(groups) && groups.Valid()
      invariant AreNameSamples(steps[..i], groups.samples)
    {
      OneMoreName(steps, i, groups.samples);
      groups.Record(steps[i].stepName, map["function_name" := String(steps[i].stepName)], Some(DurationMs(steps[i])));
    }
    assert steps[..|steps|] == steps;
    ghost var samples := groups.samples;
    counts := groups.IntoRows();
    assert AreNameSamples(steps, samples) && IsGrouping(counts, samples);
  }

  lemma NameKeysMatch(samples: seq<Sample>)
    requires forall s :: s in samples ==> s.bucket == map["function_name" := String(s.key)]
    ensures KeysMatchBuckets(samples)
  {
    forall a, b | a in samples && b in samples
      ensures a.key == b.key <==> a.bucket == b.bucket
    {
      assert a.bucket["function_name"] == String(a.key) && b.bucket["function_name"] == String(b.key);
    }
  }

  datatype StepAggregatesInput = StepAggregatesInput(
    filter: ListWorkflowsOptions,
    functionNames: seq<string>,
    statuses: seq<string>,
    completedAfter: Option<Time>,
    completedBefore: Option<Time>,
    groupByFunctionName: bool,
    groupByStatus: bool,
    timeBucketSize: Option<nat>,
    selectCount: bool,
    selectMaxDurationMs: bool)

  function ToLowerAscii(c: char): char {
    if 'A' <= c <= 'Z' then c - 'A' + 'a' else c
  }

  predicate EqIgnoreAsciiCase(a: string, b: string) {
    |a| == |b| && forall i :: 0 <= i < |a| ==> ToLowerAscii(a[i]) == ToLowerAscii(b[i])
  }

  function StepStatusText(s: StepInfo): string {
    if s.error.Some? then "ERROR" else "SUCCESS"
  }

  predicate Keeps(input: StepAggregatesInput, s: StepInfo) {
    && (input.functionNames == [] || s.stepName in input.functionNames)
    && (input.statuses == [] || exists i :: 0 <= i < |input.statuses| && EqIgnoreAsciiCase(input.statuses[i], StepStatusText(s)))
    && NotBefore(Some(s.completedAt), input.completedAfter)
    && NotAfter(Some(s.completedAt), input.completedBefore)
  }

  /** The filters of a step query one by one: each looks at one column, and together they keep what each keeps. */
  lemma StepFiltersKeep(input: StepAggregatesInput, s: StepInfo)
    ensures var none := input.(functionNames := [], statuses := [], completedAfter := None, completedBefore := None);
            && (Keeps(input, s) <==>
                  && Keeps(none.(functionNames := input.functionNames), s) && Keeps(none.(statuses := input.statuses), s)
                  && Keeps(none.(completedAfter := input.completedAfter), s) && Keeps(none.(completedBefore := input.completedBefore), s))
            && Keeps(none, s)
            && (input.functionNames != [] ==> (Keeps(none.(functionNames := input.functionNames), s) <==> s.stepName in input.functionNames))
            && (forall text :: EqIgnoreAsciiCase(text, if s.error == None then "SUCCESS" else "ERROR") <==> Keeps(none.(statuses := [text]), s))
            && (forall at :: Keeps(none.(completedAfter := Some(at)), s) <==> at <= s.completedAt)
            && (forall at :: Keeps(none.(completedBefore := Some(at)), s) <==> s.completedAt <= at)
  {
    forall text
      ensures EqIgnoreAsciiCase(text, StepStatusText(s)) <==> exists i :: 0 <= i < |[text]| && EqIgnoreAsciiCase([text][i], StepStatusText(s))
    {
      assert [text][0] == text;
    }
  }

  function KeptBy(input: StepAggregatesInput): StepInfo -> bool {
    (s: StepInfo) => Keeps(input, s)
  }

  function PlainStepBucket(input: StepAggregatesInput, s: StepInfo): Bucket {
    var groupsByAny := input.groupByFunctionName || input.groupByStatus || input.timeBucketSize.Some?;
    var b := Labelled(map[], "function_name", !groupsByAny || input.groupByFunctionName, String(s.stepName));
    Labelled(b, "status", input.groupByStatus, String(StepStatusText(s)))
  }

  function StepBucket(t: Texts, input: StepAggregatesInput, s: StepInfo): Result<Bucket> {
    if input.timeBucketSize.None? then Ok(PlainStepBucket(input, s))
    else
      var value := TimeBucketValue(t, s.completedAt, input.timeBucketSize.value);
      if value.Ok? then Ok(PlainStepBucket(input, s)["completed_at_bucket" := value.value]) else Err(value.error)
  }

  function StepSample(t: Texts, input: StepAggregatesInput, s: StepInfo): Sample
    requires StepBucket(t, input, s).Ok?
  {
    var bucket := StepBucket(t, input, s).value;
    Sample(t.key(bucket), bucket, if input.selectMaxDurationMs || !input.selectCount then Some(DurationMs(s)) else None)
  }

  const STEP_COLUMNS := {"function_name", "status", "completed_at_bucket"}

  /** The group's labels are the step's own columns that were asked for; its name when none was. */
  ghost predicate LabelsStep(t: Texts, input: StepAggregatesInput, s: StepInfo, b: Bucket) {
    && b.Keys <= STEP_COLUMNS
    && HasLabel(b, "function_name", input.groupByFunctionName || (!input.groupByStatus && input.timeBucketSize.None?), String(s.stepName))
    && HasLabel(b, "status", input.groupByStatus, String(if s.error == None then "SUCCESS" else "ERROR"))
    && ("completed_at_bucket" in b <==> input.timeBucketSize.Some?)
    && ("completed_at_bucket" in b ==> LabelsInstant(t, b["completed_at_bucket"], s.completedAt, input.timeBucketSize.value))
  }

  ghost predicate IsStepSampleOf(t: Texts, input: StepAggregatesInput, s: StepInfo, sample: Sample) {
    && sample.key == t.key(sample.bucket) && LabelsStep(t, input, s, sample.bucket)
    && sample.duration == if input.selectCount && !input.selectMaxDurationMs then None else Some(s.completedAt - s.startedAt)
  }

  ghost predicate AreStepSamples(t: Texts, input: StepAggregatesInput, steps: seq<StepInfo>, samples: seq<Sample>) {
    && |samples| == |steps|
    && (steps != [] ==> !UnusableSize(input.timeBucketSize))
    && forall i :: 0 <= i < |steps| ==> IsStepSampleOf(t, input, steps[i], samples[i])
  }

  lemma StepSampleIsOne(t: Texts, input: StepAggregatesInput, s: StepInfo)
    requires StepBucket(t, input, s).Ok?
    ensures IsStepSampleOf(t, input, s, StepSample(t, input, s))
  {
    if input.timeBucketSize.Some? {
      BucketLabelsInstant(t, s.completedAt, input.timeBucketSize.value);
    }
  }

  /** A step recorded by a call counts as an error exactly when its operation failed. */
  lemma RecordedStepCountsAs(c: Serialization.Codec, t: Texts, input: StepAggregatesInput, entry: StepInfo, sample: Sample,
                             workflow: string, id: int, name: string, portable: bool, operation: Result<Value>, startedAt: Time, completedAt: Time)
    requires R.RecordsOutcome(c, entry, workflow, id, name, portable, operation, startedAt, completedAt)
    requires IsStepSampleOf(t, input, entry, sample)
    ensures StepStatusText(entry) == "ERROR" <==> operation.Err?
    ensures input.groupByStatus ==> sample.bucket["status"] == String(if operation.Err? then "ERROR" else "SUCCESS")
    ensures input.groupByFunctionName ==> sample.bucket["function_name"] == String(name)
    ensures input.selectMaxDurationMs ==> sample.duration == Some(completedAt - startedAt)
  {
  }

  function Flatten(lists: seq<seq<StepInfo>>): seq<StepInfo> {
    if lists == [] then [] else Flatten(lists[..|lists| - 1]) + lists[|lists| - 1]
  }

  /** A step that is kept adds its sample, one that is not adds nothing. */
  lemma OneMoreStep(t: Texts, input: StepAggregatesInput, before: seq<StepInfo>, s: StepInfo, samples: seq<Sample>)
    requires LawfulTexts(t) && AreStepSamples(t, input, Filter(before, KeptBy(input)), samples)
    ensures !Keeps(input, s) ==> AreStepSamples(t, input, Filter(before + [s], KeptBy(input)), samples)
    ensures Keeps(input, s) && StepBucket(t, input, s).Ok? ==>
              && AreStepSamples(t, input, Filter(before + [s], KeptBy(input)), samples + [StepSample(t, input, s)])
              && KeysMatchBuckets(samples + [StepSample(t, input, s)])
  {
    FilterConcat(before, [s], KeptBy(input));
    if !Keeps(input, s) {
      assert Filter([s], KeptBy(input)) == [];
    } else if StepBucket(t, input, s).Ok? {
      assert Filter([s], KeptBy(input)) == [s];
      StepSampleIsOne(t, input, s);
      TextKeysMatch(t, samples + [StepSample(t, input, s)]);
    }
  }

  method RecordStep(groups: Groups, t: Texts, input: StepAggregatesInput, s: StepInfo, ghost before: seq<StepInfo>) returns (ok: bool)
    requires groups.Valid() && LawfulTexts(t)
    requires AreStepSamples(t, input, Filter(before, KeptBy(input)), groups.samples)
    modifies groups
    ensures groups.Valid()
    ensures ok ==> AreStepSamples(t, input, Filter(before + [s], KeptBy(input)), groups.samples)
    ensures !ok ==> Keeps(input, s) && UnusableSize(input.timeBucketSize)
  {
    OneMoreStep(t, input, before, s, groups.samples);
    if Keeps(input, s) {
      if StepBucket(t, input, s).Err? {
        return false;
      }
      var sample := StepSample(t, input, s);
      groups.Record(sample.key, sample.bucket, sample.duration);
    }
    return true;
  }

  /** One workflow's steps are added to the groups; the first kept step without a bucket ends it. */
  method RecordSteps(groups: Groups, t: Texts, input: StepAggregatesInput, steps: seq<StepInfo>, ghost before: seq<StepInfo>) returns (ok: bool)
    requires groups.Valid() && LawfulTexts(t)
    requires AreStepSamples(t, input, Filter(before, KeptBy(input)), groups.samples)
    modifies groups
    ensures groups.Valid()
    ensures ok ==> AreStepSamples(t, input, Filter(before + steps, KeptBy(input)), groups.samples)
    ensures !ok ==> UnusableSize(input.timeBucketSize) && exists s :: s in steps && Keeps(input, s)
  {
    assert before + steps[..0] == before;
    for i := 0 to |steps|
      invariant groups.Valid()
      invariant AreStepSamples(t, input, Filter(before + steps[..i], KeptBy(input)), groups.samples)
    {
      assert before + steps[..i + 1] == before + steps[..i] + [steps[i]];
      var recorded := RecordStep(groups, t, input, steps[i], before + steps[..i]);
      if !recorded {
        assert steps[i] in steps;
        return false;
      }
    }
    assert steps[..|steps|] == steps;
    return true;
  }

  lemma FlattenOneMore(lists: seq<seq<StepInfo>>, last: seq<StepInfo>)
    ensures Flatten(lists + [last]) == Flatten(lists) + last
  {
    assert (lists + [last])[..|lists|] == lists;
  }

  method GroupSteps(store: MemoryStore, t: Texts, input: StepAggregatesInput, workflows: seq<WorkflowStatus>)
    returns (r: Result<seq<AggregateRow>>, ghost steps: seq<seq<StepInfo>>, ghost samples: seq<Sample>)
    requires store.Valid() && LawfulTexts(t)
    ensures |steps| <= |workflows| && forall i :: 0 <= i < |steps| ==> IsStepList(store.steps, workflows[i].id, steps[i])
    ensures r.Ok? ==> |steps| == |workflows| && AreStepSamples(t, input, Filter(Flatten(steps), KeptBy(input)), samples) && IsGrouping(r.value, samples)
    ensures r.Err? ==> r.error == InvalidArgument && UnusableSize(input.timeBucketSize) && exists s :: s in Flatten(steps) && Keeps(input, s)
  {
    steps, samples := [], [];
    var groups := new Groups();
    for i := 0 to |workflows|
      invariant fresh(groups) && groups.Valid()
      invariant |steps| == i && forall j :: 0 <= j < i ==> IsStepList(store.steps, workflows[j].id, steps[j])
      invariant AreStepSamples(t, input, Filter(Flatten(steps), KeptBy(input)), groups.samples)
    {
      var mine := store.ListSteps(workflows[i].id);
      FlattenOneMore(steps, mine);
      var ok := RecordSteps(groups, t, input, mine, Flatten(steps));
      steps := steps + [mine];
      if !ok {
        r := Err(InvalidArgument);
        return;
      }
    }
    samples := groups.samples;
    var rows := groups.IntoRows();
    r := Ok(rows);
  }

  /** `r` answers the query over the steps of the listed workflows; a failure has read only some of them. */
  ghost predicate AnswersForSteps(s: Store, t: Texts, input: StepAggregatesInput, r: Result<seq<AggregateRow>>,
                                  listed: seq<WorkflowStatus>, steps: seq<seq<StepInfo>>, samples: seq<Sample>) {
    && IsListing(s.workflows, input.filter, listed)
    && |steps| <= |listed| && (forall i :: 0 <= i < |steps| ==> IsStepList(s.steps, listed[i].id, steps[i]))
    && (r.Ok? ==> |steps| == |listed| && AreStepSamples(t, input, Filter(Flatten(steps), KeptBy(input)), samples) && IsGrouping(r.value, samples))
    && (r.Err? ==> r.error == InvalidArgument && UnusableSize(input.timeBucketSize) && exists x :: x in Flatten(steps) && Keeps(input, x))
  }

  method GetStepAggregatesWithInput(store: MemoryStore, t: Texts, input: StepAggregatesInput) returns (r: Result<seq<AggregateRow>>)
    requires store.Valid() && LawfulTexts(t)
    ensures exists listed, steps, samples :: AnswersForSteps(store.Contents(), t, input, r, listed, steps, samples)
  {
    var workflows := store.ListWorkflows(input.filter);
    ghost var steps, samples;
    r, steps, samples := GroupSteps(store, t, input, workflows);
    assert AnswersForSteps(store.Contents(), t, input, r, workflows, steps, samples);
  }
}
