/** Import of an exported workflow tree, node by node, into a store. */
module Import {
  import opened Types
  import opened StoreSpec
  import opened MemoryStore
  import opened Transfer

  type Steps = map<(string, int), StepInfo>
  type Events = map<(string, string), WorkflowEvent>
  type Streams = map<(string, string), seq<StreamEntry>>

  // ----- what an import does, as functions -----

  function ImportSteps(steps: Steps, id: string, l: seq<StepInfo>): (Steps, bool)
    decreases |l|
  {
    if l == [] then (steps, true)
    else if l[0].workflowId != id then (steps, false)
    else ImportSteps(RecordStep(steps, l[0]), id, l[1..])
  }

  function ImportEvents(events: Events, id: string, l: seq<WorkflowEvent>): (Events, bool)
    decreases |l|
  {
    if l == [] then (events, true)
    else if l[0].workflowId != id then (events, false)
    else ImportEvents(SetEvent(events, l[0]), id, l[1..])
  }

  function ImportStreams(streams: Streams, id: string, l: seq<StreamEntry>): (Streams, bool)
    decreases |l|
  {
    if l == [] then (streams, true)
    else if l[0].workflowId != id then (streams, false)
    else ImportStreams(WriteStream(streams, l[0]), id, l[1..])
  }

  function ImportMessages(messages: seq<WorkflowMessage>, id: string, l: seq<WorkflowMessage>): (seq<WorkflowMessage>, bool)
    decreases |l|
  {
    if l == [] then (messages, true)
    else if l[0].destinationId != id then (messages, false)
    else ImportMessages(messages + [l[0]], id, l[1..])
  }

  /** Steps, events, streams and messages of one node; the first foreign entry stops it, and what was written
      before stays written. */
  function ImportData(s: Store, id: string, x: Export): (Store, bool) {
    var (steps', stepsOk) := ImportSteps(s.steps, id, x.steps);
    if !stepsOk then (s.(steps := steps'), false)
    else
      var (events', eventsOk) := ImportEvents(s.events, id, x.events);
      if !eventsOk then (s.(steps := steps', events := events'), false)
      else
        var (streams', streamsOk) := ImportStreams(s.streams, id, x.streams);
        if !streamsOk then (s.(steps := steps', events := events', streams := streams'), false)
        else
          var (messages', messagesOk) := ImportMessages(s.messages, id, x.messages);
          (s.(steps := steps', events := events', streams := streams', messages := messages'), messagesOk)
  }

  function ImportNode(s: Store, x: Export): (Store, Option<DbosError>) {
    var (rows', r) := InsertWorkflow(s.workflows, x.workflow, true);
    if r.Err? then (s, Some(r.error))
    else if r.value == ExistingExact then (s, Some(ConflictingWorkflow(x.workflow.id)))
    else
      var (s', ok) := ImportData(s.(workflows := rows'), x.workflow.id, x);
      (s', if ok then None else Some(InvalidArgument))
  }

  function ImportTree(s: Store, x: Export): (Store, Option<DbosError>)
    decreases x, 0
  {
    var (s', e) := ImportNode(s, x);
    if e.Some? then (s', e) else ImportAll(s', x.children)
  }

  function ImportAll(s: Store, xs: seq<Export>): (Store, Option<DbosError>)
    decreases xs, 1
  {
    if xs == [] then (s, None)
    else
      var (s', e) := ImportTree(s, xs[0]);
      if e.Some? then (s', e) else ImportAll(s', xs[1..])
  }

  // ----- the import calls -----

  method CopySteps(store: MemoryStore, id: string, l: seq<StepInfo>) returns (ok: bool)
    requires store.Valid()
    modifies store
    ensures store.Valid()
    ensures (store.steps, ok) == ImportSteps(old(store.steps), id, l)
    ensures store.Contents() == old(store.Contents()).(steps := store.steps)
  {
    for i := 0 to |l|
      invariant store.Valid()
      invariant ImportSteps(old(store.steps), id, l) == ImportSteps(store.steps, id, l[i..])
      invariant store.Contents() == old(store.Contents()).(steps := store.steps)
    {
      assert l[i..][0] == l[i] && l[i..][1..] == l[i + 1..];
      if l[i].workflowId != id {
        return false;
      }
      store.RecordStep(l[i]);
    }
    return true;
  }

  method CopyEvents(store: MemoryStore, id: string, l: seq<WorkflowEvent>) returns (ok: bool)
    requires store.Valid()
    modifies store
    ensures store.Valid()
    ensures (store.events, ok) == ImportEvents(old(store.events), id, l)
    ensures store.Contents() == old(store.Contents()).(events := store.events)
  {
    for i := 0 to |l|
      invariant store.Valid()
      invariant ImportEvents(old(store.events), id, l) == ImportEvents(store.events, id, l[i..])
      invariant store.Contents() == old(store.Contents()).(events := store.events)
    {
      assert l[i..][0] == l[i] && l[i..][1..] == l[i + 1..];
      if l[i].workflowId != id {
        return false;
      }
      store.SetEvent(l[i]);
    }
    return true;
  }

  method CopyStreams(store: MemoryStore, id: string, l: seq<StreamEntry>) returns (ok: bool)
    requires store.Valid()
    modifies store
    ensures store.Valid()
    ensures (store.streams, ok) == ImportStreams(old(store.streams), id, l)
    ensures store.Contents() == old(store.Contents()).(streams := store.streams)
  {
    for i := 0 to |l|
      invariant store.Valid()
      invariant ImportStreams(old(store.streams), id, l) == ImportStreams(store.streams, id, l[i..])
      invariant store.Contents() == old(store.Contents()).(streams := store.streams)
    {
      assert l[i..][0] == l[i] && l[i..][1..] == l[i + 1..];
      if l[i].workflowId != id {
        return false;
      }
      store.WriteStream(l[i]);
    }
    return true;
  }

  method CopyMessages(store: MemoryStore, id: string, l: seq<WorkflowMessage>) returns (ok: bool)
    requires store.Valid()
    modifies store
    ensures store.Valid()
    ensures (store.messages, ok) == ImportMessages(old(store.messages), id, l)
    ensures store.Contents() == old(store.Contents()).(messages := store.messages)
  {
    for i := 0 to |l|
      invariant store.Valid()
      invariant ImportMessages(old(store.messages), id, l) == ImportMessages(store.messages, id, l[i..])
      invariant store.Contents() == old(store.Contents()).(messages := store.messages)
    {
      assert l[i..][0] == l[i] && l[i..][1..] == l[i + 1..];
      if l[i].destinationId != id {
        return false;
      }
      store.SendMessage(l[i]);
    }
    return true;
  }

  method CopyData(store: MemoryStore, id: string, x: Export) returns (ok: bool)
    requires store.Valid()
    modifies store
    ensures store.Valid()
    ensures (store.Contents(), ok) == ImportData(old(store.Contents()), id, x)
  {
    ok := CopySteps(store, id, x.steps);
    if !ok {
      return;
    }
    ok := CopyEvents(store, id, x.events);
    if !ok {
      return;
    }
    ok := CopyStreams(store, id, x.streams);
    if !ok {
      return;
    }
    ok := CopyMessages(store, id, x.messages);
  }

  method ImportWorkflow(store: MemoryStore, x: Export) returns (e: Option<DbosError>)
    requires store.Valid()
    modifies store
    ensures store.Valid()
    ensures (store.Contents(), e) == ImportTree(old(store.Contents()), x)
    decreases x
  {
    var inserted := store.InsertWorkflowWithResult(x.workflow);
    if inserted.Err? {
      return Some(inserted.error);
    }
    if inserted.value == ExistingExact {
      return Some(ConflictingWorkflow(x.workflow.id));
    }
    var ok := CopyData(store, x.workflow.id, x);
    if !ok {
      return Some(InvalidArgument);
    }
    for i := 0 to |x.children|
      invariant store.Valid()
      invariant ImportTree(old(store.Contents()), x) == ImportAll(store.Contents(), x.children[i..])
    {
      assert x.children[i..][0] == x.children[i] && x.children[i..][1..] == x.children[i + 1..];
      var failed := ImportWorkflow(store, x.children[i]);
      if failed.Some? {
        return failed;
      }
    }
    return None;
  }

  /** An import never overwrites: when the root is already there nothing changes, whatever the tree holds. */
  lemma ImportRefusesToOverwrite(s: Store, x: Export)
    requires x.workflow.id in s.workflows
    ensures ImportTree(s, x) == (s, Some(ConflictingWorkflow(x.workflow.id)))
  {
  }
}
