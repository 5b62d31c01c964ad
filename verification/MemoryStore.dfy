/** The in-memory system database: an object whose methods update maps and a vector in place. Every method is
    proved to do what the function of `StoreSpec` with its name says and to leave the other collections alone. */
module MemoryStore {
  import opened Types
  import opened Sequences
  import opened StoreSpec
  import opened Listing

  class MemoryStore {
    var workflows: Rows
    var steps: map<(string, int), StepInfo>
    var messages: seq<WorkflowMessage>
    var events: map<(string, string), WorkflowEvent>
    var streams: map<(string, string), seq<StreamEntry>>

    ghost function Contents(): Store
      reads this
    {
      Store(workflows, steps, messages, events, streams)
    }

    ghost predicate Valid()
      reads this
    {
      WellKeyed(Contents())
    }

    constructor ()
      ensures Contents() == EMPTY_STORE && Valid()
    {
      workflows, steps, messages, events, streams := map[], map[], [], map[], map[];
    }

    method InsertWorkflowWithResult(w: WorkflowStatus) returns (r: Result<WorkflowInsertResult>)
      requires Valid()
      modifies this
      ensures Valid()
      ensures (workflows, r) == InsertWorkflow(old(workflows), w, true)
      ensures AnswersInsert(old(workflows), workflows, w, r)
      ensures Contents() == old(Contents()).(workflows := workflows)
    {
      SlotTakenIff(workflows, w);
      if w.id in workflows {
        return EnsureWorkflowIdentityMatches(workflows[w.id], w);
      }
      if w.queueName.Some? && w.deduplicationId.Some? {
        var remaining := workflows.Keys;
        while remaining != {}
          invariant remaining <= workflows.Keys
          invariant forall id :: id in workflows && id !in remaining ==> !HoldsSlotOf(workflows[id], w)
          invariant Contents() == old(Contents())
          decreases remaining
        {
          var id :| id in remaining;
          var item := workflows[id];
          if item.queueName == w.queueName && item.deduplicationId == w.deduplicationId && !item.status.IsTerminal() {
            assert HoldsSlotOf(workflows[id], w);
            return Err(QueueDeduplicated(w.queueName.value, w.deduplicationId.value));
          }
          remaining := remaining - {id};
        }
      }
      assert !SlotTaken(workflows, w);
      workflows := workflows[w.id := w];
      return Ok(Inserted);
    }

    method ClaimWorkflowExecution(id: string, executor: string, execution: string, now: Time) returns (claimed: bool)
      requires Valid()
      modifies this
      ensures Valid()
      ensures (workflows, claimed) == StoreSpec.ClaimWorkflowExecution(old(workflows), id, executor, execution, now)
      ensures AnswersClaim(old(workflows), workflows, id, executor, execution, now, claimed)
      ensures Contents() == old(Contents()).(workflows := workflows)
    {
      if id !in workflows {
        return false;
      }
      var w := workflows[id];
      if w.executionId == Some(execution) {
        return true;
      }
      if !(w.status == Pending || w.status == Enqueued) || w.executorId.Some? {
        return false;
      }
      w := w.(status := Pending);
      w := w.(executorId := Some(executor));
      w := w.(executionId := Some(execution));
      w := w.(updatedAt := now);
      workflows := workflows[id := w];
      return true;
    }

    method SaveWorkflow(w: WorkflowStatus)
      requires Valid()
      modifies this
      ensures Valid()
      ensures Contents() == old(Contents()).(workflows := StoreSpec.SaveWorkflow(old(workflows), w))
    {
      workflows := workflows[w.id := w];
    }

    method GetWorkflow(id: string) returns (r: Option<WorkflowStatus>)
      ensures r == StoreSpec.GetWorkflow(workflows, id)
    {
      if id in workflows {
        return Some(workflows[id]);
      }
      return None;
    }

    method ListWorkflows(o: ListWorkflowsOptions) returns (r: seq<WorkflowStatus>)
      requires Valid()
      ensures IsListing(workflows, o, r)
      ensures IsPageOfMatches(workflows, o, r)
    {
      var order: seq<string> := MapOrder(workflows);
      var all := RowsInOrder(workflows, order);
      var matching := [];
      for i := 0 to |all|
        invariant matching == Matching(all[..i], o)
      {
        assert all[..i + 1] == all[..i] + [all[i]];
        FilterConcat(all[..i], [all[i]], MatchesOf(o));
        if WorkflowMatches(all[i], o) {
          matching := matching + [all[i]];
        }
      }
      assert all[..|all|] == all;
      var rows := new WorkflowRows(matching);
      rows.SortAndPage(o);
      rows.ApplyLoadOptions(o);
      assert ListingInOrder(workflows, order, o, rows.items);
      ListingIsPageOfMatches(workflows, order, o, rows.items);
      return rows.items;
    }

    method DeleteWorkflows(ids: seq<string>)
      requires Valid()
      modifies this
      ensures Valid()
      ensures Contents() == StoreSpec.DeleteWorkflows(old(Contents()), IdSet(ids))
    {
      var idSet := IdSet(ids);
      for i := 0 to |ids|
        invariant Contents() == old(Contents()).(workflows := old(workflows) - IdSet(ids[..i]))
      {
        workflows := workflows - {ids[i]};
        assert IdSet(ids[..i + 1]) == IdSet(ids[..i]) + {ids[i]};
      }
      assert ids[..|ids|] == ids;
      steps := map k | k in steps && k.0 !in idSet :: steps[k];
      events := map k | k in events && k.0 !in idSet :: events[k];
      streams := map k | k in streams && k.0 !in idSet :: streams[k];
      messages := Filter(messages, NotFor(idSet));
    }

    method RecordStep(step: StepInfo)
      requires Valid()
      modifies this
      ensures Valid()
      ensures Contents() == old(Contents()).(steps := StoreSpec.RecordStep(old(steps), step))
    {
      steps := steps[(step.workflowId, step.stepId) := step];
    }

    method GetStep(id: string, stepId: int) returns (r: Option<StepInfo>)
      ensures r == if (id, stepId) in steps then Some(steps[(id, stepId)]) else None
    {
      if (id, stepId) in steps {
        return Some(steps[(id, stepId)]);
      }
      return None;
    }

    method ListSteps(id: string) returns (r: seq<StepInfo>)
      requires Valid()
      ensures IsStepList(steps, id, r)
    {
      var order := MapOrder(steps);
      var found: seq<StepInfo> := [];
      for i := 0 to |order|
        invariant forall x :: x in found <==> (id, x.stepId) in order[..i] && (id, x.stepId) in steps && steps[(id, x.stepId)] == x
        invariant forall a, b :: 0 <= a < b < |found| ==> found[a].stepId != found[b].stepId
      {
        var k := order[i];
        if steps[k].workflowId == id {
          found := found + [steps[k]];
        }
      }
      r := StableSort(found, ByStepId());
      StableSortMultiset(found, ByStepId());
      StableSortOrders(found, ByStepId());
      DistinctMultiset(found, r);
      forall a, b | 0 <= a < b < |r|
        ensures r[a].stepId < r[b].stepId
      {
        assert ByStepId()(r[a], r[b]);
        assert r[a] in found && r[b] in found;
      }
    }

    method SetEvent(event: WorkflowEvent)
      requires Valid()
      modifies this
      ensures Valid()
      ensures Contents() == old(Contents()).(events := StoreSpec.SetEvent(old(events), event))
    {
      events := events[(event.workflowId, event.key) := event];
    }

    method GetEvent(id: string, key: string) returns (r: Option<WorkflowEvent>)
      ensures r == if (id, key) in events then Some(events[(id, key)]) else None
    {
      if (id, key) in events {
        return Some(events[(id, key)]);
      }
      return None;
    }

    method ListEvents(id: string) returns (r: seq<WorkflowEvent>)
      requires Valid()
      ensures IsEventList(events, id, r)
    {
      var order := MapOrder(events);
      var found: seq<WorkflowEvent> := [];
      for i := 0 to |order|
        invariant forall x :: x in found <==> (id, x.key) in order[..i] && (id, x.key) in events && events[(id, x.key)] == x
        invariant forall a, b :: 0 <= a < b < |found| ==> found[a].key != found[b].key
      {
        var k := order[i];
        if events[k].workflowId == id {
          found := found + [events[k]];
        }
      }
      r := StableSort(found, ByCreation());
      StableSortMultiset(found, ByCreation());
      StableSortOrders(found, ByCreation());
      DistinctMultiset(found, r);
      forall a, b | 0 <= a < b < |r|
        ensures r[a].createdAt <= r[b].createdAt && r[a].key != r[b].key
      {
        assert ByCreation()(r[a], r[b]);
        assert r[a] in found && r[b] in found;
      }
    }

    method SendMessage(m: WorkflowMessage)
      requires Valid()
      modifies this
      ensures Valid()
      ensures Contents() == old(Contents()).(messages := old(messages) + [m])
    {
      messages := messages + [m];
    }

    method RecvMessage(destination: string, topic: string) returns (r: Option<WorkflowMessage>)
      requires Valid()
      modifies this
      ensures Valid()
      ensures (messages, r) == StoreSpec.RecvMessage(old(messages), destination, topic)
      ensures Contents() == old(Contents()).(messages := messages)
    {
      var i := 0;
      while i < |messages| && (messages[i].consumed || messages[i].destinationId != destination || messages[i].topic != topic)
        invariant 0 <= i <= |messages|
        invariant forall j :: 0 <= j < i ==> !Deliverable(messages[j], destination, topic)
        invariant Contents() == old(Contents())
      {
        i := i + 1;
      }
      var first := FirstDeliverable(messages, destination, topic);
      assert i == first;
      if i == |messages| {
        return None;
      }
      messages := messages[i := messages[i].(consumed := true)];
      return Some(messages[i]);
    }

    method ListMessages(id: string) returns (r: seq<WorkflowMessage>)
      ensures r == StoreSpec.ListMessages(messages, id)
    {
      r := StableSort(Filter(messages, AddressedTo(id)), MessageOrder());
    }

    method WriteStream(entry: StreamEntry)
      requires Valid()
      modifies this
      ensures Valid()
      ensures Contents() == old(Contents()).(streams := StoreSpec.WriteStream(old(streams), entry))
    {
      var k := (entry.workflowId, entry.key);
      if k !in streams {
        streams := streams[k := []];
      }
      streams := streams[k := streams[k] + [entry]];
    }

    method ReadStream(id: string, key: string) returns (r: seq<StreamEntry>)
      ensures r == StreamOf(streams, id, key)
    {
      if (id, key) in streams {
        return streams[(id, key)];
      }
      return [];
    }

    method ListStreams(id: string) returns (r: seq<StreamEntry>)
      requires Valid()
      ensures IsStreamList(streams, id, r)
    {
      var order := MapOrder(streams);
      var flat: seq<StreamEntry> := [];
      for i := 0 to |order|
        invariant flat == EntriesOf(streams, id, order[..i])
      {
        var entries := streams[order[i]];
        var kept := Filter(entries, (e: StreamEntry) => e.workflowId == id);
        if order[i].0 == id {
          FilterAll(entries, (e: StreamEntry) => e.workflowId == id);
        } else {
          FilterNone(entries, (e: StreamEntry) => e.workflowId == id);
        }
        assert order[..i + 1] == order[..i] + [order[i]];
        EntriesOfConcat(streams, id, order[..i], [order[i]]);
        flat := flat + kept;
      }
      assert order[..|order|] == order;
      r := StableSort(flat, StreamOrder());
    }

    method CloseStream(id: string, key: string, now: Time)
      requires Valid()
      modifies this
      ensures Valid()
      ensures Contents() == old(Contents()).(streams := StoreSpec.CloseStream(old(streams), id, key, now))
    {
      var k := (id, key);
      if k !in streams {
        streams := streams[k := []];
      }
      streams := streams[k := streams[k] + [StreamEntry(id, key, |streams[k]|, None, "DBOS_JSON", true, now)]];
    }
  }

  function IdSet(ids: seq<string>): set<string> {
    set id | id in ids
  }

  lemma {:induction false} EntriesOfConcat(streams: map<(string, string), seq<StreamEntry>>, id: string, a: seq<(string, string)>, b: seq<(string, string)>)
    ensures EntriesOf(streams, id, a + b) == EntriesOf(streams, id, a) + EntriesOf(streams, id, b)
  {
    if a == [] {
      assert a + b == b;
    } else {
      EntriesOfConcat(streams, id, a[1..], b);
      assert (a + b)[1..] == a[1..] + b;
    }
  }

  /** Some iteration order of a hash map. */
  method MapOrder<K(!new, ==), V>(m: map<K, V>) returns (keys: seq<K>)
    ensures Enumerates(keys, m)
  {
    keys := [];
    var remaining := m.Keys;
    while remaining != {}
      invariant remaining <= m.Keys
      invariant Distinct(keys)
      invariant forall k :: k in keys <==> k in m && k !in remaining
      decreases remaining
    {
      var k :| k in remaining;
      keys := keys + [k];
      remaining := remaining - {k};
    }
  }
}
