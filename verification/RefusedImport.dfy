/** A store that the engine's own calls can reach and whose export an empty store refuses: the deduplication
    invariant alone does not make the round trip succeed. */
module RefusedImport {
  import opened Types
  import opened StoreSpec
  import opened Execution
  import opened Deduplication
  import opened Transfer
  import opened Import
  import opened RoundTrip

  function Row(id: string, createdAt: Time, parent: Option<string>, slot: Option<string>): WorkflowStatus {
    NewWorkflow(id, "job", "v1", "DBOS_JSON", createdAt).(status := Enqueued, parentWorkflowId := parent, queueName := Some("q"), deduplicationId := slot)
  }

  /** A root with two children; the second child finishes and frees its slot, which a child of the first takes. */
  function Calls(): seq<Op> {
    [Op.Insert(Row("root", 0, None, None)),
     Op.Insert(Row("first", 1, Some("root"), None)),
     Op.Insert(Row("second", 2, Some("root"), Some("slot"))),
     Op.Cancel("second", 3),
     Op.Insert(Row("grandchild", 4, Some("first"), Some("slot")))]
  }

  function Reached(): Rows {
    map["root" := Row("root", 0, None, None),
        "first" := Row("first", 1, Some("root"), None),
        "second" := CancelledCopy(Row("second", 2, Some("root"), Some("slot")), 3),
        "grandchild" := Row("grandchild", 4, Some("first"), Some("slot"))]
  }

  lemma HistoryReaches()
    ensures ApplyAll(map[], Calls()) == Reached()
    ensures SlotsUnique(Reached())
  {
    var ops := Calls();
    var r1 := Apply(map[], ops[0]);
    var r2 := Apply(r1, ops[1]);
    var r3 := Apply(r2, ops[2]);
    var r4 := Apply(r3, ops[3]);
    var r5 := Apply(r4, ops[4]);
    assert r5 == Reached();
    assert ops[1..][1..] == ops[2..] && ops[2..][1..] == ops[3..] && ops[3..][1..] == ops[4..] && ops[4..][1..] == [];
    assert ApplyAll(r5, []) == r5;
    assert ApplyAll(r4, ops[4..]) == r5;
    assert ApplyAll(r3, ops[3..]) == r5;
    assert ApplyAll(r2, ops[2..]) == r5;
    assert ApplyAll(r1, ops[1..]) == r5;
    SlotsStayUnique(map[], ops);
  }

  lemma {:induction false} EarlierTreeFirst(xs: seq<Export>, i: nat, j: nat, id: string) returns (a: nat, b: nat)
    requires i < j < |xs| && id in IdsIn(Preorder(xs[i]))
    ensures a < b < |PreorderAll(xs)|
    ensures PreorderAll(xs)[a].id == id && PreorderAll(xs)[b] == xs[j].workflow
  {
    var first, rest := Preorder(xs[0]), PreorderAll(xs[1..]);
    if i == 0 {
      a :| 0 <= a < |first| && first[a].id == id;
      b := HeadOf(xs[1..], j - 1);
      b := |first| + b;
    } else {
      a, b := EarlierTreeFirst(xs[1..], i - 1, j - 1, id);
      a, b := |first| + a, |first| + b;
    }
  }

  lemma {:induction false} HeadOf(xs: seq<Export>, j: nat) returns (b: nat)
    requires j < |xs|
    ensures b < |PreorderAll(xs)| && PreorderAll(xs)[b] == xs[j].workflow
  {
    b := 0;
    if j > 0 {
      b := HeadOf(xs[1..], j - 1);
      b := |Preorder(xs[0])| + b;
    }
  }

  lemma EveryRowOfAnExport(s: Store, id: string, x: Export, deep: bool, w: WorkflowStatus)
    requires WellKeyed(s) && IsExport(s, id, x, deep) && w in Preorder(x)
    ensures w.id in s.workflows && w == s.workflows[w.id]
    decreases x
  {
    if w != x.workflow {
      RowOfSome(x.children, w);
      var i :| 0 <= i < |x.children| && w in Preorder(x.children[i]);
      EveryRowOfAnExport(s, x.children[i].workflow.id, x.children[i], deep, w);
    }
  }

  lemma {:induction false} RowOfSome(xs: seq<Export>, w: WorkflowStatus)
    requires w in PreorderAll(xs)
    ensures exists i :: 0 <= i < |xs| && w in Preorder(xs[i])
  {
    if w !in Preorder(xs[0]) {
      RowOfSome(xs[1..], w);
      var i :| 0 <= i < |xs[1..]| && w in Preorder(xs[1..][i]);
      assert xs[i + 1] == xs[1..][i];
    }
  }

  lemma ChildrenAt(s: Store, id: string, x: Export, older: string, younger: string) returns (i: nat, j: nat)
    requires IsExport(s, id, x, true)
    requires IsChild(s.workflows, older, id) && IsChild(s.workflows, younger, id)
    requires s.workflows[older].createdAt < s.workflows[younger].createdAt
    ensures i < j < |x.children|
    ensures IsExport(s, older, x.children[i], true) && IsExportOfOne(s, younger, x.children[j])
  {
    var ids := Ids(x.children);
    assert older in ids && younger in ids;
    i :| i < |ids| && ids[i] == older;
    j :| j < |ids| && ids[j] == younger;
    assert x.children[i].workflow.id == older && x.children[j].workflow.id == younger;
  }

  /** An import inserts the whole tree of an older child before a younger child. */
  lemma OlderTreeFirst(s: Store, id: string, x: Export, older: string, younger: string, d: string) returns (a: nat, b: nat)
    requires WellKeyed(s) && IsExport(s, id, x, true)
    requires IsChild(s.workflows, older, id) && IsChild(s.workflows, younger, id) && Descends(s.workflows, d, older)
    requires s.workflows[older].createdAt < s.workflows[younger].createdAt
    ensures a < b < |Preorder(x)| && d in s.workflows
    ensures Preorder(x)[a] == s.workflows[d] && Preorder(x)[b] == s.workflows[younger]
  {
    var i, j := ChildrenAt(s, id, x, older, younger);
    HeldBelow(s, older, x.children[i], d);
    a, b := EarlierInPreorder(x, i, j, d);
    EveryRowOfAnExport(s, id, x, true, Preorder(x)[a]);
  }

  lemma HeldBelow(s: Store, c: string, x: Export, d: string)
    requires WellKeyed(s) && IsExport(s, c, x, true) && Descends(s.workflows, d, c)
    ensures d in IdsIn(Preorder(x))
  {
    ExportHoldsTheDescendants(s, c, x);
    StartsInRows(s.workflows, d, c);
  }

  lemma EarlierInPreorder(x: Export, i: nat, j: nat, d: string) returns (a: nat, b: nat)
    requires i < j < |x.children| && d in IdsIn(Preorder(x.children[i]))
    ensures a < b < |Preorder(x)| && Preorder(x)[a] in Preorder(x)
    ensures Preorder(x)[a].id == d && Preorder(x)[b] == x.children[j].workflow
  {
    a, b := EarlierTreeFirst(x.children, i, j, d);
    a, b := a + 1, b + 1;
  }

  /** Every export of the root is refused by the empty store, although no two unfinished workflows of the source
      share a slot: the grandchild is inserted before the finished child whose slot it took over. */
  lemma ReachableTreeIsRefused(s: Store, x: Export)
    requires Exportable(s) && s.workflows == Reached() && IsExport(s, "root", x, true)
    ensures ApplyAll(map[], Calls()) == s.workflows && SlotsUnique(s.workflows) && Acyclic(s.workflows)
    ensures ImportTree(EMPTY_STORE, x).1.Some?
  {
    HistoryReaches();
    ReachedIsAcyclic();
    SlotPassedOn();
    SlotHeldEarlierIsRefused(s, "root", x, "first", "second", "grandchild");
  }

  /** A tree is refused whenever an unfinished descendant of an older child holds the slot of a younger child. */
  lemma SlotHeldEarlierIsRefused(s: Store, id: string, x: Export, older: string, younger: string, d: string)
    requires Exportable(s) && Acyclic(s.workflows) && IsExport(s, id, x, true)
    requires IsChild(s.workflows, older, id) && IsChild(s.workflows, younger, id) && Descends(s.workflows, d, older)
    requires s.workflows[older].createdAt < s.workflows[younger].createdAt
    requires d in s.workflows && HoldsSlotOf(s.workflows[d], s.workflows[younger])
    ensures ImportTree(EMPTY_STORE, x).1.Some?
  {
    var a, b := OlderTreeFirst(s, id, x, older, younger, d);
    ImportRestoresTheExport(s, id, x, true, EMPTY_STORE);
    assert HoldsSlotOf(Preorder(x)[a], Preorder(x)[b]);
  }

  lemma SlotPassedOn()
    ensures IsChild(Reached(), "first", "root") && IsChild(Reached(), "second", "root")
    ensures Reached()["first"].createdAt < Reached()["second"].createdAt
    ensures Descends(Reached(), "grandchild", "first")
    ensures HoldsSlotOf(Reached()["grandchild"], Reached()["second"])
  {
    assert Ancestor(Reached(), "grandchild", 1) == Some("first");
  }

  lemma ReachedIsAcyclic()
    ensures Acyclic(Reached())
  {
    var rows := Reached();
    forall d, n | n > 0
      ensures Ancestor(rows, d, n) != Some(d)
    {
      if d in rows {
        assert forall m: nat :: m > 0 ==> Ancestor(rows, "root", m) == None;
        assert forall m: nat :: m > 1 ==> Ancestor(rows, "first", m) == None;
        assert forall m: nat :: m > 1 ==> Ancestor(rows, "second", m) == None;
        assert forall m: nat :: m > 2 ==> Ancestor(rows, "grandchild", m) == None;
      }
    }
  }
}
