/** Export of a workflow together with the tree of its children. */
module Transfer {
  import opened Types
  import opened Sequences
  import opened Listing
  import opened StoreSpec
  import opened MemoryStore

  datatype Export = Export(
    workflow: WorkflowStatus,
    steps: seq<StepInfo>,
    events: seq<WorkflowEvent>,
    messages: seq<WorkflowMessage>,
    streams: seq<StreamEntry>,
    children: seq<Export>)

  // ----- the parent relation -----

  predicate IsChild(rows: Rows, child: string, parent: string) {
    child in rows && rows[child].parentWorkflowId == Some(parent)
  }

  /** The workflow reached from `d` by following the parent column `n` times. */
  function Ancestor(rows: Rows, d: string, n: nat): Option<string>
    decreases n
  {
    if d !in rows then None
    else if n == 0 then Some(d)
    else if rows[d].parentWorkflowId.None? then None
    else Ancestor(rows, rows[d].parentWorkflowId.value, n - 1)
  }

  /** `d` is `a` or one of its descendants. */
  ghost predicate Descends(rows: Rows, d: string, a: string) {
    exists n :: Ancestor(rows, d, n) == Some(a)
  }

  ghost predicate Acyclic(rows: Rows) {
    forall d, n :: n > 0 ==> Ancestor(rows, d, n) != Some(d)
  }

  ghost function Descendants(rows: Rows, a: string): set<string> {
    set d | d in rows && Descends(rows, d, a)
  }

  lemma {:induction false} AncestorsCompose(rows: Rows, d: string, m: nat, n: nat)
    requires Ancestor(rows, d, m).Some?
    ensures Ancestor(rows, d, m + n) == Ancestor(rows, Ancestor(rows, d, m).value, n)
    decreases m
  {
    if m > 0 {
      AncestorsCompose(rows, rows[d].parentWorkflowId.value, m - 1, n);
    }
  }

  lemma ParentIsOneUp(rows: Rows, c: string, a: string, n: nat)
    requires IsChild(rows, c, a)
    ensures Ancestor(rows, c, n + 1) == Ancestor(rows, a, n)
  {
  }

  /** In an acyclic store a child has fewer descendants than its parent. */
  lemma ChildHasFewerDescendants(rows: Rows, c: string, a: string)
    requires Acyclic(rows) && IsChild(rows, c, a) && a in rows
    ensures |Descendants(rows, c)| < |Descendants(rows, a)|
    ensures !Descends(rows, a, c)
  {
    ParentIsOneUp(rows, c, a, 0);
    forall d | d in Descendants(rows, c)
      ensures d in Descendants(rows, a) && d != a
    {
      var n: nat :| Ancestor(rows, d, n) == Some(c);
      AncestorsCompose(rows, d, n, 1);
      assert Ancestor(rows, d, n + 1) == Some(a);
    }
    assert Ancestor(rows, a, 0) == Some(a);
    assert a in Descendants(rows, a) && a !in Descendants(rows, c);
    SubsetSize(Descendants(rows, c) + {a}, Descendants(rows, a));
  }

  /** Different children of one workflow have no descendant in common. */
  lemma SiblingsShareNoDescendant(rows: Rows, c1: string, c2: string, a: string, d: string)
    requires Acyclic(rows) && IsChild(rows, c1, a) && IsChild(rows, c2, a) && a in rows && c1 != c2
    ensures !(Descends(rows, d, c1) && Descends(rows, d, c2))
  {
    if Descends(rows, d, c1) && Descends(rows, d, c2) {
      var m: nat :| Ancestor(rows, d, m) == Some(c1);
      var n: nat :| Ancestor(rows, d, n) == Some(c2);
      if m <= n {
        SiblingAboveMeansCycle(rows, d, m, n, c1, c2, a);
      } else {
        SiblingAboveMeansCycle(rows, d, n, m, c2, c1, a);
      }
    }
  }

  lemma SiblingAboveMeansCycle(rows: Rows, d: string, m: nat, n: nat, c1: string, c2: string, a: string)
    requires IsChild(rows, c1, a) && IsChild(rows, c2, a) && a in rows && c1 != c2
    requires m <= n && Ancestor(rows, d, m) == Some(c1) && Ancestor(rows, d, n) == Some(c2)
    ensures m < n && Ancestor(rows, a, n - m) == Some(a)
  {
    AncestorsCompose(rows, d, m, n - m);
    ParentIsOneUp(rows, c1, a, n - m - 1);
    AncestorsCompose(rows, a, n - m - 1, 1);
    ParentIsOneUp(rows, c2, a, 0);
  }

  lemma SubsetSize<T>(a: set<T>, b: set<T>)
    requires a <= b
    ensures |a| <= |b|
  {
    assert b == a + (b - a);
  }

  // ----- export -----

  function ChildOptions(id: string): ListWorkflowsOptions {
    ListWorkflowsOptions(parentWorkflowIds := [id], loadInput := true, loadOutput := true)
  }

  /** `cs` lists the children of a workflow: all of them, once each, by creation time. */
  ghost predicate IsChildList(rows: Rows, id: string, cs: seq<string>) {
    && Distinct(cs)
    && (forall c :: c in cs <==> IsChild(rows, c, id))
    && (forall i, j :: 0 <= i < j < |cs| && cs[i] in rows && cs[j] in rows ==> rows[cs[i]].createdAt <= rows[cs[j]].createdAt)
  }

  function Ids(xs: seq<Export>): seq<string> {
    seq(|xs|, i requires 0 <= i < |xs| => xs[i].workflow.id)
  }

  /** `x` carries the row of the workflow and all its steps, events, messages and stream entries. */
  ghost predicate IsExportOfOne(s: Store, id: string, x: Export) {
    && id in s.workflows && x.workflow == s.workflows[id]
    && IsStepList(s.steps, id, x.steps)
    && IsEventList(s.events, id, x.events)
    && x.messages == ListMessages(s.messages, id)
    && IsStreamList(s.streams, id, x.streams)
  }

  /** `x` is an export of the workflow; where a listing leaves the order of ties open, any order will do. */
  ghost predicate IsExport(s: Store, id: string, x: Export, deep: bool)
    decreases x
  {
    && IsExportOfOne(s, id, x)
    && (!deep ==> x.children == [])
    && (deep ==> IsChildList(s.workflows, id, Ids(x.children)))
    && (forall i :: 0 <= i < |x.children| ==> IsExport(s, x.children[i].workflow.id, x.children[i], deep))
  }

  /** The export recursion ends on every acyclic store: each child has fewer descendants than its parent. */
  method ExportWorkflow(store: MemoryStore, id: string, deep: bool) returns (r: Result<Export>)
    requires store.Valid() && Acyclic(store.workflows)
    ensures r.Ok? <==> id in store.workflows
    ensures r.Ok? ==> IsExport(store.Contents(), id, r.value, deep)
    ensures r.Err? ==> r.error == NonExistentWorkflow(id)
    decreases |Descendants(store.workflows, id)|
  {
    var workflow := store.GetWorkflow(id);
    if workflow.None? {
      return Err(NonExistentWorkflow(id));
    }
    var steps := store.ListSteps(id);
    var events := store.ListEvents(id);
    var messages := store.ListMessages(id);
    var streams := store.ListStreams(id);
    var children: seq<Export> := [];
    if deep {
      var listed := ListChildren(store, id);
      for i := 0 to |listed|
        invariant |children| == i
        invariant forall j :: 0 <= j < i ==> IsExport(store.Contents(), listed[j], children[j], true)
      {
        assert listed[i] in listed;
        ChildHasFewerDescendants(store.workflows, listed[i], id);
        var child := ExportWorkflow(store, listed[i], deep);
        children := children + [child.value];
      }
      ChildrenAsListed(store.Contents(), listed, children);
    }
    r := Ok(Export.Export(workflow.value, steps, events, messages, streams, children));
  }

  lemma ChildrenAsListed(s: Store, listed: seq<string>, children: seq<Export>)
    requires WellKeyed(s)
    requires |children| == |listed| && forall j :: 0 <= j < |listed| ==> IsExport(s, listed[j], children[j], true)
    ensures Ids(children) == listed
    ensures forall j :: 0 <= j < |listed| ==> children[j].workflow.id == listed[j]
  {
  }

  /** The ids of the child workflows, as `list_workflows` orders them. */
  method ListChildren(store: MemoryStore, id: string) returns (cs: seq<string>)
    requires store.Valid()
    ensures IsChildList(store.workflows, id, cs)
  {
    var listed := store.ListWorkflows(ChildOptions(id));
    ghost var order :| ListingInOrder(store.workflows, order, ChildOptions(id), listed);
    ChildListing(store.workflows, order, id);
    ListedIds(store.workflows, order, ChildOptions(id), listed);
    cs := IdsOf(listed);
  }

  /** Not loading columns leaves the ids. */
  lemma ListedIds(rows: Rows, order: seq<string>, o: ListWorkflowsOptions, listed: seq<WorkflowStatus>)
    requires ListingInOrder(rows, order, o, listed)
    ensures IdsOf(listed) == IdsOf(ListRows(RowsInOrder(rows, order), o))
  {
  }

  lemma ChildListing(rows: Rows, order: seq<string>, id: string)
    requires Enumerates(order, rows) && (forall w :: w in rows ==> rows[w].id == w)
    ensures IsChildList(rows, id, IdsOf(ListRows(RowsInOrder(rows, order), ChildOptions(id))))
  {
    var o := ChildOptions(id);
    var all := RowsInOrder(rows, order);
    ListedRows(rows, order, o);
    var l := ListRows(all, o);
    StableSortOrders(Matching(all, o), Order(o.sortDesc));
    assert l == Sorted(Matching(all, o), o);
    var cs := IdsOf(l);
    assert forall i :: 0 <= i < |l| ==> l[i] in l && cs[i] == l[i].id;
    forall c
      ensures c in cs <==> IsChild(rows, c, id)
    {
      if IsChild(rows, c, id) {
        assert rows[c] in l;
        var i :| 0 <= i < |l| && l[i] == rows[c];
        assert cs[i] == c;
      }
    }
    forall i, j | 0 <= i < j < |cs|
      ensures rows[cs[i]].createdAt <= rows[cs[j]].createdAt
    {
      assert Order(o.sortDesc)(l[i], l[j]);
    }
  }

  /** On a cycle of the parent relation there is nothing for the recursion to end with: no finite tree is an
      export of a workflow that is its own ancestor. */
  lemma {:induction false} CycleHasNoExport(s: Store, id: string, x: Export, n: nat)
    requires Ancestor(s.workflows, id, n + 1) == Some(id) && WellKeyed(s)
    ensures !IsExport(s, id, x, true)
    decreases x
  {
    if IsExport(s, id, x, true) {
      var c := PrefixOfCycle(s.workflows, id, n);
      assert c in Ids(x.children);
      var i :| 0 <= i < |x.children| && x.children[i].workflow.id == c;
      CycleHasNoExport(s, c, x.children[i], n);
    }
  }

  /** The cycle as seen from the child through which it comes back to `id`. */
  lemma PrefixOfCycle(rows: Rows, id: string, n: nat) returns (c: string)
    requires Ancestor(rows, id, n + 1) == Some(id)
    ensures IsChild(rows, c, id) && Ancestor(rows, c, n + 1) == Some(c)
  {
    c := LastStep(rows, id, n, id);
    ParentIsOneUp(rows, c, id, n);
  }

  lemma {:induction false} LastStep(rows: Rows, d: string, n: nat, a: string) returns (c: string)
    requires Ancestor(rows, d, n + 1) == Some(a)
    ensures Ancestor(rows, d, n) == Some(c) && IsChild(rows, c, a)
    decreases n
  {
    c := d;
    if n > 0 {
      c := LastStep(rows, rows[d].parentWorkflowId.value, n - 1, a);
    }
  }

  // ----- the exported tree -----

  /** The rows of the tree in the order in which an import inserts them. */
  function Preorder(x: Export): seq<WorkflowStatus>
    decreases x, 0
  {
    [x.workflow] + PreorderAll(x.children)
  }

  function PreorderAll(xs: seq<Export>): seq<WorkflowStatus>
    decreases xs, 1
  {
    if xs == [] then [] else Preorder(xs[0]) + PreorderAll(xs[1..])
  }

  function IdsIn(l: seq<WorkflowStatus>): set<string> {
    set w | w in l :: w.id
  }

  lemma {:induction false} PreorderAllMembers(xs: seq<Export>, d: string)
    ensures d in IdsIn(PreorderAll(xs)) <==> exists i :: 0 <= i < |xs| && d in IdsIn(Preorder(xs[i]))
  {
    if xs != [] {
      PreorderAllMembers(xs[1..], d);
      assert IdsIn(PreorderAll(xs)) == IdsIn(Preorder(xs[0])) + IdsIn(PreorderAll(xs[1..]));
      if d in IdsIn(PreorderAll(xs[1..])) {
        var i :| 0 <= i < |xs[1..]| && d in IdsIn(Preorder(xs[1..][i]));
        assert xs[i + 1] == xs[1..][i];
      }
      if j :| 0 < j < |xs| && d in IdsIn(Preorder(xs[j])) {
        assert xs[1..][j - 1] == xs[j];
      }
    }
  }

  /** A deep export holds exactly the workflow and its descendants. */
  lemma {:induction false} ExportHoldsTheDescendants(s: Store, id: string, x: Export)
    requires WellKeyed(s) && IsExport(s, id, x, true)
    ensures IdsIn(Preorder(x)) == Descendants(s.workflows, id)
    decreases x
  {
    var xs := x.children;
    forall d
      ensures d in IdsIn(Preorder(x)) <==> d in Descendants(s.workflows, id)
    {
      forall i | 0 <= i < |xs|
        ensures d in IdsIn(Preorder(xs[i])) <==> Descends(s.workflows, d, Ids(xs)[i])
      {
        ExportHoldsTheDescendants(s, xs[i].workflow.id, xs[i]);
        StartsInRows(s.workflows, d, xs[i].workflow.id);
      }
      PreorderAllMembers(xs, d);
      assert IdsIn(Preorder(x)) == {id} + IdsIn(PreorderAll(xs));
      DescendsThroughAChild(s.workflows, d, id, Ids(xs));
      assert d in IdsIn(PreorderAll(xs)) <==> exists i :: 0 <= i < |Ids(xs)| && Descends(s.workflows, d, Ids(xs)[i]);
      StartsInRows(s.workflows, d, id);
    }
  }

  lemma StartsInRows(rows: Rows, d: string, a: string)
    ensures Descends(rows, d, a) ==> d in rows
  {
  }

  lemma DescendsThroughAChild(rows: Rows, d: string, a: string, cs: seq<string>)
    requires a in rows && forall c :: c in cs <==> IsChild(rows, c, a)
    ensures Descends(rows, d, a) <==> d == a || exists i :: 0 <= i < |cs| && Descends(rows, d, cs[i])
  {
    assert Ancestor(rows, a, 0) == Some(a);
    if i :| 0 <= i < |cs| && Descends(rows, d, cs[i]) {
      assert cs[i] in cs;
      DescendsFurther(rows, d, cs[i], a);
    }
    if Descends(rows, d, a) && d != a {
      var n: nat :| Ancestor(rows, d, n) == Some(a);
      var c := LastStep(rows, d, n - 1, a);
      assert c in cs;
    }
  }

  lemma DescendsFurther(rows: Rows, d: string, c: string, a: string)
    requires Descends(rows, d, c) && IsChild(rows, c, a) && a in rows
    ensures Descends(rows, d, a)
  {
    var n: nat :| Ancestor(rows, d, n) == Some(c);
    AncestorsCompose(rows, d, n, 1);
    ParentIsOneUp(rows, c, a, 0);
    assert Ancestor(rows, d, n + 1) == Some(a);
  }

  lemma {:induction false} PreorderAllDistinct(xs: seq<Export>)
    requires forall i :: 0 <= i < |xs| ==> DistinctIds(Preorder(xs[i]))
    requires forall i, j, d :: 0 <= i < j < |xs| && d in IdsIn(Preorder(xs[i])) ==> d !in IdsIn(Preorder(xs[j]))
    ensures DistinctIds(PreorderAll(xs))
  {
    if xs != [] {
      PreorderAllDistinct(xs[1..]);
      forall d | d in IdsIn(Preorder(xs[0]))
        ensures d !in IdsIn(PreorderAll(xs[1..]))
      {
        PreorderAllMembers(xs[1..], d);
      }
      DistinctIdsConcat(Preorder(xs[0]), PreorderAll(xs[1..]));
    }
  }

  lemma DistinctIdsConcat(a: seq<WorkflowStatus>, b: seq<WorkflowStatus>)
    ensures DistinctIds(a + b) <==> DistinctIds(a) && DistinctIds(b) && IdsIn(a) !! IdsIn(b)
  {
    var ab := a + b;
    if DistinctIds(ab) {
      assert forall i :: 0 <= i < |a| ==> ab[i] == a[i];
      assert forall i :: 0 <= i < |b| ==> ab[|a| + i] == b[i];
    } else {
      var i, j :| 0 <= i < j < |ab| && ab[i].id == ab[j].id;
      assert i < |a| <= j ==> a[i].id in IdsIn(a) && b[j - |a|].id in IdsIn(b);
    }
  }

  /** No workflow occurs twice in an export. */
  lemma {:induction false} ExportHasDistinctIds(s: Store, id: string, x: Export, deep: bool)
    requires WellKeyed(s) && Acyclic(s.workflows) && IsExport(s, id, x, deep)
    ensures DistinctIds(Preorder(x))
    decreases x
  {
    if deep {
      var rows := s.workflows;
      var xs := x.children;
      forall i | 0 <= i < |xs|
        ensures DistinctIds(Preorder(xs[i])) && id !in IdsIn(Preorder(xs[i]))
        ensures IdsIn(Preorder(xs[i])) == Descendants(rows, xs[i].workflow.id) && IsChild(rows, xs[i].workflow.id, id)
      {
        ExportHasDistinctIds(s, xs[i].workflow.id, xs[i], deep);
        ExportHoldsTheDescendants(s, xs[i].workflow.id, xs[i]);
        assert Ids(xs)[i] in Ids(xs);
        ChildHasFewerDescendants(rows, xs[i].workflow.id, id);
      }
      forall i, j, d | 0 <= i < j < |xs| && d in IdsIn(Preorder(xs[i]))
        ensures d !in IdsIn(Preorder(xs[j]))
      {
        assert Ids(xs)[i] != Ids(xs)[j];
        SiblingsShareNoDescendant(rows, xs[i].workflow.id, xs[j].workflow.id, id, d);
      }
      PreorderAllDistinct(xs);
      PreorderAllMembers(xs, id);
      DistinctIdsConcat([x.workflow], PreorderAll(xs));
    }
  }
}
