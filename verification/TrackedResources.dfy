/** RollbackNetwork of internal/service/network.go: delete what is tracked for a
    network, in reverse order of creation, whatever the cloud answers. */
module TrackedResources {
  import opened Cloud
  import opened NetworkStore

  // ---- The order of the deletes ----

  predicate Deletable(row: Resource) {
    !row.resourceType.OtherType?
  }

  function DeleteOp(resourceType: ResourceType): Op
    requires !resourceType.OtherType?
  {
    match resourceType
    case VcnType => RemoveVcn
    case GatewayType => RemoveChild(Gateway)
    case ListType => RemoveChild(SecurityList)
    case SubnetType => RemoveChild(Subnet)
  }

  /** What a rollback of these rows asks the cloud for. */
  function Undo(rows: seq<Resource>): seq<(Op, Ocid)> {
    if rows == [] then []
    else
      var last := rows[|rows| - 1];
      (if Deletable(last) then [(DeleteOp(last.resourceType), last.ocid)] else []) + Undo(rows[..|rows| - 1])
  }

  function Requests(log: seq<Call>): seq<(Op, Ocid)> {
    seq(|log|, i requires 0 <= i < |log| => (log[i].op, log[i].id))
  }

  /** x cannot outlive y: y is its VCN or one of its security lists. */
  predicate DependsOn(c: State, x: Ocid, y: Ocid) {
    x in c.children && (c.children[x].vcn == y || y in c.children[x].lists)
  }

  /** Rows of dependents come after the rows of what they depend on. */
  ghost predicate InOrder(c: State, rows: seq<Resource>) {
    forall i, j :: 0 <= i < |rows| && 0 <= j < |rows| && DependsOn(c, rows[j].ocid, rows[i].ocid) ==> i < j
  }

  lemma LastHasNoDependents(c: State, rows: seq<Resource>, row: Resource)
    requires InOrder(c, rows) && row in rows
    ensures !DependsOn(c, row.ocid, rows[|rows| - 1].ocid)
  {
    var q :| 0 <= q < |rows| && rows[q] == row;
    assert DependsOn(c, rows[q].ocid, rows[|rows| - 1].ocid) ==> |rows| - 1 < q;
  }

  lemma InOrderFront(c: State, rows: seq<Resource>)
    requires InOrder(c, rows) && rows != []
    ensures InOrder(c, rows[..|rows| - 1])
  {
    var front := rows[..|rows| - 1];
    forall i, j | 0 <= i < |front| && 0 <= j < |front| && DependsOn(c, front[j].ocid, front[i].ocid) ensures i < j {
      assert DependsOn(c, rows[j].ocid, rows[i].ocid);
    }
  }

  lemma {:induction false} InOrderOfNetwork(c: State, resources: seq<Resource>, network: int)
    requires InOrder(c, resources)
    ensures InOrder(c, RowsOf(resources, network))
  {
    if resources != [] {
      var n := |resources| - 1;
      var front := resources[..n];
      InOrderFront(c, resources);
      InOrderOfNetwork(c, front, network);
      var rest, found := RowsOf(front, network), RowsOf(resources, network);
      forall i, j | 0 <= i < |found| && 0 <= j < |found| ensures DependsOn(c, found[j].ocid, found[i].ocid) ==> i < j {
        if i == |rest| {
          assert found[i] == resources[n] && found[j] in resources;
          LastHasNoDependents(c, resources, found[j]);
        } else if j < |rest| {
          assert found[i] == rest[i] && found[j] == rest[j];
        }
      }
    }
  }

  /** No delete is asked for before the deletes of everything that depends on it. */
  lemma {:induction false} UndoDependentsFirst(c: State, rows: seq<Resource>, p: nat, q: nat)
    requires InOrder(c, rows) && p < |Undo(rows)| && q < |Undo(rows)|
    requires DependsOn(c, Undo(rows)[q].1, Undo(rows)[p].1)
    ensures q < p
  {
    hide InOrder, DependsOn;
    var n := |rows| - 1;
    var last, front := rows[n], rows[..n];
    var head := if Deletable(last) then 1 else 0;
    UndoFrom(front);
    if head <= p && head <= q {
      assert Undo(rows)[p] == Undo(front)[p - head] && Undo(rows)[q] == Undo(front)[q - head];
      InOrderFront(c, rows);
      UndoDependentsFirst(c, front, p - head, q - head);
    } else if head <= q {
      assert Undo(rows)[q] == Undo(front)[q - head];
      var k :| 0 <= k < |front| && front[k].ocid == Undo(front)[q - head].1;
      LastHasNoDependents(c, rows, rows[k]);
    } else if p < head {
      LastHasNoDependents(c, rows, rows[n]);
    }
  }

  predicate Tracks(rows: seq<Resource>, id: Ocid) {
    exists k :: 0 <= k < |rows| && rows[k].ocid == id
  }

  lemma {:induction false} UndoFrom(rows: seq<Resource>)
    ensures forall p :: 0 <= p < |Undo(rows)| ==> Tracks(rows, Undo(rows)[p].1)
  {
    if rows != [] {
      var n := |rows| - 1;
      var last, front := rows[n], rows[..n];
      UndoFrom(front);
      var head := if Deletable(last) then [(DeleteOp(last.resourceType), last.ocid)] else [];
      assert Undo(rows) == head + Undo(front);
      forall p | 0 <= p < |Undo(rows)| ensures Tracks(rows, Undo(rows)[p].1) {
        if p < |head| {
          assert rows[n].ocid == Undo(rows)[p].1;
        } else {
          var k :| 0 <= k < |front| && front[k].ocid == Undo(front)[p - |head|].1;
          assert rows[k].ocid == Undo(rows)[p].1;
        }
      }
    }
  }

  // ---- What is deleted ----

  ghost function OcidsFrom(rows: seq<Resource>, from: nat): set<Ocid> {
    set j | from <= j < |rows| :: rows[j].ocid
  }

  /** Only `ids`, terminating subnets and the default lists of deleted VCNs are gone. */
  ghost predicate Undone(c: State, c': State, ids: set<Ocid>) {
    && c'.vcns.Keys <= c.vcns.Keys
    && (forall w :: w in c'.vcns ==> VcnDrifts(c.vcns[w], c'.vcns[w]))
    && (forall w :: w in c.vcns && w !in c'.vcns ==> w in ids)
    && (forall x :: x in c'.children ==>
          && x in c.children
          && (c'.children[x] == c.children[x] || (x in ids && c'.children[x] == c.children[x].(terminating := true))))
    && (forall x :: x in c.children && x !in c'.children ==>
          || c.children[x].terminating || x in ids
          || (IsDefaultList(c, x) && c.children[x].vcn !in c'.vcns))
  }

  lemma DriftUndone(c: State, s: State, s': State, ids: set<Ocid>)
    requires Undone(c, s, ids) && Drifts(s, s')
    ensures Undone(c, s', ids)
  {
  }

  lemma ChildUndone(c: State, s: State, s': State, ids: set<Ocid>, x: Ocid)
    requires Undone(c, s, ids) && x in s.children && ChildDeleted(s, x, s') && x in ids
    ensures Undone(c, s', ids)
  {
  }

  lemma VcnUndone(c: State, s: State, ids: set<Ocid>, v: Ocid)
    requires Undone(c, s, ids) && v in s.vcns && !VcnBlocked(s, v) && v in ids
    ensures Undone(c, VcnDeleted(s, v), ids)
  {
    var s' := VcnDeleted(s, v);
    forall x | x in c.children && x !in s'.children && !c.children[x].terminating && x !in ids
      ensures IsDefaultList(c, x) && c.children[x].vcn !in s'.vcns
    {
      if x in s.children {
        assert Inside(s, x, v) && IsDefaultList(s, x);
        assert VcnDrifts(c.vcns[v], s.vcns[v]);
      }
    }
  }

  lemma UndoneMore(c: State, s: State, ids: set<Ocid>, more: set<Ocid>)
    requires Undone(c, s, ids) && ids <= more
    ensures Undone(c, s, more)
  {
  }

  // ---- What the rows are taken for ----

  /** The row names its resource's own kind; a default list is nobody's to delete. */
  predicate Typed(c: State, row: Resource) {
    && (row.ocid in c.vcns ==> row.resourceType.VcnType?)
    && (row.ocid in c.children ==> row.resourceType == TypeOf(c.children[row.ocid].kind) && !IsDefaultList(c, row.ocid))
  }

  ghost predicate Distinct(rows: seq<Resource>) {
    forall i, j :: 0 <= i < j < |rows| ==> rows[i].ocid != rows[j].ocid
  }

  /** No resource is recorded twice or as something else. */
  ghost predicate Proper(c: State, rows: seq<Resource>) {
    Distinct(rows) && forall i :: 0 <= i < |rows| ==> Typed(c, rows[i])
  }

  predicate IsDeleteOp(op: Op) {
    op in {RemoveVcn, RemoveChild(Gateway), RemoveChild(SecurityList), RemoveChild(Subnet)}
  }

  ghost predicate SomeFailed(log: seq<Call>, from: nat) {
    exists i :: from <= i < |log| && IsDeleteOp(log[i].op) && log[i].result.Failed?
  }
}
