/** Every way a rollback can go: one delete a row, newest row first, in a cloud that
    drifts between the deletes; and what is left, told from what blocked each delete
    when it was answered. */
module RollbackRuns {
  import opened Cloud
  import opened NetworkStore
  import opened TrackedResources

  // ---- One delete ----

  function KindOf(resourceType: ResourceType): Kind
    requires resourceType in {GatewayType, ListType, SubnetType}
  {
    match resourceType
    case GatewayType => Gateway
    case ListType => SecurityList
    case _ => Subnet
  }

  ghost predicate ChildAnswer(at: State, kind: Kind, id: Ocid, r: Result, after: State) {
    && (r.Ok? ==> Has(at, kind, id) && !Blocked(at, kind, id) && ChildDeleted(at, id, after))
    && (r.NotFound? ==> !Has(at, kind, id) && after == at)
    && (r.Refused? ==> Blocked(at, kind, id) && after == at)
    && (r.Failed? ==> after == at || (Has(at, kind, id) && !Blocked(at, kind, id) && ChildDeleted(at, id, after)))
  }

  ghost predicate VcnAnswer(at: State, id: Ocid, r: Result, after: State) {
    && (r.Ok? ==> id in at.vcns && !VcnBlocked(at, id) && after == VcnDeleted(at, id))
    && (r.NotFound? ==> id !in at.vcns && after == at)
    && (r.Refused? ==> VcnBlocked(at, id) && after == at)
    && (r.Failed? ==> after == at || (id in at.vcns && !VcnBlocked(at, id) && after == VcnDeleted(at, id)))
  }

  ghost predicate Answer(at: State, row: Resource, r: Result, after: State)
    requires Deletable(row)
  {
    if row.resourceType.VcnType? then VcnAnswer(at, row.ocid, r, after)
    else ChildAnswer(at, KindOf(row.resourceType), row.ocid, r, after)
  }

  // ---- Runs ----

  /** One row's turn: the cloud when its delete was answered, the answer, and the
      cloud right after. A row of an unknown type is skipped. */
  datatype Moment = Moment(at: State, result: Result, after: State)

  ghost predicate Turn(before: State, row: Resource, m: Moment) {
    && Drifts(before, m.at)
    && if Deletable(row) then Answer(m.at, row, m.result, m.after) else m.after == m.at && m.result.Ok?
  }

  /** The cloud after the turns of the rows from `i` on. */
  function StateAt(c: State, trail: seq<Moment>, i: nat): State
    requires i <= |trail|
  {
    if i == |trail| then c else trail[i].after
  }

  /** A rollback of `rows` that began in `c`, with one moment for each row. */
  ghost predicate Runs(c: State, rows: seq<Resource>, trail: seq<Moment>) {
    |trail| == |rows| && forall i :: 0 <= i < |rows| ==> Turn(StateAt(c, trail, i + 1), rows[i], trail[i])
  }

  /** Deletes fail only by refusal or absence. */
  ghost predicate Answered(trail: seq<Moment>) {
    forall i :: 0 <= i < |trail| ==> !trail[i].result.Failed?
  }

  lemma RunsOn(c: State, rows: seq<Resource>, i: nat, trail: seq<Moment>, m: Moment)
    requires i < |rows| && Runs(c, rows[i + 1..], trail) && Turn(StateAt(c, trail, 0), rows[i], m)
    ensures Runs(c, rows[i..], [m] + trail) && StateAt(c, [m] + trail, 0) == m.after
  {
    hide Turn;
    var longer := [m] + trail;
    forall k | 0 <= k < |rows[i..]| ensures Turn(StateAt(c, longer, k + 1), rows[i..][k], longer[k]) {
      if k > 0 {
        assert rows[i..][k] == rows[i + 1..][k - 1] && longer[k] == trail[k - 1];
        assert StateAt(c, longer, k + 1) == StateAt(c, trail, k);
      } else {
        assert StateAt(c, longer, 1) == StateAt(c, trail, 0);
      }
    }
  }

  // ---- Along a run ----

  lemma AnswerSane(at: State, used: set<Ocid>, row: Resource, r: Result, after: State)
    requires Sane(at, used) && Deletable(row) && Answer(at, row, r, after)
    ensures Sane(after, used)
  {
    hide Sane, Blocked, VcnBlocked, ChildDeleted;
    if after != at {
      if row.resourceType.VcnType? {
        VcnDeletedSane(at, used, row.ocid);
      } else {
        DeletedSane(at, used, row.ocid, after);
      }
    }
  }

  lemma AnswerUndone(c: State, at: State, row: Resource, r: Result, after: State, ids: set<Ocid>)
    requires Undone(c, at, ids) && Deletable(row) && Answer(at, row, r, after) && row.ocid in ids
    ensures Undone(c, after, ids)
  {
    hide Undone, VcnBlocked, Blocked, ChildDeleted;
    if after != at {
      if row.resourceType.VcnType? {
        VcnUndone(c, at, ids, row.ocid);
      } else {
        ChildUndone(c, at, after, ids, row.ocid);
      }
    }
  }

  lemma OcidsGrow(rows: seq<Resource>, i: nat)
    requires i < |rows|
    ensures OcidsFrom(rows, i) == OcidsFrom(rows, i + 1) + {rows[i].ocid}
  {
  }

  lemma TurnKeeps(c: State, used: set<Ocid>, before: State, row: Resource, m: Moment, ids: set<Ocid>, more: set<Ocid>)
    requires Sane(before, used) && Undone(c, before, ids) && Turn(before, row, m) && more == ids + {row.ocid}
    ensures Sane(m.at, used) && Undone(c, m.at, ids) && Sane(m.after, used) && Undone(c, m.after, more)
  {
    hide Sane, Undone, Drifts, Answer;
    DriftSane(before, used, m.at);
    DriftUndone(c, before, m.at, ids);
    UndoneMore(c, m.at, ids, more);
    if Deletable(row) {
      AnswerSane(m.at, used, row, m.result, m.after);
      AnswerUndone(c, m.at, row, m.result, m.after, more);
    }
  }

  lemma {:induction false} Along(c: State, used: set<Ocid>, rows: seq<Resource>, trail: seq<Moment>, i: nat)
    requires Sane(c, used) && Runs(c, rows, trail) && i <= |rows|
    ensures Sane(StateAt(c, trail, i), used) && Undone(c, StateAt(c, trail, i), OcidsFrom(rows, i))
    ensures i < |rows| ==> Sane(trail[i].at, used) && Undone(c, trail[i].at, OcidsFrom(rows, i + 1))
    decreases |rows| - i
  {
    hide Sane, Turn, Undone;
    if i == |rows| {
      NothingGone(c, rows);
    } else {
      Along(c, used, rows, trail, i + 1);
      OcidsGrow(rows, i);
      TurnKeeps(c, used, StateAt(c, trail, i + 1), rows[i], trail[i], OcidsFrom(rows, i + 1), OcidsFrom(rows, i));
    }
  }

  lemma NothingGone(c: State, rows: seq<Resource>)
    ensures Undone(c, c, OcidsFrom(rows, |rows|))
  {
  }

  // ---- What blocked a delete is what is left ----

  /** The row's resource is there and cannot be deleted at this moment: a route leads
      to the gateway, a subnet uses the list, or something is left inside the VCN. */
  ghost predicate Held(at: State, row: Resource) {
    match row.resourceType
    case GatewayType => Blocked(at, Gateway, row.ocid)
    case ListType => Blocked(at, SecurityList, row.ocid)
    case VcnType => VcnBlocked(at, row.ocid)
    case _ => false
  }

  /** A tracked resource is what the run found it to be, or gone. */
  lemma StillTyped(c: State, used: set<Ocid>, s: State, ids: set<Ocid>, row: Resource)
    requires Sane(c, used) && Sane(s, used) && Undone(c, s, ids) && Typed(c, row)
    ensures Typed(s, row)
    ensures row.ocid in s.children ==> row.ocid in c.children && s.children[row.ocid].kind == c.children[row.ocid].kind
  {
    var id := row.ocid;
    if id in s.children {
      var v := s.children[id].vcn;
      assert VcnDrifts(c.vcns[v], s.vcns[v]);
    }
  }

  predicate Lingers(s: State, id: Ocid) {
    Has(s, Subnet, id) && s.children[id].terminating
  }

  /** There, and not just a subnet on its way out. */
  predicate Remains(s: State, id: Ocid) {
    Live(s, id) && !Lingers(s, id)
  }

  /** A row's own delete, if it was answered, leaves exactly what held it, or a
      subnet that is still terminating. */
  lemma OwnDelete(at: State, used: set<Ocid>, row: Resource, r: Result, after: State)
    requires Sane(at, used) && Typed(at, row) && Deletable(row) && Answer(at, row, r, after) && !r.Failed?
    ensures Live(after, row.ocid) <==> Held(at, row) || Lingers(after, row.ocid)
    ensures Has(after, Subnet, row.ocid) ==> Lingers(after, row.ocid)
    ensures Live(after, row.ocid) ==> Live(at, row.ocid)
  {
    hide Targeted, InUse, IsDefaultList;
  }

  /** Another row's delete leaves a tracked resource alone. */
  lemma OtherDelete(at: State, used: set<Ocid>, other: Resource, r: Result, after: State, row: Resource)
    requires Sane(at, used) && Typed(at, row) && Deletable(other) && Answer(at, other, r, after)
    requires other.ocid != row.ocid
    ensures row.ocid in after.vcns <==> row.ocid in at.vcns
    ensures row.ocid in after.children <==> row.ocid in at.children
    ensures row.ocid in after.children ==> after.children[row.ocid] == at.children[row.ocid]
  {
    hide Blocked, Sane, IsDefaultList;
    if other.resourceType.VcnType? && row.ocid in at.children && after != at {
      assert Inside(at, row.ocid, at.children[row.ocid].vcn);
    }
  }

  /** Drift takes only terminating subnets. */
  lemma DriftLeaves(before: State, used: set<Ocid>, at: State, id: Ocid)
    requires Sane(before, used) && Drifts(before, at)
    ensures id in at.vcns <==> id in before.vcns
    ensures id in at.children ==> id in before.children && at.children[id] == before.children[id]
    ensures id in before.children ==> id in at.children || Lingers(before, id)
  {
  }

  /** What is left of row `i` once it and perhaps more rows had their turn. */
  ghost predicate LeftAsHeld(c: State, rows: seq<Resource>, trail: seq<Moment>, i: nat, s: State)
    requires i < |rows| == |trail|
  {
    LeftOf(trail[i].at, rows[i], s)
  }

  /** What `s` has left of a row whose delete was answered in `at`. */
  ghost predicate LeftOf(at: State, row: Resource, s: State) {
    && (Live(s, row.ocid) <==> Held(at, row) || Lingers(s, row.ocid))
    && (Has(s, Subnet, row.ocid) ==> Lingers(s, row.ocid))
  }

  lemma HeldIsNoSubnet(at: State, row: Resource, s: State)
    requires Typed(at, row) && Held(at, row) && Typed(s, row)
    ensures Live(at, row.ocid) && !Lingers(s, row.ocid)
  {
  }

  lemma {:induction false} LeftFrom(c: State, used: set<Ocid>, rows: seq<Resource>, trail: seq<Moment>, i: nat, k: nat)
    requires Sane(c, used) && Proper(c, rows) && Runs(c, rows, trail) && k <= i < |rows| == |trail|
    requires !trail[i].result.Failed?
    ensures LeftAsHeld(c, rows, trail, i, StateAt(c, trail, k))
    decreases i - k
  {
    hide Sane, Undone, Turn, Held, LeftAsHeld, Typed, Runs, Proper, StateAt;
    TurnAt(c, rows, trail, k);
    TypedAlong(c, used, rows, trail, i, k);
    TypedAlong(c, used, rows, trail, i, i);
    if k == i {
      LeftByOwn(used, StateAt(c, trail, i + 1), rows[i], trail[i], StateAt(c, trail, i));
      LeftIs(c, rows, trail, i, StateAt(c, trail, i));
    } else {
      LeftFrom(c, used, rows, trail, i, k + 1);
      LeftIs(c, rows, trail, i, StateAt(c, trail, k + 1));
      TypedAlong(c, used, rows, trail, i, k + 1);
      ProperApart(c, rows, k, i);
      LeftByOther(used, StateAt(c, trail, k + 1), trail[k], rows[k], rows[i], trail[i].at);
      LeftIs(c, rows, trail, i, StateAt(c, trail, k));
    }
  }

  lemma TurnAt(c: State, rows: seq<Resource>, trail: seq<Moment>, i: nat)
    requires Runs(c, rows, trail) && i < |rows|
    ensures |trail| == |rows| && Turn(StateAt(c, trail, i + 1), rows[i], trail[i])
    ensures StateAt(c, trail, i) == trail[i].after
  {
  }

  lemma ProperApart(c: State, rows: seq<Resource>, i: nat, j: nat)
    requires Proper(c, rows) && i < j < |rows|
    ensures rows[i].ocid != rows[j].ocid
  {
  }

  /** What a row is taken for stays true all along a run. */
  lemma TypedAlong(c: State, used: set<Ocid>, rows: seq<Resource>, trail: seq<Moment>, i: nat, k: nat)
    requires Sane(c, used) && Proper(c, rows) && Runs(c, rows, trail) && i < |rows| && k <= |rows|
    ensures Sane(StateAt(c, trail, k), used) && Typed(StateAt(c, trail, k), rows[i])
    ensures k < |trail| ==> Sane(trail[k].at, used) && Typed(trail[k].at, rows[i])
  {
    hide Sane, Undone, Typed;
    Along(c, used, rows, trail, k);
    StillTyped(c, used, StateAt(c, trail, k), OcidsFrom(rows, k), rows[i]);
    if k < |trail| {
      StillTyped(c, used, trail[k].at, OcidsFrom(rows, k + 1), rows[i]);
    }
  }

  lemma LeftIs(c: State, rows: seq<Resource>, trail: seq<Moment>, i: nat, s: State)
    requires i < |rows| == |trail|
    ensures LeftAsHeld(c, rows, trail, i, s) <==> LeftOf(trail[i].at, rows[i], s)
  {
  }

  lemma LeftByOwn(used: set<Ocid>, before: State, row: Resource, m: Moment, after: State)
    requires Sane(m.at, used) && Typed(m.at, row) && Turn(before, row, m) && !m.result.Failed? && after == m.after
    ensures LeftOf(m.at, row, after)
  {
    hide Sane, Drifts, Answer, Held, Typed;
    if Deletable(row) {
      OwnDelete(m.at, used, row, m.result, m.after);
    } else {
      NotDeletableNotLive(m.at, row);
    }
  }

  lemma NotDeletableNotLive(at: State, row: Resource)
    requires !Deletable(row) && Typed(at, row)
    ensures !Live(at, row.ocid) && !Held(at, row) && !Lingers(at, row.ocid)
  {
  }

  lemma LeftByOther(used: set<Ocid>, before: State, m: Moment, other: Resource, row: Resource, at: State)
    requires Sane(before, used) && Sane(m.at, used) && Turn(before, other, m) && other.ocid != row.ocid
    requires Typed(before, row) && Typed(m.at, row) && Typed(at, row)
    requires LeftOf(at, row, before)
    ensures LeftOf(at, row, m.after)
  {
    hide Sane, Drifts, Answer, Held;
    DriftLeaves(before, used, m.at, row.ocid);
    if Deletable(other) {
      OtherDelete(m.at, used, other, m.result, m.after, row);
    }
    if Held(at, row) {
      HeldIsNoSubnet(at, row, before);
    }
  }

  /** For every network and every cloud: a tracked resource whose delete was answered
      is there at the end if and only if something held it at that moment, or it is a
      subnet still terminating. */
  lemma LeftExactly(c: State, used: set<Ocid>, rows: seq<Resource>, trail: seq<Moment>)
    requires Sane(c, used) && Proper(c, rows) && Runs(c, rows, trail)
    ensures forall i :: 0 <= i < |rows| && !trail[i].result.Failed? ==>
      LeftAsHeld(c, rows, trail, i, StateAt(c, trail, 0))
  {
    hide LeftAsHeld, Proper, Sane, Runs;
    assert |trail| == |rows| by { RunsLength(c, rows, trail); }
    forall i | 0 <= i < |rows| && !trail[i].result.Failed? ensures LeftAsHeld(c, rows, trail, i, StateAt(c, trail, 0)) {
      LeftFrom(c, used, rows, trail, i, 0);
    }
  }

  lemma RunsLength(c: State, rows: seq<Resource>, trail: seq<Moment>)
    requires Runs(c, rows, trail)
    ensures |trail| == |rows|
  {
  }
}
