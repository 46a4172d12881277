/** When a rollback leaves nothing behind whatever the cloud does, as long as it
    answers; and networks that it cannot clear. */
module RollbackClouds {
  import opened Wrappers
  import opened Cloud
  import opened NetworkStore
  import opened TrackedResources
  import opened RollbackRuns
  import opened RollbackOutcomes

  predicate MayBeTargeted(c: State, id: Ocid) {
    && id in c.children && c.children[id].vcn in c.vcns
    && var v := c.vcns[c.children[id].vcn];
       Targets(v.rules, id) || (v.pending.Some? && Targets(v.pending.value, id))
  }

  /** No route leads to the gateway or will; no subnet uses the list. */
  predicate ChildClearable(c: State, row: Resource) {
    match row.resourceType
    case GatewayType => !MayBeTargeted(c, row.ocid)
    case ListType => !InUse(c, row.ocid)
    case _ => true
  }

  /** No subnet lies in the VCN, and all that does besides its default list is tracked
      by later rows that can be cleared. */
  ghost predicate RowClearable(c: State, rows: seq<Resource>, i: nat)
    requires i < |rows|
  {
    if rows[i].resourceType.VcnType? then
      forall x :: Inside(c, x, rows[i].ocid) && !IsDefaultList(c, x) ==>
        !Has(c, Subnet, x) && exists j :: i < j < |rows| && rows[j].ocid == x && ChildClearable(c, rows[j])
    else ChildClearable(c, rows[i])
  }

  ghost predicate Clearable(c: State, rows: seq<Resource>) {
    forall i :: 0 <= i < |rows| && Live(c, rows[i].ocid) ==> RowClearable(c, rows, i)
  }

  ghost predicate Cleared(s: State, rows: seq<Resource>) {
    forall i :: 0 <= i < |rows| ==> !Remains(s, rows[i].ocid)
  }

  // ---- Enough ----

  lemma GatewayFree(c: State, used: set<Ocid>, at: State, ids: set<Ocid>, id: Ocid)
    requires Sane(c, used) && Sane(at, used) && Undone(c, at, ids) && Blocked(at, Gateway, id)
    ensures MayBeTargeted(c, id)
  {
    var v := at.children[id].vcn;
    assert VcnDrifts(c.vcns[v], at.vcns[v]);
  }

  lemma ListFree(c: State, at: State, ids: set<Ocid>, id: Ocid)
    requires Undone(c, at, ids) && InUse(at, id)
    ensures InUse(c, id)
  {
    var x :| x in at.children && at.children[x].kind.Subnet? && id in at.children[x].lists;
    assert x in c.children && c.children[x].kind.Subnet? && id in c.children[x].lists;
  }

  lemma InsideBefore(c: State, used: set<Ocid>, at: State, ids: set<Ocid>, x: Ocid, v: Ocid)
    requires Sane(c, used) && Sane(at, used) && Undone(c, at, ids)
    requires Inside(at, x, v) && !IsDefaultList(at, x)
    ensures Inside(c, x, v) && !IsDefaultList(c, x) && at.children[x].kind == c.children[x].kind
  {
    assert VcnDrifts(c.vcns[v], at.vcns[v]);
  }

  lemma ChildFree(c: State, used: set<Ocid>, at: State, ids: set<Ocid>, row: Resource)
    requires Sane(c, used) && Sane(at, used) && Undone(c, at, ids) && Typed(at, row)
    requires !row.resourceType.VcnType? && ChildClearable(c, row)
    ensures !Held(at, row)
  {
    hide Sane, Undone, InUse, MayBeTargeted, IsDefaultList;
    if Held(at, row) {
      match row.resourceType
      case GatewayType => GatewayFree(c, used, at, ids, row.ocid);
      case ListType => ListFree(c, at, ids, row.ocid);
    }
  }

  /** A clearable row of a child is gone when an older row's delete is answered. */
  lemma LaterGone(c: State, used: set<Ocid>, rows: seq<Resource>, trail: seq<Moment>, i: nat, j: nat)
    requires Sane(c, used) && Proper(c, rows) && Runs(c, rows, trail) && Answered(trail)
    requires i < j < |rows| == |trail| && rows[j].ocid in trail[i].at.children
    requires rows[j].ocid in c.children && !Has(c, Subnet, rows[j].ocid)
    ensures !ChildClearable(c, rows[j])
  {
    hide Sane, Proper, Runs, StateAt, Undone, Held, ChildClearable, Turn;
    Along(c, used, rows, trail, j);
    Along(c, used, rows, trail, i + 1);
    TypedAlong(c, used, rows, trail, j, j);
    TurnDrifts(c, rows, trail, i);
    DriftLeaves(StateAt(c, trail, i + 1), used, trail[i].at, rows[j].ocid);
    LeftFrom(c, used, rows, trail, j, i + 1);
    ProperAt(c, rows, j);
    KindKept(c, StateAt(c, trail, i + 1), OcidsFrom(rows, i + 1), rows[j].ocid);
    if ChildClearable(c, rows[j]) {
      ChildFree(c, used, trail[j].at, OcidsFrom(rows, j + 1), rows[j]);
    }
  }

  lemma ProperAt(c: State, rows: seq<Resource>, i: nat)
    requires Proper(c, rows) && i < |rows|
    ensures Typed(c, rows[i])
  {
  }

  lemma KindKept(c: State, s: State, ids: set<Ocid>, x: Ocid)
    requires Undone(c, s, ids) && x in s.children
    ensures x in c.children && s.children[x].kind == c.children[x].kind
  {
  }

  lemma VcnFree(c: State, used: set<Ocid>, rows: seq<Resource>, trail: seq<Moment>, i: nat)
    requires Sane(c, used) && Proper(c, rows) && Runs(c, rows, trail) && Answered(trail)
    requires i < |rows| == |trail| && rows[i].resourceType.VcnType? && RowClearable(c, rows, i)
    ensures !Held(trail[i].at, rows[i])
  {
    hide Sane, Proper, Runs, StateAt, Typed, Undone, IsDefaultList, Turn, Drifts, ChildClearable, Answered;
    var at := trail[i].at;
    if Held(at, rows[i]) {
      var x :| x in at.children && Inside(at, x, rows[i].ocid) && !IsDefaultList(at, x);
      Along(c, used, rows, trail, i);
      InsideBefore(c, used, at, OcidsFrom(rows, i + 1), x, rows[i].ocid);
      var j :| i < j < |rows| && rows[j].ocid == x && ChildClearable(c, rows[j]);
      LaterGone(c, used, rows, trail, i, j);
    }
  }

  lemma TurnDrifts(c: State, rows: seq<Resource>, trail: seq<Moment>, i: nat)
    requires Runs(c, rows, trail) && i < |rows|
    ensures |trail| == |rows| && Drifts(StateAt(c, trail, i + 1), trail[i].at)
  {
  }

  lemma ClearableClears(c: State, used: set<Ocid>, rows: seq<Resource>, trail: seq<Moment>, i: nat)
    requires Sane(c, used) && Proper(c, rows) && Runs(c, rows, trail) && Answered(trail) && i < |rows| == |trail|
    requires Live(c, rows[i].ocid) ==> RowClearable(c, rows, i)
    ensures !Remains(StateAt(c, trail, 0), rows[i].ocid)
  {
    hide Sane, Proper, Runs, StateAt, RowClearable, Remains, Held, Undone, Typed, Answered;
    RemainsIfHeld(c, used, rows, trail, i);
    AtItsTurn(c, used, rows, trail, i);
    Along(c, used, rows, trail, i);
    TypedAlong(c, used, rows, trail, i, i);
    if Live(c, rows[i].ocid) {
      if rows[i].resourceType.VcnType? {
        VcnFree(c, used, rows, trail, i);
      } else {
        NotVcnClearable(c, rows, i);
        ChildFree(c, used, trail[i].at, OcidsFrom(rows, i + 1), rows[i]);
      }
    } else if Held(trail[i].at, rows[i]) {
      HeldIsNoSubnet(trail[i].at, rows[i], trail[i].at);
    }
  }

  lemma NotVcnClearable(c: State, rows: seq<Resource>, i: nat)
    requires i < |rows| && RowClearable(c, rows, i) && !rows[i].resourceType.VcnType?
    ensures ChildClearable(c, rows[i])
  {
  }

  // ---- And no less ----

  /** The answer of a cloud in which nothing happens by itself. */
  function SlowMoment(s: State, row: Resource): Moment {
    if !Deletable(row) then Moment(s, Ok, s)
    else if row.resourceType.VcnType? then
      if row.ocid !in s.vcns then Moment(s, NotFound, s)
      else if VcnBlocked(s, row.ocid) then Moment(s, Refused, s)
      else Moment(s, Ok, VcnDeleted(s, row.ocid))
    else
      var kind := KindOf(row.resourceType);
      if !Has(s, kind, row.ocid) then Moment(s, NotFound, s)
      else if Blocked(s, kind, row.ocid) then Moment(s, Refused, s)
      else if kind.Subnet? then
        Moment(s, Ok, s.(children := s.children[row.ocid := s.children[row.ocid].(terminating := true)]))
      else Moment(s, Ok, WithoutChild(s, row.ocid))
  }

  function SlowTrail(s: State, rows: seq<Resource>): (trail: seq<Moment>)
    ensures |trail| == |rows|
  {
    if rows == [] then []
    else
      var rest := SlowTrail(s, rows[1..]);
      [SlowMoment(StateAt(s, rest, 0), rows[0])] + rest
  }

  ghost predicate Slow(s: State, rows: seq<Resource>, trail: seq<Moment>) {
    |trail| == |rows| && forall i :: 0 <= i < |rows| ==> trail[i] == SlowMoment(StateAt(s, trail, i + 1), rows[i])
  }

  lemma SlowTurn(s: State, row: Resource)
    ensures Turn(s, row, SlowMoment(s, row)) && !SlowMoment(s, row).result.Failed?
  {
    hide Blocked, VcnBlocked;
    DriftsNot(s);
  }

  lemma DriftsNot(s: State)
    ensures Drifts(s, s)
  {
  }

  lemma {:induction false} SlowRuns(s: State, rows: seq<Resource>)
    ensures Runs(s, rows, SlowTrail(s, rows)) && Answered(SlowTrail(s, rows)) && Slow(s, rows, SlowTrail(s, rows))
  {
    hide Runs, Answered, Slow, SlowMoment, StateAt;
    if rows == [] {
      NoRows(s);
    } else {
      var rest := SlowTrail(s, rows[1..]);
      var m := SlowMoment(StateAt(s, rest, 0), rows[0]);
      SlowRuns(s, rows[1..]);
      SlowTurn(StateAt(s, rest, 0), rows[0]);
      RunsOn(s, rows, 0, rest, m);
      assert rows[0..] == rows;
      AnsweredOn(rest, m);
      SlowOn(s, rows, rest, m);
    }
  }

  lemma NoRows(s: State)
    ensures Runs(s, [], []) && Answered([]) && Slow(s, [], [])
  {
  }

  lemma AnsweredOn(trail: seq<Moment>, m: Moment)
    requires Answered(trail) && !m.result.Failed?
    ensures Answered([m] + trail)
  {
  }

  lemma SlowOn(s: State, rows: seq<Resource>, rest: seq<Moment>, m: Moment)
    requires rows != [] && Slow(s, rows[1..], rest) && m == SlowMoment(StateAt(s, rest, 0), rows[0])
    ensures Slow(s, rows, [m] + rest)
  {
    hide SlowMoment;
    var trail := [m] + rest;
    forall i | 0 <= i < |rows| ensures trail[i] == SlowMoment(StateAt(s, trail, i + 1), rows[i]) {
      if i > 0 {
        assert trail[i] == rest[i - 1] && rows[i] == rows[1..][i - 1];
        assert StateAt(s, trail, i + 1) == StateAt(s, rest, i);
      }
    }
  }

  /** Subnets stay, terminating or not, and VCNs as they are as long as they last. */
  ghost predicate Persists(b: State, s: State) {
    && (forall x :: Has(b, Subnet, x) ==>
          x in s.children && s.children[x].(terminating := true) == b.children[x].(terminating := true))
    && (forall v :: v in s.vcns ==> v in b.vcns && s.vcns[v] == b.vcns[v])
  }

  lemma SlowPersists(b: State, used: set<Ocid>, s: State, row: Resource)
    requires Persists(b, s) && Sane(s, used)
    ensures Persists(b, SlowMoment(s, row).after)
  {
    hide Blocked;
    var after := SlowMoment(s, row).after;
    forall x | Has(b, Subnet, x)
      ensures x in after.children && after.children[x].(terminating := true) == b.children[x].(terminating := true)
    {
      assert s.children[x].(terminating := true) == b.children[x].(terminating := true);
      assert s.children[x].kind == b.children[x].kind;
      assert Inside(s, x, s.children[x].vcn) && !IsDefaultList(s, x);
    }
  }

  lemma {:induction false} PersistsAlong(b: State, used: set<Ocid>, rows: seq<Resource>, trail: seq<Moment>, i: nat)
    requires Sane(b, used) && Runs(b, rows, trail) && Slow(b, rows, trail) && i <= |rows|
    ensures Persists(b, StateAt(b, trail, i))
    decreases |rows| - i
  {
    hide Sane, SlowMoment, Turn;
    if i < |rows| {
      hide Persists;
      PersistsAlong(b, used, rows, trail, i + 1);
      Along(b, used, rows, trail, i + 1);
      SlowPersists(b, used, StateAt(b, trail, i + 1), rows[i]);
    }
  }

  /** Something in `b` blocks the row's delete and will not go by itself. */
  predicate ChildStuck(b: State, row: Resource) {
    match row.resourceType
    case GatewayType => Targeted(b, row.ocid)
    case ListType => InUse(b, row.ocid)
    case _ => false
  }

  ghost predicate KeepsStuck(b: State, rows: seq<Resource>, i: nat, x: Ocid)
    requires i < |rows|
  {
    && Inside(b, x, rows[i].ocid) && !IsDefaultList(b, x)
    && (|| x !in OcidsFrom(rows, i + 1) || Has(b, Subnet, x)
        || exists j :: i < j < |rows| && rows[j].ocid == x && ChildStuck(b, rows[j]))
  }

  ghost predicate StuckIn(b: State, rows: seq<Resource>, i: nat)
    requires i < |rows|
  {
    if rows[i].resourceType.VcnType? then exists x :: KeepsStuck(b, rows, i, x) else ChildStuck(b, rows[i])
  }

  lemma GatewayStuck(b: State, used: set<Ocid>, at: State, id: Ocid)
    requires Sane(at, used) && Persists(b, at) && Targeted(b, id) && Has(b, Gateway, id)
    requires id in at.children && at.children[id] == b.children[id]
    ensures Blocked(at, Gateway, id)
  {
  }

  lemma ListStuck(b: State, at: State, id: Ocid)
    requires Persists(b, at) && InUse(b, id) && Has(at, SecurityList, id)
    ensures Blocked(at, SecurityList, id)
  {
    var x :| x in b.children && b.children[x].kind.Subnet? && id in b.children[x].lists;
    assert Has(b, Subnet, x);
    assert at.children[x].(terminating := true) == b.children[x].(terminating := true);
    assert at.children[x].kind == b.children[x].kind && at.children[x].lists == b.children[x].lists;
  }

  lemma VcnStuck(b: State, used: set<Ocid>, at: State, ids: set<Ocid>, v: Ocid, x: Ocid)
    requires Sane(b, used) && Sane(at, used) && Persists(b, at) && Undone(b, at, ids) && v in at.vcns
    requires Inside(b, x, v) && !IsDefaultList(b, x) && (x !in ids || Has(b, Subnet, x) || x in at.children)
    ensures VcnBlocked(at, v)
  {
    assert x in at.children && at.children[x].vcn == v by {
      if Has(b, Subnet, x) {
        assert at.children[x].(terminating := true) == b.children[x].(terminating := true);
        assert at.children[x].vcn == b.children[x].vcn;
      }
    }
    assert Inside(at, x, v) && !IsDefaultList(at, x);
  }

  lemma ChildStuckHolds(b: State, used: set<Ocid>, rows: seq<Resource>, trail: seq<Moment>, i: nat)
    requires Sane(b, used) && Proper(b, rows) && Runs(b, rows, trail) && Slow(b, rows, trail)
    requires i < |rows| == |trail| && Live(b, rows[i].ocid) && ChildStuck(b, rows[i])
    ensures Held(trail[i].at, rows[i])
  {
    hide Sane, Runs, Undone, Persists, InUse, IsDefaultList, OcidsFrom, Turn, Targeted, Blocked, Inside;
    var at, id := trail[i].at, rows[i].ocid;
    Along(b, used, rows, trail, i);
    PersistsAlong(b, used, rows, trail, i + 1);
    AtItsTurn(b, used, rows, trail, i);
    NoTerminating(b, used, id);
    assert at == StateAt(b, trail, i + 1);
    assert Typed(b, rows[i]);
    match rows[i].resourceType
    case GatewayType => GatewayStuck(b, used, at, id);
    case ListType => ListStuck(b, at, id);
  }

  /** The stuck child of a later row is still there when an older row has its turn. */
  lemma LaterStays(b: State, used: set<Ocid>, rows: seq<Resource>, trail: seq<Moment>, i: nat, j: nat)
    requires Sane(b, used) && Proper(b, rows) && Runs(b, rows, trail) && Slow(b, rows, trail) && Answered(trail)
    requires i < j < |rows| == |trail| && rows[j].ocid in b.children && ChildStuck(b, rows[j])
    ensures rows[j].ocid in trail[i].at.children
  {
    hide Sane, Runs, Undone, Proper, StateAt, ChildStuck, Held, Answered;
    ChildStuckHolds(b, used, rows, trail, j);
    LeftFrom(b, used, rows, trail, j, i + 1);
    Along(b, used, rows, trail, i + 1);
    StillAChild(b, used, StateAt(b, trail, i + 1), OcidsFrom(rows, i + 1), rows[j].ocid);
    assert trail[i].at == StateAt(b, trail, i + 1);
  }

  lemma StillAChild(b: State, used: set<Ocid>, s: State, ids: set<Ocid>, x: Ocid)
    requires Sane(b, used) && Undone(b, s, ids) && x in b.children && Live(s, x)
    ensures x in s.children
  {
  }

  lemma StuckHolds(b: State, used: set<Ocid>, rows: seq<Resource>, trail: seq<Moment>, i: nat)
    requires Sane(b, used) && Proper(b, rows) && Runs(b, rows, trail) && Slow(b, rows, trail) && Answered(trail)
    requires i < |rows| == |trail| && Live(b, rows[i].ocid) && StuckIn(b, rows, i)
    ensures Held(trail[i].at, rows[i])
  {
    hide Sane, Runs, Undone, Persists, IsDefaultList, OcidsFrom, Turn, VcnBlocked, Blocked, Proper, Answered,
         ChildStuck;
    if rows[i].resourceType.VcnType? {
      var at, id := trail[i].at, rows[i].ocid;
      Along(b, used, rows, trail, i);
      PersistsAlong(b, used, rows, trail, i + 1);
      AtItsTurn(b, used, rows, trail, i);
      assert at == StateAt(b, trail, i + 1);
      ProperAt(b, rows, i);
      var x :| KeepsStuck(b, rows, i, x);
      if x in OcidsFrom(rows, i + 1) && !Has(b, Subnet, x) {
        var j :| i < j < |rows| && rows[j].ocid == x && ChildStuck(b, rows[j]);
        LaterStays(b, used, rows, trail, i, j);
      }
      VcnStuck(b, used, at, OcidsFrom(rows, i + 1), id, x);
    } else {
      ChildStuckHolds(b, used, rows, trail, i);
    }
  }

  lemma NoTerminating(b: State, used: set<Ocid>, id: Ocid)
    requires Sane(b, used)
    ensures id in b.children && b.children[id].terminating ==> b.children[id].kind.Subnet?
  {
  }

  function InForce(c: State): State {
    c.(vcns := map v | v in c.vcns :: c.vcns[v].(rules := Requested(c.vcns[v]), pending := None))
  }

  lemma InForceDrifts(c: State, used: set<Ocid>, rows: seq<Resource>)
    requires Sane(c, used) && Proper(c, rows)
    ensures Drifts(c, InForce(c)) && Sane(InForce(c), used) && Proper(InForce(c), rows)
  {
  }

  lemma ChildNotClearable(c: State, row: Resource)
    requires !ChildClearable(c, row)
    ensures ChildStuck(c, row) || ChildStuck(InForce(c), row)
  {
    hide InUse, Targets;
  }

  lemma NotClearable(c: State, used: set<Ocid>, rows: seq<Resource>, i: nat)
    requires Sane(c, used) && Proper(c, rows) && i < |rows| && Live(c, rows[i].ocid) && !RowClearable(c, rows, i)
    ensures StuckIn(c, rows, i) || StuckIn(InForce(c), rows, i)
  {
    hide ChildClearable, ChildStuck, Proper, Sane;
    if rows[i].resourceType.VcnType? {
      var x :| Inside(c, x, rows[i].ocid) && !IsDefaultList(c, x)
        && (Has(c, Subnet, x) || forall j :: i < j < |rows| && rows[j].ocid == x ==> !ChildClearable(c, rows[j]));
      assert Inside(InForce(c), x, rows[i].ocid) && !IsDefaultList(InForce(c), x);
      if x in OcidsFrom(rows, i + 1) && !Has(c, Subnet, x) {
        var j :| i + 1 <= j < |rows| && rows[j].ocid == x;
        ChildNotClearable(c, rows[j]);
      }
      assert KeepsStuck(c, rows, i, x) || KeepsStuck(InForce(c), rows, i, x);
    } else {
      ChildNotClearable(c, rows[i]);
    }
  }

  lemma RunsEarlier(c: State, b: State, rows: seq<Resource>, trail: seq<Moment>)
    requires Drifts(c, b) && Runs(b, rows, trail) && |rows| > 0
    ensures Runs(c, rows, trail) && StateAt(c, trail, 0) == StateAt(b, trail, 0)
  {
    hide Answer, Drifts;
    var n := |rows| - 1;
    forall i | 0 <= i < |rows| ensures Turn(StateAt(c, trail, i + 1), rows[i], trail[i]) {
      assert Turn(StateAt(b, trail, i + 1), rows[i], trail[i]);
      if i == n {
        DriftsOn(c, b, trail[i].at);
      }
    }
  }

  lemma SlowLeaves(c: State, used: set<Ocid>, b: State, rows: seq<Resource>, i: nat) returns (trail: seq<Moment>)
    requires Sane(c, used) && Proper(c, rows) && Sane(b, used) && Proper(b, rows) && Drifts(c, b)
    requires i < |rows| && Live(b, rows[i].ocid) && StuckIn(b, rows, i)
    ensures Runs(c, rows, trail) && Answered(trail) && Remains(StateAt(c, trail, 0), rows[i].ocid)
  {
    hide Sane, Proper, Runs, StateAt, Drifts, StuckIn, Remains, Live, Held, Answered, Slow;
    trail := SlowTrail(b, rows);
    SlowRuns(b, rows);
    StuckHolds(b, used, rows, trail, i);
    RemainsIfHeld(b, used, rows, trail, i);
    RunsEarlier(c, b, rows, trail);
  }

  /** For every network and each of its rows: whatever the cloud does between the
      deletes, as long as it answers, the resource goes, or is a subnet on its way
      out, if and only if its row was clearable when the rollback began. */
  lemma GoesInEveryCloud(c: State, used: set<Ocid>, rows: seq<Resource>, i: nat)
    requires Sane(c, used) && Proper(c, rows) && i < |rows|
    ensures (forall trail :: Runs(c, rows, trail) && Answered(trail) ==> !Remains(StateAt(c, trail, 0), rows[i].ocid))
       <==> (Live(c, rows[i].ocid) ==> RowClearable(c, rows, i))
  {
    hide Sane, Proper, Runs, StateAt, Remains, Answered, RowClearable, StuckIn, Drifts, Live;
    if Live(c, rows[i].ocid) ==> RowClearable(c, rows, i) {
      forall trail | Runs(c, rows, trail) && Answered(trail) ensures !Remains(StateAt(c, trail, 0), rows[i].ocid) {
        RunsLength(c, rows, trail);
        ClearableClears(c, used, rows, trail, i);
      }
    } else {
      NotClearable(c, used, rows, i);
      InForceDrifts(c, used, rows);
      SameLive(c, rows[i].ocid);
      DriftsNot(c);
      var trail := SlowLeaves(c, used, if StuckIn(c, rows, i) then c else InForce(c), rows, i);
    }
  }

  lemma SameLive(c: State, id: Ocid)
    ensures Live(InForce(c), id) <==> Live(c, id)
  {
  }

  /** So nothing but terminating subnets is left in every such cloud if and only if
      every live row is clearable. */
  lemma ClearedByEveryCloud(c: State, used: set<Ocid>, rows: seq<Resource>)
    requires Sane(c, used) && Proper(c, rows)
    ensures (forall trail :: Runs(c, rows, trail) && Answered(trail) ==> Cleared(StateAt(c, trail, 0), rows))
       <==> Clearable(c, rows)
  {
    hide Sane, Proper, Runs, StateAt, Remains, Answered, RowClearable, Live;
    forall i | 0 <= i < |rows|
      ensures (forall trail :: Runs(c, rows, trail) && Answered(trail) ==> !Remains(StateAt(c, trail, 0), rows[i].ocid))
         <==> (Live(c, rows[i].ocid) ==> RowClearable(c, rows, i))
    {
      GoesInEveryCloud(c, used, rows, i);
    }
    if Clearable(c, rows) {
      forall trail | Runs(c, rows, trail) && Answered(trail) ensures Cleared(StateAt(c, trail, 0), rows) {
      }
    } else {
      var i :| 0 <= i < |rows| && Live(c, rows[i].ocid) && !RowClearable(c, rows, i);
      var trail :| Runs(c, rows, trail) && Answered(trail) && Remains(StateAt(c, trail, 0), rows[i].ocid);
      assert !Cleared(StateAt(c, trail, 0), rows);
    }
  }

  // ---- Networks that are left behind ----

  /** The routes in force and the requested ones all lead to the gateway. */
  predicate AlwaysTargeted(c: State, g: Ocid) {
    && Has(c, Gateway, g) && c.children[g].vcn in c.vcns
    && var v := c.vcns[c.children[g].vcn];
       Targets(v.rules, g) && Targets(Requested(v), g)
  }

  lemma TargetedDrifts(before: State, at: State, g: Ocid)
    requires AlwaysTargeted(before, g) && Drifts(before, at) && !before.children[g].terminating
    ensures AlwaysTargeted(at, g) && at.children[g] == before.children[g]
  {
    hide Targets;
    var v := before.children[g].vcn;
    assert VcnDrifts(before.vcns[v], at.vcns[v]);
  }

  lemma TargetedAnswer(used: set<Ocid>, at: State, row: Resource, r: Result, after: State, g: Ocid)
    requires Sane(at, used) && AlwaysTargeted(at, g) && Deletable(row) && Answer(at, row, r, after)
    ensures AlwaysTargeted(after, g) && after.children[g] == at.children[g]
  {
    hide Targets, InUse;
    assert Inside(at, g, at.children[g].vcn) && !IsDefaultList(at, g);
  }

  lemma TargetedTurn(used: set<Ocid>, before: State, row: Resource, m: Moment, g: Ocid)
    requires Sane(before, used) && Sane(m.at, used) && AlwaysTargeted(before, g) && Turn(before, row, m)
    ensures AlwaysTargeted(m.after, g) && m.after.children[g] == before.children[g]
  {
    hide Sane, AlwaysTargeted, Answer, Drifts;
    GatewayThere(before, g);
    NoTerminating(before, used, g);
    TargetedDrifts(before, m.at, g);
    if Deletable(row) {
      TargetedAnswer(used, m.at, row, m.result, m.after, g);
    }
  }

  lemma {:induction false} TargetedAlong(c: State, used: set<Ocid>, rows: seq<Resource>, trail: seq<Moment>, g: Ocid,
                                         k: nat)
    requires Sane(c, used) && Runs(c, rows, trail) && AlwaysTargeted(c, g) && k <= |rows| == |trail|
    ensures AlwaysTargeted(StateAt(c, trail, k), g) && StateAt(c, trail, k).children[g] == c.children[g]
    decreases |rows| - k
  {
    hide Sane, AlwaysTargeted, Turn, Undone;
    if k < |rows| {
      TargetedAlong(c, used, rows, trail, g, k + 1);
      Along(c, used, rows, trail, k);
      Along(c, used, rows, trail, k + 1);
      TargetedTurn(used, StateAt(c, trail, k + 1), rows[k], trail[k], g);
    } else {
      GatewayThere(c, g);
    }
  }

  /** For every network, whatever rows are rolled back, in whatever cloud, even if
      deletes fail: such a gateway and its VCN survive. */
  lemma RoutedGatewayStays(c: State, used: set<Ocid>, rows: seq<Resource>, trail: seq<Moment>, g: Ocid)
    requires Sane(c, used) && Runs(c, rows, trail) && AlwaysTargeted(c, g)
    ensures Remains(StateAt(c, trail, 0), g) && Remains(StateAt(c, trail, 0), c.children[g].vcn)
  {
    hide Runs, Targets, StateAt, Undone;
    RunsLength(c, rows, trail);
    TargetedAlong(c, used, rows, trail, g, 0);
    Along(c, used, rows, trail, 0);
  }

  lemma GatewayThere(c: State, g: Ocid)
    requires AlwaysTargeted(c, g)
    ensures g in c.children && c.children[g].kind.Gateway? && c.children[g].vcn in c.vcns
  {
  }

  function NewVcn(): State {
    VcnAdded(State(map[], map[]), "vcn", "default")
  }

  /** Provisioned up to the route table: a VCN, a gateway, and the default route in force. */
  function RoutedNetwork(): State {
    Settled(RoutesSet(ChildAdded(NewVcn(), "gateway", Gateway, "vcn", {}), "vcn", [DefaultRoute("gateway")]))
  }

  function RoutedRows(): seq<Resource> {
    [Resource(1, VcnType, "vcn", false), Resource(1, GatewayType, "gateway", false)]
  }

  ghost predicate Recorded(c: State, used: set<Ocid>, rows: seq<Resource>) {
    Sane(c, used) && Proper(c, rows) && InOrder(c, rows)
  }

  /** A list and a subnet that uses it, in a VCN without routes. */
  function SubnetNetwork(): State {
    ChildAdded(ChildAdded(NewVcn(), "list", SecurityList, "vcn", {}), "subnet", Subnet, "vcn", {"list"})
  }

  function SubnetRows(): seq<Resource> {
    [Resource(1, VcnType, "vcn", false), Resource(1, ListType, "list", false), Resource(1, SubnetType, "subnet", false)]
  }

  lemma RoutedNetworkIs()
    ensures RoutedNetwork() == State(map["vcn" := Vcn(true, Some("default"), [DefaultRoute("gateway")], None)],
                                     map["default" := Child(SecurityList, "vcn", false, {}, false),
                                         "gateway" := Child(Gateway, "vcn", true, {}, false)])
  {
  }

  lemma RoutedNetworkTracked()
    ensures Recorded(RoutedNetwork(), {"vcn", "default", "gateway"}, RoutedRows())
  {
    hide RoutedNetwork;
    RoutedNetworkIs();
  }

  lemma RoutedNetworkTargeted()
    ensures AlwaysTargeted(RoutedNetwork(), "gateway") && RoutedNetwork().children["gateway"].vcn == "vcn"
  {
    assert Requested(RoutedNetwork().vcns["vcn"])[0].target == Some("gateway");
  }

  /** Once the default route is in force every rollback, whether or not each delete is
      answered, leaves the gateway and with it the VCN. */
  lemma RoutedGatewayLeaks(trail: seq<Moment>)
    requires Runs(RoutedNetwork(), RoutedRows(), trail)
    ensures Recorded(RoutedNetwork(), {"vcn", "default", "gateway"}, RoutedRows())
    ensures forall i :: 0 <= i < |RoutedRows()| ==> Remains(StateAt(RoutedNetwork(), trail, 0), RoutedRows()[i].ocid)
  {
    hide AlwaysTargeted, Runs, Sane, Proper, InOrder, RoutedNetwork, StateAt;
    RoutedNetworkTracked();
    RoutedNetworkTargeted();
    RoutedGatewayStays(RoutedNetwork(), {"vcn", "default", "gateway"}, RoutedRows(), trail, "gateway");
  }

  lemma SubnetNetworkIs()
    ensures SubnetNetwork() == State(map["vcn" := Vcn(true, Some("default"), [], None)],
                                     map["default" := Child(SecurityList, "vcn", false, {}, false),
                                         "list" := Child(SecurityList, "vcn", true, {}, false),
                                         "subnet" := Child(Subnet, "vcn", true, {"list"}, false)])
  {
  }

  lemma SubnetNetworkTracked()
    ensures Recorded(SubnetNetwork(), {"vcn", "default", "list", "subnet"}, SubnetRows())
  {
    hide SubnetNetwork;
    SubnetNetworkIs();
  }

  lemma SubnetNetworkWhole()
    ensures WhollyTracked(Settled(SubnetNetwork()), SubnetRows())
  {
    assert SubnetRows()[0].ocid == "vcn" && SubnetRows()[1].ocid == "list" && SubnetRows()[2].ocid == "subnet";
  }

  lemma SubnetNetworkStuck()
    ensures StuckIn(SubnetNetwork(), SubnetRows(), 0) && StuckIn(SubnetNetwork(), SubnetRows(), 1)
    ensures Has(SubnetNetwork(), Subnet, "subnet") && Live(SubnetNetwork(), "vcn") && Live(SubnetNetwork(), "list")
  {
    hide OcidsFrom;
    var c := SubnetNetwork();
    assert Has(c, Subnet, "subnet") && "list" in c.children["subnet"].lists;
    assert Inside(c, "subnet", "vcn") && !IsDefaultList(c, "subnet");
    assert KeepsStuck(c, SubnetRows(), 0, "subnet");
  }

  /** Without any route: a subnet that takes its time keeps the list and the VCN. */
  lemma SlowSubnetLeaks() returns (trail: seq<Moment>)
    ensures Recorded(SubnetNetwork(), {"vcn", "default", "list", "subnet"}, SubnetRows())
    ensures Runs(SubnetNetwork(), SubnetRows(), trail) && Answered(trail)
    ensures forall i :: 0 <= i < |SubnetRows()| ==> Live(StateAt(SubnetNetwork(), trail, 0), SubnetRows()[i].ocid)
  {
    hide Runs, Sane, Proper, InOrder, SubnetNetwork, StateAt, Live, Answered, StuckIn, SlowTrail, Has;
    SubnetNetworkTracked();
    SubnetNetworkStuck();
    trail := SlowTrail(SubnetNetwork(), SubnetRows());
    SlowRuns(SubnetNetwork(), SubnetRows());
    forall i | 0 <= i < |SubnetRows()| ensures Live(StateAt(SubnetNetwork(), trail, 0), SubnetRows()[i].ocid) {
      LeftBehind(SubnetNetwork(), {"vcn", "default", "list", "subnet"}, SubnetRows(), i);
    }
  }

  lemma LeftBehind(c: State, used: set<Ocid>, rows: seq<Resource>, i: nat)
    requires Sane(c, used) && Proper(c, rows) && i < |rows|
    requires (Live(c, rows[i].ocid) && StuckIn(c, rows, i)) || Has(c, Subnet, rows[i].ocid)
    ensures Live(StateAt(c, SlowTrail(c, rows), 0), rows[i].ocid)
  {
    hide Sane, Proper, Runs, StateAt, StuckIn, Held, Answered, Slow, SlowTrail;
    var trail := SlowTrail(c, rows);
    SlowRuns(c, rows);
    if StuckIn(c, rows, i) && Live(c, rows[i].ocid) {
      StuckHolds(c, used, rows, trail, i);
      RemainsIfHeld(c, used, rows, trail, i);
    } else {
      PersistsAlong(c, used, rows, trail, 0);
    }
  }

  /** The same network is cleared if the cloud is done with each delete before the next. */
  lemma PromptSubnetClears(trail: seq<Moment>)
    requires Runs(SubnetNetwork(), SubnetRows(), trail) && Answered(trail) && Prompt(trail)
    ensures Cleared(StateAt(SubnetNetwork(), trail, 0), SubnetRows())
  {
    hide Runs, Sane, Proper, InOrder, SubnetNetwork, StateAt, Remains, WhollyTracked, Prompt, Answered;
    SubnetNetworkTracked();
    SubnetNetworkWhole();
    CleanUnlessRouted(SubnetNetwork(), {"vcn", "default", "list", "subnet"}, SubnetRows(), trail);
    forall i | 0 <= i < |SubnetRows()| ensures !RoutedGateway(Settled(SubnetNetwork()), SubnetRows()[i].ocid) {
      NoGateway(SubnetRows()[i].ocid);
    }
  }

  lemma NoGateway(id: Ocid)
    ensures !RoutedGateway(Settled(SubnetNetwork()), id)
  {
  }
}
