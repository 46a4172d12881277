/** The rollback as it runs. */
module RollbackNetwork {
  import opened Cloud
  import opened NetworkStore
  import opened TrackedResources
  import opened RollbackRuns

  /** Rows keep everything but the deleted mark, which only tracked rows get; if
      `all`, every row of a deletable tracked resource from `i` on has it. */
  ghost predicate MarkedFrom(resources: seq<Resource>, marked: seq<Resource>, rows: seq<Resource>, i: nat, all: bool) {
    && |marked| == |resources|
    && (forall p :: 0 <= p < |resources| ==>
          marked[p] == resources[p] || (marked[p] == resources[p].(deleted := true) && Tracks(rows, resources[p].ocid)))
    && (all ==>
          forall p, k | 0 <= p < |resources| && i <= k < |rows| ::
            Deletable(rows[k]) && rows[k].ocid == resources[p].ocid ==> marked[p].deleted)
  }

  predicate IsDelete(call: Call, row: Resource, r: Result)
    requires Deletable(row)
  {
    call.op == DeleteOp(row.resourceType) && call.id == row.ocid && call.result == r
  }

  method DeleteResource(api: Api, row: Resource) returns (r: Result, ghost at: State)
    requires api.Valid() && Deletable(row)
    modifies api`st, api`log
    ensures api.Valid() && Drifts(old(api.st), at) && Answer(at, row, r, api.st)
    ensures exists call :: api.log == old(api.log) + [call] && IsDelete(call, row, r)
  {
    match row.resourceType {
      case SubnetType => r, at := api.DeleteChild(Subnet, row.ocid);
      case ListType => r, at := api.DeleteChild(SecurityList, row.ocid);
      case GatewayType => r, at := api.DeleteChild(Gateway, row.ocid);
      case VcnType => r, at := api.DeleteVcn(row.ocid);
    }
    assert IsDelete(api.log[|old(api.log)|], row, r);
  }

  /** The calls since log0 undo the rows from `i` on. */
  ghost predicate Asked(log0: seq<Call>, log: seq<Call>, rows: seq<Resource>, i: nat)
    requires i <= |rows|
  {
    log0 <= log && Requests(log[|log0|..]) + Undo(rows[..i]) == Undo(rows)
  }

  lemma AskedOn(log0: seq<Call>, log: seq<Call>, call: Call, rows: seq<Resource>, i: nat, r: Result)
    requires i < |rows| && Deletable(rows[i]) && Asked(log0, log, rows, i + 1) && IsDelete(call, rows[i], r)
    ensures Asked(log0, log + [call], rows, i)
  {
    UndoOn(rows, i);
    assert (log + [call])[|log0|..] == log[|log0|..] + [call];
    assert Requests(log[|log0|..] + [call]) == Requests(log[|log0|..]) + [(call.op, call.id)];
  }

  lemma AskedSkip(log0: seq<Call>, log: seq<Call>, rows: seq<Resource>, i: nat)
    requires i < |rows| && !Deletable(rows[i]) && Asked(log0, log, rows, i + 1)
    ensures Asked(log0, log, rows, i)
  {
    UndoOn(rows, i);
  }

  lemma UndoOn(rows: seq<Resource>, i: nat)
    requires i < |rows|
    ensures Undo(rows[..i + 1])
         == (if Deletable(rows[i]) then [(DeleteOp(rows[i].resourceType), rows[i].ocid)] else []) + Undo(rows[..i])
  {
    assert rows[..i + 1][..i] == rows[..i];
  }

  /** Unless a delete failed, every delete was answered. */
  ghost predicate AllAnswered(trail: seq<Moment>, log: seq<Call>, from: nat) {
    SomeFailed(log, from) || Answered(trail)
  }

  lemma AnsweredMore(trail: seq<Moment>, m: Moment, log: seq<Call>, call: Call, from: nat, row: Resource)
    requires AllAnswered(trail, log, from) && from <= |log| && Deletable(row) && IsDelete(call, row, m.result)
    ensures AllAnswered([m] + trail, log + [call], from)
  {
    var longer := log + [call];
    assert longer[|log|] == call;
    if SomeFailed(log, from) {
      var i :| from <= i < |log| && IsDeleteOp(log[i].op) && log[i].result.Failed?;
      assert longer[i] == log[i];
    }
  }

  lemma AnsweredSkip(trail: seq<Moment>, m: Moment, log: seq<Call>, from: nat)
    requires AllAnswered(trail, log, from) && m.result.Ok?
    ensures AllAnswered([m] + trail, log, from)
  {
    hide SomeFailed;
  }

  lemma SkipTurn(s: State, row: Resource)
    requires !Deletable(row)
    ensures Turn(s, row, Moment(s, Ok, s))
  {
  }

  lemma DeleteTurn(s: State, row: Resource, m: Moment)
    requires Deletable(row) && Drifts(s, m.at) && Answer(m.at, row, m.result, m.after)
    ensures Turn(s, row, m)
  {
  }

  /** The deletes of a rollback, newest row first, whatever the answers; `trail` is
      the run it takes, so all that is proved of runs holds for it. */
  method DeleteAll(api: Api, store: Store, rows: seq<Resource>) returns (ghost trail: seq<Moment>)
    requires api.Valid()
    modifies api`st, api`log, store`resources, store`faults
    ensures api.Valid() && old(store.faults) <= store.faults
    ensures old(api.log) <= api.log && Requests(api.log[|old(api.log)|..]) == Undo(rows)
    ensures Runs(old(api.st), rows, trail) && |trail| == |rows| && api.st == StateAt(old(api.st), trail, 0)
    ensures !SomeFailed(api.log, |old(api.log)|) ==> Answered(trail)
    ensures Undone(old(api.st), api.st, OcidsFrom(rows, 0))
    ensures MarkedFrom(old(store.resources), store.resources, rows, 0, store.faults == old(store.faults))
    // A row whose delete was answered is left exactly if something held it then.
    ensures Proper(old(api.st), rows) ==>
      forall i :: 0 <= i < |rows| && !trail[i].result.Failed? ==> LeftAsHeld(old(api.st), rows, trail, i, api.st)
  {
    hide Sane, Drifts, Answer, MarkedFrom, Asked, IsDelete, SomeFailed, Runs, Turn, StateAt, AllAnswered, Proper,
         Undone, OcidsFrom, LeftAsHeld;
    ghost var c, log0, used := api.st, api.log, api.used;
    Begins(c, store.resources, rows, api.log);
    trail := [];
    var i := |rows|;
    while i > 0
      invariant 0 <= i <= |rows| && api.Valid() && old(store.faults) <= store.faults
      invariant |log0| <= |api.log| && Asked(log0, api.log, rows, i)
      invariant Runs(c, rows[i..], trail) && api.st == StateAt(c, trail, 0)
      invariant AllAnswered(trail, api.log, |log0|)
      invariant MarkedFrom(old(store.resources), store.resources, rows, i, store.faults == old(store.faults))
    {
      i := i - 1;
      ghost var s, said, faults, resources := api.st, api.log, store.faults, store.resources;
      if rows[i].resourceType.OtherType? {
        AskedSkip(log0, said, rows, i);
        SkipMarked(old(store.resources), resources, rows, i, faults == old(store.faults));
        ghost var skipped := Moment(s, Ok, s);
        SkipTurn(s, rows[i]);
        RunsOn(c, rows, i, trail, skipped);
        AnsweredSkip(trail, skipped, said, |log0|);
        trail := [skipped] + trail;
        continue;
      }
      var r, at := DeleteResource(api, rows[i]);
      ghost var call :| api.log == said + [call] && IsDelete(call, rows[i], r);
      AskedOn(log0, said, call, rows, i, r);
      ghost var m := Moment(at, r, api.st);
      DeleteTurn(s, rows[i], m);
      RunsOn(c, rows, i, trail, m);
      AnsweredMore(trail, m, said, call, |log0|, rows[i]);
      trail := [m] + trail;
      var ok := store.SetDeleted(rows[i].ocid, true);
      MarkedOn(old(store.resources), resources, store.resources, rows, i, faults == old(store.faults), ok);
    }
    AllAsked(log0, api.log, rows);
    assert rows[0..] == rows;
    RunsLength(c, rows, trail);
    Along(c, used, rows, trail, 0);
    if Proper(c, rows) {
      LeftExactly(c, used, rows, trail);
    }
    AnsweredIs(trail, api.log, |log0|);
  }

  lemma AnsweredIs(trail: seq<Moment>, log: seq<Call>, from: nat)
    requires AllAnswered(trail, log, from)
    ensures !SomeFailed(log, from) ==> Answered(trail)
  {
  }

  lemma AllAsked(log0: seq<Call>, log: seq<Call>, rows: seq<Resource>)
    requires Asked(log0, log, rows, 0)
    ensures log0 <= log && Requests(log[|log0|..]) == Undo(rows)
  {
  }

  lemma Begins(c: State, resources: seq<Resource>, rows: seq<Resource>, log: seq<Call>)
    ensures Runs(c, rows[|rows|..], []) && c == StateAt(c, [], 0)
    ensures MarkedFrom(resources, resources, rows, |rows|, true)
    ensures AllAnswered([], log, |log|)
    ensures Asked(log, log, rows, |rows|)
  {
    assert rows[..|rows|] == rows;
  }

  lemma SkipMarked(resources: seq<Resource>, marked: seq<Resource>, rows: seq<Resource>, i: nat, all: bool)
    requires i < |rows| && MarkedFrom(resources, marked, rows, i + 1, all) && !Deletable(rows[i])
    ensures MarkedFrom(resources, marked, rows, i, all)
  {
  }

  lemma MarkedOn(resources: seq<Resource>, marked: seq<Resource>, marked': seq<Resource>, rows: seq<Resource>, i: nat,
                 all: bool, ok: bool)
    requires i < |rows| && MarkedFrom(resources, marked, rows, i + 1, all)
    requires marked' == if ok then Marked(marked, rows[i].ocid, true) else marked
    ensures MarkedFrom(resources, marked', rows, i, all && ok)
  {
    assert Tracks(rows, rows[i].ocid);
    forall p | 0 <= p < |resources|
      ensures
        || marked'[p] == resources[p]
        || (marked'[p] == resources[p].(deleted := true) && Tracks(rows, resources[p].ocid))
    {
    }
  }

  /** Only status and progress of one row may differ. */
  predicate RowMoves(rows: map<int, Network>, rows': map<int, Network>, id: int) {
    && rows'.Keys == rows.Keys && rows' - {id} == rows - {id}
    && (id in rows ==> rows'[id] == rows[id].(status := rows'[id].status, progress := rows'[id].progress))
  }

  /** The deletes of `rows` were asked for, newest first, and `s` is where a run of
      these deletes ends. */
  ghost predicate RolledBack(c: State, log0: seq<Call>, s: State, log: seq<Call>, rows: seq<Resource>) {
    && log0 <= log && Requests(log[|log0|..]) == Undo(rows)
    && exists trail ::
         Runs(c, rows, trail) && s == StateAt(c, trail, 0) && (!SomeFailed(log, |log0|) ==> Answered(trail))
  }

  method Rollback(api: Api, store: Store, id: int)
    requires api.Valid()
    modifies api`st, api`log, store`rows, store`steps, store`resources, store`faults
    ensures api.Valid() && old(store.faults) <= store.faults
    ensures RowMoves(old(store.rows), store.rows, id)
    ensures MarkedFrom(old(store.resources), store.resources, RowsOf(old(store.resources), id), 0,
                       store.faults == old(store.faults))
    ensures
      || RolledBack(old(api.st), old(api.log), api.st, api.log, RowsOf(old(store.resources), id))
      || (old(store.faults) < store.faults && api.st == old(api.st) && api.log == old(api.log))
    ensures old(store.steps) <= store.steps
    ensures store.faults == old(store.faults) ==> store.steps == old(store.steps) + [RollingBack, GivenUp]
    ensures store.faults == old(store.faults) && id in store.rows ==>
      store.rows[id].status.Failed? && store.rows[id].progress.GivenUp?
  {
    hide SomeFailed, RowsOf, Undo, Requests, MarkedFrom, Sane, Runs, Answered, StateAt, Proper;
    ghost var resources := store.resources;
    var ok := store.UpdateProgress(id, RollingBack);
    var listed, rows := store.ListByNetwork(id);
    if !listed {
      NothingMarked(resources, RowsOf(resources, id));
      return;
    }
    ghost var trail := DeleteAll(api, store, rows);
    MarkedWeaker(resources, store.resources, rows);
    ok := store.UpdateStatus(id, Status.Failed);
    ok := store.UpdateProgress(id, GivenUp);
  }

  lemma NothingMarked(resources: seq<Resource>, rows: seq<Resource>)
    ensures MarkedFrom(resources, resources, rows, 0, false)
  {
  }

  lemma MarkedWeaker(resources: seq<Resource>, marked: seq<Resource>, rows: seq<Resource>)
    ensures MarkedFrom(resources, marked, rows, 0, true) ==> MarkedFrom(resources, marked, rows, 0, false)
  {
  }
}
