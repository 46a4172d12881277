/** internal/service/reconcile.go, networks only: what a restart does about networks
    that a crash left pending or provisioning, and how cmd/api/main.go combines it
    with resuming the job queue. */
module Reconcile {
  import opened Cloud
  import opened NetworkStore
  import opened TrackedResources
  import opened Provisioning
  import opened RollbackNetwork
  import opened ProvisionNetwork
  import JobQueue

  /** Every answer about a VCN was an answer. */
  ghost predicate VcnsAnswered(log: seq<Call>, from: nat) {
    forall i :: from <= i < |log| && log[i].op == AskVcn ==> !log[i].result.Failed?
  }

  /** Nothing deletable is tracked except VCNs that are gone. */
  ghost predicate OnlyGoneVcns(c: State, rows: seq<Resource>) {
    forall i :: 0 <= i < |rows| && Deletable(rows[i]) ==> rows[i].resourceType.VcnType? && rows[i].ocid !in c.vcns
  }

  /** Something other than a VCN is tracked, or a VCN that is still there. */
  predicate MayExist(c: State, rows: seq<Resource>) {
    exists i :: 0 <= i < |rows| &&
      (|| rows[i].resourceType in {GatewayType, ListType, SubnetType}
       || (rows[i].resourceType.VcnType? && rows[i].ocid in c.vcns))
  }

  lemma SameVcns(c: State, c': State)
    requires Drifts(c, c')
    ensures c'.vcns.Keys == c.vcns.Keys
  {
  }

  lemma AnsweredOn(log: seq<Call>, call: Call, from: nat)
    requires from <= |log| && call.op == AskVcn
    ensures VcnsAnswered(log + [call], from) ==> VcnsAnswered(log, from) && !call.result.Failed?
  {
    var log' := log + [call];
    assert log'[|log|] == call;
    assert forall k :: 0 <= k < |log| ==> log'[k] == log[k];
  }

  lemma StillGone(c: State, c': State, rows: seq<Resource>)
    requires Drifts(c, c')
    ensures OnlyGoneVcns(c, rows) ==> OnlyGoneVcns(c', rows)
  {
  }

  lemma GoneMeansNot(c: State, c': State, rows: seq<Resource>)
    requires Drifts(c, c')
    ensures OnlyGoneVcns(c', rows) <==> !MayExist(c, rows)
  {
    if MayExist(c, rows) {
      var i :| 0 <= i < |rows| &&
        (|| rows[i].resourceType in {GatewayType, ListType, SubnetType}
         || (rows[i].resourceType.VcnType? && rows[i].ocid in c.vcns));
      assert Deletable(rows[i]);
    }
  }

  lemma MayExistRow(c: State, resources: seq<Resource>, id: int)
    ensures MayExist(c, RowsOf(resources, id))
       <==> exists r :: r in resources && r.network == id
              && (|| r.resourceType in {GatewayType, ListType, SubnetType}
                  || (r.resourceType == VcnType && r.ocid in c.vcns))
  {
    var rows := RowsOf(resources, id);
    forall r | r in resources && r.network == id ensures r in rows {
    }
  }

  /** Whether anything tracked may still exist: only VCNs can be looked up. */
  method AnyExists(api: Api, rows: seq<Resource>) returns (any: bool)
    requires api.Valid()
    modifies api`st, api`log, api`seen
    ensures api.Valid() && Drifts(old(api.st), api.st) && old(api.log) <= api.log
    ensures !any && VcnsAnswered(api.log, |old(api.log)|) ==> OnlyGoneVcns(api.st, rows)
    ensures any ==> MayExist(old(api.st), rows)
    ensures (exists i :: 0 <= i < |rows| && rows[i].resourceType in {GatewayType, ListType, SubnetType}) ==> any
  {
    hide Sane, Drifts;
    NothingChanged(api.st, []);
    any := false;
    var i := 0;
    while i < |rows|
      invariant 0 <= i <= |rows| && api.Valid() && Drifts(old(api.st), api.st) && old(api.log) <= api.log
      invariant !any && VcnsAnswered(api.log, |old(api.log)|) ==> OnlyGoneVcns(api.st, rows[..i])
      invariant any ==> MayExist(old(api.st), rows)
      invariant (exists k :: 0 <= k < i && rows[k].resourceType in {GatewayType, ListType, SubnetType}) ==> any
    {
      ghost var c, log, was := api.st, api.log, any;
      match rows[i].resourceType {
        case VcnType =>
          var r, shown, lifecycle := api.GetVcn(rows[i].ocid);
          DriftsOn(old(api.st), c, api.st);
          SameVcns(old(api.st), api.st);
          AnsweredOn(log, Call(api.phase, AskVcn, rows[i].ocid, false, r), |old(api.log)|);
          StillGone(c, api.st, rows[..i]);
          if r.Ok? && !lifecycle.Terminated? {
            any := true;
          }
        case OtherType(_) =>
        case _ => any := true;
      }
      i := i + 1;
    }
    assert rows[..|rows|] == rows;
  }

  predicate AllMarked(resources: seq<Resource>, id: int) {
    forall p :: 0 <= p < |resources| && resources[p].network == id ==> resources[p].deleted
  }

  /** The rows with one of the first `n` OCIDs have the mark. */
  ghost predicate FirstMarked(resources: seq<Resource>, rows: seq<Resource>, n: nat)
    requires n <= |rows|
  {
    forall p, k :: 0 <= p < |resources| && 0 <= k < n && rows[k].ocid == resources[p].ocid ==> resources[p].deleted
  }

  lemma OneMoreMarked(before: seq<Resource>, resources: seq<Resource>, marked: seq<Resource>, rows: seq<Resource>,
                      n: nat, all: bool, ok: bool)
    requires n < |rows| && SameBut(before, resources) && (all ==> FirstMarked(resources, rows, n))
    requires marked == if ok then Marked(resources, rows[n].ocid, true) else resources
    ensures SameBut(before, marked) && (all && ok ==> FirstMarked(marked, rows, n + 1))
  {
    forall p | 0 <= p < |before| ensures marked[p].(deleted := true) == before[p].(deleted := true) {
      assert resources[p].(deleted := true) == before[p].(deleted := true);
    }
  }

  lemma EveryRowMarked(before: seq<Resource>, marked: seq<Resource>, id: int)
    requires SameBut(before, marked) && FirstMarked(marked, RowsOf(before, id), |RowsOf(before, id)|)
    ensures AllMarked(marked, id)
  {
    var rows := RowsOf(before, id);
    forall p | 0 <= p < |marked| && marked[p].network == id ensures marked[p].deleted {
      assert marked[p].(deleted := true) == before[p].(deleted := true);
      assert marked[p].network == before[p].network && marked[p].ocid == before[p].ocid;
      assert before[p] in rows;
      var k :| 0 <= k < |rows| && rows[k] == before[p];
    }
  }

  method MarkAll(store: Store, ghost id: int, rows: seq<Resource>)
    requires rows == RowsOf(store.resources, id)
    modifies store`resources, store`faults
    ensures old(store.faults) <= store.faults && SameBut(old(store.resources), store.resources)
    ensures store.faults == old(store.faults) ==> AllMarked(store.resources, id)
  {
    hide RowsOf, FirstMarked, AllMarked;
    NoneMarked(store.resources, rows);
    var i := 0;
    while i < |rows|
      invariant 0 <= i <= |rows| && old(store.faults) <= store.faults
      invariant SameBut(old(store.resources), store.resources)
      invariant store.faults == old(store.faults) ==> FirstMarked(store.resources, rows, i)
    {
      ghost var resources, faults := store.resources, store.faults;
      var ok := store.SetDeleted(rows[i].ocid, true);
      OneMoreMarked(old(store.resources), resources, store.resources, rows, i, faults == old(store.faults), ok);
      i := i + 1;
    }
    if store.faults == old(store.faults) {
      EveryRowMarked(old(store.resources), store.resources, id);
    }
  }

  lemma NoneMarked(resources: seq<Resource>, rows: seq<Resource>)
    ensures FirstMarked(resources, rows, 0)
  {
  }

  lemma KeptTracked(c: State, c': State, resources: seq<Resource>, marked: seq<Resource>, used: set<Ocid>)
    requires Sane(c, used) && Tracked(c, used, resources) && Drifts(c, c') && SameBut(resources, marked)
    ensures Tracked(c', used, marked)
  {
    hide Sane;
    forall i | 0 <= i < |marked| ensures marked[i].ocid == resources[i].ocid && Typed(c', marked[i]) {
      assert marked[i].(deleted := true) == resources[i].(deleted := true);
      assert marked[i].resourceType == resources[i].resourceType && marked[i].ocid == resources[i].ocid;
      DriftTyped(c, used, c', resources[i], marked[i]);
    }
    hide Typed;
    forall i, j | 0 <= i < |marked| && 0 <= j < |marked| && DependsOn(c', marked[j].ocid, marked[i].ocid)
      ensures i < j
    {
      assert DependsOn(c, resources[j].ocid, resources[i].ocid);
    }
  }

  lemma DriftTyped(c: State, used: set<Ocid>, c': State, row: Resource, mark: Resource)
    requires Sane(c, used) && Drifts(c, c') && Typed(c, row)
    requires mark.ocid == row.ocid && mark.resourceType == row.resourceType
    ensures Typed(c', mark)
  {
  }

  lemma NothingChanged(c: State, resources: seq<Resource>)
    ensures Drifts(c, c) && SameBut(resources, resources)
  {
  }

  lemma OnlyGoneVcnsMarked(c: State, resources: seq<Resource>, marked: seq<Resource>, id: int)
    requires OnlyGoneVcns(c, RowsOf(resources, id)) && SameBut(resources, marked)
    ensures OnlyGoneVcns(c, RowsOf(marked, id))
  {
    RowsOfMarked(resources, marked, id);
    var before, after := RowsOf(resources, id), RowsOf(marked, id);
    forall i | 0 <= i < |after| && Deletable(after[i])
      ensures after[i].resourceType.VcnType? && after[i].ocid !in c.vcns
    {
      assert after[i].(deleted := true) == before[i].(deleted := true);
      assert after[i].resourceType == before[i].resourceType && after[i].ocid == before[i].ocid;
    }
  }

  /** Back to pending, or rolled back to failed. */
  predicate Unstuck(row: Network) {
    (row.status.Pending? && row.progress.NotStarted?) || (row.status.Failed? && row.progress.GivenUp?)
  }

  method ResetToPending(store: Store, id: int)
    requires id in store.rows
    modifies store`rows, store`steps, store`faults
    ensures old(store.faults) <= store.faults
    ensures id in store.rows && RowIs(old(store.rows), store.rows, id, store.rows[id])
    ensures store.faults == old(store.faults) ==> store.rows[id].status.Pending? && store.rows[id].progress.NotStarted?
  {
    hide RowIs;
    ghost var rows, row := store.rows, store.rows[id];
    RowIsStart(rows, id);
    var ok := WriteStatus(store, id, Status.Pending, rows, row);
    row := if ok then row.(status := Status.Pending) else row;
    ok := WriteState(store, id, NotStarted, rows, row);
    RowValue(rows, store.rows, id, if ok then row.(progress := NotStarted) else row);
  }

  method ReconcileNetwork(api: Api, store: Store, id: int)
    requires api.Valid() && Tracked(api.st, api.used, store.resources) && id in store.rows
    modifies api`st, api`log, api`seen, store`rows, store`steps, store`resources, store`faults
    ensures api.Valid() && Tracked(api.st, api.used, store.resources)
    ensures old(store.faults) <= store.faults && old(api.log) <= api.log
    ensures id in store.rows && RowIs(old(store.rows), store.rows, id, store.rows[id])
    ensures store.faults == old(store.faults) && store.settings.region != "" ==> Unstuck(store.rows[id])
    ensures store.faults == old(store.faults) && store.settings.region != "" && store.rows[id].status.Pending? ==>
      AllMarked(store.resources, id)
    // Rolled back only if something may be left, and then completely.
    ensures store.faults == old(store.faults) && store.settings.region != "" && store.rows[id].status.Failed? ==>
      MayExist(old(api.st), RowsOf(old(store.resources), id)) && UndoneLast(api.log, store.resources, id)
    // Pending again only if nothing tracked is left, as far as the cloud answered.
    ensures (store.faults == old(store.faults) && store.settings.region != "" && store.rows[id].status.Pending?
      && VcnsAnswered(api.log, |old(api.log)|)) ==> OnlyGoneVcns(api.st, RowsOf(store.resources, id))
    // If every VCN was answered for: rolled back exactly if a gateway, list or subnet
    // is recorded, or a VCN that is there.
    ensures (store.faults == old(store.faults) && store.settings.region != ""
      && VcnsAnswered(api.log, |old(api.log)|)) ==>
      (store.rows[id].status == Status.Failed
       <==> exists r :: r in old(store.resources) && r.network == id
              && (|| r.resourceType in {GatewayType, ListType, SubnetType}
                  || (r.resourceType == VcnType && r.ocid in old(api.st).vcns)))
    ensures store.settings.region == "" ==>
      && store.rows == old(store.rows) && store.resources == old(store.resources)
      && api.st == old(api.st) && api.log == old(api.log)
  {
    hide Tracked, Sane, Drifts, SameBut, RowsOf, OnlyGoneVcns, VcnsAnswered, MarkedFrom, RolledBack, RowIs, RowMoves;
    ghost var c, resources, table := api.st, store.resources, store.rows;
    RowIsStart(table, id);
    NothingChanged(c, resources);
    MayExistRow(c, resources, id);
    var ok, settings := store.LoadSettings();
    if !ok || settings.region == "" {
      return;
    }
    var listed, rows := store.ListByNetwork(id);
    if !listed {
      return;
    }
    if |rows| == 0 {
      NoneTracked(c, rows);
      GoneMeansNot(c, c, rows);
      ResetToPending(store, id);
      return;
    }
    var any := AnyExists(api, rows);
    GoneMeansNot(c, api.st, rows);
    ghost var log1 := api.log;
    KeptTracked(c, api.st, resources, resources, api.used);
    if any {
      ghost var c1, faults1 := api.st, store.faults;
      Rollback(api, store, id);
      AfterRollback(c1, api.used, log1, api.st, api.log, resources, store.resources, id, |log1|, faults1, store.faults);
      RowIsAfterRollback(table, table, id, table[id], store.rows);
      RowValue(table, store.rows, id, table[id].(status := store.rows[id].status, progress := store.rows[id].progress));
    } else {
      MarkAll(store, id, rows);
      KeptTracked(c, api.st, resources, store.resources, api.used);
      if OnlyGoneVcns(api.st, rows) {
        OnlyGoneVcnsMarked(api.st, resources, store.resources, id);
      }
      ResetToPending(store, id);
    }
  }

  lemma NoneTracked(c: State, rows: seq<Resource>)
    requires |rows| == 0
    ensures OnlyGoneVcns(c, rows)
  {
  }

  /** Networks other than the stuck ones keep their rows. */
  ghost predicate OthersKept(rows: map<int, Network>, rows': map<int, Network>) {
    && rows'.Keys == rows.Keys
    && forall n :: n in rows && !(rows[n].status.Pending? || rows[n].status.Provisioning?) ==> rows'[n] == rows[n]
  }

  /** The first `i` of the stuck networks are done, and no other is provisioning. */
  predicate Handled(rows: map<int, Network>, stuck: seq<int>, i: nat)
    requires i <= |stuck|
  {
    && (forall n :: n in rows && rows[n].status.Provisioning? ==> n in stuck[i..])
    && (forall k :: 0 <= k < i ==> stuck[k] in rows && Unstuck(rows[stuck[k]]))
  }

  lemma HandledOn(rows: map<int, Network>, rows': map<int, Network>, stuck: seq<int>, i: nat)
    requires i < |stuck| && Ascending(stuck) && Handled(rows, stuck, i) && rows'.Keys == rows.Keys
    requires stuck[i] in rows' && Unstuck(rows'[stuck[i]])
    requires forall n :: n in rows && n != stuck[i] ==> rows'[n] == rows[n]
    ensures Handled(rows', stuck, i + 1)
  {
    assert stuck[i..] == [stuck[i]] + stuck[i + 1..];
  }

  method ReconcileOnStartup(api: Api, store: Store) returns (ok: bool)
    requires api.Valid() && Tracked(api.st, api.used, store.resources)
    modifies api`st, api`log, api`seen, store`rows, store`steps, store`resources, store`faults
    ensures api.Valid() && Tracked(api.st, api.used, store.resources)
    ensures old(store.faults) <= store.faults && OthersKept(old(store.rows), store.rows)
    ensures store.faults == old(store.faults) && store.settings.region != "" ==>
      forall n :: n in store.rows ==> !store.rows[n].status.Provisioning?
    // Each interrupted one starts afresh or has been rolled back.
    ensures store.faults == old(store.faults) && store.settings.region != "" ==>
      && ok
      && forall n :: n in old(store.rows) && old(store.rows)[n].status in {Status.Pending, Provisioning} ==>
           && n in store.rows
           && (|| (store.rows[n].status == Status.Pending && store.rows[n].progress == NotStarted)
               || (store.rows[n].status == Status.Failed && store.rows[n].progress == GivenUp))
  {
    hide Tracked, Sane, RowIs, Handled, Ascending;
    var stuck;
    ok, stuck := store.ListByStatus({Status.Pending, Provisioning});
    if !ok {
      return;
    }
    NoneHandled(store.rows, stuck);
    var i := 0;
    while i < |stuck|
      invariant 0 <= i <= |stuck|
      invariant api.Valid() && Tracked(api.st, api.used, store.resources)
      invariant old(store.faults) <= store.faults && OthersKept(old(store.rows), store.rows)
      invariant store.faults == old(store.faults) && store.settings.region != "" ==>
        Handled(store.rows, stuck, i)
    {
      ghost var rows := store.rows;
      ReconcileNetwork(api, store, stuck[i]);
      OneRow(rows, store.rows, stuck[i]);
      if store.faults == old(store.faults) && store.settings.region != "" {
        HandledOn(rows, store.rows, stuck, i);
      }
      i := i + 1;
    }
    if store.faults == old(store.faults) && store.settings.region != "" {
      AllHandled(store.rows, stuck);
    }
  }

  lemma NoneHandled(rows: map<int, Network>, stuck: seq<int>)
    requires forall n :: n in rows && rows[n].status.Provisioning? ==> n in stuck
    ensures Handled(rows, stuck, 0)
  {
  }

  lemma AllHandled(rows: map<int, Network>, stuck: seq<int>)
    requires Handled(rows, stuck, |stuck|)
    ensures forall n :: n in rows ==> !rows[n].status.Provisioning?
    ensures forall n :: n in stuck ==> n in rows && Unstuck(rows[n])
  {
  }

  lemma OneRow(rows: map<int, Network>, rows': map<int, Network>, id: int)
    requires id in rows && id in rows' && RowIs(rows, rows', id, rows'[id])
    ensures rows'.Keys == rows.Keys
    ensures forall n :: n in rows && n != id ==> rows'[n] == rows[n]
  {
    forall n | n in rows && n != id ensures rows'[n] == rows[n] {
      assert n in rows - {id};
      assert (rows' - {id})[n] == (rows - {id})[n];
    }
  }

  /** A restart followed by the attempt of a resumed job: whatever a crash left
      behind, the attempt is not refused because one is thought to be running. */
  method RestartAndProvision(api: Api, store: Store, queue: JobQueue.Queue, id: int, now: JobQueue.Time)
      returns (outcome: Outcome)
    requires api.Valid() && Tracked(api.st, api.used, store.resources)
    modifies api`st, api`log, api`seen, api`lost, api`made, api`used
    modifies store`rows, store`steps, store`resources, store`faults, queue`jobs
    ensures api.Valid() && Tracked(api.st, api.used, store.resources)
    ensures queue.jobs == JobQueue.Resumed(old(queue.jobs), now)
    ensures forall j :: 0 <= j < |queue.jobs| ==> !queue.jobs[j].status.Running?
    ensures store.settings.region != "" && store.faults == old(store.faults) ==> !outcome.AlreadyProvisioning?
  {
    hide Tracked, Sane, InPlace, Early, RowIs, NothingLive, RowsOf, UndoneLast, SomeFailed;
    var ok := ReconcileOnStartup(api, store);
    queue.ResumeOnStartup(now);
    ghost var gateway, list;
    outcome, gateway, list := Provision(api, store, id);
  }
}
