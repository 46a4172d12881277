/** The network service over its whole life: attempts, teardowns and restarts in any
    order, whatever the cloud and the database answer in between.

    A crash inside an operation is one of these runs: to cloud and tables it looks as if
    every later call of the operation had failed without effect. */
module Lifetime {
  import opened Cloud
  import opened NetworkStore
  import opened TrackedResources
  import opened Teardown
  import opened DestroyNetwork
  import opened Provisioning
  import opened ProvisionNetwork
  import opened Reconcile
  import JobQueue

  // ---- A teardown keeps the rows right ----

  lemma {:induction false} WithoutKnown(resources: seq<Resource>, used: set<Ocid>, id: int)
    requires Known(resources, used)
    ensures Known(Without(resources, id), used)
  {
    var kept := Without(resources, id);
    forall i | 0 <= i < |kept| ensures kept[i].ocid in used {
      assert kept[i] in resources;
    }
  }

  lemma {:induction false} WithoutDistinct(resources: seq<Resource>, id: int)
    requires Distinct(resources)
    ensures Distinct(Without(resources, id))
  {
    if resources != [] {
      var rest := resources[1..];
      WithoutDistinct(rest, id);
      forall j | 0 <= j < |Without(rest, id)| ensures Without(rest, id)[j].ocid != resources[0].ocid {
        assert Without(rest, id)[j] in rest;
        FirstIsDistinct(resources, Without(rest, id)[j]);
      }
    }
  }

  lemma FirstIsDistinct(resources: seq<Resource>, row: Resource)
    requires Distinct(resources) && resources != [] && row in resources[1..]
    ensures row.ocid != resources[0].ocid
  {
    var q :| 0 <= q < |resources[1..]| && resources[1..][q] == row;
    assert resources[q + 1] == row;
  }

  lemma WithoutProper(c: State, resources: seq<Resource>, id: int)
    requires Proper(c, resources)
    ensures Proper(c, Without(resources, id))
  {
    hide Typed, Distinct;
    WithoutDistinct(resources, id);
    var kept := Without(resources, id);
    forall i | 0 <= i < |kept| ensures Typed(c, kept[i]) {
      assert kept[i] in resources;
    }
  }

  lemma {:induction false} WithoutInOrder(c: State, resources: seq<Resource>, id: int)
    requires InOrder(c, resources)
    ensures InOrder(c, Without(resources, id))
  {
    if resources != [] {
      hide DependsOn;
      var rest, kept := resources[1..], Without(resources, id);
      forall i, j | 0 <= i < |rest| && 0 <= j < |rest| && DependsOn(c, rest[j].ocid, rest[i].ocid) ensures i < j {
        assert DependsOn(c, resources[j + 1].ocid, resources[i + 1].ocid);
      }
      WithoutInOrder(c, rest, id);
      forall i | 0 <= i < |kept| ensures !DependsOn(c, resources[0].ocid, kept[i].ocid) {
        assert kept[i] in resources;
        FirstDependsOnNone(c, resources, kept[i]);
      }
    }
  }

  lemma FirstDependsOnNone(c: State, resources: seq<Resource>, row: Resource)
    requires InOrder(c, resources) && resources != [] && row in resources
    ensures !DependsOn(c, resources[0].ocid, row.ocid)
  {
    var q :| 0 <= q < |resources| && resources[q] == row;
    assert DependsOn(c, resources[0].ocid, resources[q].ocid) ==> q < 0;
  }

  lemma TornDownTyped(c: State, used: set<Ocid>, c': State, vcn: Ocid, subnet: Ocid, row: Resource)
    requires Sane(c, used) && Sane(c', used) && TornDown(c, c', vcn, subnet) && Typed(c, row)
    ensures Typed(c', row)
  {
    hide RoutesKept, Removable;
    if row.ocid in c'.children {
      assert Cloud.Has(c, c.children[row.ocid].kind, row.ocid);
      assert Teardown.Lingers(c, c', subnet, row.ocid);
      SameDefault(c, c', vcn, subnet, c'.children[row.ocid].vcn);
    }
  }

  lemma SameDefault(c: State, c': State, vcn: Ocid, subnet: Ocid, v: Ocid)
    requires TornDown(c, c', vcn, subnet) && v in c'.vcns
    ensures v in c.vcns && c'.vcns[v].defaultList == c.vcns[v].defaultList
  {
  }

  lemma TornDownDepends(c: State, c': State, vcn: Ocid, subnet: Ocid, x: Ocid, y: Ocid)
    requires TornDown(c, c', vcn, subnet) && DependsOn(c', x, y)
    ensures DependsOn(c, x, y)
  {
    assert Teardown.Lingers(c, c', subnet, x);
  }

  lemma TornDownTracked(c: State, used: set<Ocid>, c': State, vcn: Ocid, subnet: Ocid, resources: seq<Resource>)
    requires Sane(c, used) && Sane(c', used) && TornDown(c, c', vcn, subnet) && Tracked(c, used, resources)
    ensures Tracked(c', used, resources)
  {
    hide Sane, TornDown, Typed, DependsOn;
    forall i | 0 <= i < |resources| ensures Typed(c', resources[i]) {
      TornDownTyped(c, used, c', vcn, subnet, resources[i]);
    }
    forall i, j | 0 <= i < |resources| && 0 <= j < |resources| && DependsOn(c', resources[j].ocid, resources[i].ocid)
      ensures i < j
    {
      TornDownDepends(c, c', vcn, subnet, resources[j].ocid, resources[i].ocid);
    }
  }

  lemma DestroyedTracked(c: State, used: set<Ocid>, c': State, row: Network, outcome: DestroyNetwork.Outcome,
                         log: seq<Call>,
                         log': seq<Call>, resources: seq<Resource>)
    requires Sane(c, used) && Sane(c', used) && Tracked(c, used, resources)
    requires CloudAfter(row, outcome, c, log, c', log')
    ensures Tracked(c', used, resources)
  {
    hide Sane, TornDown, Tracked, Disciplined;
    if c' != c {
      TornDownTracked(c, used, c', row.vcnOcid, row.subnetOcid, resources);
    }
  }

  lemma WithoutTracked(c: State, used: set<Ocid>, resources: seq<Resource>, id: int)
    requires Tracked(c, used, resources)
    ensures Tracked(c, used, Without(resources, id))
  {
    hide Known, Proper, InOrder;
    WithoutKnown(resources, used, id);
    WithoutProper(c, resources, id);
    WithoutInOrder(c, resources, id);
  }

  // ---- The service ----

  /** A job's attempt, an operator's teardown, or a restart. */
  datatype Event = Attempted(id: int) | TornDownBy(id: int) | Restarted(now: JobQueue.Time)

  method TearDown(api: Api, store: Store, id: int)
    requires api.Valid() && Tracked(api.st, api.used, store.resources)
    modifies api`st, api`log, api`seen, api`lost, api`phase, store`rows, store`resources, store`faults
    ensures api.Valid() && Tracked(api.st, api.used, store.resources)
  {
    hide Sane, Tracked, CloudAfter, Without, Decided;
    ghost var c, log, rows, resources := api.st, api.log, store.rows, store.resources;
    var outcome := Destroy(api, store, id);
    if !outcome.NoSuchNetwork? {
      DestroyedTracked(c, api.used, api.st, rows[id], outcome, log, api.log, resources);
    }
    if outcome.Destroyed? {
      WithoutTracked(api.st, api.used, resources, id);
    }
  }

  /** From an installation that has recorded nothing yet, in any cloud: after any
      events the recorded rows name resources that were made, each once, as what it
      is, and after what it depends on. */
  method Serve(api: Api, store: Store, queue: JobQueue.Queue, events: seq<Event>)
    requires api.Valid() && store.resources == []
    modifies api`st, api`log, api`seen, api`lost, api`made, api`used, api`phase
    modifies store`rows, store`steps, store`resources, store`faults, queue`jobs
    ensures api.Valid() && Tracked(api.st, api.used, store.resources)
  {
    hide Sane, Tracked, InPlace, Early, RowIs, NothingLive, RowsOf, UndoneLast, SomeFailed;
    NothingTracked(api.st, api.used);
    var i := 0;
    while i < |events|
      invariant 0 <= i <= |events| && api.Valid() && Tracked(api.st, api.used, store.resources)
    {
      match events[i] {
        case Attempted(id) =>
          var outcome;
          ghost var gateway, list;
          outcome, gateway, list := Provision(api, store, id);
        case TornDownBy(id) => TearDown(api, store, id);
        case Restarted(now) =>
          var ok := ReconcileOnStartup(api, store);
          queue.ResumeOnStartup(now);
      }
      i := i + 1;
    }
  }

  lemma NothingTracked(c: State, used: set<Ocid>)
    ensures Tracked(c, used, [])
  {
  }
}
