/** The steps of ProvisionNetwork (internal/service/network.go): reuse or create each
    resource, record it, and roll everything back on failure. */
module ProvisionNetwork {
  import opened Wrappers
  import opened Cloud
  import opened NetworkStore
  import opened TrackedResources
  import opened Provisioning
  import opened RollbackRuns
  import opened RollbackNetwork

  /** Records a new resource; a failure to do so is only logged. */
  method Track(store: Store, id: int, resourceType: ResourceType, ocid: Ocid)
    requires forall i :: 0 <= i < |store.resources| ==> store.resources[i].ocid != ocid
    modifies store`resources, store`faults
    ensures old(store.faults) <= store.faults
    ensures
      || store.resources == old(store.resources)
      || store.resources == old(store.resources) + [Resource(id, resourceType, ocid, false)]
    ensures store.faults == old(store.faults) ==>
      store.resources == old(store.resources) + [Resource(id, resourceType, ocid, false)]
  {
    var ok := store.CreateResource(id, resourceType, ocid);
    ghost var created := store.resources;
    ok := store.SetDeleted(ocid, false);
    assert store.resources == created;
  }

  lemma KnownHasNo(c: State, resources: seq<Resource>, used: set<Ocid>, id: Ocid)
    requires Tracked(c, used, resources) && id !in used
    ensures forall i :: 0 <= i < |resources| ==> resources[i].ocid != id
  {
  }

  ghost predicate FreshOrKept(c: State, c': State, vcn: Ocid) {
    && vcn in c'.vcns
    && (if vcn in c.vcns then VcnDrifts(c.vcns[vcn], c'.vcns[vcn])
           else c'.vcns[vcn].routeTable && c'.vcns[vcn].rules == [] && c'.vcns[vcn].pending.None?)
  }

  // ---- What can stop an attempt ----

  /** A query or route update that failed, or a create that was not accepted. */
  predicate Obstacle(call: Call) {
    match call.op
    case AskVcn => call.result.Failed?
    case AskRoutes => call.result.Failed?
    case PutRoutes => call.result.Failed?
    case MakeVcn => !call.result.Ok?
    case MakeChild(_) => !call.result.Ok?
    case _ => false
  }

  predicate Obstructed(log: seq<Call>, from: nat) {
    exists i :: from <= i < |log| && Obstacle(log[i])
  }

  lemma ObstructedNow(log: seq<Call>, log': seq<Call>, call: Call)
    requires log + [call] <= log' && Obstacle(call)
    ensures Obstructed(log', |log|)
  {
    assert log'[|log|] == call;
  }

  lemma ObstructedOn(log0: seq<Call>, log: seq<Call>, log': seq<Call>)
    requires Later(log0, log) && Later(log, log')
    ensures Obstructed(log, |log0|) ==> Obstructed(log', |log0|)
    ensures Obstructed(log', |log|) ==> Obstructed(log', |log0|)
  {
    if Obstructed(log, |log0|) {
      var i :| |log0| <= i < |log| && Obstacle(log[i]);
      assert log'[i] == log[i];
    }
  }

  /** Every VCN recorded for the network that is there has its default route table. */
  ghost predicate RouteTables(c: State, resources: seq<Resource>, id: int) {
    forall vcn :: RecordedAs(resources, id, VcnType, vcn) && vcn in c.vcns ==> c.vcns[vcn].routeTable
  }

  lemma TableThere(c: State, used: set<Ocid>, c': State, resources: seq<Resource>, id: int, vcn: Ocid)
    requires Sane(c, used) && FreshOrKept(c, c', vcn) && (vcn !in used || RecordedAs(resources, id, VcnType, vcn))
    ensures vcn in c'.vcns && (RouteTables(c, resources, id) ==> c'.vcns[vcn].routeTable)
  {
    hide RecordedAs;
  }

  // ---- The resources, one by one ----

  /** After a VCN was created and, perhaps, recorded. */
  lemma VcnSteps(c: State, used: set<Ocid>, at: State, vcn: Ocid, list: Ocid, c': State, used': set<Ocid>,
                 id: int, resources: seq<Resource>, resources': seq<Resource>)
    requires Sane(c, used) && Drifts(c, at) && vcn in used' && vcn !in used && list !in used && vcn != list
    requires c' == VcnAdded(at, vcn, list) && Sane(c', used') && used <= used' && Tracked(c, used, resources)
    requires resources' == resources || resources' == resources + [Resource(id, VcnType, vcn, false)]
    ensures Stepped(c, used, c', used', resources', vcn) && FreshOrKept(c, c', vcn)
    ensures resources' != resources ==> TracksAs(RowsOf(resources', id), VcnType, vcn)
    ensures resources' != resources && Early(c, RowsOf(resources, id)) ==> Early(c', RowsOf(resources', id))
  {
    hide Tracked, Grows, Early, RefersBack, TracksAs, RowsOf, DependsOn;
    var row, rows := Resource(id, VcnType, vcn, false), RowsOf(resources, id);
    DriftSane(c, used, at);
    VcnCreated(c, used, at, vcn, list);
    CreatedStepped(c, used, c', used', vcn, resources, row, resources');
    if resources' != resources {
      RowsOfAppend(resources, row, id);
      LastIsTracked(rows, row);
      if Early(c, rows) {
        EarlyDrifts(c, used, at, rows);
        RowsKnown(c, resources, used, id);
        EarlyAddsVcn(at, used, rows, row, list);
      }
    }
  }

  lemma Waits(c: State, used: set<Ocid>, c': State, used': set<Ocid>, resources: seq<Resource>, id: int, vcn: Ocid)
    requires Sane(c, used) && Sane(c', used') && used <= used' && Drifts(c, c') && Tracked(c, used, resources)
    ensures Stepped(c, used, c', used', resources, vcn)
    ensures Early(c, RowsOf(resources, id)) ==> Early(c', RowsOf(resources, id))
    ensures vcn in c.vcns ==> FreshOrKept(c, c', vcn)
  {
    hide Tracked, Grows, Early, RowsOf;
    DriftStepped(c, used, c', used', resources, vcn);
    if Early(c, RowsOf(resources, id)) {
      EarlyDrifts(c, used, c', RowsOf(resources, id));
    }
  }

  /** At most one row is recorded, after all others. */
  predicate Appends(resources: seq<Resource>, resources': seq<Resource>, id: int, resourceType: ResourceType,
                    ocid: Ocid) {
    resources' == resources || resources' == resources + [Resource(id, resourceType, ocid, false)]
  }

  /** The same subnets are recorded for the network. */
  ghost predicate SameSubnets(resources: seq<Resource>, resources': seq<Resource>, id: int) {
    forall ocid :: RecordedAs(resources', id, SubnetType, ocid) <==> RecordedAs(resources, id, SubnetType, ocid)
  }

  lemma AppendsNoSubnet(resources: seq<Resource>, resources': seq<Resource>, id: int, resourceType: ResourceType,
                        ocid: Ocid)
    requires Appends(resources, resources', id, resourceType, ocid) && resourceType != SubnetType
    ensures SameSubnets(resources, resources', id)
  {
    forall subnet | RecordedAs(resources, id, SubnetType, subnet)
      ensures RecordedAs(resources', id, SubnetType, subnet)
    {
      var k :| 0 <= k < |resources| && resources[k].network == id && resources[k].resourceType == SubnetType
        && resources[k].ocid == subnet;
      assert resources'[k] == resources[k];
    }
  }

  lemma SameSubnetsOn(a: seq<Resource>, b: seq<Resource>, c: seq<Resource>, id: int)
    requires SameSubnets(a, b, id) && SameSubnets(b, c, id)
    ensures SameSubnets(a, c, id)
  {
    hide RecordedAs;
  }

  /** A tracked resource is reused if a query showed it as available, and another one
      is created only if none did. */
  ghost predicate Reuses(resources: seq<Resource>, id: int, resourceType: ResourceType,
                         used: set<Ocid>, seen: set<Ocid>, seen': set<Ocid>, ocid: Ocid) {
    exists tracked :: OneOfType(resources, id, resourceType, tracked) &&
      if ocid in used then tracked.Some? && tracked.value.ocid == ocid && ocid in seen'
      else tracked.None? || tracked.value.ocid == "" || tracked.value.ocid in seen || tracked.value.ocid !in seen'
  }

  method CreateTrackedVcn(api: Api, store: Store, id: int, ghost c: State) returns (r: Result, vcn: Ocid)
    requires api.Valid() && Sane(c, api.used) && Drifts(c, api.st) && Tracked(c, api.used, store.resources)
    modifies api`st, api`log, api`lost, api`made, api`used, store`resources, store`faults
    ensures api.Valid() && old(store.faults) <= store.faults && old(api.lost) <= api.lost
    ensures Later(old(api.log), api.log) && (!r.Ok? ==> Obstructed(api.log, |old(api.log)|))
    ensures Appends(old(store.resources), store.resources, id, VcnType, vcn)
    ensures Stepped(c, old(api.used), api.st, api.used, store.resources, vcn)
    ensures r.Ok? ==>
      vcn !in old(api.used) && vcn != "" && vcn in api.used && FreshOrKept(c, api.st, vcn)
    ensures r.Ok? && store.faults == old(store.faults) ==> TracksAs(RowsOf(store.resources, id), VcnType, vcn)
    ensures (store.faults == old(store.faults) && api.lost == old(api.lost)
      && Early(c, RowsOf(old(store.resources), id))) ==> Early(api.st, RowsOf(store.resources, id))
  {
    hide Tracked, Sane, Grows, Early, TracksAs, RowsOf, Stepped, FreshOrKept, Drifts, VcnAdded, Obstructed;
    ghost var c1, used, resources, list, at := api.st, api.used, store.resources, "", api.st;
    r, vcn, list, at := api.CreateVcn();
    DriftsOn(c, c1, at);
    if !r.Ok? {
      ObstructedNow(old(api.log), api.log, Call(api.phase, MakeVcn, vcn, false, r));
      if api.st == at {
        Waits(c, used, at, api.used, resources, id, vcn);
      } else {
        VcnSteps(c, used, at, vcn, list, api.st, api.used, id, resources, resources);
      }
      return;
    }
    KnownHasNo(c, resources, used, vcn);
    Track(store, id, VcnType, vcn);
    VcnSteps(c, used, at, vcn, list, api.st, api.used, id, resources, store.resources);
  }

  method CreateOrGetVcn(api: Api, store: Store, id: int) returns (r: Result, vcn: Ocid)
    requires api.Valid() && Tracked(api.st, api.used, store.resources)
    modifies api`st, api`log, api`seen, api`lost, api`made, api`used, store`resources, store`faults
    ensures api.Valid() && old(store.faults) <= store.faults && old(api.lost) <= api.lost
    ensures Later(old(api.log), api.log)
    ensures r.Ok? ==> vcn !in old(api.used) || RecordedAs(old(store.resources), id, VcnType, vcn)
    ensures !r.Ok? ==> Obstructed(api.log, |old(api.log)|)
    ensures r.Ok? && store.faults == old(store.faults) ==>
      Reuses(old(store.resources), id, VcnType, old(api.used), old(api.seen), api.seen, vcn)
    ensures Appends(old(store.resources), store.resources, id, VcnType, vcn)
    ensures Stepped(old(api.st), old(api.used), api.st, api.used, store.resources, vcn)
    ensures r.Ok? ==> vcn != "" && vcn in api.used && FreshOrKept(old(api.st), api.st, vcn)
    ensures r.Ok? && store.faults == old(store.faults) ==> TracksAs(RowsOf(store.resources, id), VcnType, vcn)
    ensures (store.faults == old(store.faults) && api.lost == old(api.lost)
      && Early(old(api.st), RowsOf(old(store.resources), id))) ==>
      Early(api.st, RowsOf(store.resources, id))
  {
    hide OneOfType, RecordedAs, Tracked, Sane, Grows, Early, TracksAs, RowsOf, Stepped, FreshOrKept, Drifts, VcnAdded,
         Obstructed;
    ghost var c, used, resources := api.st, api.used, store.resources;
    NoDrift(c);
    var ok, existing := store.GetByNetworkAndType(id, VcnType);
    if ok && existing.Some? && existing.value.ocid != "" {
      vcn := existing.value.ocid;
      var shown, lifecycle;
      r, shown, lifecycle := api.GetVcn(vcn);
      if r.Ok? && lifecycle.Available? {
        Waits(c, used, api.st, api.used, resources, id, vcn);
        OneIsTracked(c, resources, id, VcnType, used, existing.value);
        return;
      }
    }
    ghost var log1 := api.log;
    r, vcn := CreateTrackedVcn(api, store, id, c);
    ObstructedOn(old(api.log), log1, api.log);
  }

  lemma LastIsTracked(rows: seq<Resource>, row: Resource)
    ensures TracksAs(rows + [row], row.resourceType, row.ocid)
  {
    assert (rows + [row])[|rows|] == row;
  }

  lemma OneIsTracked(c: State, resources: seq<Resource>, network: int, resourceType: ResourceType, used: set<Ocid>,
                     row: Resource)
    requires OneOfType(resources, network, resourceType, Some(row)) && Tracked(c, used, resources)
    ensures TracksAs(RowsOf(resources, network), resourceType, row.ocid) && row.ocid in used
    ensures RecordedAs(resources, network, resourceType, row.ocid)
  {
    var rows := RowsOf(resources, network);
    assert row in rows;
    var k :| 0 <= k < |rows| && rows[k] == row;
    var p :| 0 <= p < |resources| && resources[p] == row;
  }

  /** After a child was created and, perhaps, recorded. */
  lemma ChildSteps(c: State, used: set<Ocid>, at: State, child: Ocid, kind: Kind, vcn: Ocid, lists: set<Ocid>,
                   c': State, used': set<Ocid>,
                   id: int, resources: seq<Resource>, resources': seq<Resource>)
    requires Sane(c, used) && Drifts(c, at) && child in used' && child !in used && vcn in at.vcns && HasLists(at, lists)
    requires c' == ChildAdded(at, child, kind, vcn, lists) && Sane(c', used') && used <= used'
    requires Tracked(c, used, resources)
    requires resources' == resources || resources' == resources + [Resource(id, TypeOf(kind), child, false)]
    ensures Stepped(c, used, c', used', resources', vcn) && VcnDrifts(c.vcns[vcn], c'.vcns[vcn])
    ensures (resources' != resources && kind.Gateway? && lists == {} && TracksAs(RowsOf(resources, id), VcnType, vcn)
      && Early(c, RowsOf(resources, id))) ==>
      Early(c', RowsOf(resources', id))
  {
    hide Tracked, Grows, Early, RefersBack, TracksAs, RowsOf, DependsOn;
    var row, rows := Resource(id, TypeOf(kind), child, false), RowsOf(resources, id);
    DriftSane(c, used, at);
    ChildCreated(c, used, at, child, kind, vcn, lists);
    CreatedStepped(c, used, c', used', vcn, resources, row, resources');
    if resources' != resources {
      RowsOfAppend(resources, row, id);
      if Early(c, rows) && kind.Gateway? && lists == {} && TracksAs(rows, VcnType, vcn) {
        EarlyDrifts(c, used, at, rows);
        RowsKnown(c, resources, used, id);
        EarlyAddsGateway(at, used, rows, row, vcn);
      }
    }
  }

  method CreateTracked(api: Api, store: Store, id: int, kind: Kind, vcn: Ocid, lists: set<Ocid>, ghost c: State)
      returns (r: Result, child: Ocid)
    requires api.Valid() && Sane(c, api.used) && Drifts(c, api.st) && vcn in c.vcns
    requires Tracked(c, api.used, store.resources)
    modifies api`st, api`log, api`lost, api`made, api`used, store`resources, store`faults
    ensures api.Valid() && old(store.faults) <= store.faults && old(api.lost) <= api.lost
    ensures Later(old(api.log), api.log) && (!r.Ok? ==> Obstructed(api.log, |old(api.log)|))
    ensures r.Ok? ==> child !in old(api.used)
    ensures Appends(old(store.resources), store.resources, id, TypeOf(kind), child)
    ensures Stepped(c, old(api.used), api.st, api.used, store.resources, vcn)
    ensures vcn in api.st.vcns && VcnDrifts(c.vcns[vcn], api.st.vcns[vcn])
    ensures r.Ok? ==>
      && child != "" && child in api.used && child in api.st.children
      && api.st.children[child] == Child(kind, vcn, true, lists, false)
    ensures (store.faults == old(store.faults) && api.lost == old(api.lost) && kind.Gateway? && lists == {}
      && TracksAs(RowsOf(old(store.resources), id), VcnType, vcn) && Early(c, RowsOf(old(store.resources), id))) ==>
      Early(api.st, RowsOf(store.resources, id))
  {
    hide Tracked, Sane, Grows, Early, TracksAs, RowsOf, Stepped, HasLists;
    ghost var c1, used, resources := api.st, api.used, store.resources;
    ghost var at;
    r, child, at := api.CreateChild(kind, vcn, lists);
    DriftsOn(c, c1, at);
    if !r.Ok? {
      ObstructedNow(old(api.log), api.log, Call(api.phase, MakeChild(kind), vcn, false, r));
      if api.lost == old(api.lost) {
        Waits(c, used, at, api.used, resources, id, vcn);
      } else {
        ChildSteps(c, used, at, child, kind, vcn, lists, api.st, api.used, id, resources, resources);
      }
      return;
    }
    KnownHasNo(c, resources, used, child);
    Track(store, id, TypeOf(kind), child);
    ChildSteps(c, used, at, child, kind, vcn, lists, api.st, api.used, id, resources, store.resources);
  }

  /** Gateway or security list: reuse the tracked one if the VCN still shows it. */
  method CreateOrGetChild(api: Api, store: Store, id: int, kind: Kind, vcn: Ocid) returns (r: Result, child: Ocid)
    requires api.Valid() && Tracked(api.st, api.used, store.resources)
    requires !kind.Subnet? && vcn in api.st.vcns
    modifies api`st, api`log, api`seen, api`lost, api`made, api`used, store`resources, store`faults
    ensures api.Valid() && old(store.faults) <= store.faults && old(api.lost) <= api.lost
    ensures Later(old(api.log), api.log) && (!r.Ok? ==> Obstructed(api.log, |old(api.log)|))
    ensures r.Ok? && store.faults == old(store.faults) ==>
      Reuses(old(store.resources), id, TypeOf(kind), old(api.used), old(api.seen), api.seen, child)
    ensures Appends(old(store.resources), store.resources, id, TypeOf(kind), child)
    ensures Stepped(old(api.st), old(api.used), api.st, api.used, store.resources, vcn)
    ensures vcn in api.st.vcns && VcnDrifts(old(api.st).vcns[vcn], api.st.vcns[vcn])
    ensures r.Ok? ==> child != "" && child in api.used && Has(api.st, kind, child) && Inside(api.st, child, vcn)
    ensures (store.faults == old(store.faults) && api.lost == old(api.lost) && kind.Gateway?
      && TracksAs(RowsOf(old(store.resources), id), VcnType, vcn)
      && Early(old(api.st), RowsOf(old(store.resources), id))) ==>
      Early(api.st, RowsOf(store.resources, id))
  {
    hide OneOfType, RecordedAs, Tracked, Sane, Grows, Early, TracksAs, RowsOf, Stepped, Ids, Drifts;
    ghost var c, used, resources := api.st, api.used, store.resources;
    NoDrift(c);
    var ok, existing := store.GetByNetworkAndType(id, TypeOf(kind));
    if ok && existing.Some? && existing.value.ocid != "" {
      var items;
      r, items := api.ListChildren(kind, vcn);
      var k := 0;
      while k < |items|
        invariant 0 <= k <= |items|
        invariant forall j :: 0 <= j < k ==> !(items[j].id == existing.value.ocid && items[j].available)
      {
        if items[k].id == existing.value.ocid && items[k].available {
          Waits(c, used, api.st, api.used, resources, id, vcn);
          OneIsTracked(c, resources, id, TypeOf(kind), used, existing.value);
          return Ok, existing.value.ocid;
        }
        k := k + 1;
      }
    }
    ghost var log1 := api.log;
    r, child := CreateTracked(api, store, id, kind, vcn, {}, c);
    ObstructedOn(old(api.log), log1, api.log);
  }

  lemma NoDrift(c: State)
    ensures Drifts(c, c)
  {
  }

  /** Subnet: a tracked one is trusted without asking the cloud. */
  method CreateOrGetSubnet(api: Api, store: Store, id: int, vcn: Ocid, list: Ocid) returns (r: Result, subnet: Ocid)
    requires api.Valid() && Tracked(api.st, api.used, store.resources)
    requires vcn in api.st.vcns
    modifies api`st, api`log, api`lost, api`made, api`used, store`resources, store`faults
    ensures api.Valid() && old(store.faults) <= store.faults && old(api.lost) <= api.lost
    ensures Later(old(api.log), api.log) && (!r.Ok? ==> Obstructed(api.log, |old(api.log)|))
    ensures r.Ok? && store.faults == old(store.faults) ==> exists tracked ::
      && OneOfType(old(store.resources), id, SubnetType, tracked)
      && if tracked.Some? && tracked.value.ocid != "" then
           subnet == tracked.value.ocid && api.st == old(api.st) && api.log == old(api.log)
         else subnet !in old(api.used) && Has(api.st, Subnet, subnet) && api.st.children[subnet].lists == {list}
    ensures Appends(old(store.resources), store.resources, id, SubnetType, subnet)
    ensures Stepped(old(api.st), old(api.used), api.st, api.used, store.resources, vcn)
    ensures vcn in api.st.vcns && VcnDrifts(old(api.st).vcns[vcn], api.st.vcns[vcn])
    ensures r.Ok? ==> subnet != "" && SubnetInPlace(api.st, old(store.resources), id, vcn, list, subnet)
  {
    hide Tracked, Sane, Grows, Early, TracksAs, RowsOf, Stepped, Drifts;
    ghost var c, used, resources := api.st, api.used, store.resources;
    NoDrift(c);
    var ok, existing := store.GetByNetworkAndType(id, SubnetType);
    if ok && existing.Some? && existing.value.ocid != "" {
      Waits(c, used, api.st, api.used, resources, id, vcn);
      return Ok, existing.value.ocid;
    }
    r, subnet := CreateTracked(api, store, id, Subnet, vcn, {list}, c);
  }

  /** The subnet is a tracked one, live or not, or a new live one. */
  ghost predicate SubnetInPlace(c: State, resources: seq<Resource>, id: int, vcn: Ocid, list: Ocid, subnet: Ocid) {
    || RecordedAs(resources, id, SubnetType, subnet)
    || (subnet in c.children && c.children[subnet] == Child(Subnet, vcn, true, {list}, false))
  }

  // ---- The route to the gateway ----

  /** The requested routes are those that were in force or requested, and one more. */
  ghost predicate RouteAdded(v: Vcn, v': Vcn, gateway: Ocid) {
    || Requested(v') == v.rules + [Rule("0.0.0.0/0", Some(gateway))]
    || Requested(v') == Requested(v) + [Rule("0.0.0.0/0", Some(gateway))]
  }

  method RouteTo(api: Api, vcn: Ocid, gateway: Ocid, ghost used: set<Ocid>, ghost resources: seq<Resource>)
      returns (ok: bool)
    requires api.Valid() && vcn in api.st.vcns && used == api.used && Tracked(api.st, used, resources)
    modifies api`st, api`log, api`seen, api`lost
    ensures api.Valid() && old(api.lost) <= api.lost && Later(old(api.log), api.log)
    ensures Stepped(old(api.st), used, api.st, used, resources, vcn)
    ensures !ok && api.lost == old(api.lost) ==> Drifts(old(api.st), api.st)
    ensures !ok && old(api.st).vcns[vcn].routeTable ==> Obstructed(api.log, |old(api.log)|)
    ensures ok ==> vcn in api.st.vcns && RouteAdded(old(api.st).vcns[vcn], api.st.vcns[vcn], gateway)
  {
    hide Tracked, Sane, Grows, Drifts, RouteAdded, Stepped, RoutesSet, Obstructed;
    ghost var c := api.st;
    var r, shown, lifecycle := api.GetVcn(vcn);
    DriftStepped(c, used, api.st, used, resources, vcn);
    TableStays(c, api.st, vcn);
    if !shown.routeTable {
      if c.vcns[vcn].routeTable {
        ObstructedNow(old(api.log), api.log, Call(api.phase, AskVcn, vcn, false, r));
      }
      return false;
    }
    ghost var c1, log1 := api.st, api.log;
    var rules;
    r, rules := api.GetRoutes(vcn);
    DriftsOn(c, c1, api.st);
    DriftStepped(c, used, api.st, used, resources, vcn);
    TableStays(c, api.st, vcn);
    if !r.Ok? {
      ObstructedNow(log1, api.log, Call(api.phase, AskRoutes, vcn, false, r));
      ObstructedOn(old(api.log), log1, api.log);
      return false;
    }
    ghost var c2, log2 := api.st, api.log;
    var put, at := api.SetRoutes(vcn, rules + [DefaultRoute(gateway)]);
    DriftsOn(c, c2, at);
    TableStays(c, at, vcn);
    if !put.Ok? && c.vcns[vcn].routeTable {
      ObstructedNow(log2, api.log, Call(api.phase, PutRoutes, vcn, false, put));
      ObstructedOn(old(api.log), log2, api.log);
    }
    if api.st == at {
      DriftStepped(c, used, at, used, resources, vcn);
    } else {
      RoutesStepped(c, used, at, rules + [DefaultRoute(gateway)], api.st, resources, vcn);
    }
    ok := put.Ok?;
    if ok {
      RouteIsAdded(c, c2, rules, at, api.st, vcn, gateway);
    }
  }

  lemma TableStays(c: State, c': State, vcn: Ocid)
    requires Drifts(c, c') && vcn in c.vcns
    ensures vcn in c'.vcns && c'.vcns[vcn].routeTable == c.vcns[vcn].routeTable
  {
  }

  lemma RouteIsAdded(c: State, c2: State, rules: seq<Rule>, at: State, c': State, vcn: Ocid, gateway: Ocid)
    requires Drifts(c, c2) && vcn in c2.vcns && rules == c2.vcns[vcn].rules && vcn in at.vcns
    requires c' == RoutesSet(at, vcn, rules + [DefaultRoute(gateway)])
    ensures vcn in c.vcns && vcn in c'.vcns && RouteAdded(c.vcns[vcn], c'.vcns[vcn], gateway)
  {
    assert VcnDrifts(c.vcns[vcn], c2.vcns[vcn]);
  }

  lemma RoutesStepped(c: State, used: set<Ocid>, at: State, rules: seq<Rule>, c': State, resources: seq<Resource>,
                      vcn: Ocid)
    requires Sane(c, used) && Drifts(c, at) && vcn in at.vcns && c' == RoutesSet(at, vcn, rules) && Sane(c', used)
    requires Tracked(c, used, resources)
    ensures Stepped(c, used, c', used, resources, vcn)
  {
    hide Tracked, Sane;
    assert Grows(c, used, c', vcn);
    hide Grows;
    TrackedGrows(c, used, c', used, vcn, resources);
  }

  // ---- All steps ----

  predicate ProgressOnly(rows: map<int, Network>, rows': map<int, Network>, id: int) {
    && rows'.Keys == rows.Keys && rows' - {id} == rows - {id}
    && (id in rows ==> rows'[id] == rows[id].(progress := rows'[id].progress))
  }

  lemma ProgressOn(rows: map<int, Network>, rows': map<int, Network>, id: int, progress: Progress, written: bool)
    requires ProgressOnly(rows, rows', id)
    ensures ProgressOnly(rows, if written then WithProgress(rows', id, progress) else rows', id)
  {
  }

  /** The provisioning states written by the steps up to the one that failed. */
  function StepsTo(stage: Option<Progress>): seq<Progress> {
    match stage
    case Some(CreatingVcn) => []
    case Some(CreatingGateway) => [CreatingGateway]
    case Some(UpdatingRoute) => [CreatingGateway, UpdatingRoute]
    case Some(CreatingList) => [CreatingGateway, UpdatingRoute, CreatingList]
    case _ => [CreatingGateway, UpdatingRoute, CreatingList, CreatingSubnet]
  }

  /** Those of the last two steps only. */
  function ListSteps(stage: Option<Progress>): seq<Progress> {
    if stage == Some(CreatingList) then [CreatingList] else [CreatingList, CreatingSubnet]
  }

  method WriteProgress(store: Store, id: int, progress: Progress, ghost rows: map<int, Network>)
    requires ProgressOnly(rows, store.rows, id)
    modifies store`rows, store`steps, store`faults
    ensures ProgressOnly(rows, store.rows, id) && old(store.faults) <= store.faults
    ensures Wrote(old(store.steps), store.steps, [progress])
  {
    hide ProgressOnly, WithProgress;
    ghost var before := store.rows;
    var written := store.UpdateProgress(id, progress);
    ProgressOn(rows, before, id, progress, written);
  }

  lemma ProgressNone(rows: map<int, Network>, id: int)
    ensures ProgressOnly(rows, rows, id)
  {
  }

  /** The VCN has a live gateway and the default route to it after the routes it had. */
  ghost predicate Connected(c: State, c': State, vcn: Ocid, gateway: Ocid) {
    && vcn in c'.vcns && Has(c', Gateway, gateway) && Inside(c', gateway, vcn)
    && (if vcn in c.vcns then RouteAdded(c.vcns[vcn], c'.vcns[vcn], gateway)
        else Requested(c'.vcns[vcn]) == [Rule("0.0.0.0/0", Some(gateway))])
  }

  lemma Connects(c: State, used: set<Ocid>, c1: State, c2: State, vcn: Ocid, gateway: Ocid)
    requires FreshOrKept(c, c1, vcn) && vcn in c2.vcns && RouteAdded(c1.vcns[vcn], c2.vcns[vcn], gateway)
    requires Sane(c1, used) && Has(c1, Gateway, gateway) && Inside(c1, gateway, vcn) && Grows(c1, used, c2, vcn)
    ensures Connected(c, c2, vcn, gateway)
  {
  }

  lemma ChildStays(c: State, used: set<Ocid>, c': State, kind: Kind, child: Ocid, vcn: Ocid)
    requires Sane(c, used) && !kind.Subnet? && Has(c, kind, child) && Inside(c, child, vcn) && Grows(c, used, c', vcn)
    ensures Has(c', kind, child) && Inside(c', child, vcn)
  {
  }

  predicate BeforeLists(stage: Option<Progress>) {
    stage in {Some(CreatingVcn), Some(CreatingGateway), Some(UpdatingRoute)}
  }

  /** The VCN and its gateway; `stage` is the step that failed. */
  method PrepareVcn(api: Api, store: Store, id: int) returns (stage: Option<Progress>, vcn: Ocid, gateway: Ocid)
    requires api.Valid() && Tracked(api.st, api.used, store.resources)
    modifies api`st, api`log, api`seen, api`lost, api`made, api`used
    modifies store`rows, store`steps, store`resources, store`faults
    ensures api.Valid() && old(store.faults) <= store.faults && old(api.lost) <= api.lost
    ensures Later(old(api.log), api.log)
    ensures Wrote(old(store.steps), store.steps, StepsTo(if stage.Some? then stage else Some(CreatingGateway)))
    ensures ProgressOnly(old(store.rows), store.rows, id)
    ensures Stepped(old(api.st), old(api.used), api.st, api.used, store.resources, vcn)
    ensures SameSubnets(old(store.resources), store.resources, id)
    ensures stage in {None, Some(CreatingVcn), Some(CreatingGateway)}
    ensures stage.Some? ==> Obstructed(api.log, |old(api.log)|)
    ensures stage.None? ==>
      && vcn != "" && (vcn !in old(api.used) || RecordedAs(old(store.resources), id, VcnType, vcn))
      && FreshOrKept(old(api.st), api.st, vcn) && Has(api.st, Gateway, gateway) && Inside(api.st, gateway, vcn)
    ensures (store.faults == old(store.faults) && api.lost == old(api.lost)
      && Early(old(api.st), RowsOf(old(store.resources), id))) ==> Early(api.st, RowsOf(store.resources, id))
  {
    hide Obstructed, SameSubnets, OneOfType, RecordedAs, Later, Wrote, Reuses, Appends, Tracked, Sane, Grows, Early,
         TracksAs, RowsOf, Stepped, FreshOrKept, Drifts, VcnDrifts, ProgressOnly, Has, Inside;
    ghost var c, used := api.st, api.used;
    gateway := "";
    ProgressNone(store.rows, id);
    NothingYet(api.log, store.steps);
    var r;
    r, vcn := CreateOrGetVcn(api, store, id);
    AppendsNoSubnet(old(store.resources), store.resources, id, VcnType, vcn);
    if !r.Ok? {
      return Some(CreatingVcn), vcn, gateway;
    }
    ghost var c1, used1, resources1, log1 := api.st, api.used, store.resources, api.log;
    KeptIn(c, c1, vcn);
    SteppedGives(c, used, c1, used1, resources1, vcn);
    WriteProgress(store, id, CreatingGateway, old(store.rows));
    r, gateway := CreateOrGetChild(api, store, id, Gateway, vcn);
    LaterOn(old(api.log), log1, api.log);
    ObstructedOn(old(api.log), log1, api.log);
    AppendsNoSubnet(resources1, store.resources, id, GatewayType, gateway);
    SameSubnetsOn(old(store.resources), resources1, store.resources, id);
    SteppedOn(c, used, c1, used1, resources1, api.st, api.used, store.resources, vcn);
    KeptOn(c, c1, api.st, vcn);
    stage := if r.Ok? then None else Some(CreatingGateway);
  }

  lemma KeptOn(c: State, c': State, c'': State, vcn: Ocid)
    requires FreshOrKept(c, c', vcn) && vcn in c''.vcns && VcnDrifts(c'.vcns[vcn], c''.vcns[vcn])
    ensures FreshOrKept(c, c'', vcn)
  {
  }

  /** The steps up to the route table. */
  method Connect(api: Api, store: Store, id: int) returns (stage: Option<Progress>, vcn: Ocid, ghost gateway: Ocid)
    requires api.Valid() && Tracked(api.st, api.used, store.resources)
    modifies api`st, api`log, api`seen, api`lost, api`made, api`used
    modifies store`rows, store`steps, store`resources, store`faults
    ensures api.Valid() && old(store.faults) <= store.faults && old(api.lost) <= api.lost
    ensures Later(old(api.log), api.log)
    ensures Wrote(old(store.steps), store.steps, StepsTo(if stage.Some? then stage else Some(UpdatingRoute)))
    ensures ProgressOnly(old(store.rows), store.rows, id)
    ensures Stepped(old(api.st), old(api.used), api.st, api.used, store.resources, vcn)
    ensures SameSubnets(old(store.resources), store.resources, id)
    ensures stage.None? || BeforeLists(stage)
    ensures stage.Some? && RouteTables(old(api.st), old(store.resources), id) ==> Obstructed(api.log, |old(api.log)|)
    ensures stage.None? ==> vcn != "" && Connected(old(api.st), api.st, vcn, gateway)
    ensures (stage.Some? && store.faults == old(store.faults) && api.lost == old(api.lost)
      && Early(old(api.st), RowsOf(old(store.resources), id))) ==> Early(api.st, RowsOf(store.resources, id))
  {
    hide Obstructed, RouteTables, SameSubnets, RecordedAs, Later, Wrote, Tracked, Sane, Grows, Early, RowsOf, Stepped,
         FreshOrKept, Drifts, VcnDrifts, Connected, RouteAdded, ProgressOnly, Has, Inside;
    ghost var c, used := api.st, api.used;
    var igw;
    stage, vcn, igw := PrepareVcn(api, store, id);
    gateway := igw;
    if stage.Some? {
      return;
    }
    ghost var c1, used1, resources1, log1, steps1 := api.st, api.used, store.resources, api.log, store.steps;
    KeptIn(c, c1, vcn);
    SteppedGives(c, used, c1, used1, resources1, vcn);
    TableThere(c, used, c1, old(store.resources), id, vcn);
    WriteProgress(store, id, UpdatingRoute, old(store.rows));
    WroteOn(old(store.steps), steps1, store.steps, [CreatingGateway], [UpdatingRoute]);
    assert [CreatingGateway] + [UpdatingRoute] == StepsTo(Some(UpdatingRoute));
    var ok := RouteTo(api, vcn, igw, used1, resources1);
    LaterOn(old(api.log), log1, api.log);
    ObstructedOn(old(api.log), log1, api.log);
    SteppedOn(c, used, c1, used1, resources1, api.st, api.used, store.resources, vcn);
    if !ok {
      if Early(c1, RowsOf(resources1, id)) && api.lost == old(api.lost) {
        EarlyDrifts(c1, used1, api.st, RowsOf(resources1, id));
      }
      return Some(UpdatingRoute), vcn, gateway;
    }
    SteppedGives(c1, used1, api.st, api.used, resources1, vcn);
    Connects(c, used1, c1, api.st, vcn, igw);
  }

  lemma KeptIn(c: State, c': State, vcn: Ocid)
    requires FreshOrKept(c, c', vcn)
    ensures vcn in c'.vcns
  {
  }

  lemma SteppedGives(c: State, used: set<Ocid>, c': State, used': set<Ocid>, resources: seq<Resource>, vcn: Ocid)
    requires Stepped(c, used, c', used', resources, vcn)
    ensures used <= used' && Tracked(c', used', resources) && Grows(c, used, c', vcn)
  {
  }

  /** The remaining steps, on a connected VCN. */
  method Populate(api: Api, store: Store, id: int, vcn: Ocid)
      returns (stage: Option<Progress>, subnet: Ocid, ghost list: Ocid)
    requires api.Valid() && Tracked(api.st, api.used, store.resources) && vcn in api.st.vcns
    modifies api`st, api`log, api`seen, api`lost, api`made, api`used
    modifies store`rows, store`steps, store`resources, store`faults
    ensures api.Valid() && old(store.faults) <= store.faults && old(api.lost) <= api.lost
    ensures Later(old(api.log), api.log)
    ensures Wrote(old(store.steps), store.steps, ListSteps(stage))
    ensures ProgressOnly(old(store.rows), store.rows, id)
    ensures Stepped(old(api.st), old(api.used), api.st, api.used, store.resources, vcn)
    ensures vcn in api.st.vcns && Requested(api.st.vcns[vcn]) == Requested(old(api.st).vcns[vcn])
    ensures stage in {None, Some(CreatingList), Some(CreatingSubnet)}
    ensures stage.Some? ==> Obstructed(api.log, |old(api.log)|)
    ensures stage.None? ==> subnet != "" && Has(api.st, SecurityList, list) && Inside(api.st, list, vcn)
    ensures stage.None? ==> SubnetInPlace(api.st, old(store.resources), id, vcn, list, subnet)
  {
    hide Later, Wrote, Reuses, Appends, Tracked, Sane, Grows, Stepped, ProgressOnly;
    ghost var c, used := api.st, api.used;
    subnet := "";
    list := "";
    ProgressNone(store.rows, id);
    WriteProgress(store, id, CreatingList, old(store.rows));
    var r, securityList := CreateOrGetChild(api, store, id, SecurityList, vcn);
    AppendsNoSubnet(old(store.resources), store.resources, id, ListType, securityList);
    list := securityList;
    if !r.Ok? {
      return Some(CreatingList), subnet, list;
    }
    ghost var c1, used1, resources1, log1, steps1 := api.st, api.used, store.resources, api.log, store.steps;
    SteppedGives(c, used, c1, used1, resources1, vcn);
    WriteProgress(store, id, CreatingSubnet, old(store.rows));
    WroteOn(old(store.steps), steps1, store.steps, [CreatingList], [CreatingSubnet]);
    assert [CreatingList] + [CreatingSubnet] == ListSteps(None);
    r, subnet := CreateOrGetSubnet(api, store, id, vcn, securityList);
    LaterOn(old(api.log), log1, api.log);
    ObstructedOn(old(api.log), log1, api.log);
    SteppedOn(c, used, c1, used1, resources1, api.st, api.used, store.resources, vcn);
    SteppedGives(c1, used1, api.st, api.used, store.resources, vcn);
    ChildStays(c1, used1, api.st, SecurityList, list, vcn);
    stage := if r.Ok? then None else Some(CreatingSubnet);
  }

  /** What a provisioned network looks like. */
  ghost predicate InPlace(c: State, used: set<Ocid>, resources: seq<Resource>, c': State, id: int, vcn: Ocid,
                          subnet: Ocid, gateway: Ocid, list: Ocid) {
    && Grows(c, used, c', vcn) && Connected(c, c', vcn, gateway)
    && Has(c', SecurityList, list) && Inside(c', list, vcn)
    && subnet != "" && SubnetInPlace(c', resources, id, vcn, list, subnet)
  }

  lemma StaysConnected(c: State, d: State, used: set<Ocid>, e: State, vcn: Ocid, gateway: Ocid)
    requires Connected(c, d, vcn, gateway) && Sane(d, used) && Grows(d, used, e, vcn)
    requires vcn in e.vcns && Requested(e.vcns[vcn]) == Requested(d.vcns[vcn])
    ensures Connected(c, e, vcn, gateway)
  {
  }

  lemma Placed(c: State, used: set<Ocid>, resources: seq<Resource>, d: State, used': set<Ocid>,
               resources': seq<Resource>, e: State, id: int, vcn: Ocid, subnet: Ocid, gateway: Ocid, list: Ocid)
    requires Connected(c, d, vcn, gateway) && Sane(d, used') && Grows(d, used', e, vcn) && Grows(c, used, e, vcn)
    requires vcn in d.vcns && vcn in e.vcns && Requested(e.vcns[vcn]) == Requested(d.vcns[vcn])
    requires Has(e, SecurityList, list) && Inside(e, list, vcn) && subnet != ""
    requires SubnetInPlace(e, resources', id, vcn, list, subnet) && SameSubnets(resources, resources', id)
    ensures InPlace(c, used, resources, e, id, vcn, subnet, gateway, list)
  {
    StaysConnected(c, d, used', e, vcn, gateway);
  }

  method Build(api: Api, store: Store, id: int)
      returns (stage: Option<Progress>, vcn: Ocid, subnet: Ocid, ghost gateway: Ocid, ghost list: Ocid)
    requires api.Valid() && Tracked(api.st, api.used, store.resources)
    modifies api`st, api`log, api`seen, api`lost, api`made, api`used
    modifies store`rows, store`steps, store`resources, store`faults
    ensures api.Valid() && old(store.faults) <= store.faults && old(api.lost) <= api.lost
    ensures Later(old(api.log), api.log)
    ensures Wrote(old(store.steps), store.steps, StepsTo(stage))
    ensures ProgressOnly(old(store.rows), store.rows, id)
    ensures Stepped(old(api.st), old(api.used), api.st, api.used, store.resources, vcn)
    ensures stage.None? ==>
      InPlace(old(api.st), old(api.used), old(store.resources), api.st, id, vcn, subnet, gateway, list)
    ensures stage.Some? && RouteTables(old(api.st), old(store.resources), id) ==> Obstructed(api.log, |old(api.log)|)
    ensures stage.Some? ==> stage.value in {CreatingVcn, CreatingGateway, UpdatingRoute, CreatingList, CreatingSubnet}
    ensures (BeforeLists(stage) && store.faults == old(store.faults) && api.lost == old(api.lost)
      && Early(old(api.st), RowsOf(old(store.resources), id))) ==> Early(api.st, RowsOf(store.resources, id))
  {
    hide Later, Wrote, Tracked, Sane, Grows, Stepped, ProgressOnly, Connected, Early, RowsOf, Obstructed, RouteTables,
         InPlace, SubnetInPlace, SameSubnets, RecordedAs, Has, Inside, Requested;
    ghost var c, used := api.st, api.used;
    subnet, list := "", "";
    stage, vcn, gateway := Connect(api, store, id);
    if stage.Some? {
      return;
    }
    ghost var c1, used1, resources1, rows1 := api.st, api.used, store.resources, store.rows;
    ghost var log1, steps1 := api.log, store.steps;
    SteppedGives(c, used, c1, used1, resources1, vcn);
    ConnectedIn(c, c1, vcn, gateway);
    stage, subnet, list := Populate(api, store, id, vcn);
    LaterOn(old(api.log), log1, api.log);
    ObstructedOn(old(api.log), log1, api.log);
    WroteOn(old(store.steps), steps1, store.steps, StepsTo(Some(UpdatingRoute)), ListSteps(stage));
    assert StepsTo(Some(UpdatingRoute)) + ListSteps(stage) == StepsTo(stage);
    ProgressTwice(old(store.rows), rows1, store.rows, id);
    SteppedOn(c, used, c1, used1, resources1, api.st, api.used, store.resources, vcn);
    SteppedGives(c, used, api.st, api.used, store.resources, vcn);
    SteppedGives(c1, used1, api.st, api.used, store.resources, vcn);
    if stage.None? {
      Placed(c, used, old(store.resources), c1, used1, resources1, api.st, id, vcn, subnet, gateway, list);
    }
  }

  lemma ConnectedIn(c: State, c': State, vcn: Ocid, gateway: Ocid)
    requires Connected(c, c', vcn, gateway)
    ensures vcn in c'.vcns
  {
  }

  lemma ProgressTwice(a: map<int, Network>, b: map<int, Network>, c: map<int, Network>, id: int)
    requires ProgressOnly(a, b, id) && ProgressOnly(b, c, id)
    ensures ProgressOnly(a, c, id)
  {
  }

  // ---- The network's row ----

  datatype Outcome =
    | Provisioned(vcn: Ocid, subnet: Ocid)
    | NoSuchNetwork | AlreadyProvisioning | StatusNotWritten | NoSettings | Incomplete
    | Stopped(stage: Progress)
    | ResultNotWritten

  lemma {:induction false} RollbackKeepsTracked(c: State, c': State, ids: set<Ocid>, resources: seq<Resource>,
                                                marked: seq<Resource>, rows: seq<Resource>, used: set<Ocid>, all: bool)
    requires Sane(c, used) && Sane(c', used) && Tracked(c, used, resources)
    requires Undone(c, c', ids) && MarkedFrom(resources, marked, rows, 0, all)
    ensures Tracked(c', used, marked)
  {
    SameTracked(resources, marked, rows, all);
    hide Tracks, MarkedFrom, Undone, Sane, Typed;
    forall i, j | 0 <= i < |marked| && 0 <= j < |marked| && DependsOn(c', marked[j].ocid, marked[i].ocid)
      ensures i < j
    {
      DependedBefore(c, c', ids, marked[j].ocid, marked[i].ocid);
      assert DependsOn(c, resources[j].ocid, resources[i].ocid);
    }
    forall i | 0 <= i < |marked| ensures Typed(c', marked[i]) {
      StillTyped(c, used, c', ids, resources[i]);
      TypedMarked(c', resources[i], marked[i]);
    }
  }

  lemma DependedBefore(c: State, c': State, ids: set<Ocid>, x: Ocid, y: Ocid)
    requires Undone(c, c', ids) && DependsOn(c', x, y)
    ensures DependsOn(c, x, y)
  {
  }

  lemma SameTracked(resources: seq<Resource>, marked: seq<Resource>, rows: seq<Resource>, all: bool)
    requires MarkedFrom(resources, marked, rows, 0, all)
    ensures |marked| == |resources|
    ensures forall i :: 0 <= i < |marked| ==>
      marked[i].ocid == resources[i].ocid && marked[i].resourceType == resources[i].resourceType
  {
  }

  lemma TypedMarked(c: State, row: Resource, mark: Resource)
    requires Typed(c, row) && mark.ocid == row.ocid && mark.resourceType == row.resourceType
    ensures Typed(c, mark)
  {
  }

  lemma {:induction false} NothingLiveMarked(s: State, resources: seq<Resource>, marked: seq<Resource>, id: int)
    requires |marked| == |resources|
    requires forall p :: 0 <= p < |resources| ==>
      marked[p].ocid == resources[p].ocid && marked[p].network == resources[p].network
    requires NothingLive(s, RowsOf(resources, id))
    ensures NothingLive(s, RowsOf(marked, id))
  {
    var found := RowsOf(marked, id);
    forall i | 0 <= i < |found| ensures !Live(s, found[i].ocid) {
      var p :| 0 <= p < |marked| && marked[p] == found[i];
      assert resources[p] in RowsOf(resources, id);
    }
  }

  /** What became of the row of a network that is there. */
  predicate RowAfter(row: Network, row': Network, outcome: Outcome) {
    match outcome
    case AlreadyProvisioning => row.status.Provisioning? && row' == row
    case Provisioned(vcn, subnet) =>
      row' == row.(vcnOcid := vcn, subnetOcid := subnet, status := Ready, progress := Done)
    case Incomplete => row' == row.(status := Status.Failed, progress := GivenUp)
    case Stopped(_) => row' == row.(status := Status.Failed, progress := GivenUp)
    case _ => false
  }

  /** Only the row of `id` differs; `row` is its new value. */
  predicate RowIs(rows: map<int, Network>, rows': map<int, Network>, id: int, row: Network) {
    id in rows && rows'.Keys == rows.Keys && rows' - {id} == rows - {id} && rows'[id] == row
  }

  lemma RowIsOn(rows: map<int, Network>, rows': map<int, Network>, id: int, row: Network, row': Network,
                rows'': map<int, Network>)
    requires RowIs(rows, rows', id, row) && rows'' == rows'[id := row']
    ensures RowIs(rows, rows'', id, row')
  {
  }

  lemma RowIsStart(rows: map<int, Network>, id: int)
    requires id in rows
    ensures RowIs(rows, rows, id, rows[id])
  {
  }

  lemma RowIsAfterBuild(rows: map<int, Network>, rows': map<int, Network>, id: int, row: Network, rows'': map<int,
                        Network>)
    requires RowIs(rows, rows', id, row) && ProgressOnly(rows', rows'', id)
    ensures id in rows' && id in rows'' && RowIs(rows, rows'', id, row.(progress := rows''[id].progress))
  {
  }

  lemma RowIsAfterRollback(rows: map<int, Network>, rows': map<int, Network>, id: int, row: Network, rows'': map<int,
                           Network>)
    requires RowIs(rows, rows', id, row) && RowMoves(rows', rows'', id)
    ensures id in rows' && id in rows''
    ensures RowIs(rows, rows'', id, row.(status := rows''[id].status, progress := rows''[id].progress))
  {
  }

  method WriteStatus(store: Store, id: int, status: Status, ghost rows: map<int, Network>, ghost row: Network)
      returns (ok: bool)
    requires RowIs(rows, store.rows, id, row)
    modifies store`rows, store`faults
    ensures store.faults == if ok then old(store.faults) else old(store.faults) + 1
    ensures RowIs(rows, store.rows, id, if ok then row.(status := status) else row)
    ensures (!ok ==> store.rows == old(store.rows))
  {
    ok := store.UpdateStatus(id, status);
    if ok {
      RowIsOn(rows, old(store.rows), id, row, row.(status := status), store.rows);
    }
  }

  method WriteState(store: Store, id: int, progress: Progress, ghost rows: map<int, Network>, ghost row: Network)
      returns (ok: bool)
    requires RowIs(rows, store.rows, id, row)
    modifies store`rows, store`steps, store`faults
    ensures store.faults == if ok then old(store.faults) else old(store.faults) + 1
    ensures Wrote(old(store.steps), store.steps, [progress])
    ensures RowIs(rows, store.rows, id, if ok then row.(progress := progress) else row)
  {
    ok := store.UpdateProgress(id, progress);
    if ok {
      RowIsOn(rows, old(store.rows), id, row, row.(progress := progress), store.rows);
    }
  }

  /** The attempt proper: build, and on failure roll back. */
  method Run(api: Api, store: Store, id: int) returns (outcome: Outcome, ghost gateway: Ocid, ghost list: Ocid)
    requires api.Valid() && Tracked(api.st, api.used, store.resources) && id in store.rows
    requires store.rows[id].status.Provisioning?
    modifies api`st, api`log, api`seen, api`lost, api`made, api`used
    modifies store`rows, store`steps, store`resources, store`faults
    ensures api.Valid() && Tracked(api.st, api.used, store.resources)
    ensures old(store.faults) <= store.faults && old(api.lost) <= api.lost && Later(old(api.log), api.log)
    ensures id in store.rows && RowIs(old(store.rows), store.rows, id, store.rows[id])
    ensures outcome.Provisioned? || outcome.Stopped? || outcome.ResultNotWritten?
    ensures outcome.Stopped? && RouteTables(old(api.st), old(store.resources), id) ==>
      Obstructed(api.log, |old(api.log)|)
    ensures outcome.Stopped? ==>
      outcome.stage in {CreatingVcn, CreatingGateway, UpdatingRoute, CreatingList, CreatingSubnet}
    ensures store.faults == old(store.faults) ==> Wrote(old(store.steps), store.steps, StepsAfterStart(outcome))
    ensures store.faults == old(store.faults) ==> RowAfter(old(store.rows)[id], store.rows[id], outcome)
    ensures outcome.Provisioned? ==>
      InPlace(old(api.st), old(api.used), old(store.resources), api.st, id, outcome.vcn, outcome.subnet, gateway, list)
    ensures outcome.Stopped? && store.faults == old(store.faults) ==> UndoneLast(api.log, store.resources, id)
    ensures (outcome.Stopped? && BeforeLists(Some(outcome.stage))
      && store.faults == old(store.faults) && api.lost == old(api.lost)
      && !SomeFailed(api.log, |old(api.log)|) && Early(old(api.st), RowsOf(old(store.resources), id))) ==>
      NothingLive(api.st, RowsOf(store.resources, id))
  {
    hide Obstructed, RouteTables, Later, Wrote, StepsTo, Tracked, Sane, Grows, Stepped, InPlace, Early, RowsOf,
         NothingLive, SomeFailed, RolledBack, MarkedFrom, UndoneLast, RowIs, ProgressOnly, RowMoves;
    ghost var c, used, rows := api.st, api.used, store.rows;
    RowIsStart(rows, id);
    var stage, vcn, subnet;
    stage, vcn, subnet, gateway, list := Build(api, store, id);
    SteppedGives(c, used, api.st, api.used, store.resources, vcn);
    RowIsAfterBuild(rows, rows, id, rows[id], store.rows);
    ghost var row := rows[id].(progress := store.rows[id].progress);
    RowValue(rows, store.rows, id, row);
    ghost var steps1 := store.steps;
    if stage.Some? {
      ghost var log1 := api.log;
      NothingYet(log1, steps1);
      LaterOn(old(api.log), log1, log1);
      UndoAttempt(api, store, id, rows, row, |old(api.log)|);
      LaterOn(old(api.log), log1, api.log);
      ObstructedOn(old(api.log), log1, api.log);
      if store.faults == old(store.faults) {
        WroteOn(old(store.steps), steps1, store.steps, StepsTo(stage), [RollingBack, GivenUp]);
      }
      return Stopped(stage.value), gateway, list;
    }
    var ok := RecordResult(store, id, vcn, subnet, rows, row);
    if !ok {
      return ResultNotWritten, gateway, list;
    }
    WroteOn(old(store.steps), steps1, store.steps, StepsTo(stage), [Done]);
    return Provisioned(vcn, subnet), gateway, list;
  }

  /** The rollback of an attempt that began when the log had `from` entries. */
  method UndoAttempt(api: Api, store: Store, id: int, ghost rows: map<int, Network>, ghost row: Network,
                     ghost from: nat)
    requires api.Valid() && Tracked(api.st, api.used, store.resources)
    requires RowIs(rows, store.rows, id, row) && from <= |api.log|
    modifies api`st, api`log, store`rows, store`steps, store`resources, store`faults
    ensures api.Valid() && Tracked(api.st, api.used, store.resources)
    ensures old(store.faults) <= store.faults && Later(old(api.log), api.log)
    ensures id in store.rows && RowIs(rows, store.rows, id, store.rows[id])
    ensures store.faults == old(store.faults) ==>
      && store.rows[id] == row.(status := Status.Failed, progress := GivenUp)
      && Wrote(old(store.steps), store.steps, [RollingBack, GivenUp])
      && UndoneLast(api.log, store.resources, id)
    ensures (store.faults == old(store.faults) && !SomeFailed(api.log, from)
      && Early(old(api.st), RowsOf(old(store.resources), id))) ==> NothingLive(api.st, RowsOf(store.resources, id))
  {
    hide Later, Tracked, Sane, Early, RowsOf, NothingLive, SomeFailed, RolledBack, MarkedFrom, UndoneLast, RowIs,
         RowMoves;
    ghost var c, log, resources, faults, before := api.st, api.log, store.resources, store.faults, store.rows;
    RowValue(rows, before, id, row);
    Rollback(api, store, id);
    AfterRollback(c, api.used, log, api.st, api.log, resources, store.resources, id, from, faults, store.faults);
    RowIsAfterRollback(rows, before, id, row, store.rows);
    RowValue(rows, store.rows, id, row.(status := store.rows[id].status, progress := store.rows[id].progress));
  }

  /** The final writes: the OCIDs and ready in one statement, then the state. */
  method RecordResult(store: Store, id: int, vcn: Ocid, subnet: Ocid, ghost rows: map<int, Network>,
                      ghost row: Network) returns (ok: bool)
    requires RowIs(rows, store.rows, id, row)
    modifies store`rows, store`steps, store`faults
    ensures old(store.faults) <= store.faults && (!ok ==> old(store.faults) < store.faults)
    ensures id in store.rows && RowIs(rows, store.rows, id, store.rows[id])
    ensures ok ==> Wrote(old(store.steps), store.steps, [Done])
    ensures store.faults == old(store.faults) ==>
      store.rows[id] == row.(vcnOcid := vcn, subnetOcid := subnet, status := Ready, progress := Done)
  {
    hide RowIs, Wrote;
    ghost var rows1 := store.rows;
    RowValue(rows, rows1, id, row);
    ok := store.UpdateProvisionResult(id, vcn, subnet);
    if !ok {
      return;
    }
    ghost var result := row.(vcnOcid := vcn, subnetOcid := subnet, status := Ready);
    RowIsOn(rows, rows1, id, row, result, store.rows);
    var written := WriteState(store, id, Done, rows, result);
    RowValue(rows, store.rows, id, if written then result.(progress := Done) else result);
  }

  /** The provisioning states an attempt writes, with a database that works. */
  function StepsOf(outcome: Outcome): seq<Progress> {
    match outcome
    case Provisioned(_, _) => [CreatingVcn] + StepsAfterStart(outcome)
    case Stopped(_) => [CreatingVcn] + StepsAfterStart(outcome)
    case Incomplete => [CreatingVcn, GivenUp]
    case _ => []
  }

  function StepsAfterStart(outcome: Outcome): seq<Progress> {
    match outcome
    case Provisioned(_, _) => StepsTo(None) + [Done]
    case Stopped(stage) => StepsTo(Some(stage)) + [RollingBack, GivenUp]
    case _ => []
  }

  lemma StepsWritten(before: seq<Progress>, after: seq<Progress>, outcome: Outcome)
    requires Wrote(before, after, StepsOf(outcome))
    ensures outcome.Provisioned? ==>
      after == before + [CreatingVcn, CreatingGateway, UpdatingRoute, CreatingList, CreatingSubnet, Done]
    ensures outcome.Incomplete? ==> after == before + [CreatingVcn, GivenUp]
    ensures
      && (outcome == Stopped(CreatingVcn) ==> after == before + [CreatingVcn, RollingBack, GivenUp])
      && (outcome == Stopped(CreatingGateway) ==>
            after == before + [CreatingVcn, CreatingGateway, RollingBack, GivenUp])
      && (outcome == Stopped(UpdatingRoute) ==>
            after == before + [CreatingVcn, CreatingGateway, UpdatingRoute, RollingBack, GivenUp])
      && (outcome == Stopped(CreatingList) ==>
            after == before + [CreatingVcn, CreatingGateway, UpdatingRoute, CreatingList, RollingBack, GivenUp])
      && (outcome == Stopped(CreatingSubnet) ==>
            after
            == before
               + [CreatingVcn, CreatingGateway, UpdatingRoute, CreatingList, CreatingSubnet, RollingBack, GivenUp])
  {
  }

  method Provision(api: Api, store: Store, id: int) returns (outcome: Outcome, ghost gateway: Ocid, ghost list: Ocid)
    requires api.Valid() && Tracked(api.st, api.used, store.resources)
    modifies api`st, api`log, api`seen, api`lost, api`made, api`used
    modifies store`rows, store`steps, store`resources, store`faults
    ensures api.Valid() && Tracked(api.st, api.used, store.resources)
    ensures old(store.faults) <= store.faults && old(api.lost) <= api.lost && Later(old(api.log), api.log)
    // Other networks' rows are left alone.
    ensures if id in old(store.rows)
            then id in store.rows && RowIs(old(store.rows), store.rows, id, store.rows[id])
            else store.rows == old(store.rows)
    // With a database that works the row never stays in provisioning.
    ensures store.faults == old(store.faults) ==>
      if id in old(store.rows) then RowAfter(old(store.rows)[id], store.rows[id], outcome) else outcome.NoSuchNetwork?
    ensures store.faults == old(store.faults) ==> Wrote(old(store.steps), store.steps, StepsOf(outcome))
    ensures store.faults == old(store.faults) ==>
      && (outcome.Provisioned? ==>
            && store.rows[id]
               == old(store.rows)[id].(vcnOcid := outcome.vcn, subnetOcid := outcome.subnet, status := Ready,
                  progress := Done)
            && store.steps
               == old(store.steps) + [CreatingVcn, CreatingGateway, UpdatingRoute, CreatingList, CreatingSubnet, Done])
      && (outcome.Incomplete? ==> store.steps == old(store.steps) + [CreatingVcn, GivenUp])
      && (outcome.Incomplete? || outcome.Stopped? ==>
            store.rows[id] == old(store.rows)[id].(status := Status.Failed, progress := GivenUp))
      && (outcome == Stopped(CreatingVcn) ==> store.steps == old(store.steps) + [CreatingVcn, RollingBack, GivenUp])
      && (outcome == Stopped(CreatingGateway) ==>
            store.steps == old(store.steps) + [CreatingVcn, CreatingGateway, RollingBack, GivenUp])
      && (outcome == Stopped(UpdatingRoute) ==>
            store.steps == old(store.steps) + [CreatingVcn, CreatingGateway, UpdatingRoute, RollingBack, GivenUp])
      && (outcome == Stopped(CreatingList) ==>
            store.steps
            == old(store.steps) + [CreatingVcn, CreatingGateway, UpdatingRoute, CreatingList, RollingBack, GivenUp])
      && (outcome == Stopped(CreatingSubnet) ==>
            store.steps
            == old(store.steps)
               + [CreatingVcn, CreatingGateway, UpdatingRoute, CreatingList, CreatingSubnet, RollingBack, GivenUp])
    ensures outcome.Stopped? ==>
      outcome.stage in {CreatingVcn, CreatingGateway, UpdatingRoute, CreatingList, CreatingSubnet}
    // Given up without a call exactly if one of the six settings is missing.
    ensures store.settings == old(store.settings)
    ensures store.faults == old(store.faults) ==>
      (outcome.Incomplete?
       <==> && id in old(store.rows) && !old(store.rows)[id].status.Provisioning?
            && (|| store.settings.tenancyOcid == "" || store.settings.userOcid == "" || store.settings.fingerprint == ""
                || store.settings.privateKey == "" || store.settings.region == ""
                || store.settings.compartmentOcid == ""))
    ensures api.log != old(api.log) || outcome.Provisioned? ==>
      && store.settings.tenancyOcid != "" && store.settings.userOcid != "" && store.settings.fingerprint != ""
      && store.settings.privateKey != "" && store.settings.region != "" && store.settings.compartmentOcid != ""
    // A cloud and a database that answer: provisioned.
    ensures (&& store.faults == old(store.faults)
             && id in old(store.rows) && !old(store.rows)[id].status.Provisioning?
             && store.settings.tenancyOcid != "" && store.settings.userOcid != "" && store.settings.fingerprint != ""
             && store.settings.privateKey != "" && store.settings.region != "" && store.settings.compartmentOcid != ""
             && RouteTables(old(api.st), old(store.resources), id)
             && (forall i :: |old(api.log)| <= i < |api.log| ==>
                   && (api.log[i].op.MakeVcn? || api.log[i].op.MakeChild? ==> api.log[i].result.Ok?)
                   && (api.log[i].op in {AskVcn, AskRoutes, PutRoutes} ==> !api.log[i].result.Failed?))) ==>
      outcome.Provisioned?
    ensures outcome.AlreadyProvisioning? ==> id in old(store.rows) && old(store.rows)[id].status.Provisioning?
    ensures id in old(store.rows) && old(store.rows)[id].status.Provisioning? ==>
      outcome.AlreadyProvisioning? || outcome.NoSuchNetwork?
    // A row that cannot be read is reported as not found.
    ensures outcome.NoSuchNetwork? ==> id !in old(store.rows) || old(store.faults) < store.faults
    // A refused attempt touches nothing.
    ensures outcome in {NoSuchNetwork, AlreadyProvisioning, StatusNotWritten} ==> store.rows == old(store.rows)
    ensures outcome in {NoSuchNetwork, AlreadyProvisioning, StatusNotWritten, NoSettings, Incomplete} ==>
      api.st == old(api.st) && api.log == old(api.log) && store.resources == old(store.resources)
    ensures outcome.Provisioned? ==>
      InPlace(old(api.st), old(api.used), old(store.resources), api.st, id, outcome.vcn, outcome.subnet, gateway, list)
    // A stopped attempt ends with a full rollback.
    ensures outcome.Stopped? && store.faults == old(store.faults) ==> UndoneLast(api.log, store.resources, id)
    // Stopped before the routes were changed: nothing tracked is left.
    ensures (outcome.Stopped? && BeforeLists(Some(outcome.stage))
      && store.faults == old(store.faults) && api.lost == old(api.lost)
      && !SomeFailed(api.log, |old(api.log)|) && Early(old(api.st), RowsOf(old(store.resources), id))) ==>
      NothingLive(api.st, RowsOf(store.resources, id))
  {
    hide Later, Wrote, Tracked, Sane, Grows, Stepped, InPlace, Early, RowsOf, NothingLive, SomeFailed, RolledBack,
         MarkedFrom, UndoneLast, RowIs;
    gateway, list := "", "";
    NothingYet(api.log, store.steps);
    var ok, found := store.Get(id);
    if found.None? {
      if id in store.rows {
        RowIsStart(store.rows, id);
      }
      return NoSuchNetwork, gateway, list;
    }
    ghost var rows, row := store.rows, found.value;
    RowIsStart(rows, id);
    if found.value.status.Provisioning? {
      return AlreadyProvisioning, gateway, list;
    }
    ok := WriteStatus(store, id, Status.Provisioning, rows, row);
    if !ok {
      return StatusNotWritten, gateway, list;
    }
    RowValue(rows, store.rows, id, row.(status := Status.Provisioning));
    ghost var rows1 := store.rows;
    outcome, gateway, list := Start(api, store, id);
    if store.faults == old(store.faults) {
      StepsWritten(old(store.steps), store.steps, outcome);
    }
    RowIsTwice(rows, rows1, id, row.(status := Status.Provisioning), store.rows);
  }

  method FailNetwork(store: Store, id: int, ghost rows: map<int, Network>, ghost row: Network)
    requires RowIs(rows, store.rows, id, row)
    modifies store`rows, store`steps, store`faults
    ensures old(store.faults) <= store.faults && Wrote(old(store.steps), store.steps, [GivenUp])
    ensures id in store.rows && RowIs(rows, store.rows, id, store.rows[id])
    ensures store.faults == old(store.faults) ==> store.rows[id] == row.(status := Status.Failed, progress := GivenUp)
  {
    hide RowIs, Wrote;
    var ok := WriteStatus(store, id, Status.Failed, rows, row);
    ghost var row1 := if ok then row.(status := Status.Failed) else row;
    ok := WriteState(store, id, GivenUp, rows, row1);
    RowValue(rows, store.rows, id, if ok then row1.(progress := GivenUp) else row1);
  }

  /** The network is marked as provisioning; check the settings and go on. */
  method Start(api: Api, store: Store, id: int) returns (outcome: Outcome, ghost gateway: Ocid, ghost list: Ocid)
    requires api.Valid() && Tracked(api.st, api.used, store.resources) && id in store.rows
    requires store.rows[id].status.Provisioning?
    modifies api`st, api`log, api`seen, api`lost, api`made, api`used
    modifies store`rows, store`steps, store`resources, store`faults
    ensures api.Valid() && Tracked(api.st, api.used, store.resources)
    ensures old(store.faults) <= store.faults && old(api.lost) <= api.lost && Later(old(api.log), api.log)
    ensures id in store.rows && RowIs(old(store.rows), store.rows, id, store.rows[id])
    ensures outcome in {NoSettings, Incomplete} || outcome.Provisioned? || outcome.Stopped? || outcome.ResultNotWritten?
    // The settings are complete if and only if the attempt goes on.
    ensures store.settings == old(store.settings)
    ensures store.faults == old(store.faults) ==>
      (outcome.Incomplete?
       <==> store.settings.tenancyOcid == "" || store.settings.userOcid == "" || store.settings.fingerprint == ""
            || store.settings.privateKey == "" || store.settings.region == "" || store.settings.compartmentOcid == "")
    ensures api.log != old(api.log) || outcome.Provisioned? || outcome.Stopped? || outcome.ResultNotWritten? ==>
      && store.settings.tenancyOcid != "" && store.settings.userOcid != "" && store.settings.fingerprint != ""
      && store.settings.privateKey != "" && store.settings.region != "" && store.settings.compartmentOcid != ""
    ensures outcome.Stopped? && RouteTables(old(api.st), old(store.resources), id) ==>
      Obstructed(api.log, |old(api.log)|)
    ensures outcome.Stopped? ==>
      outcome.stage in {CreatingVcn, CreatingGateway, UpdatingRoute, CreatingList, CreatingSubnet}
    ensures store.faults == old(store.faults) ==> Wrote(old(store.steps), store.steps, StepsOf(outcome))
    ensures store.faults == old(store.faults) ==> RowAfter(old(store.rows)[id], store.rows[id], outcome)
    ensures outcome in {NoSettings, Incomplete} ==>
      api.st == old(api.st) && api.log == old(api.log) && store.resources == old(store.resources)
    ensures outcome.Provisioned? ==>
      InPlace(old(api.st), old(api.used), old(store.resources), api.st, id, outcome.vcn, outcome.subnet, gateway, list)
    ensures outcome.Stopped? && store.faults == old(store.faults) ==> UndoneLast(api.log, store.resources, id)
    ensures (outcome.Stopped? && BeforeLists(Some(outcome.stage))
      && store.faults == old(store.faults) && api.lost == old(api.lost)
      && !SomeFailed(api.log, |old(api.log)|) && Early(old(api.st), RowsOf(old(store.resources), id))) ==>
      NothingLive(api.st, RowsOf(store.resources, id))
  {
    hide Later, Wrote, Tracked, Sane, InPlace, Early, RowsOf, NothingLive, SomeFailed, UndoneLast, RowIs, Obstructed,
         RouteTables;
    gateway, list := "", "";
    ghost var rows, row := store.rows, store.rows[id];
    RowIsStart(rows, id);
    NothingYet(api.log, store.steps);
    var ok := WriteState(store, id, CreatingVcn, rows, row);
    ghost var steps1 := store.steps;
    row := if ok then row.(progress := CreatingVcn) else row;
    var loaded, settings := store.LoadSettings();
    if !loaded || settings.tenancyOcid == "" || settings.userOcid == "" || settings.fingerprint == ""
       || settings.privateKey == "" || settings.region == "" || settings.compartmentOcid == ""
    {
      FailNetwork(store, id, rows, row);
      WroteOn(old(store.steps), steps1, store.steps, [CreatingVcn], [GivenUp]);
      assert [CreatingVcn] + [GivenUp] == StepsOf(Incomplete);
      return if loaded then Incomplete else NoSettings, gateway, list;
    }
    RowValue(rows, store.rows, id, row);
    ghost var rows1 := store.rows;
    outcome, gateway, list := Run(api, store, id);
    if store.faults == old(store.faults) {
      WroteOn(old(store.steps), steps1, store.steps, [CreatingVcn], StepsAfterStart(outcome));
    }
    RowIsTwice(rows, rows1, id, row, store.rows);
  }

  lemma RowIsTwice(rows: map<int, Network>, rows': map<int, Network>, id: int, row: Network, rows'': map<int, Network>)
    requires RowIs(rows, rows', id, row) && id in rows'' && RowIs(rows', rows'', id, rows''[id])
    ensures RowIs(rows, rows'', id, rows''[id])
  {
  }

  lemma RowValue(rows: map<int, Network>, rows': map<int, Network>, id: int, row: Network)
    requires RowIs(rows, rows', id, row)
    ensures id in rows' && rows'[id] == row
  {
  }

  /** The last calls ask to delete everything tracked for the network, newest first,
      and every row that could be deleted is marked so. */
  ghost predicate UndoneLast(log: seq<Call>, resources: seq<Resource>, id: int) {
    && (exists k :: 0 <= k <= |log| && Requests(log[k..]) == Undo(RowsOf(resources, id)))
    && forall i :: 0 <= i < |resources| && resources[i].network == id && Deletable(resources[i]) ==>
         resources[i].deleted
  }

  predicate SameBut(rows: seq<Resource>, marked: seq<Resource>) {
    |marked| == |rows| && forall i :: 0 <= i < |rows| ==> marked[i].(deleted := true) == rows[i].(deleted := true)
  }

  lemma RowsOfLast(resources: seq<Resource>, id: int)
    requires resources != []
    ensures var n := |resources| - 1;
            RowsOf(resources, id)
            == RowsOf(resources[..n], id) + if resources[n].network == id then [resources[n]] else []
  {
  }

  lemma SameButAppend(rows: seq<Resource>, marked: seq<Resource>, row: Resource, mark: Resource)
    requires SameBut(rows, marked) && mark.(deleted := true) == row.(deleted := true)
    ensures SameBut(rows + [row], marked + [mark])
  {
  }

  lemma {:induction false} RowsOfMarked(resources: seq<Resource>, marked: seq<Resource>, id: int)
    requires SameBut(resources, marked)
    ensures SameBut(RowsOf(resources, id), RowsOf(marked, id))
  {
    if resources != [] {
      var n := |resources| - 1;
      var row, mark := resources[n], marked[n];
      assert mark.(deleted := true) == row.(deleted := true) && SameBut(resources[..n], marked[..n]);
      hide RowsOf, SameBut;
      RowsOfMarked(resources[..n], marked[..n], id);
      RowsOfLast(resources, id);
      RowsOfLast(marked, id);
      assert mark.network == row.network;
      SameButAppend(RowsOf(resources[..n], id), RowsOf(marked[..n], id), row, mark);
    }
  }

  lemma {:induction false} UndoMarked(rows: seq<Resource>, marked: seq<Resource>)
    requires SameBut(rows, marked)
    ensures Undo(marked) == Undo(rows)
  {
    if rows != [] {
      var n := |rows| - 1;
      assert marked[n].(deleted := true) == rows[n].(deleted := true);
      UndoMarked(rows[..n], marked[..n]);
      assert marked[n].ocid == rows[n].ocid && marked[n].resourceType == rows[n].resourceType;
    }
  }

  lemma UndoneAfterRollback(log0: seq<Call>, log: seq<Call>, resources: seq<Resource>, marked: seq<Resource>, id: int)
    requires MarkedFrom(resources, marked, RowsOf(resources, id), 0, true)
    requires log0 <= log && Requests(log[|log0|..]) == Undo(RowsOf(resources, id))
    ensures UndoneLast(log, marked, id)
  {
    hide Requests, Undo;
    RowsOfMarked(resources, marked, id);
    UndoMarked(RowsOf(resources, id), RowsOf(marked, id));
    forall i | 0 <= i < |marked| && marked[i].network == id && Deletable(marked[i]) ensures marked[i].deleted {
      assert resources[i] in RowsOf(resources, id);
      var k :| 0 <= k < |RowsOf(resources, id)| && RowsOf(resources, id)[k] == resources[i];
    }
  }

  lemma AfterRollback(c: State, used: set<Ocid>, log0: seq<Call>, s: State, log: seq<Call>, resources: seq<Resource>,
                      marked: seq<Resource>,
                      id: int, from: nat, faults: nat, faults': nat)
    requires Sane(c, used) && Sane(s, used) && Tracked(c, used, resources) && from <= |log0|
    requires MarkedFrom(resources, marked, RowsOf(resources, id), 0, faults' == faults)
    requires RolledBack(c, log0, s, log, RowsOf(resources, id)) || (faults < faults' && s == c && log == log0)
    ensures Tracked(s, used, marked) && Later(log0, log)
    ensures faults' == faults ==> UndoneLast(log, marked, id)
    ensures faults' == faults && Early(c, RowsOf(resources, id)) && !SomeFailed(log, from) ==>
      NothingLive(s, RowsOf(marked, id))
  {
    hide Sane, Tracked, Early, RowsOf, Requests, Undo, OcidsFrom, NothingLive, UndoneLast, Undone, Runs, Answered,
         SomeFailed, StateAt, MarkedFrom;
    var rows := RowsOf(resources, id);
    if s == c && log == log0 && faults < faults' {
      NothingGone(c, rows);
      RollbackKeepsTracked(c, s, OcidsFrom(rows, |rows|), resources, marked, rows, used, faults' == faults);
    } else {
      var trail :| Runs(c, rows, trail) && s == StateAt(c, trail, 0) && (!SomeFailed(log, |log0|) ==> Answered(trail));
      Along(c, used, rows, trail, 0);
      RollbackKeepsTracked(c, s, OcidsFrom(rows, 0), resources, marked, rows, used, faults' == faults);
      if faults' == faults {
        UndoneAfterRollback(log0, log, resources, marked, id);
        if Early(c, rows) && !SomeFailed(log, from) {
          SomeFailedFrom(log, from, |log0|);
          TrackedOfNetwork(c, used, resources, id);
          TrackedProper(c, used, rows);
          EarlyRollsBack(c, used, rows, trail);
          SameTracked(resources, marked, rows, true);
          SameNetworks(resources, marked, rows);
          NothingLiveMarked(s, resources, marked, id);
        }
      }
    }
  }

  lemma TrackedProper(c: State, used: set<Ocid>, rows: seq<Resource>)
    requires Tracked(c, used, rows)
    ensures Proper(c, rows)
  {
  }

  lemma SameNetworks(resources: seq<Resource>, marked: seq<Resource>, rows: seq<Resource>)
    requires MarkedFrom(resources, marked, rows, 0, true)
    ensures forall p :: 0 <= p < |resources| ==> marked[p].network == resources[p].network
  {
  }

  /** Stopped no later than a failing route-table update. */
  predicate StoppedEarly(outcome: Outcome) {
    outcome.Stopped? && BeforeLists(Some(outcome.stage))
  }

  lemma SomeFailedOn(log: seq<Call>, log': seq<Call>, from: nat)
    requires log <= log'
    ensures SomeFailed(log, from) ==> SomeFailed(log', from)
  {
    if SomeFailed(log, from) {
      var i :| from <= i < |log| && IsDeleteOp(log[i].op) && log[i].result.Failed?;
      assert log'[i] == log[i];
    }
  }

  /** Any number of attempts, as the job queue makes them: if each one stops early,
      nothing that any of them recorded is left and the network has failed. */
  method ProvisionRepeatedly(api: Api, store: Store, id: int, attempts: nat) returns (outcomes: seq<Outcome>)
    requires api.Valid() && Tracked(api.st, api.used, store.resources)
    requires NothingLive(api.st, RowsOf(store.resources, id))
    modifies api`st, api`log, api`seen, api`lost, api`made, api`used
    modifies store`rows, store`steps, store`resources, store`faults
    ensures api.Valid() && Tracked(api.st, api.used, store.resources) && |outcomes| == attempts
    ensures ((forall k :: 0 <= k < attempts ==> StoppedEarly(outcomes[k])) && store.faults == old(store.faults)
      && api.lost == old(api.lost) && !SomeFailed(api.log, |old(api.log)|)) ==>
      && NothingLive(api.st, RowsOf(store.resources, id))
      && (attempts > 0 ==> id in store.rows && store.rows[id].status.Failed? && store.rows[id].progress.GivenUp?)
  {
    hide Tracked, Sane, InPlace, Early, RowsOf, NothingLive, SomeFailed, UndoneLast, RowIs;
    outcomes := [];
    while |outcomes| < attempts
      invariant |outcomes| <= attempts
      invariant api.Valid() && Tracked(api.st, api.used, store.resources)
      invariant old(store.faults) <= store.faults && old(api.lost) <= api.lost && Later(old(api.log), api.log)
      invariant ((forall k :: 0 <= k < |outcomes| ==> StoppedEarly(outcomes[k])) && store.faults == old(store.faults)
        && api.lost == old(api.lost) && !SomeFailed(api.log, |old(api.log)|)) ==>
        && NothingLive(api.st, RowsOf(store.resources, id))
        && (|outcomes| > 0 ==> id in store.rows && store.rows[id].status.Failed? && store.rows[id].progress.GivenUp?)
    {
      ghost var c, log, resources, faults, before := api.st, api.log, store.resources, store.faults, outcomes;
      var outcome, gateway, list := Provision(api, store, id);
      SomeFailedOn(log, api.log, |old(api.log)|);
      SomeFailedFrom(api.log, |old(api.log)|, |log|);
      if NothingLive(c, RowsOf(resources, id)) {
        NothingLiveIsEarly(c, RowsOf(resources, id));
      }
      outcomes := outcomes + [outcome];
      assert outcomes[|before|] == outcome;
      assert forall k :: 0 <= k < |before| ==> outcomes[k] == before[k];
    }
  }

  lemma SomeFailedFrom(log: seq<Call>, from: nat, later: nat)
    requires from <= later
    ensures SomeFailed(log, later) ==> SomeFailed(log, from)
  {
  }
}
