/** What ProvisionNetwork (internal/service/network.go) keeps true of the cloud and
    of the tracked rows, for rows accumulated over any number of attempts. */
module Provisioning {
  import opened Cloud
  import opened NetworkStore
  import opened TrackedResources
  import opened RollbackRuns
  import opened RollbackClouds

  ghost predicate Known(resources: seq<Resource>, used: set<Ocid>) {
    forall i :: 0 <= i < |resources| ==> resources[i].ocid in used
  }

  /** What is true of the tracked rows at all times: they name resources that were
      made, each once and as what it is, and dependents after what they depend on. */
  ghost predicate Tracked(c: State, used: set<Ocid>, resources: seq<Resource>) {
    Known(resources, used) && Proper(c, resources) && InOrder(c, resources)
  }

  /** Nothing that was there is changed or gone, except that `vcn` may have other
      routes; what is new has a new identifier. */
  ghost predicate Grows(c: State, used: set<Ocid>, c': State, vcn: Ocid) {
    && (forall w :: w in c.vcns ==> w in c'.vcns && (w == vcn || VcnDrifts(c.vcns[w], c'.vcns[w])))
    && (forall w :: w in c.vcns ==> c'.vcns[w].defaultList == c.vcns[w].defaultList)
    && (forall x :: x in c.children ==>
          (x in c'.children && c'.children[x] == c.children[x]) || (x !in c'.children && c.children[x].terminating))
    && (forall w :: w in c'.vcns && w !in c.vcns ==> w !in used)
    && (forall x :: x in c'.children && x !in c.children ==> x !in used)
  }

  /** References between old resources stay among old identifiers. */
  ghost predicate RefersBack(c: State, used: set<Ocid>) {
    forall x :: x in c.children && x in used ==> c.children[x].vcn in used && c.children[x].lists <= used
  }

  lemma DriftGrows(c: State, used: set<Ocid>, c': State, vcn: Ocid)
    requires Drifts(c, c')
    ensures Grows(c, used, c', vcn)
  {
  }

  lemma GrowsOn(c: State, used: set<Ocid>, d: State, used': set<Ocid>, e: State, vcn: Ocid)
    requires Sane(c, used) && used <= used' && Grows(c, used, d, vcn) && Grows(d, used', e, vcn)
    ensures Grows(c, used, e, vcn)
  {
    forall w | w in c.vcns && w != vcn ensures w in e.vcns && VcnDrifts(c.vcns[w], e.vcns[w]) {
      assert VcnDrifts(c.vcns[w], d.vcns[w]) && VcnDrifts(d.vcns[w], e.vcns[w]);
    }
    forall x | x in c.children
      ensures (x in e.children && e.children[x] == c.children[x]) || (x !in e.children && c.children[x].terminating)
    {
      if x !in d.children {
        assert x in used';
      }
    }
  }

  /** The tracked rows stay in order of dependence as the cloud grows. */
  lemma InOrderGrows(c: State, used: set<Ocid>, c': State, used': set<Ocid>, vcn: Ocid, resources: seq<Resource>)
    requires Sane(c, used) && Sane(c', used') && Known(resources, used) && InOrder(c, resources)
    requires Grows(c, used, c', vcn)
    ensures InOrder(c', resources)
  {
    forall i, j | 0 <= i < |resources| && 0 <= j < |resources| && DependsOn(c', resources[j].ocid, resources[i].ocid)
      ensures i < j
    {
      var x := resources[j].ocid;
      assert x in c.children;
      assert DependsOn(c, x, resources[i].ocid);
    }
  }

  lemma {:induction false} InOrderAppend(c: State, used: set<Ocid>, resources: seq<Resource>, row: Resource)
    requires InOrder(c, resources) && Known(resources, used) && row.ocid !in used && RefersBack(c, used)
    requires !DependsOn(c, row.ocid, row.ocid)
    ensures InOrder(c, resources + [row])
  {
    var longer := resources + [row];
    forall i, j | 0 <= i < |longer| && 0 <= j < |longer| && DependsOn(c, longer[j].ocid, longer[i].ocid) ensures i < j {
      if i < |resources| && j < |resources| {
        assert DependsOn(c, resources[j].ocid, resources[i].ocid);
      }
    }
  }

  lemma TypedGrows(c: State, used: set<Ocid>, c': State, used': set<Ocid>, vcn: Ocid, row: Resource)
    requires Sane(c, used) && Sane(c', used') && row.ocid in used && Typed(c, row) && Grows(c, used, c', vcn)
    ensures Typed(c', row)
  {
  }

  lemma TrackedGrows(c: State, used: set<Ocid>, c': State, used': set<Ocid>, vcn: Ocid, resources: seq<Resource>)
    requires Sane(c, used) && Sane(c', used') && used <= used' && Tracked(c, used, resources) && Grows(c, used, c', vcn)
    ensures Tracked(c', used', resources)
  {
    InOrderGrows(c, used, c', used', vcn, resources);
    hide Sane, Grows, Typed, InOrder;
    forall i | 0 <= i < |resources| ensures Typed(c', resources[i]) {
      TypedGrows(c, used, c', used', vcn, resources[i]);
    }
  }

  lemma TrackedAppend(c: State, used: set<Ocid>, used': set<Ocid>, resources: seq<Resource>, row: Resource)
    requires Tracked(c, used', resources) && Known(resources, used) && row.ocid in used' && row.ocid !in used
    requires RefersBack(c, used) && !DependsOn(c, row.ocid, row.ocid) && Typed(c, row)
    ensures Tracked(c, used', resources + [row])
  {
    hide RefersBack, Typed, DependsOn;
    InOrderAppend(c, used, resources, row);
  }

  lemma VcnCreated(c: State, used: set<Ocid>, at: State, id: Ocid, list: Ocid)
    requires Sane(c, used) && Drifts(c, at) && Sane(at, used) && id !in used && list !in used && id != list
    ensures Grows(c, used, VcnAdded(at, id, list), id) && RefersBack(VcnAdded(at, id, list), used)
    ensures !DependsOn(VcnAdded(at, id, list), id, id)
    ensures forall network :: Typed(VcnAdded(at, id, list), Resource(network, VcnType, id, false))
  {
  }

  lemma ChildCreated(c: State, used: set<Ocid>, at: State, id: Ocid, kind: Kind, vcn: Ocid, lists: set<Ocid>)
    requires Sane(c, used) && Drifts(c, at) && Sane(at, used) && id !in used && vcn in at.vcns && HasLists(at, lists)
    ensures Grows(c, used, ChildAdded(at, id, kind, vcn, lists), vcn)
    ensures RefersBack(ChildAdded(at, id, kind, vcn, lists), used)
    ensures !DependsOn(ChildAdded(at, id, kind, vcn, lists), id, id)
    ensures forall network :: Typed(ChildAdded(at, id, kind, vcn, lists), Resource(network, TypeOf(kind), id, false))
  {
  }

  // ---- Before the route table is touched ----

  /** The tracked child can be deleted now, unless it is a routed gateway. */
  ghost predicate TidyChild(c: State, row: Resource) {
    && row.ocid in c.children && c.children[row.ocid].vcn in c.vcns
    && !IsDefaultList(c, row.ocid)
    && c.vcns[c.children[row.ocid].vcn].pending.None?
    && match c.children[row.ocid].kind
       case Gateway => row.resourceType.GatewayType?
       case SecurityList => row.resourceType.ListType? && !InUse(c, row.ocid)
       case Subnet => false
  }

  /** Everything inside the tracked VCN of row `i` is tracked by later rows and no subnet. */
  ghost predicate TidyVcn(c: State, rows: seq<Resource>, i: nat)
    requires i < |rows|
  {
    && rows[i].ocid in c.vcns && rows[i].resourceType.VcnType?
    && forall x :: Inside(c, x, rows[i].ocid) && !IsDefaultList(c, x) ==>
         x in OcidsFrom(rows, i + 1) && !Has(c, Subnet, x)
  }

  /** A live tracked VCN has no routes yet and holds only its default list and what
      later rows track; a live tracked child is a gateway or an unused list of a VCN
      without routes. */
  ghost predicate EarlyRow(c: State, rows: seq<Resource>, i: nat)
    requires i < |rows|
  {
    || (TidyVcn(c, rows, i) && c.vcns[rows[i].ocid].pending.None? && c.vcns[rows[i].ocid].rules == [])
    || (TidyChild(c, rows[i]) && c.vcns[c.children[rows[i].ocid].vcn].rules == [])
  }

  ghost predicate Early(c: State, rows: seq<Resource>) {
    forall i :: 0 <= i < |rows| && Live(c, rows[i].ocid) ==> EarlyRow(c, rows, i)
  }

  ghost predicate NothingLive(c: State, rows: seq<Resource>) {
    forall i :: 0 <= i < |rows| ==> !Live(c, rows[i].ocid)
  }

  lemma NothingLiveIsEarly(c: State, rows: seq<Resource>)
    requires NothingLive(c, rows)
    ensures Early(c, rows)
  {
  }

  lemma EarlyDrifts(c: State, used: set<Ocid>, c': State, rows: seq<Resource>)
    requires Sane(c, used) && Early(c, rows) && Drifts(c, c')
    ensures Early(c', rows)
  {
    hide OcidsFrom;
    forall i | 0 <= i < |rows| && Live(c', rows[i].ocid) ensures EarlyRow(c', rows, i) {
      assert Live(c, rows[i].ocid);
      assert EarlyRow(c, rows, i);
      EarlyRowDrifts(c, used, c', rows, i);
    }
  }

  lemma EarlyRowDrifts(c: State, used: set<Ocid>, c': State, rows: seq<Resource>, i: nat)
    requires Sane(c, used) && i < |rows| && EarlyRow(c, rows, i) && Drifts(c, c')
    ensures EarlyRow(c', rows, i)
  {
    hide OcidsFrom;
    var id := rows[i].ocid;
    if id in c.vcns {
      assert c'.vcns[id] == c.vcns[id];
      forall x | Inside(c', x, id) && !IsDefaultList(c', x) ensures x in OcidsFrom(rows, i + 1) && !Has(c', Subnet, x) {
        assert Inside(c, x, id) && !IsDefaultList(c, x);
      }
      assert TidyVcn(c', rows, i);
    } else {
      var v := c.children[id].vcn;
      assert c'.vcns[v] == c.vcns[v];
      assert id in c'.children;
      assert !InUse(c, id) ==> !InUse(c', id);
      assert TidyChild(c', rows[i]);
    }
  }

  lemma EarlyChildClearable(c: State, rows: seq<Resource>, i: nat)
    requires i < |rows| && EarlyRow(c, rows, i) && Typed(c, rows[i])
    ensures ChildClearable(c, rows[i])
  {
    hide OcidsFrom, InUse;
  }

  lemma EarlyClearable(c: State, rows: seq<Resource>, i: nat)
    requires Early(c, rows) && Proper(c, rows) && i < |rows| && Live(c, rows[i].ocid)
    ensures RowClearable(c, rows, i)
  {
    hide InUse, ChildClearable, EarlyRow, Typed;
    assert EarlyRow(c, rows, i) && Typed(c, rows[i]);
    EarlyChildClearable(c, rows, i);
    if rows[i].resourceType.VcnType? {
      forall x | Inside(c, x, rows[i].ocid) && !IsDefaultList(c, x)
        ensures !Has(c, Subnet, x) && exists j :: i < j < |rows| && rows[j].ocid == x && ChildClearable(c, rows[j])
      {
        EarlyInside(c, rows, i, x);
        var j :| i + 1 <= j < |rows| && rows[j].ocid == x;
        assert EarlyRow(c, rows, j) && Typed(c, rows[j]);
        EarlyChildClearable(c, rows, j);
      }
    }
  }

  lemma EarlyInside(c: State, rows: seq<Resource>, i: nat, x: Ocid)
    requires i < |rows| && EarlyRow(c, rows, i) && Typed(c, rows[i]) && rows[i].resourceType.VcnType?
    requires Inside(c, x, rows[i].ocid) && !IsDefaultList(c, x)
    ensures x in OcidsFrom(rows, i + 1) && !Has(c, Subnet, x)
  {
    hide OcidsFrom;
  }

  lemma EarlyNoSubnet(c: State, used: set<Ocid>, rows: seq<Resource>, i: nat)
    requires Sane(c, used) && Early(c, rows) && i < |rows|
    ensures !Has(c, Subnet, rows[i].ocid)
  {
    hide OcidsFrom;
    assert Live(c, rows[i].ocid) ==> EarlyRow(c, rows, i);
  }

  /** Every rollback of such a network whose deletes are answered leaves nothing
      tracked, whatever happens in the cloud in between. */
  lemma {:induction false} EarlyRollsBack(c: State, used: set<Ocid>, rows: seq<Resource>, trail: seq<Moment>)
    requires Sane(c, used) && Proper(c, rows) && Early(c, rows) && Runs(c, rows, trail) && Answered(trail)
    ensures NothingLive(StateAt(c, trail, 0), rows)
  {
    hide Sane, Proper, Early, Runs, StateAt, Answered, RowClearable, Live, Has;
    RunsLength(c, rows, trail);
    forall i | 0 <= i < |rows| ensures !Live(StateAt(c, trail, 0), rows[i].ocid) {
      if Live(c, rows[i].ocid) {
        EarlyClearable(c, rows, i);
      }
      ClearableClears(c, used, rows, trail, i);
      EarlyNoSubnet(c, used, rows, i);
      NoNewSubnet(c, used, rows, trail, rows[i].ocid);
    }
  }

  lemma NoNewSubnet(c: State, used: set<Ocid>, rows: seq<Resource>, trail: seq<Moment>, id: Ocid)
    requires Sane(c, used) && Runs(c, rows, trail) && |rows| == |trail| && !Has(c, Subnet, id)
    ensures !Has(StateAt(c, trail, 0), Subnet, id)
  {
    hide Runs, StateAt;
    Along(c, used, rows, trail, 0);
  }

  // ---- One step ----

  /** What every step keeps: the cloud only grows, the rows name known resources and
      stay in order of dependence. */
  ghost predicate Stepped(c: State, used: set<Ocid>, c': State, used': set<Ocid>, resources': seq<Resource>,
                          vcn: Ocid) {
    used <= used' && Grows(c, used, c', vcn) && Tracked(c', used', resources')
  }

  lemma SteppedOn(c: State, used: set<Ocid>, d: State, used': set<Ocid>, resources': seq<Resource>,
                  e: State, used'': set<Ocid>, resources'': seq<Resource>, vcn: Ocid)
    requires Sane(c, used)
    requires Stepped(c, used, d, used', resources', vcn) && Stepped(d, used', e, used'', resources'', vcn)
    ensures Stepped(c, used, e, used'', resources'', vcn)
  {
    hide Grows, Tracked, Sane;
    GrowsOn(c, used, d, used', e, vcn);
  }

  lemma DriftStepped(c: State, used: set<Ocid>, c': State, used': set<Ocid>, resources: seq<Resource>, vcn: Ocid)
    requires Sane(c, used) && Sane(c', used') && used <= used' && Drifts(c, c') && Tracked(c, used, resources)
    ensures Stepped(c, used, c', used', resources, vcn)
  {
    hide Grows, Tracked, Sane, Drifts;
    DriftGrows(c, used, c', vcn);
    TrackedGrows(c, used, c', used', vcn, resources);
  }

  /** A fresh resource, tracked or not, is a step. */
  lemma CreatedStepped(c: State, used: set<Ocid>, c': State, used': set<Ocid>, vcn: Ocid,
                       resources: seq<Resource>, row: Resource, resources': seq<Resource>)
    requires Sane(c, used) && Sane(c', used') && used <= used' && Grows(c, used, c', vcn) && RefersBack(c', used)
    requires Tracked(c, used, resources) && Typed(c', row)
    requires row.ocid in used' && row.ocid !in used && !DependsOn(c', row.ocid, row.ocid)
    requires resources' == resources || resources' == resources + [row]
    ensures Stepped(c, used, c', used', resources', vcn)
  {
    hide Grows, RefersBack, Sane, DependsOn, Proper, InOrder, Typed, Known;
    TrackedGrows(c, used, c', used', vcn, resources);
    TrackedAppend(c', used, used', resources, row);
  }

  /** Some row of the network has this type and OCID. */
  predicate RecordedAs(resources: seq<Resource>, network: int, resourceType: ResourceType, ocid: Ocid) {
    exists k :: 0 <= k < |resources| && resources[k].network == network && resources[k].resourceType == resourceType
      && resources[k].ocid == ocid
  }

  predicate TracksAs(rows: seq<Resource>, resourceType: ResourceType, id: Ocid) {
    exists k :: 0 <= k < |rows| && rows[k].ocid == id && rows[k].resourceType == resourceType
  }

  lemma RowsOfAppend(resources: seq<Resource>, row: Resource, network: int)
    ensures RowsOf(resources + [row], network)
         == if row.network == network then RowsOf(resources, network) + [row] else RowsOf(resources, network)
  {
    assert (resources + [row])[..|resources|] == resources;
  }

  lemma RowsKnown(c: State, resources: seq<Resource>, used: set<Ocid>, network: int)
    requires Tracked(c, used, resources)
    ensures Known(RowsOf(resources, network), used)
  {
    var rows := RowsOf(resources, network);
    forall i | 0 <= i < |rows| ensures rows[i].ocid in used {
      assert rows[i] in resources;
    }
  }

  lemma {:induction false} RowsDistinct(resources: seq<Resource>, network: int)
    requires Distinct(resources)
    ensures Distinct(RowsOf(resources, network))
  {
    if resources != [] {
      var n := |resources| - 1;
      RowsDistinct(resources[..n], network);
      var rest, found := RowsOf(resources[..n], network), RowsOf(resources, network);
      forall i, j | 0 <= i < j < |found| ensures found[i].ocid != found[j].ocid {
        if j == |rest| {
          assert found[i] == rest[i] && rest[i] in resources[..n];
        }
      }
    }
  }

  /** One network's rows. */
  lemma TrackedOfNetwork(c: State, used: set<Ocid>, resources: seq<Resource>, network: int)
    requires Tracked(c, used, resources)
    ensures Tracked(c, used, RowsOf(resources, network))
  {
    hide InOrder, Typed;
    var rows := RowsOf(resources, network);
    RowsKnown(c, resources, used, network);
    RowsDistinct(resources, network);
    InOrderOfNetwork(c, resources, network);
    forall i | 0 <= i < |rows| ensures Typed(c, rows[i]) {
      assert rows[i] in resources;
    }
  }

  lemma EarlyAddsVcn(at: State, used: set<Ocid>, rows: seq<Resource>, row: Resource, list: Ocid)
    requires Sane(at, used) && Early(at, rows) && Known(rows, used)
    requires row.resourceType.VcnType? && row.ocid !in used && list !in used && row.ocid != list
    ensures Early(VcnAdded(at, row.ocid, list), rows + [row])
  {
    hide OcidsFrom;
    var c, longer := VcnAdded(at, row.ocid, list), rows + [row];
    forall i | 0 <= i < |longer| && Live(c, longer[i].ocid) ensures EarlyRow(c, longer, i) {
      if i == |rows| {
        forall x | Inside(c, x, row.ocid) ensures IsDefaultList(c, x) {
          assert x == list;
        }
      } else {
        assert EarlyRow(at, rows, i);
        EarlyRowSurvivesVcn(at, used, rows, row, list, i);
      }
    }
  }

  lemma EarlyRowSurvivesVcn(at: State, used: set<Ocid>, rows: seq<Resource>, row: Resource, list: Ocid, i: nat)
    requires Sane(at, used) && Known(rows, used) && i < |rows| && EarlyRow(at, rows, i)
    requires row.ocid !in used && list !in used && row.ocid != list
    ensures EarlyRow(VcnAdded(at, row.ocid, list), rows + [row], i)
  {
    hide OcidsFrom;
    var c, longer, id := VcnAdded(at, row.ocid, list), rows + [row], rows[i].ocid;
    OcidsLonger(rows, row, i + 1);
    assert longer[i] == rows[i];
    if id in at.vcns {
      forall x | Inside(c, x, id) && !IsDefaultList(c, x) ensures x in OcidsFrom(longer, i + 1) && !Has(c, Subnet, x) {
        assert Inside(at, x, id) && !IsDefaultList(at, x);
      }
    } else {
      assert InUse(c, id) ==> InUse(at, id);
      assert TidyChild(c, longer[i]);
    }
  }

  lemma OcidsLonger(rows: seq<Resource>, row: Resource, from: nat)
    requires from <= |rows|
    ensures OcidsFrom(rows + [row], from) == OcidsFrom(rows, from) + {row.ocid}
  {
    var longer := rows + [row];
    assert longer[|rows|] == row;
    assert forall j :: from <= j < |rows| ==> longer[j] == rows[j];
  }

  lemma EarlyAddsGateway(at: State, used: set<Ocid>, rows: seq<Resource>, row: Resource, vcn: Ocid)
    requires Sane(at, used) && Early(at, rows) && Known(rows, used)
    requires row.resourceType.GatewayType? && row.ocid !in used && vcn in at.vcns && TracksAs(rows, VcnType, vcn)
    ensures Early(ChildAdded(at, row.ocid, Gateway, vcn, {}), rows + [row])
  {
    hide OcidsFrom;
    var c, longer := ChildAdded(at, row.ocid, Gateway, vcn, {}), rows + [row];
    forall i | 0 <= i < |longer| && Live(c, longer[i].ocid) ensures EarlyRow(c, longer, i) {
      if i == |rows| {
        var k :| 0 <= k < |rows| && rows[k].ocid == vcn && rows[k].resourceType == VcnType;
        assert EarlyRow(at, rows, k);
        assert TidyChild(c, row);
      } else {
        assert EarlyRow(at, rows, i);
        EarlyRowSurvivesGateway(at, used, rows, row, vcn, i);
      }
    }
  }

  lemma EarlyRowSurvivesGateway(at: State, used: set<Ocid>, rows: seq<Resource>, row: Resource, vcn: Ocid, i: nat)
    requires Sane(at, used) && Known(rows, used) && i < |rows| && EarlyRow(at, rows, i) && row.ocid !in used
    requires vcn in at.vcns
    ensures EarlyRow(ChildAdded(at, row.ocid, Gateway, vcn, {}), rows + [row], i)
  {
    hide OcidsFrom;
    var c, longer, id := ChildAdded(at, row.ocid, Gateway, vcn, {}), rows + [row], rows[i].ocid;
    OcidsLonger(rows, row, i + 1);
    assert longer[i] == rows[i];
    if id in at.vcns {
      forall x | Inside(c, x, id) && !IsDefaultList(c, x) ensures x in OcidsFrom(longer, i + 1) && !Has(c, Subnet, x) {
        if x != row.ocid {
          assert Inside(at, x, id) && !IsDefaultList(at, x);
        }
      }
    } else {
      assert InUse(c, id) ==> InUse(at, id);
      assert TidyChild(c, longer[i]);
    }
  }

  // ---- Histories ----

  predicate Later(log: seq<Call>, log': seq<Call>) {
    log <= log'
  }

  lemma LaterOn(a: seq<Call>, b: seq<Call>, c: seq<Call>)
    requires Later(a, b) && Later(b, c)
    ensures Later(a, c) && |a| <= |b|
  {
  }

  /** The provisioning states `more` were written, in this order. */
  predicate Wrote(steps: seq<Progress>, steps': seq<Progress>, more: seq<Progress>) {
    steps' == steps + more
  }

  lemma WroteOn(a: seq<Progress>, b: seq<Progress>, c: seq<Progress>, more: seq<Progress>, evenMore: seq<Progress>)
    requires Wrote(a, b, more) && Wrote(b, c, evenMore)
    ensures Wrote(a, c, more + evenMore)
  {
  }

  lemma NothingYet(log: seq<Call>, steps: seq<Progress>)
    ensures Later(log, log) && Wrote(steps, steps, [])
  {
  }
}
