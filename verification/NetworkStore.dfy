/** The rows that internal/repository/network.go and
    internal/repository/network_resource.go keep, and the settings the network
    service reads. Any read or write can fail; `faults` counts the failures. */
module NetworkStore {
  import opened Wrappers
  import opened Cloud

  datatype Status = Pending | Provisioning | Ready | Failed | Destroying

  datatype Progress = NotStarted | CreatingVcn | CreatingGateway | UpdatingRoute | CreatingList | CreatingSubnet
                    | Done | RollingBack | GivenUp

  /** An empty OCID is the column's default. */
  datatype Network = Network(name: string, vcnOcid: Ocid, subnetOcid: Ocid, status: Status, progress: Progress)

  datatype ResourceType = VcnType | GatewayType | ListType | SubnetType | OtherType(name: string)

  function TypeOf(kind: Kind): ResourceType {
    match kind
    case Gateway => GatewayType
    case SecurityList => ListType
    case Subnet => SubnetType
  }

  datatype Resource = Resource(network: int, resourceType: ResourceType, ocid: Ocid, deleted: bool)

  datatype Settings = Settings(
    tenancyOcid: string, userOcid: string, fingerprint: string, privateKey: string, region: string,
    compartmentOcid: string)

  function WithStatus(rows: map<int, Network>, id: int, status: Status): map<int, Network> {
    if id in rows then rows[id := rows[id].(status := status)] else rows
  }

  function WithProgress(rows: map<int, Network>, id: int, progress: Progress): map<int, Network> {
    if id in rows then rows[id := rows[id].(progress := progress)] else rows
  }

  /** The rows of one network in id order, as positions in the table. */
  function RowsOf(resources: seq<Resource>, network: int): (found: seq<Resource>)
    ensures forall r :: r in found ==> r in resources && r.network == network
    ensures forall i :: 0 <= i < |resources| && resources[i].network == network ==> resources[i] in found
  {
    if resources == [] then []
    else
      var rest := RowsOf(resources[..|resources| - 1], network);
      var last := resources[|resources| - 1];
      if last.network == network then rest + [last] else rest
  }

  /** Some row of the network and type, whatever its status, or none if there is none. */
  predicate OneOfType(resources: seq<Resource>, network: int, resourceType: ResourceType, found: Option<Resource>) {
    match found
    case None => forall r :: r in resources ==> r.network != network || r.resourceType != resourceType
    case Some(row) => row in resources && row.network == network && row.resourceType == resourceType
  }

  /** Setting a status by OCID reaches every row with that OCID. */
  function Marked(resources: seq<Resource>, ocid: Ocid, deleted: bool): (marked: seq<Resource>)
    ensures |marked| == |resources|
    ensures forall i :: 0 <= i < |resources| ==>
      marked[i] == if resources[i].ocid == ocid then resources[i].(deleted := deleted) else resources[i]
  {
    seq(|resources|, i requires 0 <= i < |resources| =>
      if resources[i].ocid == ocid then resources[i].(deleted := deleted) else resources[i])
  }

  function Without(resources: seq<Resource>, network: int): (kept: seq<Resource>)
    ensures forall r :: r in kept <==> r in resources && r.network != network
  {
    if resources == [] then []
    else if resources[0].network == network then Without(resources[1..], network)
    else [resources[0]] + Without(resources[1..], network)
  }

  predicate Ascending(ids: seq<int>) {
    forall i, j :: 0 <= i < j < |ids| ==> ids[i] < ids[j]
  }

  predicate Least(id: int, ids: set<int>) {
    id in ids && forall other :: other in ids ==> id <= other
  }

  lemma {:induction false} LeastIn(ids: set<int>)
    requires ids != {}
    ensures exists id :: Least(id, ids)
  {
    assert (forall id: int :: id !in ids) ==> ids == {};
    var some: int :| some in ids;
    var rest := ids - {some};
    assert ids == rest + {some};
    if rest == {} {
      assert Least(some, ids);
    } else {
      LeastIn(rest);
      var least :| Least(least, rest);
      assert Least(if some < least then some else least, ids);
    }
  }

  class Store {
    var rows: map<int, Network>
    var resources: seq<Resource>
    // How many VPS rows refer to each network.
    var instances: map<int, nat>
    var settings: Settings
    ghost var faults: nat
    // The provisioning states written, or tried to be written, so far.
    ghost var steps: seq<Progress>

    // Whether a statement succeeds is up to the database.
    method Attempt() returns (ok: bool)
      modifies this`faults
      ensures faults == if ok then old(faults) else old(faults) + 1
    {
      ok := *;
      if !ok {
        faults := faults + 1;
      }
    }

    method Get(id: int) returns (ok: bool, row: Option<Network>)
      modifies this`faults
      ensures faults == if ok then old(faults) else old(faults) + 1
      ensures row == if ok && id in rows then Some(rows[id]) else None
    {
      ok := Attempt();
      row := if ok && id in rows then Some(rows[id]) else None;
    }

    method LoadSettings() returns (ok: bool, loaded: Settings)
      modifies this`faults
      ensures faults == if ok then old(faults) else old(faults) + 1
      ensures ok ==> loaded == settings
    {
      ok := Attempt();
      loaded := settings;
    }

    method UpdateStatus(id: int, status: Status) returns (ok: bool)
      modifies this`rows, this`faults
      ensures faults == if ok then old(faults) else old(faults) + 1
      ensures rows == if ok then WithStatus(old(rows), id, status) else old(rows)
      ensures rows == if ok && id in old(rows) then old(rows)[id := old(rows)[id].(status := status)] else old(rows)
    {
      ok := Attempt();
      if ok && id in rows {
        rows := rows[id := rows[id].(status := status)];
      }
    }

    method UpdateProgress(id: int, progress: Progress) returns (ok: bool)
      modifies this`rows, this`faults, this`steps
      ensures steps == old(steps) + [progress]
      ensures faults == if ok then old(faults) else old(faults) + 1
      ensures rows == if ok then WithProgress(old(rows), id, progress) else old(rows)
      ensures rows
          == if ok && id in old(rows) then old(rows)[id := old(rows)[id].(progress := progress)] else old(rows)
    {
      ok := Attempt();
      steps := steps + [progress];
      if ok && id in rows {
        rows := rows[id := rows[id].(progress := progress)];
      }
    }

    method UpdateProvisionResult(id: int, vcnOcid: Ocid, subnetOcid: Ocid) returns (ok: bool)
      modifies this`rows, this`faults
      ensures faults == if ok then old(faults) else old(faults) + 1
      ensures if ok && id in old(rows) then
                var row := old(rows)[id].(vcnOcid := vcnOcid, subnetOcid := subnetOcid, status := Ready);
                rows == old(rows)[id := row]
              else rows == old(rows)
    {
      ok := Attempt();
      if ok && id in rows {
        rows := rows[id := rows[id].(vcnOcid := vcnOcid, subnetOcid := subnetOcid, status := Ready)];
      }
    }

    /** Refused while VPS rows refer to the network; takes its resource rows along. */
    method Delete(id: int) returns (ok: bool)
      modifies this`rows, this`resources, this`faults
      ensures ok ==> faults == old(faults) && rows == old(rows) - {id} && resources == Without(old(resources), id)
      ensures ok ==> id !in instances || instances[id] == 0
      ensures !ok ==> rows == old(rows) && resources == old(resources) && old(faults) <= faults <= old(faults) + 1
      ensures !ok && faults == old(faults) ==> id in instances && instances[id] > 0
    {
      ok := Attempt();
      if ok && id in instances && instances[id] > 0 {
        return false;
      }
      if ok {
        rows := rows - {id};
        resources := Without(resources, id);
      }
    }

    method CreateResource(network: int, resourceType: ResourceType, ocid: Ocid) returns (ok: bool)
      modifies this`resources, this`faults
      ensures faults == if ok then old(faults) else old(faults) + 1
      ensures resources == if ok then old(resources) + [Resource(network, resourceType, ocid, false)]
          else old(resources)
    {
      ok := Attempt();
      if ok {
        resources := resources + [Resource(network, resourceType, ocid, false)];
      }
    }

    method GetByNetworkAndType(network: int, resourceType: ResourceType) returns (ok: bool, found: Option<Resource>)
      modifies this`faults
      ensures faults == if ok then old(faults) else old(faults) + 1
      ensures if ok then OneOfType(resources, network, resourceType, found) else found.None?
    {
      ok := Attempt();
      if !ok {
        return false, None;
      }
      var i := 0;
      while i < |resources|
        invariant 0 <= i <= |resources|
        invariant forall k :: 0 <= k < i ==>
          resources[k].network != network || resources[k].resourceType != resourceType
      {
        if resources[i].network == network && resources[i].resourceType == resourceType {
          return true, Some(resources[i]);
        }
        i := i + 1;
      }
      found := None;
    }

    method ListByNetwork(network: int) returns (ok: bool, found: seq<Resource>)
      modifies this`faults
      ensures faults == if ok then old(faults) else old(faults) + 1
      ensures ok ==> found == RowsOf(resources, network)
    {
      ok := Attempt();
      found := [];
      var i := 0;
      while i < |resources|
        invariant 0 <= i <= |resources|
        invariant found == RowsOf(resources[..i], network)
      {
        assert resources[..i + 1][..i] == resources[..i];
        if resources[i].network == network {
          found := found + [resources[i]];
        }
        i := i + 1;
      }
      assert resources[..|resources|] == resources;
    }

    method SetDeleted(ocid: Ocid, deleted: bool) returns (ok: bool)
      modifies this`resources, this`faults
      ensures faults == if ok then old(faults) else old(faults) + 1
      ensures resources == if ok then Marked(old(resources), ocid, deleted) else old(resources)
    {
      ok := Attempt();
      if ok {
        resources := Marked(resources, ocid, deleted);
      }
    }

    /** The networks with one of the statuses, in id order. */
    method ListByStatus(statuses: set<Status>) returns (ok: bool, ids: seq<int>)
      modifies this`faults
      ensures faults == if ok then old(faults) else old(faults) + 1
      ensures ok ==> Ascending(ids) && forall id :: id in ids <==> id in rows && rows[id].status in statuses
      ensures statuses == {} ==> ok
    {
      if statuses == {} {
        return true, [];
      }
      ok := Attempt();
      ids := Select(statuses);
    }

    method Select(statuses: set<Status>) returns (ids: seq<int>)
      ensures Ascending(ids) && forall id :: id in ids <==> id in rows && rows[id].status in statuses
    {
      ids := [];
      var todo := rows.Keys;
      while todo != {}
        invariant todo <= rows.Keys && Ascending(ids)
        invariant forall i, id :: 0 <= i < |ids| && id in todo ==> ids[i] < id
        invariant forall id :: id in ids <==> id in rows && id !in todo && rows[id].status in statuses
      {
        LeastIn(todo);
        var id :| Least(id, todo);
        todo := todo - {id};
        if rows[id].status in statuses {
          ids := ids + [id];
        }
      }
    }
  }
}
