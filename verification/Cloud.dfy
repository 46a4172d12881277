/** The cloud as internal/service/network.go sees it through internal/service/oci.go:
    networks (VCNs) with a default route table and children, deletes that are
    refused while something depends on the resource, changes that take effect some
    time after they were accepted, and calls that may fail at any moment, with or
    without having had their effect.

    This is the environment, not code of the repository. Each method's body shows
    one behaviour; callers are proved against the contract, which allows them all. */
module Cloud {
  import opened Wrappers

  type Ocid = string

  datatype Rule = Rule(destination: string, target: Option<Ocid>)

  /** `rules` are in force; `pending` were accepted and come into force later. */
  datatype Vcn = Vcn(routeTable: bool, defaultList: Option<Ocid>, rules: seq<Rule>, pending: Option<seq<Rule>>)

  datatype Kind = Gateway | SecurityList | Subnet

  /** `lists` are the security lists a subnet uses. */
  datatype Child = Child(kind: Kind, vcn: Ocid, managed: bool, lists: set<Ocid>, terminating: bool)

  datatype State = State(vcns: map<Ocid, Vcn>, children: map<Ocid, Child>)

  /** NotFound is HTTP 404 and Refused 409; Failed is every other error. */
  datatype Result = Ok | NotFound | Refused | Failed

  datatype Lifecycle = Available | Terminated | InTransition

  /** What a listing shows of one child. */
  datatype Item = Item(id: Ocid, managed: bool, available: bool)

  datatype Op =
    | AskVcn | AskRoutes | AskSubnet | AskChildren(kind: Kind)
    | MakeVcn | MakeChild(kind: Kind) | PutRoutes
    | RemoveChild(kind: Kind) | RemoveVcn
    | Timeout

  /** One call: the phase of the caller, the resource, whether at that moment
      something depended on the resource, and the answer. */
  datatype Call = Call(phase: nat, op: Op, id: Ocid, blocked: bool, result: Result)

  function Requested(vcn: Vcn): seq<Rule> {
    if vcn.pending.Some? then vcn.pending.value else vcn.rules
  }

  function DefaultRoute(gateway: Ocid): Rule {
    Rule("0.0.0.0/0", Some(gateway))
  }

  predicate Targets(rules: seq<Rule>, id: Ocid) {
    exists i :: 0 <= i < |rules| && rules[i].target == Some(id)
  }

  predicate Has(c: State, kind: Kind, id: Ocid) {
    id in c.children && c.children[id].kind == kind
  }

  predicate Inside(c: State, x: Ocid, vcn: Ocid) {
    x in c.children && c.children[x].vcn == vcn
  }

  predicate IsDefaultList(c: State, id: Ocid) {
    id in c.children && c.children[id].vcn in c.vcns && c.vcns[c.children[id].vcn].defaultList == Some(id)
  }

  predicate Targeted(c: State, id: Ocid) {
    id in c.children && c.children[id].vcn in c.vcns && Targets(c.vcns[c.children[id].vcn].rules, id)
  }

  predicate InUse(c: State, id: Ocid) {
    exists x :: x in c.children && c.children[x].kind.Subnet? && id in c.children[x].lists
  }

  /** Why a child cannot be deleted right now. */
  predicate Blocked(c: State, kind: Kind, id: Ocid) {
    Has(c, kind, id) &&
    match kind
    case Gateway => Targeted(c, id)
    case SecurityList => InUse(c, id) || IsDefaultList(c, id)
    case Subnet => false
  }

  /** A VCN cannot go before its children; its default security list goes with it. */
  predicate VcnBlocked(c: State, vcn: Ocid) {
    vcn in c.vcns && exists x :: x in c.children && Inside(c, x, vcn) && !IsDefaultList(c, x)
  }

  predicate HasLists(c: State, lists: set<Ocid>) {
    forall l :: l in lists ==> Has(c, SecurityList, l)
  }

  predicate Live(c: State, id: Ocid) {
    id in c.vcns || id in c.children
  }

  ghost predicate Sane(c: State, used: set<Ocid>) {
    && c.vcns.Keys <= used && c.children.Keys <= used && c.vcns.Keys !! c.children.Keys
    && (forall x :: x in c.children ==> c.children[x].vcn in c.vcns && c.children[x].lists <= used)
    && (forall x :: x in c.children && c.children[x].terminating ==> c.children[x].kind.Subnet?)
    && (forall v :: v in c.vcns && c.vcns[v].defaultList.Some? ==>
          var list := c.vcns[v].defaultList.value;
          list in used && (list in c.children ==> c.children[list].kind.SecurityList?))
    && (forall v :: v in c.vcns && !c.vcns[v].routeTable ==> c.vcns[v].rules == [] && c.vcns[v].pending.None?)
  }

  // ---- What happens by itself ----

  predicate VcnDrifts(v: Vcn, v': Vcn) {
    v' == v || (v.pending.Some? && v' == v.(rules := v.pending.value, pending := None))
  }

  /** Accepted route changes come into force; terminating subnets disappear. */
  ghost predicate Drifts(c: State, c': State) {
    && c'.vcns.Keys == c.vcns.Keys
    && (forall v :: v in c.vcns ==> VcnDrifts(c.vcns[v], c'.vcns[v]))
    && (forall x :: x in c'.children ==> x in c.children && c'.children[x] == c.children[x])
    && (forall x :: x in c.children && x !in c'.children ==> c.children[x].terminating)
  }

  lemma DriftsOn(c: State, d: State, e: State)
    requires Drifts(c, d) && Drifts(d, e)
    ensures Drifts(c, e)
  {
  }

  function Settled(c: State): State {
    State(map v | v in c.vcns :: c.vcns[v].(rules := Requested(c.vcns[v]), pending := None),
          map x | x in c.children && !c.children[x].terminating :: c.children[x])
  }

  // ---- What the calls do ----

  lemma SettledSane(c: State, used: set<Ocid>)
    requires Sane(c, used)
    ensures Sane(Settled(c), used) && Drifts(c, Settled(c)) && Drifts(c, c)
  {
  }

  lemma DriftSane(c: State, used: set<Ocid>, c': State)
    requires Sane(c, used) && Drifts(c, c')
    ensures Sane(c', used)
  {
  }

  lemma DeletedSane(c: State, used: set<Ocid>, id: Ocid, c': State)
    requires Sane(c, used) && id in c.children && ChildDeleted(c, id, c')
    ensures Sane(c', used)
  {
  }

  lemma VcnDeletedSane(c: State, used: set<Ocid>, vcn: Ocid)
    requires Sane(c, used)
    ensures Sane(VcnDeleted(c, vcn), used)
  {
  }

  lemma RoutesSetSane(c: State, used: set<Ocid>, vcn: Ocid, rules: seq<Rule>)
    requires Sane(c, used) && vcn in c.vcns && c.vcns[vcn].routeTable
    ensures Sane(RoutesSet(c, vcn, rules), used)
  {
  }

  lemma VcnAddedSane(c: State, used: set<Ocid>, id: Ocid, list: Ocid)
    requires Sane(c, used) && id !in used && list !in used && id != list
    ensures Sane(VcnAdded(c, id, list), used + {id, list})
  {
  }

  lemma HasListsUsed(c: State, used: set<Ocid>, lists: set<Ocid>)
    requires Sane(c, used) && HasLists(c, lists)
    ensures lists <= used
  {
  }

  lemma MoreUsed(c: State, used: set<Ocid>, more: set<Ocid>)
    requires Sane(c, used) && used <= more
    ensures Sane(c, more)
  {
  }

  lemma AddedSane(c: State, used: set<Ocid>, id: Ocid, kind: Kind, vcn: Ocid, lists: set<Ocid>)
    requires Sane(c, used) && vcn in c.vcns && lists <= used && id !in used
    ensures Sane(ChildAdded(c, id, kind, vcn, lists), used + {id})
  {
  }

  function WithoutChild(c: State, id: Ocid): State {
    c.(children := c.children - {id})
  }

  /** An accepted delete: a subnet first terminates, everything else is gone. */
  ghost predicate ChildDeleted(c: State, id: Ocid, c': State)
    requires id in c.children
  {
    || c' == WithoutChild(c, id)
    || (c.children[id].kind.Subnet? && c' == c.(children := c.children[id := c.children[id].(terminating := true)]))
  }

  function VcnDeleted(c: State, vcn: Ocid): State {
    State(c.vcns - {vcn}, map x | x in c.children && c.children[x].vcn != vcn :: c.children[x])
  }

  function RoutesSet(c: State, vcn: Ocid, rules: seq<Rule>): State
    requires vcn in c.vcns
  {
    c.(vcns := c.vcns[vcn := c.vcns[vcn].(pending := Some(rules))])
  }

  /** A new VCN has an empty route table and an unmanaged default security list. */
  function VcnAdded(c: State, id: Ocid, list: Ocid): State {
    State(c.vcns[id := Vcn(true, Some(list), [], None)],
          c.children[list := Child(SecurityList, id, false, {}, false)])
  }

  function ChildAdded(c: State, id: Ocid, kind: Kind, vcn: Ocid, lists: set<Ocid>): State {
    c.(children := c.children[id := Child(kind, vcn, true, lists, false)])
  }

  ghost function Ids(items: seq<Item>): set<Ocid> {
    set k | 0 <= k < |items| :: items[k].id
  }

  lemma IdsAppend(items: seq<Item>, item: Item)
    ensures Ids(items + [item]) == Ids(items) + {item.id}
  {
    var longer := items + [item];
    assert longer[|items|].id == item.id;
    forall k | 0 <= k < |items| ensures longer[k].id == items[k].id {
    }
    assert Ids(longer) <= Ids(items) + {item.id};
    assert Ids(items) <= Ids(longer);
  }

  ghost function AvailableIds(items: seq<Item>): set<Ocid> {
    set k | 0 <= k < |items| && items[k].available :: items[k].id
  }

  predicate Shows(c: State, item: Item, kind: Kind, vcn: Ocid) {
    Has(c, kind, item.id) && Inside(c, item.id, vcn) && item.managed == c.children[item.id].managed
  }

  class Api {
    var st: State
    var made: nat
    // Every identifier ever handed out.
    ghost var used: set<Ocid>
    ghost var log: seq<Call>
    // Set by the caller; copied into the log.
    ghost var phase: nat
    // What queries have shown as available.
    ghost var seen: set<Ocid>
    // How many creates and route updates took effect although they reported a failure.
    ghost var lost: nat

    ghost predicate Valid()
      reads this
    {
      Sane(st, used) && forall id :: id in used ==> |id| <= made
    }

    method Drift()
      requires Valid()
      modifies this`st
      ensures Valid() && Drifts(old(st), st)
    {
      hide Sane, Drifts, Settled;
      SettledSane(st, used);
      var settle := *;
      if settle {
        st := Settled(st);
      }
    }

    ghost method Note(op: Op, id: Ocid, blocked: bool, result: Result)
      modifies this`log
      ensures log == old(log) + [Call(phase, op, id, blocked, result)]
    {
      log := log + [Call(phase, op, id, blocked, result)];
    }

    method FreshId() returns (id: Ocid)
      requires Valid()
      modifies this`made, this`used
      ensures Valid() && id !in old(used) && id != "" && used == old(used) + {id}
    {
      hide Sane;
      MoreUsed(st, used, used + {seq(made + 1, _ => 'x')});
      id := seq(made + 1, _ => 'x');
      made := made + 1;
      used := used + {id};
    }

    /** A VCN that is gone may still be shown as terminated for a while. */
    method GetVcn(id: Ocid) returns (r: Result, shown: Vcn, lifecycle: Lifecycle)
      requires Valid()
      modifies this`st, this`log, this`seen
      ensures Valid() && Drifts(old(st), st)
      ensures log == old(log) + [Call(phase, AskVcn, id, false, r)]
      ensures seen == if r.Ok? && lifecycle.Available? then old(seen) + {id} else old(seen)
      ensures r.Ok? && id in st.vcns ==> shown == st.vcns[id] && !lifecycle.Terminated?
      ensures r.Ok? && id !in st.vcns ==> lifecycle.Terminated?
      ensures r.NotFound? ==> id !in st.vcns
      ensures !r.Refused?
      ensures !r.Ok? ==> !shown.routeTable
    {
      Drift();
      if id in st.vcns {
        r, shown, lifecycle := Ok, st.vcns[id], Available;
      } else {
        r, shown, lifecycle := NotFound, Vcn(false, None, [], None), Terminated;
      }
      seen := if r.Ok? && lifecycle.Available? then seen + {id} else seen;
      Note(AskVcn, id, false, r);
    }

    /** The default route table of a VCN. */
    method GetRoutes(vcn: Ocid) returns (r: Result, rules: seq<Rule>)
      requires Valid()
      modifies this`st, this`log
      ensures Valid() && Drifts(old(st), st)
      ensures log == old(log) + [Call(phase, AskRoutes, vcn, false, r)]
      ensures r.Ok? ==> vcn in st.vcns && rules == st.vcns[vcn].rules
      ensures r.NotFound? ==> vcn !in st.vcns
      ensures !r.Refused?
    {
      Drift();
      if vcn in st.vcns {
        r, rules := Ok, st.vcns[vcn].rules;
      } else {
        r, rules := NotFound, [];
      }
      Note(AskRoutes, vcn, false, r);
    }

    /** `at` is the state in which the call took effect, if it did. */
    method SetRoutes(vcn: Ocid, rules: seq<Rule>) returns (r: Result, ghost at: State)
      requires Valid()
      modifies this`st, this`log, this`lost
      ensures Valid() && Drifts(old(st), at)
      ensures log == old(log) + [Call(phase, PutRoutes, vcn, false, r)]
      ensures r.Ok? ==>
        vcn in at.vcns && at.vcns[vcn].routeTable && st == RoutesSet(at, vcn, rules) && lost == old(lost)
      ensures r.NotFound? ==> vcn !in at.vcns || !at.vcns[vcn].routeTable
      ensures !r.Refused?
      ensures !r.Ok? ==>
        || (st == at && lost == old(lost))
        || (r.Failed? && lost == old(lost) + 1
            && vcn in at.vcns && at.vcns[vcn].routeTable && st == RoutesSet(at, vcn, rules))
    {
      hide Sane, Drifts, RoutesSet;
      Drift();
      at := st;
      if vcn in st.vcns && st.vcns[vcn].routeTable {
        RoutesSetSane(st, used, vcn, rules);
        r, st := Ok, RoutesSet(st, vcn, rules);
      } else {
        r := NotFound;
      }
      Note(PutRoutes, vcn, false, r);
    }

    method ListChildren(kind: Kind, vcn: Ocid) returns (r: Result, items: seq<Item>)
      requires Valid()
      modifies this`st, this`log, this`seen
      ensures Valid() && Drifts(old(st), st)
      ensures log == old(log) + [Call(phase, AskChildren(kind), vcn, false, r)]
      ensures seen == old(seen) + AvailableIds(items)
      ensures forall k :: 0 <= k < |items| ==> Shows(st, items[k], kind, vcn)
      ensures forall j, k :: 0 <= j < k < |items| ==> items[j].id != items[k].id
      ensures r.Ok? ==> forall x :: Has(st, kind, x) && Inside(st, x, vcn) ==> x in Ids(items)
      ensures !r.Ok? ==> r.Failed? && items == []
    {
      Drift();
      r := Ok;
      items := Listing(st.children.Keys, kind, vcn);
      seen := seen + AvailableIds(items);
      Note(AskChildren(kind), vcn, false, r);
    }

    method Listing(ids: set<Ocid>, kind: Kind, vcn: Ocid) returns (items: seq<Item>)
      requires ids <= st.children.Keys
      ensures forall k :: 0 <= k < |items| ==> Shows(st, items[k], kind, vcn)
      ensures forall j, k :: 0 <= j < k < |items| ==> items[j].id != items[k].id
      ensures forall x :: x in ids && Has(st, kind, x) && Inside(st, x, vcn) ==> x in Ids(items)
    {
      hide Ids;
      items := [];
      var todo := ids;
      while todo != {}
        invariant todo <= ids
        invariant forall k :: 0 <= k < |items| ==> Shows(st, items[k], kind, vcn) && items[k].id !in todo
        invariant forall j, k :: 0 <= j < k < |items| ==> items[j].id != items[k].id
        invariant forall x :: x in ids && x !in todo && Has(st, kind, x) && Inside(st, x, vcn) ==> x in Ids(items)
      {
        var x :| x in todo;
        todo := todo - {x};
        if st.children[x].kind == kind && st.children[x].vcn == vcn {
          IdsAppend(items, Item(x, st.children[x].managed, true));
          items := items + [Item(x, st.children[x].managed, true)];
        }
      }
    }

    method GetSubnet(id: Ocid) returns (r: Result, lifecycle: Lifecycle)
      requires Valid()
      modifies this`st, this`log
      ensures Valid() && Drifts(old(st), st)
      ensures log == old(log) + [Call(phase, AskSubnet, id, false, r)]
      ensures r.Ok? && lifecycle.Terminated? ==> !Has(st, Subnet, id)
      ensures r.NotFound? ==> !Has(st, Subnet, id)
      ensures !r.Refused?
    {
      Drift();
      if Has(st, Subnet, id) {
        r, lifecycle := Ok, if st.children[id].terminating then InTransition else Available;
      } else {
        r, lifecycle := NotFound, Terminated;
      }
      Note(AskSubnet, id, false, r);
    }

    /** Creates a VCN and waits until it is available. */
    method CreateVcn() returns (r: Result, id: Ocid, ghost list: Ocid, ghost at: State)
      requires Valid()
      modifies this`st, this`log, this`lost, this`made, this`used
      ensures Valid() && Drifts(old(st), at) && old(used) <= used
      ensures log == old(log) + [Call(phase, MakeVcn, id, false, r)]
      ensures r.Ok? ==> st == VcnAdded(at, id, list) && lost == old(lost) && id != ""
      ensures r.Ok? ==> id in used && id !in old(used) && list !in old(used) && id != list
      ensures !r.Ok? ==>
        || (st == at && lost == old(lost))
        || (st == VcnAdded(at, id, list) && lost == old(lost) + 1
            && id in used && id !in old(used) && list !in old(used) && id != list)
    {
      hide Sane, Drifts, VcnAdded;
      Drift();
      at := st;
      r := Ok;
      ghost var before := used;
      id := FreshId();
      var defaultList := FreshId();
      list := defaultList;
      VcnAddedSane(st, before, id, defaultList);
      assert used == before + {id, list};
      st := VcnAdded(st, id, defaultList);
      Note(MakeVcn, id, false, r);
    }

    /** Creates a managed child and waits until it is available. */
    method CreateChild(kind: Kind, vcn: Ocid, lists: set<Ocid>) returns (r: Result, id: Ocid, ghost at: State)
      requires Valid()
      modifies this`st, this`log, this`lost, this`made, this`used
      ensures Valid() && Drifts(old(st), at) && old(used) <= used
      ensures log == old(log) + [Call(phase, MakeChild(kind), vcn, false, r)]
      ensures r.Ok? ==> lost == old(lost) && id != ""
      ensures r.Ok? || lost != old(lost) ==>
        && vcn in at.vcns && HasLists(at, lists)
        && id in used && id !in old(used) && st == ChildAdded(at, id, kind, vcn, lists)
      ensures !r.Ok? ==> (st == at && lost == old(lost)) || lost == old(lost) + 1
    {
      hide Sane, Drifts, HasLists, ChildAdded;
      Drift();
      at := st;
      id := "";
      if vcn in st.vcns && HasLists(st, lists) {
        r := Ok;
        ghost var before := used;
        HasListsUsed(st, used, lists);
        id := FreshId();
        AddedSane(st, before, id, kind, vcn, lists);
        st := ChildAdded(st, id, kind, vcn, lists);
      } else {
        r := NotFound;
      }
      Note(MakeChild(kind), vcn, false, r);
    }

    method DeleteChild(kind: Kind, id: Ocid) returns (r: Result, ghost at: State)
      requires Valid()
      modifies this`st, this`log
      ensures Valid() && Drifts(old(st), at)
      ensures log == old(log) + [Call(phase, RemoveChild(kind), id, Blocked(at, kind, id), r)]
      ensures r.Ok? ==> Has(at, kind, id) && !Blocked(at, kind, id) && ChildDeleted(at, id, st)
      ensures r.NotFound? ==> !Has(at, kind, id) && st == at
      ensures r.Refused? ==> Blocked(at, kind, id) && st == at
      ensures r.Failed? ==> st == at || (Has(at, kind, id) && !Blocked(at, kind, id) && ChildDeleted(at, id, st))
    {
      hide Sane, Drifts, Blocked;
      Drift();
      at := st;
      if !Has(st, kind, id) {
        r := NotFound;
      } else if Blocked(st, kind, id) {
        r := Refused;
      } else {
        r := Ok;
        if kind.Subnet? {
          st := st.(children := st.children[id := st.children[id].(terminating := true)]);
        } else {
          st := WithoutChild(st, id);
        }
        DeletedSane(at, used, id, st);
      }
      Note(RemoveChild(kind), id, Blocked(at, kind, id), r);
    }

    method DeleteVcn(id: Ocid) returns (r: Result, ghost at: State)
      requires Valid()
      modifies this`st, this`log
      ensures Valid() && Drifts(old(st), at)
      ensures log == old(log) + [Call(phase, RemoveVcn, id, VcnBlocked(at, id), r)]
      ensures r.Ok? ==> id in at.vcns && !VcnBlocked(at, id) && st == VcnDeleted(at, id)
      ensures r.NotFound? ==> id !in at.vcns && st == at
      ensures r.Refused? ==> VcnBlocked(at, id) && st == at
      ensures r.Failed? ==> st == at || (id in at.vcns && !VcnBlocked(at, id) && st == VcnDeleted(at, id))
    {
      hide Sane, Drifts, VcnBlocked, VcnDeleted;
      Drift();
      at := st;
      VcnDeletedSane(st, used, id);
      if id !in st.vcns {
        r := NotFound;
      } else if VcnBlocked(st, id) {
        r := Refused;
      } else {
        r, st := Ok, VcnDeleted(st, id);
      }
      Note(RemoveVcn, id, VcnBlocked(at, id), r);
    }
  }
}
