/** The steps of DestroyNetwork (internal/service/network.go) and the two polling
    loops of internal/service/oci.go that they wait in. */
module DestroyNetwork {
  import opened Wrappers
  import opened Cloud
  import opened NetworkStore
  import opened Teardown

  method Refers(rules: seq<Rule>, gateways: set<Ocid>) returns (refers: bool)
    ensures refers <==> exists r :: r in rules && Leads(r, gateways)
  {
    var i := 0;
    while i < |rules|
      invariant 0 <= i <= |rules|
      invariant forall k :: 0 <= k < i ==> !Leads(rules[k], gateways)
    {
      if rules[i].target.Some? && rules[i].target.value in gateways {
        assert Leads(rules[i], gateways);
        return true;
      }
      i := i + 1;
    }
    return false;
  }

  // How often a polling loop asks before its deadline is up to the clock.
  method WaitForRouteTableCleared(api: Api, vcn: Ocid, gateways: set<Ocid>) returns (ok: bool)
    requires api.Valid() && api.phase == 1
    modifies api`st, api`log
    ensures api.Valid() && Drifts(old(api.st), api.st)
    ensures Extends(old(api.log), api.log, api.phase)
    ensures ok <==> NoErrors(api.log, |old(api.log)|)
    ensures ok ==> vcn in api.st.vcns && forall r :: r in api.st.vcns[vcn].rules ==> !Leads(r, gateways)
    ensures !ok ==> vcn !in api.st.vcns || !Honest(api.log, |old(api.log)|)
  {
    hide Sane, Extends, NoErrors, Honest, Heard, Leads;
    LogNone(api.log, api.phase);
    var polls: nat := *;
    while polls > 0
      invariant api.Valid() && Drifts(old(api.st), api.st)
      invariant Extends(old(api.log), api.log, api.phase) && NoErrors(api.log, |old(api.log)|)
    {
      ghost var before, said := api.st, api.log;
      var r, rules := api.GetRoutes(vcn);
      DriftsOn(old(api.st), before, api.st);
      LogOne(said, Call(api.phase, AskRoutes, vcn, false, r), api.log);
      LogOn(old(api.log), said, api.log, api.phase);
      if !r.Ok? {
        return false;
      }
      var stillRefs := Refers(rules, gateways);
      if !stillRefs {
        return true;
      }
      polls := polls - 1;
    }
    ghost var said := api.log;
    api.Note(Timeout, vcn, false, Result.Failed);
    LogOne(said, Call(api.phase, Timeout, vcn, false, Result.Failed), api.log);
    LogOn(old(api.log), said, api.log, api.phase);
    return false;
  }

  method WaitForSubnetTerminated(api: Api, subnet: Ocid) returns (r: Result)
    requires api.Valid() && api.phase == 3
    modifies api`st, api`log
    ensures api.Valid() && Drifts(old(api.st), api.st)
    ensures Extends(old(api.log), api.log, api.phase)
    ensures r.Ok? || r.NotFound? <==> NoErrors(api.log, |old(api.log)|)
    ensures r.Ok? || r.NotFound? ==> !Has(api.st, Subnet, subnet)
    ensures !r.Ok? && !r.NotFound? ==> !Honest(api.log, |old(api.log)|)
  {
    hide Sane, Extends, NoErrors, Honest, Heard;
    LogNone(api.log, api.phase);
    var polls: nat := *;
    while polls > 0
      invariant api.Valid() && Drifts(old(api.st), api.st)
      invariant Extends(old(api.log), api.log, api.phase) && NoErrors(api.log, |old(api.log)|)
    {
      ghost var before, said := api.st, api.log;
      var lifecycle;
      r, lifecycle := api.GetSubnet(subnet);
      DriftsOn(old(api.st), before, api.st);
      LogOne(said, Call(api.phase, AskSubnet, subnet, false, r), api.log);
      LogOn(old(api.log), said, api.log, api.phase);
      if !r.Ok? || lifecycle.Terminated? {
        return;
      }
      polls := polls - 1;
    }
    ghost var said := api.log;
    api.Note(Timeout, subnet, false, Result.Failed);
    LogOne(said, Call(api.phase, Timeout, subnet, false, Result.Failed), api.log);
    LogOn(old(api.log), said, api.log, api.phase);
    return Result.Failed;
  }

  // ---- Step 1 ----

  method ManagedIds(ghost c: State, vcn: Ocid, items: seq<Item>, ghost complete: bool) returns (ids: set<Ocid>)
    requires forall k :: 0 <= k < |items| ==> Shows(c, items[k], Gateway, vcn)
    requires complete ==> forall x :: Has(c, Gateway, x) && Inside(c, x, vcn) ==> x in Ids(items)
    ensures complete ==> ids == ManagedGateways(c, vcn)
    ensures items == [] ==> ids == {}
  {
    ids := {};
    var k := 0;
    while k < |items|
      invariant 0 <= k <= |items|
      invariant ids <= ManagedGateways(c, vcn)
      invariant forall j :: 0 <= j < k && items[j].managed ==> items[j].id in ids
      invariant k == 0 ==> ids == {}
    {
      if items[k].managed {
        ids := ids + {items[k].id};
      }
      k := k + 1;
    }
  }

  method Filter(rules: seq<Rule>, targets: set<Ocid>) returns (kept: seq<Rule>)
    ensures kept == Filtered(rules, targets)
  {
    hide Filtered;
    kept := [];
    NoRules(targets);
    var i := 0;
    while i < |rules|
      invariant 0 <= i <= |rules|
      invariant kept == Filtered(rules[..i], targets)
    {
      OneMoreRule(rules, i, targets);
      if !(rules[i].target.Some? && rules[i].target.value in targets) {
        kept := kept + [rules[i]];
      }
      i := i + 1;
    }
    assert rules[..|rules|] == rules;
  }

  lemma NoRules(targets: set<Ocid>)
    ensures Filtered([], targets) == []
  {
  }

  lemma OneMoreRule(rules: seq<Rule>, i: nat, targets: set<Ocid>)
    requires i < |rules|
    ensures Filtered(rules[..i + 1], targets)
         == Filtered(rules[..i], targets) + if Leads(rules[i], targets) then [] else [rules[i]]
  {
    assert rules[..i + 1][..i] == rules[..i];
  }

  lemma GatewaysStay(c: State, used: set<Ocid>, c': State, vcn: Ocid)
    requires Sane(c, used) && Drifts(c, c')
    ensures ManagedGateways(c, vcn) == ManagedGateways(c', vcn)
  {
  }

  lemma RoutesDropped(c: State, at: State, rules: seq<Rule>, c': State, vcn: Ocid)
    requires Drifts(c, at) && vcn in at.vcns
    requires rules == c.vcns[vcn].rules || rules == Requested(c.vcns[vcn])
    requires Drifts(RoutesSet(at, vcn, Filtered(rules, ManagedGateways(c, vcn))), c')
    ensures Cleared(c, c', vcn)
  {
    hide Filtered, ManagedGateways;
    var d := RoutesSet(at, vcn, Filtered(rules, ManagedGateways(c, vcn)));
    assert VcnDrifts(c.vcns[vcn], at.vcns[vcn]) && VcnDrifts(d.vcns[vcn], c'.vcns[vcn]);
    forall w | w in c.vcns && w != vcn ensures VcnDrifts(c.vcns[w], c'.vcns[w]) {
      assert d.vcns[w] == at.vcns[w] && VcnDrifts(c.vcns[w], at.vcns[w]) && VcnDrifts(d.vcns[w], c'.vcns[w]);
    }
    assert d.children == at.children;
  }

  lemma DriftClears(c: State, c': State, vcn: Ocid)
    requires Drifts(c, c')
    ensures Cleared(c, c', vcn)
  {
  }

  ghost predicate NoPending(c: State, vcn: Ocid) {
    vcn in c.vcns ==> c.vcns[vcn].pending.None?
  }

  lemma FilteredShorter(rules: seq<Rule>, targets: set<Ocid>)
    ensures |Filtered(rules, targets)| != |rules| ==> exists r :: r in rules && Leads(r, targets)
    ensures |Filtered(rules, targets)| == |rules| ==> forall r :: r in rules ==> !Leads(r, targets)
  {
    if rules != [] {
      FilteredShorter(rules[..|rules| - 1], targets);
      assert rules == rules[..|rules| - 1] + [rules[|rules| - 1]];
      assert rules[|rules| - 1] in rules;
    }
  }

  lemma UnroutedFrom(c: State, vcn: Ocid, gateways: set<Ocid>)
    requires vcn in c.vcns && c.vcns[vcn].pending.None? && gateways == ManagedGateways(c, vcn)
    requires forall r :: r in c.vcns[vcn].rules ==> !Leads(r, gateways)
    ensures Unrouted(c, vcn)
  {
    forall x | ManagedIn(c, Gateway, vcn, x) ensures !Targets(c.vcns[vcn].rules, x) {
      assert x in gateways;
      forall i | 0 <= i < |c.vcns[vcn].rules| ensures c.vcns[vcn].rules[i].target != Some(x) {
        assert c.vcns[vcn].rules[i] in c.vcns[vcn].rules;
      }
    }
  }

  /** Asks for the shortened route table and waits until it is in force. */
  method DropRoutes(api: Api, vcn: Ocid, rules: seq<Rule>, filtered: seq<Rule>, gateways: set<Ocid>, ghost start: State)
      returns (ok: bool)
    requires api.Valid() && api.phase == 1 && vcn in api.st.vcns && api.st.vcns[vcn].routeTable
    requires Sane(start, api.used) && Drifts(start, api.st) && gateways == ManagedGateways(start, vcn)
    requires rules == start.vcns[vcn].rules || rules == Requested(start.vcns[vcn])
    requires filtered == Filtered(rules, gateways) && |filtered| != |rules|
    modifies api`st, api`log, api`lost
    ensures api.Valid()
    ensures Extends(old(api.log), api.log, api.phase)
    ensures ok <==> NoErrors(api.log, |old(api.log)|)
    ensures Cleared(start, api.st, vcn)
    ensures ok && NoPending(start, vcn) ==> Unrouted(api.st, vcn)
    ensures Honest(api.log, |old(api.log)|) ==> ok
  {
    hide Filtered, ManagedGateways, Targets, Sane, Extends, NoErrors, Honest, Heard, Unrouted;
    ghost var before, said := api.st, api.log;
    var r, at := api.SetRoutes(vcn, filtered);
    LogOne(said, Call(api.phase, PutRoutes, vcn, false, r), api.log);
    DriftsOn(start, before, at);
    if !r.Ok? {
      DriftClears(start, at, vcn);
      if api.st != at {
        RoutesDropped(start, at, rules, api.st, vcn);
      }
      return false;
    }
    said := api.log;
    ok := WaitForRouteTableCleared(api, vcn, gateways);
    LogOn(old(api.log), said, api.log, api.phase);
    RoutesDropped(start, at, rules, api.st, vcn);
    if ok && NoPending(start, vcn) {
      FilteredShorter(rules, gateways);
      assert api.st.vcns[vcn].rules == filtered && api.st.vcns[vcn].pending.None?;
      GatewaysAfter(start, api.used, at, vcn, filtered, api.st);
      UnroutedFrom(api.st, vcn, gateways);
    }
  }

  lemma GatewaysAfter(c: State, used: set<Ocid>, at: State, vcn: Ocid, rules: seq<Rule>, c': State)
    requires Sane(c, used) && Drifts(c, at) && vcn in at.vcns && Drifts(RoutesSet(at, vcn, rules), c')
    ensures ManagedGateways(c, vcn) == ManagedGateways(c', vcn)
  {
  }

  lemma RoutelessIsUnrouted(c: State, used: set<Ocid>, vcn: Ocid)
    requires Sane(c, used) && (vcn in c.vcns ==> !c.vcns[vcn].routeTable)
    ensures Unrouted(c, vcn)
  {
  }

  /** Step 1: drop the routes to managed gateways; everything else stays. */
  method ClearManagedRoutes(api: Api, vcn: Ocid) returns (ok: bool, defaultList: Option<Ocid>)
    requires api.Valid() && api.phase == 1
    modifies api`st, api`log, api`seen, api`lost
    ensures api.Valid()
    ensures Extends(old(api.log), api.log, 1)
    ensures ok <==> NoErrors(api.log, |old(api.log)|)
    ensures Cleared(old(api.st), api.st, vcn)
    ensures ok && vcn in api.st.vcns ==> defaultList == api.st.vcns[vcn].defaultList
    ensures ok && NoPending(old(api.st), vcn) && Heard(api.log, |old(api.log)|) ==> Unrouted(api.st, vcn)
    ensures Honest(api.log, |old(api.log)|) && vcn in old(api.st).vcns ==> ok
  {
    hide Targets, Sane, Extends, NoErrors, Honest, Heard, Unrouted;
    ghost var c, said := api.st, api.log;
    var r, shown, lifecycle := api.GetVcn(vcn);
    LogOne(said, Call(1, AskVcn, vcn, false, r), api.log);
    DriftClears(c, api.st, vcn);
    if !r.Ok? {
      return false, None;
    }
    ok, defaultList := true, shown.defaultList;
    if !shown.routeTable {
      RoutelessIsUnrouted(api.st, api.used, vcn);
      return;
    }
    said := api.log;
    ok := ClearRouteTable(api, vcn, c);
    LogOn(old(api.log), said, api.log, 1);
  }

  method ClearRouteTable(api: Api, vcn: Ocid, ghost start: State) returns (ok: bool)
    requires api.Valid() && api.phase == 1
    requires Sane(start, api.used) && Drifts(start, api.st) && (vcn in start.vcns ==> start.vcns[vcn].routeTable)
    modifies api`st, api`log, api`seen, api`lost
    ensures api.Valid()
    ensures Extends(old(api.log), api.log, 1)
    ensures ok <==> NoErrors(api.log, |old(api.log)|)
    ensures Cleared(start, api.st, vcn)
    ensures ok && NoPending(start, vcn) && Heard(api.log, |old(api.log)|) ==> Unrouted(api.st, vcn)
    ensures Honest(api.log, |old(api.log)|) && vcn in start.vcns ==> ok
  {
    hide Filtered, ManagedGateways, Targets, Sane, Unrouted, Extends, NoErrors, Honest, Heard, Shows;
    ghost var before, said := api.st, api.log;
    var r, rules := api.GetRoutes(vcn);
    LogOne(said, Call(1, AskRoutes, vcn, false, r), api.log);
    DriftsOn(start, before, api.st);
    DriftClears(start, api.st, vcn);
    if !r.Ok? {
      return false;
    }
    ok := DropManagedRoutes(api, vcn, rules, start);
    LogOn(old(api.log), said + [Call(1, AskRoutes, vcn, false, r)], api.log, 1);
  }

  method DropManagedRoutes(api: Api, vcn: Ocid, rules: seq<Rule>, ghost start: State) returns (ok: bool)
    requires api.Valid() && api.phase == 1 && vcn in api.st.vcns
    requires Sane(start, api.used) && Drifts(start, api.st) && start.vcns[vcn].routeTable
    requires rules == api.st.vcns[vcn].rules
    modifies api`st, api`log, api`seen, api`lost
    ensures api.Valid()
    ensures Extends(old(api.log), api.log, 1)
    ensures ok <==> NoErrors(api.log, |old(api.log)|)
    ensures Cleared(start, api.st, vcn)
    ensures ok && NoPending(start, vcn) && Heard(api.log, |old(api.log)|) ==> Unrouted(api.st, vcn)
    ensures Honest(api.log, |old(api.log)|) ==> ok
  {
    hide Filtered, ManagedGateways, Targets, Sane, Unrouted, Extends, NoErrors, Honest, Heard, Shows, Leads;
    ghost var before, said := api.st, api.log;
    var r, items := api.ListChildren(Gateway, vcn);
    LogOne(said, Call(1, AskChildren(Gateway), vcn, false, r), api.log);
    DriftsOn(start, before, api.st);
    DriftClears(start, api.st, vcn);
    var gateways := ManagedIds(api.st, vcn, items, r.Ok?);
    var filtered := Filter(rules, gateways);
    FilteredShorter(rules, gateways);
    ok := true;
    if |filtered| != |rules| {
      NothingToFilter(rules, gateways);
      GatewaysStay(start, api.used, api.st, vcn);
      said := api.log;
      ok := DropRoutes(api, vcn, rules, filtered, gateways, start);
      LogOn(old(api.log), said, api.log, 1);
    } else if r.Ok? && NoPending(start, vcn) {
      UnroutedFrom(api.st, vcn, gateways);
    }
  }

  lemma NothingToFilter(rules: seq<Rule>, targets: set<Ocid>)
    requires |Filtered(rules, targets)| != |rules|
    ensures targets != {}
  {
    FilteredShorter(rules, targets);
  }

  // ---- Step 2 ----

  lemma UnroutedStays(c: State, c': State, vcn: Ocid, subnet: Ocid)
    requires Unrouted(c, vcn) && Shrinks(c, c', vcn, subnet)
    ensures Unrouted(c', vcn)
  {
    forall x | ManagedIn(c', Gateway, vcn, x) ensures vcn in c.vcns ==> !Targets(c.vcns[vcn].rules, x) {
      assert Lingers(c, c', subnet, x);
      assert ManagedIn(c, Gateway, vcn, x);
    }
  }

  lemma UnroutedIsFree(c: State, vcn: Ocid, x: Ocid)
    requires Unrouted(c, vcn) && (Has(c, Gateway, x) ==> ManagedIn(c, Gateway, vcn, x))
    ensures !Blocked(c, Gateway, x)
  {
  }

  /** Deletes one child that a listing showed; `start` is the cloud before the step. */
  method DeleteListed(api: Api, kind: Kind, vcn: Ocid, ghost subnet: Ocid, id: Ocid, ghost start: State,
                      ghost listed: State)
      returns (r: Result, ghost at: State)
    requires api.Valid() && !kind.Subnet? && ManagedIn(listed, kind, vcn, id)
    requires Shrinks(start, listed, vcn, subnet) && Shrinks(listed, api.st, vcn, subnet)
    modifies api`st, api`log
    ensures api.Valid() && Shrinks(start, api.st, vcn, subnet) && Shrinks(listed, api.st, vcn, subnet)
    ensures Shrinks(old(api.st), at, vcn, subnet) && Shrinks(start, at, vcn, subnet)
    ensures Shrinks(old(api.st), api.st, vcn, subnet)
    ensures api.log == old(api.log) + [Call(api.phase, RemoveChild(kind), id, Blocked(at, kind, id), r)]
    ensures r.Ok? || r.NotFound? ==> !Has(api.st, kind, id)
    ensures r.NotFound? ==> !Has(at, kind, id)
    ensures r.Refused? ==> Blocked(at, kind, id)
    ensures Has(at, kind, id) ==> ManagedIn(at, kind, vcn, id)
    ensures Has(old(api.st), kind, id) ==> Has(at, kind, id)
    ensures forall x :: x != id && Has(old(api.st), kind, x) ==> Has(api.st, kind, x)
  {
    hide Sane, Blocked, Shrinks, Drifts;
    ghost var before := api.st;
    r, at := api.DeleteChild(kind, id);
    AfterDelete(before, api.used, at, kind, vcn, subnet, id, listed, api.st, r);
    ShrinksOn(start, listed, api.st, vcn, subnet);
    ShrinksOn(start, listed, at, vcn, subnet);
  }

  lemma AfterDelete(before: State, used: set<Ocid>, at: State, kind: Kind, vcn: Ocid, subnet: Ocid, id: Ocid,
                    listed: State, after: State, r: Result)
    requires Sane(before, used) && Drifts(before, at) && !kind.Subnet? && ManagedIn(listed, kind, vcn, id)
    requires Shrinks(listed, before, vcn, subnet)
    requires r.Ok? ==> Has(at, kind, id) && ChildDeleted(at, id, after)
    requires !r.Ok? ==> after == at || (Has(at, kind, id) && ChildDeleted(at, id, after))
    ensures Shrinks(listed, after, vcn, subnet) && Shrinks(listed, at, vcn, subnet)
    ensures Shrinks(before, at, vcn, subnet) && Shrinks(before, after, vcn, subnet)
    ensures r.Ok? ==> !Has(after, kind, id)
    ensures Has(at, kind, id) ==> ManagedIn(at, kind, vcn, id)
    ensures forall x :: x != id && Has(before, kind, x) ==> Has(after, kind, x)
    ensures Has(before, kind, id) ==> Has(at, kind, id)
  {
    hide Shrinks;
    DriftShrinks(before, at, vcn, subnet);
    if Has(at, kind, id) {
      ListedStays(listed, before, vcn, subnet, id);
      if after != at {
        DeleteShrinks(before, at, id, after, vcn, subnet);
      }
    }
    ShrinksOn(listed, before, at, vcn, subnet);
    ShrinksOn(listed, before, after, vcn, subnet);
  }

  lemma ListedStays(c: State, c': State, vcn: Ocid, subnet: Ocid, x: Ocid)
    requires Shrinks(c, c', vcn, subnet)
    ensures x in c'.children ==> Lingers(c, c', subnet, x)
  {
  }

  /** Step 2: a gateway that is already gone is no error. */
  method DeleteManagedGateways(api: Api, vcn: Ocid, ghost subnet: Ocid) returns (ok: bool)
    requires api.Valid() && api.phase == 2
    modifies api`st, api`log, api`seen
    ensures api.Valid()
    ensures Extends(old(api.log), api.log, 2)
    ensures ok <==> NoErrors(api.log, |old(api.log)|)
    ensures Shrinks(old(api.st), api.st, vcn, subnet)
    ensures ok ==> forall x :: !ManagedIn(api.st, Gateway, vcn, x)
    ensures Unrouted(old(api.st), vcn) ==> NoneBlocked(api.log, |old(api.log)|)
    ensures Honest(api.log, |old(api.log)|) && Unrouted(old(api.st), vcn) ==> ok
  {
    hide Sane, Extends, NoErrors, Honest, Heard, NoneBlocked, Unrouted, Shrinks, Blocked, Gone, Shows, ManagedIn,
         Drifts, Has, Ids, AvailableIds;
    ghost var start, from := api.st, |api.log|;
    var r, items := api.ListChildren(Gateway, vcn);
    LogOne(old(api.log), Call(2, AskChildren(Gateway), vcn, false, r), api.log);
    DriftShrinks(start, api.st, vcn, subnet);
    if !r.Ok? {
      return false;
    }
    ghost var listed := api.st;
    NothingShrinks(listed, vcn, subnet);
    ok := true;
    var k := 0;
    while k < |items|
      invariant 0 <= k <= |items| && api.Valid() && api.phase == 2
      invariant Shrinks(start, api.st, vcn, subnet) && Shrinks(listed, api.st, vcn, subnet)
      invariant Extends(old(api.log), api.log, 2) && from <= |api.log| && (ok <==> NoErrors(api.log, from))
      invariant Unrouted(start, vcn) ==> NoneBlocked(api.log, from)
      invariant Unrouted(start, vcn) && Honest(api.log, from) ==> ok
      invariant ok ==> forall j :: 0 <= j < k ==> Gone(api.st, Gateway, None, items[j])
    {
      if items[k].managed {
        ghost var said, before := api.log, api.st;
        ShownManaged(listed, items[k], Gateway, vcn);
        var rd, at := DeleteListed(api, Gateway, vcn, subnet, items[k].id, start, listed);
        ghost var call := Call(2, RemoveChild(Gateway), items[k].id, Blocked(at, Gateway, items[k].id), rd);
        LogOne(said, call, api.log);
        LogOn(old(api.log), said, api.log, 2);
        if Unrouted(start, vcn) {
          UnroutedStays(start, at, vcn, subnet);
          UnroutedIsFree(at, vcn, items[k].id);
        }
        if !rd.Ok? && !rd.NotFound? {
          ok := false;
        }
        forall j | 0 <= j < k && ok ensures Gone(api.st, Gateway, None, items[j]) {
          GoneStays(before, api.st, Gateway, None, vcn, subnet, items[j]);
        }
      }
      if ok {
        GoneNow(api.st, Gateway, None, items[k]);
      }
      k := k + 1;
    }
    if ok {
      AllGone(listed, api.st, Gateway, None, vcn, subnet, items);
    }
  }

  predicate Gone(c: State, kind: Kind, kept: Option<Ocid>, item: Item) {
    item.managed && kept != Some(item.id) ==> !Has(c, kind, item.id)
  }

  lemma GoneNow(c: State, kind: Kind, kept: Option<Ocid>, item: Item)
    requires !item.managed || kept == Some(item.id) || !Has(c, kind, item.id)
    ensures Gone(c, kind, kept, item)
  {
  }

  lemma ShownManaged(c: State, item: Item, kind: Kind, vcn: Ocid)
    requires Shows(c, item, kind, vcn) && item.managed
    ensures ManagedIn(c, kind, vcn, item.id)
  {
  }

  lemma GoneStays(c: State, c': State, kind: Kind, kept: Option<Ocid>, vcn: Ocid, subnet: Ocid, item: Item)
    requires Gone(c, kind, kept, item) && Shrinks(c, c', vcn, subnet)
    ensures Gone(c', kind, kept, item)
  {
    if item.id in c'.children {
      assert Lingers(c, c', subnet, item.id);
    }
  }

  lemma AllGone(listed: State, c: State, kind: Kind, kept: Option<Ocid>, vcn: Ocid, subnet: Ocid, items: seq<Item>)
    requires Shrinks(listed, c, vcn, subnet)
    requires forall k :: 0 <= k < |items| ==> Shows(listed, items[k], kind, vcn)
    requires forall x :: Has(listed, kind, x) && Inside(listed, x, vcn) ==> x in Ids(items)
    requires forall k :: 0 <= k < |items| ==> Gone(c, kind, kept, items[k])
    ensures forall x :: ManagedIn(c, kind, vcn, x) ==> kept == Some(x)
  {
    forall x | ManagedIn(c, kind, vcn, x) ensures kept == Some(x) {
      assert Lingers(listed, c, subnet, x);
      assert Has(listed, kind, x) && Inside(listed, x, vcn);
      var k :| 0 <= k < |items| && items[k].id == x;
      assert Shows(listed, items[k], kind, vcn) && Gone(c, kind, kept, items[k]);
    }
  }

  // ---- Step 3 ----

  /** Step 3: a subnet that is already gone is no error. */
  method DeleteSubnet(api: Api, ghost vcn: Ocid, subnet: Ocid) returns (ok: bool)
    requires api.Valid() && api.phase == 3
    modifies api`st, api`log
    ensures api.Valid()
    ensures Extends(old(api.log), api.log, 3)
    ensures ok <==> NoErrors(api.log, |old(api.log)|)
    ensures Shrinks(old(api.st), api.st, vcn, subnet)
    ensures ok ==> !Has(api.st, Subnet, subnet)
    ensures Honest(api.log, |old(api.log)|) ==> ok
  {
    hide Sane, Extends, NoErrors, Honest, Heard, Shrinks;
    ghost var before := api.st;
    var r, at := api.DeleteChild(Subnet, subnet);
    LogOne(old(api.log), Call(3, RemoveChild(Subnet), subnet, Blocked(at, Subnet, subnet), r), api.log);
    SubnetDeleted(before, at, vcn, subnet, api.st);
    if !r.Ok? && !r.NotFound? {
      return false;
    }
    ghost var said, deleted := api.log, api.st;
    var waited := WaitForSubnetTerminated(api, subnet);
    LogOn(old(api.log), said, api.log, 3);
    DriftShrinks(deleted, api.st, vcn, subnet);
    ShrinksOn(before, deleted, api.st, vcn, subnet);
    ok := waited.Ok? || waited.NotFound?;
  }

  lemma SubnetDeleted(before: State, at: State, vcn: Ocid, subnet: Ocid, after: State)
    requires Drifts(before, at)
    requires after == at || (Has(at, Subnet, subnet) && ChildDeleted(at, subnet, after))
    ensures Shrinks(before, after, vcn, subnet)
  {
    if after == at {
      DriftShrinks(before, at, vcn, subnet);
    } else {
      DeleteShrinks(before, at, subnet, after, vcn, subnet);
    }
  }

  // ---- Step 4 ----

  /** The managed lists other than `kept` are used by no subnet. */
  ghost predicate Unused(c: State, vcn: Ocid, kept: Option<Ocid>) {
    forall x :: ManagedIn(c, SecurityList, vcn, x) && kept != Some(x) ==> !InUse(c, x)
  }

  lemma UnusedStays(c: State, c': State, vcn: Ocid, subnet: Ocid, kept: Option<Ocid>)
    requires Unused(c, vcn, kept) && Shrinks(c, c', vcn, subnet)
    ensures Unused(c', vcn, kept)
  {
    forall x | ManagedIn(c', SecurityList, vcn, x) && kept != Some(x) ensures !InUse(c', x) {
      assert Lingers(c, c', subnet, x);
      assert ManagedIn(c, SecurityList, vcn, x);
      forall y | y in c'.children && c'.children[y].kind.Subnet? ensures x !in c'.children[y].lists {
        assert Lingers(c, c', subnet, y);
      }
    }
  }

  lemma UnusedIsFree(c: State, vcn: Ocid, kept: Option<Ocid>, x: Ocid)
    requires Unused(c, vcn, kept) && (vcn in c.vcns ==> kept == c.vcns[vcn].defaultList) && kept != Some(x)
    requires Has(c, SecurityList, x) ==> ManagedIn(c, SecurityList, vcn, x)
    ensures !Blocked(c, SecurityList, x)
  {
  }

  lemma ShrinksKeepsDefault(c: State, c': State, vcn: Ocid, subnet: Ocid)
    requires Shrinks(c, c', vcn, subnet)
    ensures c'.vcns.Keys == c.vcns.Keys
    ensures vcn in c.vcns ==> c'.vcns[vcn].defaultList == c.vcns[vcn].defaultList
  {
  }

  /** The items not yet deleted are still there. */
  ghost predicate StillThere(c: State, kind: Kind, items: seq<Item>, k: nat) {
    forall j :: k <= j < |items| ==> Has(c, kind, items[j].id)
  }

  lemma AllThere(c: State, kind: Kind, vcn: Ocid, items: seq<Item>)
    requires forall j :: 0 <= j < |items| ==> Shows(c, items[j], kind, vcn)
    ensures StillThere(c, kind, items, 0)
  {
  }

  lemma NextThere(c: State, kind: Kind, items: seq<Item>, k: nat)
    requires StillThere(c, kind, items, k) && k < |items|
    ensures Has(c, kind, items[k].id) && StillThere(c, kind, items, k + 1)
  {
  }

  lemma OthersThere(c: State, c': State, kind: Kind, items: seq<Item>, k: nat)
    requires StillThere(c, kind, items, k + 1) && k < |items|
    requires forall i, j :: 0 <= i < j < |items| ==> items[i].id != items[j].id
    requires forall x :: x != items[k].id && Has(c, kind, x) ==> Has(c', kind, x)
    ensures StillThere(c', kind, items, k + 1)
  {
  }

  /** Step 4: here a list that is already gone is an error. */
  method DeleteManagedLists(api: Api, vcn: Ocid, ghost subnet: Ocid, defaultList: Option<Ocid>) returns (ok: bool)
    requires api.Valid() && api.phase == 4
    requires vcn in api.st.vcns ==> defaultList == api.st.vcns[vcn].defaultList
    modifies api`st, api`log, api`seen
    ensures api.Valid()
    ensures Extends(old(api.log), api.log, 4)
    ensures ok <==> NoErrors(api.log, |old(api.log)|)
    ensures Shrinks(old(api.st), api.st, vcn, subnet)
    ensures ok ==> forall x :: ManagedIn(api.st, SecurityList, vcn, x) ==> defaultList == Some(x)
    ensures Honest(api.log, |old(api.log)|) && Unused(old(api.st), vcn, defaultList) ==> ok
  {
    hide Sane, Extends, NoErrors, Honest, Heard, Unused, Shrinks, Blocked, Lingers, Gone, Shows, ManagedIn, Drifts,
         Ids, AvailableIds, StillThere, Has;
    ghost var start, from := api.st, |api.log|;
    var r, items := api.ListChildren(SecurityList, vcn);
    LogOne(old(api.log), Call(4, AskChildren(SecurityList), vcn, false, r), api.log);
    DriftShrinks(start, api.st, vcn, subnet);
    if !r.Ok? {
      return false;
    }
    ghost var listed := api.st;
    NothingShrinks(listed, vcn, subnet);
    AllThere(listed, SecurityList, vcn, items);
    ok := true;
    var k := 0;
    while k < |items|
      invariant 0 <= k <= |items| && api.Valid() && api.phase == 4
      invariant Shrinks(start, api.st, vcn, subnet) && Shrinks(listed, api.st, vcn, subnet)
      invariant Extends(old(api.log), api.log, 4) && from <= |api.log| && (ok <==> NoErrors(api.log, from))
      invariant Unused(start, vcn, defaultList) && Honest(api.log, from) ==> ok
      invariant StillThere(api.st, SecurityList, items, k)
      invariant ok ==> forall j :: 0 <= j < k ==> Gone(api.st, SecurityList, defaultList, items[j])
    {
      ghost var said, before := api.log, api.st;
      NextThere(before, SecurityList, items, k);
      if defaultList != Some(items[k].id) && items[k].managed {
        ShownManaged(listed, items[k], SecurityList, vcn);
        var rd, at := DeleteListed(api, SecurityList, vcn, subnet, items[k].id, start, listed);
        ghost var call := Call(4, RemoveChild(SecurityList), items[k].id, Blocked(at, SecurityList, items[k].id), rd);
        LogOne(said, call, api.log);
        LogOn(old(api.log), said, api.log, 4);
        if Unused(start, vcn, defaultList) {
          UnusedStays(start, at, vcn, subnet, defaultList);
          ShrinksKeepsDefault(start, at, vcn, subnet);
          UnusedIsFree(at, vcn, defaultList, items[k].id);
        }
        if !rd.Ok? {
          ok := false;
        }
        forall j | 0 <= j < k && ok ensures Gone(api.st, SecurityList, defaultList, items[j]) {
          GoneStays(before, api.st, SecurityList, defaultList, vcn, subnet, items[j]);
        }
        OthersThere(before, api.st, SecurityList, items, k);
      }
      if ok {
        GoneNow(api.st, SecurityList, defaultList, items[k]);
      }
      k := k + 1;
    }
    if ok {
      AllGone(listed, api.st, SecurityList, defaultList, vcn, subnet, items);
    }
  }

  // ---- All five steps ----

  lemma GatewaysStayGone(c: State, c': State, vcn: Ocid, subnet: Ocid)
    requires Shrinks(c, c', vcn, subnet) && forall x :: !ManagedIn(c, Gateway, vcn, x)
    ensures forall x :: !ManagedIn(c', Gateway, vcn, x)
  {
    forall x | ManagedIn(c', Gateway, vcn, x) ensures ManagedIn(c, Gateway, vcn, x) {
      assert Lingers(c, c', subnet, x);
    }
  }

  lemma ListsStayGone(c: State, c': State, vcn: Ocid, subnet: Ocid, kept: Option<Ocid>)
    requires Shrinks(c, c', vcn, subnet) && forall x :: ManagedIn(c, SecurityList, vcn, x) ==> kept == Some(x)
    ensures forall x :: ManagedIn(c', SecurityList, vcn, x) ==> kept == Some(x)
  {
    forall x | ManagedIn(c', SecurityList, vcn, x) ensures kept == Some(x) {
      assert Lingers(c, c', subnet, x);
      assert ManagedIn(c, SecurityList, vcn, x);
    }
  }

  lemma SubnetStaysGone(c: State, c': State, vcn: Ocid, subnet: Ocid)
    requires Shrinks(c, c', vcn, subnet) && !Has(c, Subnet, subnet)
    ensures !Has(c', Subnet, subnet)
  {
    assert subnet in c'.children ==> Lingers(c, c', subnet, subnet);
  }

  lemma SubnetGoneFreesLists(c: State, c': State, vcn: Ocid, subnet: Ocid, kept: Option<Ocid>)
    requires TornDown(c, c', vcn, subnet) && Reclaimable(c, vcn, subnet) && vcn in c'.vcns
    requires kept == c'.vcns[vcn].defaultList
    requires subnet != "" ==> !Has(c', Subnet, subnet)
    ensures Unused(c', vcn, kept)
  {
    hide RoutesKept, Removable;
    assert c.vcns[vcn].defaultList == kept by { DefaultKept(c, c', vcn, subnet); }
    forall x | ManagedIn(c', SecurityList, vcn, x) && kept != Some(x) ensures !InUse(c', x) {
      assert Lingers(c, c', subnet, x);
      forall y | y in c'.children && c'.children[y].kind.Subnet? ensures x !in c'.children[y].lists {
        assert Lingers(c, c', subnet, y);
        assert ManagedIn(c, SecurityList, vcn, x) && Has(c, Subnet, y);
      }
    }
  }

  lemma DefaultKept(c: State, c': State, vcn: Ocid, subnet: Ocid)
    requires TornDown(c, c', vcn, subnet) && vcn in c'.vcns
    ensures c.vcns[vcn].defaultList == c'.vcns[vcn].defaultList
  {
  }

  /** Steps 2 to 4, each only if nothing before it went wrong. */
  method DestroyChildren(api: Api, vcn: Ocid, subnet: Ocid, defaultList: Option<Ocid>, ghost c: State)
      returns (ok: bool)
    requires api.Valid() && Cleared(c, api.st, vcn)
    requires vcn in api.st.vcns ==> defaultList == api.st.vcns[vcn].defaultList
    modifies api`st, api`log, api`seen, api`phase
    ensures api.Valid() && Shrinks(old(api.st), api.st, vcn, subnet)
    ensures Continues(old(api.log), api.log) && Orderly(api.log, |old(api.log)|, 4)
    ensures forall i :: |old(api.log)| <= i < |api.log| ==> 2 <= api.log[i].phase
    ensures ok <==> NoErrors(api.log, |old(api.log)|)
    ensures Unrouted(old(api.st), vcn) ==> NoneBlocked(api.log, |old(api.log)|)
    ensures ok ==> forall x :: !ManagedIn(api.st, Gateway, vcn, x)
    ensures ok ==> forall x :: ManagedIn(api.st, SecurityList, vcn, x) ==> defaultList == Some(x)
    ensures ok && subnet != "" ==> !Has(api.st, Subnet, subnet)
    ensures Honest(api.log, |old(api.log)|) && Unrouted(old(api.st), vcn) && Reclaimable(c, vcn, subnet) ==> ok
  {
    hide Sane, Extends, NoErrors, Honest, Heard, NoneBlocked, Unrouted, Shrinks, Reclaimable, Cleared, TornDown,
         Orderly, ManagedIn, Unused;
    ghost var l1, c1 := api.log, api.st;
    api.phase := 2;
    ok := DeleteManagedGateways(api, vcn, subnet);
    OrderlyStart(l1, api.log, 2);
    if !ok {
      return;
    }
    ghost var l2, c2 := api.log, api.st;
    if subnet != "" {
      api.phase := 3;
      ok := DeleteSubnet(api, vcn, subnet);
      OrderlyOn(l1, l2, api.log, 2, 3);
      OrderlyUpTo(api.log, |l1|, 3);
      PhasesFrom(l1, l2, api.log, 3);
      ShrinksOn(c1, c2, api.st, vcn, subnet);
      GatewaysStayGone(c2, api.st, vcn, subnet);
      if !ok {
        return;
      }
    }
    ghost var l3, c3 := api.log, api.st;
    OrderlyUpTo(l3, |l1|, 3);
    ShrinksKeepsDefault(c1, c3, vcn, subnet);
    api.phase := 4;
    ok := DeleteManagedLists(api, vcn, subnet, defaultList);
    OrderlyOn(l1, l3, api.log, 3, 4);
    PhasesFrom(l1, l3, api.log, 4);
    ShrinksOn(c1, c3, api.st, vcn, subnet);
    GatewaysStayGone(c3, api.st, vcn, subnet);
    if subnet != "" {
      SubnetStaysGone(c3, api.st, vcn, subnet);
    }
    if Reclaimable(c, vcn, subnet) {
      StepsCompose(c, c1, c3, vcn, subnet);
      ReclaimableVcn(c, vcn, subnet);
      SubnetGoneFreesLists(c, c3, vcn, subnet, defaultList);
    }
  }

  lemma ReclaimableVcn(c: State, vcn: Ocid, subnet: Ocid)
    requires Reclaimable(c, vcn, subnet)
    ensures vcn in c.vcns && NoPending(c, vcn)
  {
  }

  lemma OrderlyStart(a: seq<Call>, b: seq<Call>, phase: nat)
    requires Extends(a, b, phase) && 2 <= phase <= 4
    ensures Continues(a, b) && Orderly(b, |a|, 4) && Orderly(b, |a|, phase)
    ensures forall i :: |a| <= i < |b| ==> 2 <= b[i].phase
  {
  }

  lemma OrderlyUpTo(log: seq<Call>, from: nat, phase: nat)
    requires Orderly(log, from, phase) || (phase > 0 && Orderly(log, from, phase - 1))
    ensures Orderly(log, from, phase)
    ensures phase <= 4 ==> Orderly(log, from, 4)
  {
  }

  lemma PhasesFrom(a: seq<Call>, b: seq<Call>, c: seq<Call>, phase: nat)
    requires Continues(a, b) && Extends(b, c, phase) && 2 <= phase
    requires forall i :: |a| <= i < |b| ==> 2 <= b[i].phase
    ensures forall i :: |a| <= i < |c| ==> 2 <= c[i].phase
  {
    forall i | |a| <= i < |c| ensures 2 <= c[i].phase {
      assert i < |b| ==> c[i] == b[i];
    }
  }

  lemma OrderlyAcross(a: seq<Call>, b: seq<Call>, c: seq<Call>)
    requires Extends(a, b, 1) && NoErrors(b, |a|) && Continues(b, c) && Orderly(c, |b|, 4)
    requires forall i :: |b| <= i < |c| ==> 2 <= c[i].phase
    ensures Continues(a, c) && Orderly(c, |a|, 4)
    ensures NoErrors(c, |a|) <==> NoErrors(c, |b|)
    ensures Honest(c, |a|) ==> Honest(c, |b|) && Honest(b, |a|) && Heard(b, |a|)
    ensures Heard(c, |a|) ==> Heard(b, |a|)
    ensures NoneBlocked(c, |b|) ==> NoneBlocked(c, |a|)
  {
    hide IsError, Belongs;
    LogJoin(a, b, c);
    OtherPhase(a, b, 1);
    assert forall i :: |a| <= i < |b| ==> c[i] == b[i];
  }

  /** What the log of a teardown says, whether it succeeded or not. */
  ghost predicate Disciplined(before: seq<Call>, after: seq<Call>, ok: bool) {
    && Continues(before, after)
    && StopsAtErrors(after, |before|)
    && (ok <==> NoErrors(after, |before|))
  }

  lemma NothingForeignThere(c: State, vcn: Ocid, subnet: Ocid)
    ensures (&& (vcn in c.vcns ==> c.vcns[vcn].pending == None)
             && (forall x :: x in c.children && c.children[x].vcn == vcn ==>
                   || (x == subnet != "" && c.children[x].kind == Subnet)
                   || (c.children[x].kind in {Gateway, SecurityList} && c.children[x].managed)
                   || (vcn in c.vcns && c.vcns[vcn].defaultList == Some(x)))
             && (forall x, y :: (&& x in c.children && c.children[x].vcn == vcn && c.children[x].managed
                                 && c.children[x].kind == SecurityList && y in c.children
                                 && c.children[y].kind == Subnet && x in c.children[y].lists) ==>
                   y == subnet != "")) ==>
              NothingForeign(c, vcn, subnet)
  {
  }

  lemma AllHonest(log: seq<Call>, from: nat)
    ensures (forall i :: from <= i < |log| ==> !log[i].result.Failed?) ==> Honest(log, from)
  {
  }

  /** The cloud side of DestroyNetwork: clear the routes, then delete gateways,
      subnet, security lists and the VCN. */
  method DestroyCloud(api: Api, vcn: Ocid, subnet: Ocid) returns (ok: bool)
    requires api.Valid()
    modifies api`st, api`log, api`seen, api`lost, api`phase
    ensures api.Valid()
    ensures Disciplined(old(api.log), api.log, ok)
    ensures TornDown(old(api.st), api.st, vcn, subnet)
    ensures ok ==> vcn !in api.st.vcns && forall x :: !Inside(api.st, x, vcn)
    ensures ok ==> AllRemovable(old(api.st), vcn, subnet)
    ensures NoPending(old(api.st), vcn) && Heard(api.log, |old(api.log)|) ==> NoneBlocked(api.log, |old(api.log)|)
    // With nothing foreign in it, and a cloud that only refuses what it must.
    ensures Honest(api.log, |old(api.log)|) && NothingForeign(old(api.st), vcn, subnet) ==>
      (ok <==> vcn in old(api.st).vcns)
    // The same in other words: all calls are answered, no route change is pending, all
    // that is inside is the stored subnet, managed gateways and lists, and the default
    // list, and no other subnet uses one of the managed lists.
    ensures var c := old(api.st);
            (&& (forall i :: |old(api.log)| <= i < |api.log| ==> !api.log[i].result.Failed?)
             && (vcn in c.vcns ==> c.vcns[vcn].pending == None)
             && (forall x :: x in c.children && c.children[x].vcn == vcn ==>
                   || (x == subnet != "" && c.children[x].kind == Subnet)
                   || (c.children[x].kind in {Gateway, SecurityList} && c.children[x].managed)
                   || (vcn in c.vcns && c.vcns[vcn].defaultList == Some(x)))
             && (forall x, y :: (&& x in c.children && c.children[x].vcn == vcn && c.children[x].managed
                                 && c.children[x].kind == SecurityList && y in c.children
                                 && c.children[y].kind == Subnet && x in c.children[y].lists) ==>
                   y == subnet != "")) ==>
              (ok <==> vcn in c.vcns)
  {
    hide Sane, Extends, NoErrors, Honest, Heard, NoneBlocked, Unrouted, Shrinks, NothingForeign, Cleared, TornDown,
         ManagedIn, Belongs, IsError, AllRemovable, Inside;
    ghost var c, l0 := api.st, api.log;
    NothingForeignThere(c, vcn, subnet);
    api.phase := 1;
    var defaultList;
    ok, defaultList := ClearManagedRoutes(api, vcn);
    ghost var c1, l1 := api.st, api.log;
    FirstStep(c, l0, c1, l1, vcn, subnet);
    if Reclaimable(c, vcn, subnet) {
      ReclaimableVcn(c, vcn, subnet);
    }
    AllHonest(api.log, |l0|);
    if !ok {
      return;
    }
    ok := DestroyChildren(api, vcn, subnet, defaultList, c);
    ghost var c4, l4 := api.st, api.log;
    OrderlyAcross(l0, l1, l4);
    StepsCompose(c, c1, c4, vcn, subnet);
    AllHonest(l4, |l0|);
    if !ok {
      return;
    }
    api.phase := 5;
    var r, at := api.DeleteVcn(vcn);
    LogOne(l4, Call(5, RemoveVcn, vcn, VcnBlocked(at, vcn), r), api.log);
    OrderlyOn(l0, l4, api.log, 4, 5);
    LogJoin(l0, l4, api.log);
    LastStep(c, c1, c4, at, vcn, subnet, defaultList);
    ok := r.Ok?;
    AllHonest(api.log, |l0|);
    LastError(Call(5, RemoveVcn, vcn, VcnBlocked(at, vcn), r));
    if ok {
      NothingInside(at, vcn);
      EmptiedMeansRemovable(c, api.st, vcn, subnet);
    }
  }

  lemma NothingInside(at: State, vcn: Ocid)
    ensures vcn !in VcnDeleted(at, vcn).vcns && forall x :: !Inside(VcnDeleted(at, vcn), x, vcn)
  {
  }

  lemma LastError(call: Call)
    requires call.phase == 5 && call.op == RemoveVcn
    ensures IsError(call) <==> !call.result.Ok?
  {
  }

  lemma FirstStep(c: State, l0: seq<Call>, c1: State, l1: seq<Call>, vcn: Ocid, subnet: Ocid)
    requires Cleared(c, c1, vcn) && Extends(l0, l1, 1)
    ensures Continues(l0, l1) && StopsAtErrors(l1, |l0|) && Orderly(l1, |l0|, 1) && NoneBlocked(l1, |l0|)
    ensures TornDown(c, c1, vcn, subnet)
    ensures vcn in c.vcns <==> vcn in c1.vcns
    ensures Honest(l1, |l0|) ==> Heard(l1, |l0|)
  {
    OtherPhase(l0, l1, 1);
    DriftShrinks(c1, c1, vcn, subnet);
    StepsCompose(c, c1, c1, vcn, subnet);
  }

  lemma LastStep(c: State, c1: State, c4: State, at: State, vcn: Ocid, subnet: Ocid, kept: Option<Ocid>)
    requires Cleared(c, c1, vcn) && Shrinks(c1, c4, vcn, subnet) && Drifts(c4, at)
    requires vcn in c1.vcns ==> kept == c1.vcns[vcn].defaultList
    requires forall x :: !ManagedIn(c4, Gateway, vcn, x)
    requires forall x :: ManagedIn(c4, SecurityList, vcn, x) ==> kept == Some(x)
    requires subnet != "" ==> !Has(c4, Subnet, subnet)
    ensures TornDown(c, at, vcn, subnet) && (vcn in at.vcns <==> vcn in c.vcns)
    ensures vcn in at.vcns && !VcnBlocked(at, vcn) ==> TornDown(c, VcnDeleted(at, vcn), vcn, subnet)
    ensures Reclaimable(c, vcn, subnet) ==> !VcnBlocked(at, vcn)
  {
    hide Shrinks, Cleared, TornDown, ManagedIn, Reclaimable, VcnBlocked;
    DriftShrinks(c4, at, vcn, subnet);
    ShrinksOn(c1, c4, at, vcn, subnet);
    StepsCompose(c, c1, at, vcn, subnet);
    GatewaysStayGone(c4, at, vcn, subnet);
    ListsStayGone(c4, at, vcn, subnet, kept);
    if subnet != "" {
      SubnetStaysGone(c4, at, vcn, subnet);
    }
    ShrinksKeepsDefault(c1, at, vcn, subnet);
    if vcn in at.vcns && !VcnBlocked(at, vcn) {
      VcnGoes(c, at, vcn, subnet);
    }
    if Reclaimable(c, vcn, subnet) {
      NothingLeft(c, at, vcn, subnet, kept);
    }
  }

  // ---- The row ----

  datatype Outcome = Destroyed | NoSuchNetwork | NoSettings | StepsFailed | RowKept

  /** The row is unharmed: it has its old status, or a status write failed and it
      is left as destroying. */
  predicate RowStands(row: Network, row': Network, faults: nat, faults': nat) {
    row' == row || (faults < faults' && row' == row.(status := Destroying))
  }

  /** What tearing down this row did to the cloud: nothing without a stored VCN, else
      only what belongs to it, step by step, and all of it in case of success. */
  ghost predicate CloudAfter(row: Network, outcome: Outcome, c: State, log: seq<Call>, c': State, log': seq<Call>) {
    var vcn, subnet := row.vcnOcid, row.subnetOcid;
    if vcn == "" || outcome == NoSettings then c' == c && log' == log && !outcome.StepsFailed?
    else
      && TornDown(c, c', vcn, subnet)
      && Disciplined(log, log', !outcome.StepsFailed?)
      && (NoPending(c, vcn) && Heard(log', |log|) ==> NoneBlocked(log', |log|))
      && (!outcome.StepsFailed? ==> vcn !in c'.vcns && forall x :: !Inside(c', x, vcn))
      && (!outcome.StepsFailed? ==> AllRemovable(c, vcn, subnet))
      && (Honest(log', |log|) && NothingForeign(c, vcn, subnet) ==> (outcome.StepsFailed? <==> vcn !in c.vcns))
  }

  predicate Referred(instances: map<int, nat>, id: int) {
    id in instances && instances[id] > 0
  }

  /** A cloud that only refuses what it must, and nothing foreign in the network. */
  ghost predicate Willing(row: Network, c: State, log: seq<Call>, log': seq<Call>) {
    Honest(log', |log|) && (row.vcnOcid != "" ==> Reclaimable(c, row.vcnOcid, row.subnetOcid))
  }

  /** With a database that works: all cloud steps done, the row stays exactly if VPS
      rows refer to the network, and a willing cloud does all steps. */
  ghost predicate Decided(outcome: Outcome, instances: map<int, nat>, id: int, willing: bool) {
    && (outcome in {Destroyed, RowKept} ==> (outcome.RowKept? <==> Referred(instances, id)))
    && (willing ==> outcome in {Destroyed, RowKept})
  }

  /** The teardown proper. The row is marked as destroying by now, unless the database
      failed since `faults` were counted; on any error it gets its old status back. */
  method Dismantle(api: Api, store: Store, id: int, row: Network, ghost faults: nat) returns (outcome: Outcome)
    requires api.Valid() && id in store.rows && faults <= store.faults
    requires store.rows[id] == if store.faults == faults then row.(status := Destroying) else row
    modifies api`st, api`log, api`seen, api`lost, api`phase, store`rows, store`resources, store`faults
    ensures api.Valid() && old(store.faults) <= store.faults
    ensures store.rows - {id} == old(store.rows) - {id}
    ensures outcome in {Destroyed, NoSettings, StepsFailed, RowKept}
    ensures outcome.Destroyed? ==>
      store.rows == old(store.rows) - {id} && store.resources == Without(old(store.resources), id)
    ensures !outcome.Destroyed? ==>
      && store.resources == old(store.resources)
      && id in store.rows && RowStands(row, store.rows[id], faults, store.faults)
    ensures CloudAfter(row, outcome, old(api.st), old(api.log), api.st, api.log)
    ensures outcome.Destroyed? ==> !Referred(store.instances, id)
    ensures outcome.NoSettings? ==> old(store.faults) < store.faults
    ensures store.faults == old(store.faults) ==>
      Decided(outcome, store.instances, id, Willing(row, old(api.st), old(api.log), api.log))
  {
    hide Sane, Honest, Heard, NoneBlocked, NothingForeign, AllRemovable, TornDown, Disciplined, Without, NoPending,
         Inside;
    var loaded, settings := store.LoadSettings();
    if !loaded {
      var restored := store.UpdateStatus(id, row.status);
      return NoSettings;
    }
    if row.vcnOcid != "" {
      var ok := DestroyCloud(api, row.vcnOcid, row.subnetOcid);
      if !ok {
        var restored := store.UpdateStatus(id, row.status);
        return StepsFailed;
      }
    }
    var ok := store.Delete(id);
    if !ok {
      var restored := store.UpdateStatus(id, row.status);
      return RowKept;
    }
    return Destroyed;
  }

  /** Tears down the cloud resources of a network and then its row; on any error
      the row keeps the status it had. */
  method Destroy(api: Api, store: Store, id: int) returns (outcome: Outcome)
    requires api.Valid()
    modifies api`st, api`log, api`seen, api`lost, api`phase, store`rows, store`resources, store`faults
    ensures api.Valid() && old(store.faults) <= store.faults
    ensures store.rows - {id} == old(store.rows) - {id}
    ensures outcome.Destroyed? ==>
      && id in old(store.rows) && store.rows == old(store.rows) - {id}
      && store.resources == Without(old(store.resources), id)
    ensures !outcome.Destroyed? ==> store.resources == old(store.resources)
    ensures !outcome.Destroyed? && id in old(store.rows) ==>
      id in store.rows && RowStands(old(store.rows)[id], store.rows[id], old(store.faults), store.faults)
    // A row that cannot be read is reported as not found.
    ensures outcome.NoSuchNetwork? ==> id !in old(store.rows) || old(store.faults) < store.faults
    ensures outcome.NoSuchNetwork? ==> store.rows == old(store.rows) && api.st == old(api.st) && api.log == old(api.log)
    ensures id !in old(store.rows) ==> outcome.NoSuchNetwork?
    ensures !outcome.NoSuchNetwork? ==>
      CloudAfter(old(store.rows)[id], outcome, old(api.st), old(api.log), api.st, api.log)
    ensures outcome.Destroyed? ==> !Referred(store.instances, id)
    ensures outcome.NoSettings? ==> old(store.faults) < store.faults
    ensures id in old(store.rows) && store.faults == old(store.faults) ==>
      Decided(outcome, store.instances, id, Willing(old(store.rows)[id], old(api.st), old(api.log), api.log))
  {
    hide CloudAfter, Decided, Willing, Sane, Without;
    var ok, row := store.Get(id);
    if row.None? {
      return NoSuchNetwork;
    }
    var marked := store.UpdateStatus(id, Destroying);
    outcome := Dismantle(api, store, id, row.value, old(store.faults));
  }

  lemma NewVcnReclaimable(vcn: Ocid, list: Ocid)
    requires vcn != list
    ensures Reclaimable(VcnAdded(State(map[], map[]), vcn, list), vcn, "")
    ensures vcn in VcnAdded(State(map[], map[]), vcn, list).vcns
  {
  }

  /** An instance: one VPS row refers to a network that has just a new VCN. Whenever
      database and cloud answer, the VCN goes and the row stays as it was. */
  method DestroyReferred(api: Api, store: Store, id: int, ghost list: Ocid) returns (outcome: Outcome)
    requires api.Valid() && id in store.rows && store.instances == map[id := 1]
    requires store.rows[id].vcnOcid != "" && store.rows[id].subnetOcid == "" && store.rows[id].vcnOcid != list
    requires api.st == VcnAdded(State(map[], map[]), store.rows[id].vcnOcid, list)
    modifies api`st, api`log, api`seen, api`lost, api`phase, store`rows, store`resources, store`faults
    ensures store.faults == old(store.faults) && Honest(api.log, |old(api.log)|) ==>
      && outcome.RowKept? && store.rows == old(store.rows)
      && old(store.rows)[id].vcnOcid in old(api.st).vcns && old(store.rows)[id].vcnOcid !in api.st.vcns
    ensures api.Valid() && old(store.faults) <= store.faults && Continues(old(api.log), api.log)
  {
    hide Sane, Reclaimable, Honest, VcnAdded, TornDown, Continues, StopsAtErrors, NoneBlocked, Heard, NoPending, Inside,
         AllRemovable, NothingForeign, NoErrors;
    ghost var row, rows := store.rows[id], store.rows;
    NewVcnReclaimable(row.vcnOcid, list);
    SameLog(api.log);
    outcome := Destroy(api, store, id);
    if store.faults == old(store.faults) && Honest(api.log, |old(api.log)|) {
      assert outcome.RowKept?;
      SameRows(rows, store.rows, id);
    }
  }

  /** And from then on it cannot be torn down: even after the VPS row has gone too, the
      next teardown ends in an error, and the row stays. */
  method DestroyAgain(api: Api, store: Store, id: int, ghost list: Ocid) returns (first: Outcome, second: Outcome)
    requires api.Valid() && id in store.rows && store.instances == map[id := 1]
    requires store.rows[id].vcnOcid != "" && store.rows[id].subnetOcid == "" && store.rows[id].vcnOcid != list
    requires api.st == VcnAdded(State(map[], map[]), store.rows[id].vcnOcid, list)
    modifies api`st, api`log, api`seen, api`lost, api`phase
    modifies store`rows, store`resources, store`faults, store`instances
    ensures store.faults == old(store.faults) && Honest(api.log, |old(api.log)|) ==>
      first.RowKept? && second.StepsFailed? && store.rows == old(store.rows)
  {
    hide Sane, Honest, VcnAdded, TornDown, Continues, StopsAtErrors, NoErrors, NoneBlocked, Heard, NoPending, Inside,
         NothingForeign, AllRemovable;
    ghost var log0, rows := api.log, store.rows;
    first := DestroyReferred(api, store, id, list);
    ghost var log1, gone := api.log, api.st;
    store.instances := map[id := 0];
    SameLog(log1);
    second := Destroy(api, store, id);
    if store.faults == old(store.faults) && Honest(api.log, |log0|) {
      HonestBefore(log0, log1, api.log);
      NoVcnNotRemovable(gone, rows[id].vcnOcid, rows[id].subnetOcid);
      SameRows(rows, store.rows, id);
    }
  }

  lemma SameLog(log: seq<Call>)
    ensures Continues(log, log)
  {
  }

  lemma HonestBefore(a: seq<Call>, b: seq<Call>, c: seq<Call>)
    requires Continues(a, b) && Continues(b, c) && Honest(c, |a|)
    ensures Honest(b, |a|)
  {
    assert forall i :: |a| <= i < |b| ==> c[i] == b[i];
  }

  lemma NoVcnNotRemovable(c: State, vcn: Ocid, subnet: Ocid)
    requires vcn !in c.vcns
    ensures !AllRemovable(c, vcn, subnet)
  {
  }

  lemma SameRows(rows: map<int, Network>, rows': map<int, Network>, id: int)
    requires rows' - {id} == rows - {id} && id in rows && id in rows' && rows'[id] == rows[id]
    ensures rows' == rows
  {
    forall n | n in rows && n != id ensures n in rows' && rows'[n] == rows[n] {
      assert n in rows - {id};
    }
    forall n | n in rows' && n != id ensures n in rows {
      assert n in rows' - {id};
    }
  }
}
