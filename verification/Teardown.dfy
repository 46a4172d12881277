/** DestroyNetwork of internal/service/network.go: the ordered teardown of one
    network in a cloud that refuses deletes out of order and may fail at any call. */
module Teardown {
  import opened Wrappers
  import opened Cloud

  // ---- What a teardown may do to the cloud ----

  predicate ManagedIn(c: State, kind: Kind, vcn: Ocid, x: Ocid) {
    Has(c, kind, x) && c.children[x].vcn == vcn && c.children[x].managed
  }

  /** The children a teardown of `vcn` is entitled to remove. */
  predicate Removable(c: State, vcn: Ocid, subnet: Ocid, x: Ocid) {
    x in c.children &&
    (c.children[x].terminating || x == subnet || ManagedIn(c, Gateway, vcn, x) || ManagedIn(c, SecurityList, vcn, x))
  }

  predicate Lingers(c: State, c': State, subnet: Ocid, x: Ocid) {
    x in c.children && x in c'.children &&
    (c'.children[x] == c.children[x] || (x == subnet && c'.children[x] == c.children[x].(terminating := true)))
  }

  /** Nothing appears, and only what may be removed disappears. */
  ghost predicate Shrinks(c: State, c': State, vcn: Ocid, subnet: Ocid) {
    && c'.vcns.Keys == c.vcns.Keys
    && (forall w :: w in c.vcns ==> VcnDrifts(c.vcns[w], c'.vcns[w]))
    && (forall x :: x in c'.children ==> Lingers(c, c', subnet, x))
    && (forall x :: x in c.children && x !in c'.children ==> Removable(c, vcn, subnet, x))
  }

  lemma DriftShrinks(c: State, c': State, vcn: Ocid, subnet: Ocid)
    requires Drifts(c, c')
    ensures Shrinks(c, c', vcn, subnet)
  {
  }

  lemma NothingShrinks(c: State, vcn: Ocid, subnet: Ocid)
    ensures Shrinks(c, c, vcn, subnet)
  {
  }

  lemma ShrinksOn(c: State, d: State, e: State, vcn: Ocid, subnet: Ocid)
    requires Shrinks(c, d, vcn, subnet) && Shrinks(d, e, vcn, subnet)
    ensures Shrinks(c, e, vcn, subnet)
  {
    forall x | x in e.children ensures Lingers(c, e, subnet, x) {
      assert Lingers(d, e, subnet, x);
      assert Lingers(c, d, subnet, x);
    }
    forall x | x in c.children && x !in e.children ensures Removable(c, vcn, subnet, x) {
      if x in d.children {
        assert Lingers(c, d, subnet, x);
        assert Removable(d, vcn, subnet, x);
      }
    }
  }

  lemma DeleteShrinks(c: State, at: State, x: Ocid, e: State, vcn: Ocid, subnet: Ocid)
    requires Drifts(c, at) && Removable(at, vcn, subnet, x) && ChildDeleted(at, x, e)
    requires at.children[x].kind.Subnet? ==> x == subnet
    ensures Shrinks(c, e, vcn, subnet)
  {
    hide ManagedIn;
    DriftShrinks(c, at, vcn, subnet);
    assert Shrinks(at, e, vcn, subnet);
    ShrinksOn(c, at, e, vcn, subnet);
  }

  /** The rules without those that lead to one of `targets`, in order. */
  function Filtered(rules: seq<Rule>, targets: set<Ocid>): (kept: seq<Rule>)
    ensures forall r :: r in kept <==> r in rules && !Leads(r, targets)
    ensures |kept| <= |rules| && (|kept| == |rules| ==> kept == rules)
  {
    if rules == [] then []
    else
      var last := rules[|rules| - 1];
      var rest := Filtered(rules[..|rules| - 1], targets);
      if Leads(last, targets) then rest else rest + [last]
  }

  predicate Leads(rule: Rule, targets: set<Ocid>) {
    rule.target.Some? && rule.target.value in targets
  }

  lemma {:induction false} FilteredConcat(a: seq<Rule>, b: seq<Rule>, targets: set<Ocid>)
    ensures Filtered(a + b, targets) == Filtered(a, targets) + Filtered(b, targets)
  {
    if b == [] {
      assert a + b == a;
    } else {
      var n := |b| - 1;
      assert (a + b)[..|a + b| - 1] == a + b[..n];
      FilteredConcat(a, b[..n], targets);
    }
  }

  /** Every other rule survives, once and in its place. */
  lemma {:induction false} OtherRulesSurvive(before: seq<Rule>, rule: Rule, after: seq<Rule>, targets: set<Ocid>)
    ensures Filtered(before + [rule] + after, targets)
         == Filtered(before, targets) + (if Leads(rule, targets) then [] else [rule]) + Filtered(after, targets)
  {
    FilteredConcat(before + [rule], after, targets);
    FilteredConcat(before, [rule], targets);
    assert [rule][..0] == [];
  }

  ghost function ManagedGateways(c: State, vcn: Ocid): set<Ocid> {
    set x | x in c.children && ManagedIn(c, Gateway, vcn, x)
  }

  /** The only other change: the routes to managed gateways may be dropped. */
  ghost predicate RoutesKept(c: State, v: Vcn, v': Vcn, vcn: Ocid) {
    && v'.routeTable == v.routeTable && v'.defaultList == v.defaultList
    && (|| Requested(v') == Requested(v)
        || Requested(v') == Filtered(v.rules, ManagedGateways(c, vcn))
        || Requested(v') == Filtered(Requested(v), ManagedGateways(c, vcn)))
  }

  ghost predicate Cleared(c: State, c': State, vcn: Ocid) {
    && c'.vcns.Keys == c.vcns.Keys
    && (forall w :: w in c.vcns && w != vcn ==> VcnDrifts(c.vcns[w], c'.vcns[w]))
    && (vcn in c.vcns ==> RoutesKept(c, c.vcns[vcn], c'.vcns[vcn], vcn))
    && (forall x :: x in c'.children ==> x in c.children && c'.children[x] == c.children[x])
    && (forall x :: x in c.children && x !in c'.children ==> c.children[x].terminating)
  }

  /** The whole teardown: the VCN itself and its default list may also be gone. */
  ghost predicate TornDown(c: State, c': State, vcn: Ocid, subnet: Ocid) {
    && c.vcns.Keys - {vcn} <= c'.vcns.Keys <= c.vcns.Keys
    && (forall w :: w in c'.vcns && w != vcn ==> VcnDrifts(c.vcns[w], c'.vcns[w]))
    && (vcn in c'.vcns ==> RoutesKept(c, c.vcns[vcn], c'.vcns[vcn], vcn))
    && (forall x :: x in c'.children ==> Lingers(c, c', subnet, x))
    && (forall x :: x in c.children && x !in c'.children ==>
          Removable(c, vcn, subnet, x) || (vcn !in c'.vcns && Inside(c, x, vcn) && IsDefaultList(c, x)))
  }

  /** No route leads, or is about to lead, to a managed gateway of `vcn`. */
  ghost predicate Unrouted(c: State, vcn: Ocid) {
    vcn in c.vcns ==>
      && c.vcns[vcn].pending.None?
      && forall x :: ManagedIn(c, Gateway, vcn, x) ==> !Targets(c.vcns[vcn].rules, x)
  }

  // ---- The log ----

  /** A call whose answer the teardown records as an error. */
  predicate IsError(call: Call) {
    && !call.result.Ok?
    && !(call.phase == 1 && call.op == AskChildren(Gateway))
    && !(call.result.NotFound? && call.op in {RemoveChild(Gateway), RemoveChild(Subnet), AskSubnet})
  }

  ghost predicate NoErrors(log: seq<Call>, from: nat) {
    forall i :: from <= i < |log| ==> !IsError(log[i])
  }

  /** Every failure is a refusal or an absence. */
  ghost predicate Honest(log: seq<Call>, from: nat) {
    forall i :: from <= i < |log| ==> !log[i].result.Failed?
  }

  /** The calls of the five steps. */
  predicate Belongs(call: Call) {
    match call.phase
    case 1 => call.op in {AskVcn, AskRoutes, AskChildren(Gateway), PutRoutes, Timeout}
    case 2 => call.op in {AskChildren(Gateway), RemoveChild(Gateway)}
    case 3 => call.op in {RemoveChild(Subnet), AskSubnet, Timeout}
    case 4 => call.op in {AskChildren(SecurityList), RemoveChild(SecurityList)}
    case 5 => call.op == RemoveVcn
    case _ => false
  }

  ghost predicate Continues(before: seq<Call>, after: seq<Call>) {
    |before| <= |after| && forall i :: 0 <= i < |before| ==> after[i] == before[i]
  }

  ghost predicate Extends(before: seq<Call>, after: seq<Call>, phase: nat) {
    && Continues(before, after)
    && (forall i :: |before| <= i < |after| ==> after[i].phase == phase && Belongs(after[i]))
  }

  /** The first look at the gateways, whose failure is ignored, did not fail. */
  ghost predicate Heard(log: seq<Call>, from: nat) {
    forall i :: from <= i < |log| && log[i].phase == 1 && log[i].op == AskChildren(Gateway) ==> !log[i].result.Failed?
  }

  /** No gateway is deleted while a route leads to it. */
  ghost predicate NoneBlocked(log: seq<Call>, from: nat) {
    forall i :: from <= i < |log| && log[i].op == RemoveChild(Gateway) ==> !log[i].blocked
  }

  lemma LogOne(before: seq<Call>, call: Call, after: seq<Call>)
    requires after == before + [call] && Belongs(call)
    ensures Extends(before, after, call.phase) && |before| < |after|
    ensures NoErrors(after, |before|) <==> !IsError(call)
    ensures Honest(after, |before|) <==> !call.result.Failed?
    ensures Heard(after, |before|) <==> !(call.phase == 1 && call.op == AskChildren(Gateway) && call.result.Failed?)
    ensures NoneBlocked(after, |before|) <==> !(call.op == RemoveChild(Gateway) && call.blocked)
  {
    assert after[|before|] == call;
  }

  lemma LogNone(log: seq<Call>, phase: nat)
    ensures Extends(log, log, phase) && NoErrors(log, |log|) && Honest(log, |log|) && Heard(log, |log|)
    ensures NoneBlocked(log, |log|)
  {
  }

  lemma LogOn(a: seq<Call>, b: seq<Call>, c: seq<Call>, phase: nat)
    requires Extends(a, b, phase) && Extends(b, c, phase)
    ensures Extends(a, c, phase) && |a| <= |b| <= |c|
    ensures NoErrors(c, |a|) <==> NoErrors(b, |a|) && NoErrors(c, |b|)
    ensures Honest(c, |a|) <==> Honest(b, |a|) && Honest(c, |b|)
    ensures Heard(c, |a|) <==> Heard(b, |a|) && Heard(c, |b|)
    ensures NoneBlocked(c, |a|) <==> NoneBlocked(b, |a|) && NoneBlocked(c, |b|)
  {
    hide IsError, Belongs, NoErrors, Honest, Heard, NoneBlocked;
    LogJoin(a, b, c);
  }

  lemma LogJoin(a: seq<Call>, b: seq<Call>, c: seq<Call>)
    requires Continues(a, b) && Continues(b, c)
    ensures Continues(a, c)
    ensures NoErrors(c, |a|) <==> NoErrors(b, |a|) && NoErrors(c, |b|)
    ensures Honest(c, |a|) <==> Honest(b, |a|) && Honest(c, |b|)
    ensures Heard(c, |a|) <==> Heard(b, |a|) && Heard(c, |b|)
    ensures NoneBlocked(c, |a|) <==> NoneBlocked(b, |a|) && NoneBlocked(c, |b|)
  {
    hide IsError;
    assert forall i :: |a| <= i < |b| ==> c[i] == b[i];
  }

  /** The calls come step by step, and none of a later step after an error of an
      earlier one. */
  ghost predicate StopsAtErrors(log: seq<Call>, from: nat) {
    && (forall i :: from <= i < |log| ==> Belongs(log[i]))
    && (forall i, j :: from <= i < j < |log| ==>
          log[i].phase <= log[j].phase && (log[i].phase < log[j].phase ==> !IsError(log[i])))
  }

  ghost predicate Orderly(log: seq<Call>, from: nat, phase: nat) {
    StopsAtErrors(log, from) && forall i :: from <= i < |log| ==> log[i].phase <= phase
  }

  lemma OrderlyOn(a: seq<Call>, b: seq<Call>, c: seq<Call>, earlier: nat, phase: nat)
    requires Continues(a, b) && Orderly(b, |a|, earlier) && NoErrors(b, |a|) && earlier < phase && Extends(b, c, phase)
    ensures Continues(a, c) && Orderly(c, |a|, phase)
    ensures NoErrors(c, |a|) <==> NoErrors(c, |b|)
    ensures Honest(c, |a|) ==> Honest(c, |b|) && Honest(b, |a|)
    ensures NoneBlocked(b, |a|) && phase != 2 ==> NoneBlocked(c, |a|)
  {
    hide IsError, Belongs;
    LogJoin(a, b, c);
    assert forall i :: |a| <= i < |b| ==> c[i] == b[i];
    if phase != 2 {
      OtherPhase(b, c, phase);
    }
  }

  lemma OtherPhase(b: seq<Call>, c: seq<Call>, phase: nat)
    requires Extends(b, c, phase) && phase != 2
    ensures NoneBlocked(c, |b|)
  {
  }

  /** All there is inside `vcn` is what a teardown may remove, and nothing else
      uses its security lists. */
  ghost predicate NothingForeign(c: State, vcn: Ocid, subnet: Ocid) {
    && (vcn in c.vcns ==> c.vcns[vcn].pending.None?)
    && (forall x :: Inside(c, x, vcn) && !IsDefaultList(c, x) ==>
          || (subnet != "" && x == subnet && c.children[x].kind.Subnet?)
          || ManagedIn(c, Gateway, vcn, x) || ManagedIn(c, SecurityList, vcn, x))
    && (forall x, y :: ManagedIn(c, SecurityList, vcn, x) && Has(c, Subnet, y) && x in c.children[y].lists ==>
          IsDefaultList(c, x) || (subnet != "" && y == subnet))
  }

  ghost predicate Reclaimable(c: State, vcn: Ocid, subnet: Ocid) {
    vcn in c.vcns && NothingForeign(c, vcn, subnet)
  }

  /** There was a VCN, and all it held besides its default list was the teardown's to remove. */
  ghost predicate AllRemovable(c: State, vcn: Ocid, subnet: Ocid) {
    vcn in c.vcns && forall x :: Inside(c, x, vcn) && !IsDefaultList(c, x) ==> Removable(c, vcn, subnet, x)
  }

  /** A VCN is emptied only if that is so. */
  lemma EmptiedMeansRemovable(c: State, c': State, vcn: Ocid, subnet: Ocid)
    requires TornDown(c, c', vcn, subnet) && vcn in c.vcns && forall x :: !Inside(c', x, vcn)
    ensures AllRemovable(c, vcn, subnet)
  {
    hide Removable, RoutesKept;
    forall x | Inside(c, x, vcn) && !IsDefaultList(c, x) ensures Removable(c, vcn, subnet, x) {
      assert x in c'.children ==> Lingers(c, c', subnet, x) && Inside(c', x, vcn);
    }
  }

  lemma StepsCompose(c: State, d: State, e: State, vcn: Ocid, subnet: Ocid)
    requires Cleared(c, d, vcn) && Shrinks(d, e, vcn, subnet)
    ensures TornDown(c, e, vcn, subnet) && (vcn in c.vcns <==> vcn in e.vcns)
  {
    hide Filtered, ManagedGateways;
    assert vcn in c.vcns ==> VcnDrifts(d.vcns[vcn], e.vcns[vcn]);
    forall w | w in e.vcns && w != vcn ensures VcnDrifts(c.vcns[w], e.vcns[w]) {
      assert VcnDrifts(d.vcns[w], e.vcns[w]);
    }
    forall x | x in e.children ensures Lingers(c, e, subnet, x) {
      assert Lingers(d, e, subnet, x);
    }
    forall x | x in c.children && x !in e.children ensures Removable(c, vcn, subnet, x) {
      assert x in d.children ==> Removable(d, vcn, subnet, x);
    }
  }

  lemma VcnGoes(c: State, at: State, vcn: Ocid, subnet: Ocid)
    requires TornDown(c, at, vcn, subnet) && vcn in at.vcns && !VcnBlocked(at, vcn)
    ensures TornDown(c, VcnDeleted(at, vcn), vcn, subnet)
  {
    hide Filtered, ManagedGateways, Removable;
    var e := VcnDeleted(at, vcn);
    forall x | x in e.children ensures Lingers(c, e, subnet, x) {
      assert Lingers(c, at, subnet, x);
    }
    forall x | x in c.children && x !in e.children && !Removable(c, vcn, subnet, x)
      ensures Inside(c, x, vcn) && IsDefaultList(c, x)
    {
      assert x in at.children && Lingers(c, at, subnet, x);
      assert Inside(at, x, vcn) && IsDefaultList(at, x);
    }
  }

  /** With everything removable removed, nothing keeps the VCN. */
  lemma NothingLeft(c: State, at: State, vcn: Ocid, subnet: Ocid, kept: Option<Ocid>)
    requires TornDown(c, at, vcn, subnet) && Reclaimable(c, vcn, subnet)
    requires vcn in at.vcns ==> kept == at.vcns[vcn].defaultList
    requires forall x :: !ManagedIn(at, Gateway, vcn, x)
    requires forall x :: ManagedIn(at, SecurityList, vcn, x) ==> kept == Some(x)
    requires subnet != "" ==> !Has(at, Subnet, subnet)
    ensures !VcnBlocked(at, vcn)
  {
    hide Filtered, ManagedGateways, Removable;
    if vcn in at.vcns {
      forall x | Inside(at, x, vcn) ensures IsDefaultList(at, x) {
        assert Lingers(c, at, subnet, x);
        assert !ManagedIn(at, Gateway, vcn, x);
        assert ManagedIn(at, SecurityList, vcn, x) ==> kept == Some(x);
      }
    }
  }
}
