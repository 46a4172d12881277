/** What a rollback leaves, told from the state in which it begins: for a cloud that is
    done with every change before the next delete arrives, and for all clouds. */
module RollbackOutcomes {
  import opened Cloud
  import opened NetworkStore
  import opened TrackedResources
  import opened RollbackRuns

  // ---- Until a row's own turn ----

  /** No other row's turn touches a row's resource; only a terminating subnet may
      be gone by then. */
  lemma {:induction false} UntilItsTurn(c: State, used: set<Ocid>, rows: seq<Resource>, trail: seq<Moment>, i: nat,
                                        k: nat)
    requires Sane(c, used) && Proper(c, rows) && Runs(c, rows, trail) && i < k <= |rows|
    ensures Untouched(c, StateAt(c, trail, k), rows[i].ocid)
    decreases |rows| - k
  {
    hide Sane, Turn, Typed, Proper, Untouched, Runs, StateAt;
    if k == |rows| {
      AtFirst(c, rows, trail);
      UntouchedStart(c, rows[i].ocid);
    } else {
      UntilItsTurn(c, used, rows, trail, i, k + 1);
      TurnAt(c, rows, trail, k);
      TypedAlong(c, used, rows, trail, i, k);
      TypedAlong(c, used, rows, trail, i, k + 1);
      ProperApart(c, rows, i, k);
      OthersTurn(c, used, StateAt(c, trail, k + 1), trail[k], rows[k], rows[i]);
    }
  }

  lemma AtFirst(c: State, rows: seq<Resource>, trail: seq<Moment>)
    requires Runs(c, rows, trail)
    ensures |trail| == |rows| && StateAt(c, trail, |rows|) == c
  {
  }

  ghost predicate Untouched(c: State, s: State, id: Ocid) {
    && (id in s.vcns <==> id in c.vcns)
    && (id in s.children ==> id in c.children && s.children[id] == c.children[id])
    && (id in c.children ==> id in s.children || c.children[id].terminating)
  }

  lemma UntouchedStart(c: State, id: Ocid)
    ensures Untouched(c, c, id)
  {
  }

  lemma OthersTurn(c: State, used: set<Ocid>, before: State, m: Moment, other: Resource, row: Resource)
    requires Sane(before, used) && Sane(m.at, used) && Typed(m.at, row) && other.ocid != row.ocid
    requires Untouched(c, before, row.ocid) && Turn(before, other, m)
    ensures Untouched(c, m.at, row.ocid) && Untouched(c, m.after, row.ocid)
  {
    hide Sane, Drifts, Answer, Typed;
    DriftLeaves(before, used, m.at, row.ocid);
    if Deletable(other) {
      OtherDelete(m.at, used, other, m.result, m.after, row);
    }
  }

  /** At its own turn a row's resource is as the rollback found it. */
  lemma AtItsTurn(c: State, used: set<Ocid>, rows: seq<Resource>, trail: seq<Moment>, i: nat)
    requires Sane(c, used) && Proper(c, rows) && Runs(c, rows, trail) && i < |rows| == |trail|
    ensures Untouched(c, trail[i].at, rows[i].ocid)
  {
    hide Sane, Typed, Proper, Answer, Drifts, Runs, StateAt;
    UntilItsTurn(c, used, rows, trail, i, i + 1);
    TurnAt(c, rows, trail, i);
    TypedAlong(c, used, rows, trail, i, i + 1);
    DriftLeaves(StateAt(c, trail, i + 1), used, trail[i].at, rows[i].ocid);
  }

  // ---- A cloud that keeps up ----

  /** No accepted change is still on its way. */
  ghost predicate Quiet(s: State) {
    && (forall v :: v in s.vcns ==> s.vcns[v].pending.None?)
    && (forall x :: x in s.children ==> !s.children[x].terminating)
  }

  /** Whenever a delete is answered, everything accepted before has happened. */
  ghost predicate Prompt(trail: seq<Moment>) {
    forall i :: 0 <= i < |trail| ==> Quiet(trail[i].at)
  }

  /** A tracked gateway or list that will not go: a route leads to the gateway, or a
      subnet that no later row tracks uses the list. */
  ghost predicate ChildStays(d: State, rows: seq<Resource>, i: nat)
    requires i < |rows|
  {
    || (Has(d, Gateway, rows[i].ocid) && Targeted(d, rows[i].ocid))
    || (Has(d, SecurityList, rows[i].ocid)
        && exists x :: Has(d, Subnet, x) && rows[i].ocid in d.children[x].lists && x !in OcidsFrom(rows, i + 1))
  }

  /** Something inside the VCN that no later row tracks, or that itself stays. */
  ghost predicate KeepsVcn(d: State, rows: seq<Resource>, i: nat, x: Ocid)
    requires i < |rows|
  {
    && Inside(d, x, rows[i].ocid) && !IsDefaultList(d, x)
    && (x in OcidsFrom(rows, i + 1) ==> exists j :: i < j < |rows| && rows[j].ocid == x && ChildStays(d, rows, j))
  }

  ghost predicate Stays(d: State, rows: seq<Resource>, i: nat)
    requires i < |rows|
  {
    ChildStays(d, rows, i) || (rows[i].ocid in d.vcns && exists x :: KeepsVcn(d, rows, i, x))
  }

  /** Seen from a quiet moment, everything is as after the wait that `d` stands for,
      except for what `ids` had deleted. */
  ghost predicate QuietView(d: State, at: State, ids: set<Ocid>) {
    && (forall v :: v in at.vcns ==> v in d.vcns && at.vcns[v] == d.vcns[v])
    && (forall x :: x in at.children ==> x in d.children && at.children[x] == d.children[x])
    && (forall x :: x in d.children && x !in ids && !IsDefaultList(d, x) ==> x in at.children)
  }

  lemma SettledView(c: State, used: set<Ocid>, at: State, ids: set<Ocid>)
    requires Sane(c, used) && Undone(c, at, ids) && Quiet(at)
    ensures QuietView(Settled(c), at, ids)
  {
    var d := Settled(c);
    forall v | v in at.vcns ensures v in d.vcns && at.vcns[v] == d.vcns[v] {
      assert VcnDrifts(c.vcns[v], at.vcns[v]);
    }
    forall x | x in d.children && x !in ids && !IsDefaultList(d, x) ensures x in at.children {
      assert !IsDefaultList(c, x);
    }
  }

  /** Tracked subnets of later rows are gone when the next delete is answered. */
  lemma SubnetsGone(c: State, used: set<Ocid>, rows: seq<Resource>, trail: seq<Moment>, i: nat)
    requires Sane(c, used) && Proper(c, rows) && Runs(c, rows, trail) && Answered(trail) && Prompt(trail)
    requires i < |rows| == |trail|
    ensures forall x :: Has(trail[i].at, Subnet, x) ==> x !in OcidsFrom(rows, i + 1)
  {
    hide Sane, Typed, Proper, Answer, Drifts, Runs, StateAt;
    TurnAt(c, rows, trail, i);
    TypedAlong(c, used, rows, trail, i, i + 1);
    forall x | Has(trail[i].at, Subnet, x) ensures x !in OcidsFrom(rows, i + 1) {
      if x in OcidsFrom(rows, i + 1) {
        var j :| i + 1 <= j < |rows| && rows[j].ocid == x;
        LeftFrom(c, used, rows, trail, j, i + 1);
        DriftLeaves(StateAt(c, trail, i + 1), used, trail[i].at, x);
      }
    }
  }

  /** Everything the rollback began with, as seen when row `i`'s delete is answered. */
  lemma SeenAt(c: State, used: set<Ocid>, rows: seq<Resource>, trail: seq<Moment>, i: nat)
    requires Sane(c, used) && Proper(c, rows) && Runs(c, rows, trail) && Prompt(trail) && i < |rows| == |trail|
    ensures QuietView(Settled(c), trail[i].at, OcidsFrom(rows, i + 1)) && Sane(Settled(c), used)
    ensures Sane(trail[i].at, used) && Typed(trail[i].at, rows[i]) && Typed(Settled(c), rows[i])
    ensures rows[i].ocid in Settled(c).children ==> rows[i].ocid in trail[i].at.children
    ensures rows[i].ocid in Settled(c).vcns ==> rows[i].ocid in trail[i].at.vcns
  {
    hide Sane, Typed, Undone, Runs, StateAt, QuietView, Drifts;
    Along(c, used, rows, trail, i);
    AtItsTurn(c, used, rows, trail, i);
    TypedAlong(c, used, rows, trail, i, i);
    SettledSane(c, used);
    SettledView(c, used, trail[i].at, OcidsFrom(rows, i + 1));
    SettledTyped(c, used, rows[i]);
  }

  lemma SettledTyped(c: State, used: set<Ocid>, row: Resource)
    requires Sane(c, used) && Typed(c, row)
    ensures Typed(Settled(c), row)
  {
  }

  lemma GatewayHeld(d: State, used: set<Ocid>, at: State, rows: seq<Resource>, i: nat)
    requires i < |rows| && rows[i].resourceType.GatewayType? && Sane(at, used)
    requires QuietView(d, at, OcidsFrom(rows, i + 1)) && Typed(d, rows[i])
    requires rows[i].ocid in d.children ==> rows[i].ocid in at.children
    ensures Held(at, rows[i]) <==> ChildStays(d, rows, i)
  {
    hide OcidsFrom, Targets, IsDefaultList;
    var id := rows[i].ocid;
    if id in at.children {
      assert at.vcns[at.children[id].vcn] == d.vcns[d.children[id].vcn];
    }
  }

  lemma ListHeld(d: State, used: set<Ocid>, at: State, rows: seq<Resource>, i: nat)
    requires i < |rows| && rows[i].resourceType.ListType? && Sane(at, used) && Sane(d, used)
    requires QuietView(d, at, OcidsFrom(rows, i + 1)) && Typed(d, rows[i]) && Typed(at, rows[i])
    requires rows[i].ocid in d.children ==> rows[i].ocid in at.children
    requires forall x :: Has(at, Subnet, x) ==> x !in OcidsFrom(rows, i + 1)
    ensures Held(at, rows[i]) <==> ChildStays(d, rows, i)
  {
    hide OcidsFrom, Targets;
    var id := rows[i].ocid;
    if Held(at, rows[i]) {
      var x :| x in at.children && at.children[x].kind.Subnet? && id in at.children[x].lists;
      assert Has(at, Subnet, x) && Has(d, Subnet, x);
    }
    if ChildStays(d, rows, i) {
      var x :| Has(d, Subnet, x) && id in d.children[x].lists && x !in OcidsFrom(rows, i + 1);
      assert x in at.children && at.children[x] == d.children[x];
    }
  }

  lemma NoChildStays(d: State, at: State, rows: seq<Resource>, i: nat)
    requires i < |rows| && rows[i].resourceType in {SubnetType} && Typed(d, rows[i])
    ensures !ChildStays(d, rows, i) && !Held(at, rows[i])
  {
  }

  lemma ChildHeld(c: State, used: set<Ocid>, rows: seq<Resource>, trail: seq<Moment>, i: nat)
    requires Sane(c, used) && Proper(c, rows) && Runs(c, rows, trail) && Answered(trail) && Prompt(trail)
    requires i < |rows| == |trail| && rows[i].resourceType in {GatewayType, ListType, SubnetType}
    ensures Held(trail[i].at, rows[i]) <==> ChildStays(Settled(c), rows, i)
  {
    hide Sane, Typed, Runs, StateAt, QuietView, Proper, Answered, Prompt, Held, ChildStays, Settled, OcidsFrom;
    SeenAt(c, used, rows, trail, i);
    match rows[i].resourceType
    case GatewayType => GatewayHeld(Settled(c), used, trail[i].at, rows, i);
    case ListType =>
      SubnetsGone(c, used, rows, trail, i);
      ListHeld(Settled(c), used, trail[i].at, rows, i);
    case SubnetType => NoChildStays(Settled(c), trail[i].at, rows, i);
  }

  /** Of the later rows exactly those whose deletes were blocked are still there. */
  lemma LaterLeft(c: State, used: set<Ocid>, rows: seq<Resource>, trail: seq<Moment>, i: nat, j: nat)
    requires Sane(c, used) && Proper(c, rows) && Runs(c, rows, trail) && Answered(trail) && Prompt(trail)
    requires i < j < |rows| == |trail|
    ensures Live(trail[i].at, rows[j].ocid) <==> Held(trail[j].at, rows[j])
  {
    hide Sane, Proper, Answer, Drifts, Runs, StateAt, Held, IsDefaultList;
    assert Quiet(trail[i].at);
    TurnAt(c, rows, trail, i);
    TypedAlong(c, used, rows, trail, j, i + 1);
    TypedAlong(c, used, rows, trail, j, j);
    LeftFrom(c, used, rows, trail, j, i + 1);
    DriftLeaves(StateAt(c, trail, i + 1), used, trail[i].at, rows[j].ocid);
    if Held(trail[j].at, rows[j]) {
      HeldIsNoSubnet(trail[j].at, rows[j], StateAt(c, trail, i + 1));
    }
  }

  /** A later row's resource inside the VCN is still there exactly if it stays. */
  lemma LaterInside(c: State, used: set<Ocid>, rows: seq<Resource>, trail: seq<Moment>, i: nat, j: nat)
    requires Sane(c, used) && Proper(c, rows) && Runs(c, rows, trail) && Answered(trail) && Prompt(trail)
    requires i < j < |rows| == |trail| && rows[j].ocid in Settled(c).children
    ensures rows[j].ocid in trail[i].at.children <==> ChildStays(Settled(c), rows, j)
  {
    hide Sane, Typed, Proper, Answer, Runs, StateAt, Held, ChildStays, QuietView, Answered, Prompt;
    SeenAt(c, used, rows, trail, j);
    ChildRow(Settled(c), rows[j]);
    LaterLeft(c, used, rows, trail, i, j);
    ChildHeld(c, used, rows, trail, j);
    SeenAt(c, used, rows, trail, i);
    NoVcnToo(Settled(c), used, trail[i].at, OcidsFrom(rows, i + 1), rows[j].ocid);
  }

  lemma ChildRow(c: State, row: Resource)
    requires Typed(c, row) && row.ocid in c.children
    ensures row.resourceType in {GatewayType, ListType, SubnetType}
  {
  }

  lemma NoVcnToo(d: State, used: set<Ocid>, at: State, ids: set<Ocid>, x: Ocid)
    requires Sane(d, used) && QuietView(d, at, ids) && x in d.children
    ensures x !in at.vcns
  {
  }

  lemma VcnHeld(c: State, used: set<Ocid>, rows: seq<Resource>, trail: seq<Moment>, i: nat)
    requires Sane(c, used) && Proper(c, rows) && Runs(c, rows, trail) && Answered(trail) && Prompt(trail)
    requires i < |rows| == |trail| && rows[i].resourceType.VcnType?
    ensures Held(trail[i].at, rows[i]) <==> Stays(Settled(c), rows, i)
  {
    hide Sane, Typed, Proper, Answer, Runs, StateAt, ChildStays, Answered, Prompt, Settled, OcidsFrom, KeepsVcn,
         QuietView;
    var d, at, v := Settled(c), trail[i].at, rows[i].ocid;
    SeenAt(c, used, rows, trail, i);
    VcnRowNoChild(d, rows, i);
    if Held(at, rows[i]) {
      var x :| x in at.children && Inside(at, x, v) && !IsDefaultList(at, x);
      InsideBoth(d, at, OcidsFrom(rows, i + 1), x, v);
      KeptInside(c, used, rows, trail, i, x);
      assert KeepsVcn(d, rows, i, x);
    }
    if Stays(d, rows, i) {
      var x :| KeepsVcn(d, rows, i, x);
      StillInside(c, used, rows, trail, i, x);
    }
  }

  lemma VcnRowNoChild(d: State, rows: seq<Resource>, i: nat)
    requires i < |rows| && Typed(d, rows[i]) && rows[i].resourceType.VcnType?
    ensures !ChildStays(d, rows, i)
  {
  }

  lemma InsideBoth(d: State, at: State, ids: set<Ocid>, x: Ocid, v: Ocid)
    requires QuietView(d, at, ids) && x in at.children && v in at.vcns
    ensures x in d.children && v in d.vcns
    ensures Inside(at, x, v) <==> Inside(d, x, v)
    ensures Inside(at, x, v) ==> (IsDefaultList(at, x) <==> IsDefaultList(d, x))
  {
  }

  lemma KeptInside(c: State, used: set<Ocid>, rows: seq<Resource>, trail: seq<Moment>, i: nat, x: Ocid)
    requires Sane(c, used) && Proper(c, rows) && Runs(c, rows, trail) && Answered(trail) && Prompt(trail)
    requires i < |rows| == |trail| && x in trail[i].at.children && x in Settled(c).children
    requires Inside(Settled(c), x, rows[i].ocid) && !IsDefaultList(Settled(c), x)
    ensures KeepsVcn(Settled(c), rows, i, x)
  {
    hide Sane, Typed, Proper, Answer, Runs, StateAt, ChildStays, Answered, Prompt, Settled, QuietView;
    if x in OcidsFrom(rows, i + 1) {
      var j :| i + 1 <= j < |rows| && rows[j].ocid == x;
      LaterInside(c, used, rows, trail, i, j);
    }
  }

  lemma StillInside(c: State, used: set<Ocid>, rows: seq<Resource>, trail: seq<Moment>, i: nat, x: Ocid)
    requires Sane(c, used) && Proper(c, rows) && Runs(c, rows, trail) && Answered(trail) && Prompt(trail)
    requires i < |rows| == |trail| && KeepsVcn(Settled(c), rows, i, x) && rows[i].ocid in trail[i].at.vcns
    ensures Inside(trail[i].at, x, rows[i].ocid) && !IsDefaultList(trail[i].at, x)
  {
    hide Sane, Typed, Proper, Answer, Runs, StateAt, ChildStays, Answered, Prompt, Settled, QuietView;
    var d, at := Settled(c), trail[i].at;
    SeenAt(c, used, rows, trail, i);
    assert x in at.children by {
      if x in OcidsFrom(rows, i + 1) {
        var j :| i < j < |rows| && rows[j].ocid == x && ChildStays(d, rows, j);
        LaterInside(c, used, rows, trail, i, j);
      } else {
        UntrackedThere(d, at, OcidsFrom(rows, i + 1), x);
      }
    }
    InsideBoth(d, at, OcidsFrom(rows, i + 1), x, rows[i].ocid);
  }

  lemma UntrackedThere(d: State, at: State, ids: set<Ocid>, x: Ocid)
    requires QuietView(d, at, ids) && x in d.children && x !in ids && !IsDefaultList(d, x)
    ensures x in at.children
  {
  }

  /** For every network, in a cloud that keeps up and answers: apart from subnets
      that are terminating, a rollback leaves exactly the gateways with a route, the
      lists with an untracked user, and the VCNs with something left inside. */
  lemma LeftWhenPrompt(c: State, used: set<Ocid>, rows: seq<Resource>, trail: seq<Moment>)
    requires Sane(c, used) && Proper(c, rows) && Runs(c, rows, trail) && Answered(trail) && Prompt(trail)
    ensures forall i :: 0 <= i < |rows| ==>
      (Remains(StateAt(c, trail, 0), rows[i].ocid) <==> Stays(Settled(c), rows, i))
  {
    hide Sane, Proper, Runs, StateAt, Stays, Remains, Settled, Prompt, Answered;
    forall i | 0 <= i < |rows| ensures Remains(StateAt(c, trail, 0), rows[i].ocid) <==> Stays(Settled(c), rows, i) {
      TurnAt(c, rows, trail, i);
      RemainsIfHeld(c, used, rows, trail, i);
      HeldIfStays(c, used, rows, trail, i);
    }
  }

  lemma RemainsIfHeld(c: State, used: set<Ocid>, rows: seq<Resource>, trail: seq<Moment>, i: nat)
    requires Sane(c, used) && Proper(c, rows) && Runs(c, rows, trail) && Answered(trail) && i < |rows| == |trail|
    ensures Remains(StateAt(c, trail, 0), rows[i].ocid) <==> Held(trail[i].at, rows[i])
  {
    hide Sane, Typed, Proper, Runs, StateAt, Held, Live, Has;
    LeftFrom(c, used, rows, trail, i, 0);
    TypedAlong(c, used, rows, trail, i, 0);
    TypedAlong(c, used, rows, trail, i, i);
    if Held(trail[i].at, rows[i]) {
      HeldIsNoSubnet(trail[i].at, rows[i], StateAt(c, trail, 0));
    }
  }

  lemma HeldIfStays(c: State, used: set<Ocid>, rows: seq<Resource>, trail: seq<Moment>, i: nat)
    requires Sane(c, used) && Proper(c, rows) && Runs(c, rows, trail) && Answered(trail) && Prompt(trail)
    requires i < |rows| == |trail|
    ensures Held(trail[i].at, rows[i]) <==> Stays(Settled(c), rows, i)
  {
    hide Sane, Proper, Runs, StateAt, Answered, Prompt, Settled, ChildStays, Typed, KeepsVcn, QuietView, Held;
    SeenAt(c, used, rows, trail, i);
    if rows[i].resourceType.VcnType? {
      VcnHeld(c, used, rows, trail, i);
    } else {
      NotAVcn(Settled(c), rows[i]);
      if Deletable(rows[i]) {
        ChildHeld(c, used, rows, trail, i);
      } else {
        OtherStaysNot(Settled(c), trail[i].at, rows, i);
      }
    }
  }

  lemma NotAVcn(d: State, row: Resource)
    requires Typed(d, row) && !row.resourceType.VcnType?
    ensures row.ocid !in d.vcns
  {
  }

  lemma OtherStaysNot(d: State, at: State, rows: seq<Resource>, i: nat)
    requires i < |rows| && Typed(d, rows[i]) && !Deletable(rows[i])
    ensures !ChildStays(d, rows, i) && !Held(at, rows[i])
  {
  }

  /** Whatever lies in a tracked VCN or uses a tracked list is tracked too. */
  ghost predicate WhollyTracked(d: State, rows: seq<Resource>) {
    forall i, x :: 0 <= i < |rows| && DependsOn(d, x, rows[i].ocid) && !IsDefaultList(d, x) ==> Tracks(rows, x)
  }

  /** The exact condition for a network all of whose parts are tracked, subnets and
      route changes on their way included: a rollback in such a cloud leaves nothing
      behind if and only if no route, once in force, leads to a tracked gateway. */
  lemma CleanUnlessRouted(c: State, used: set<Ocid>, rows: seq<Resource>, trail: seq<Moment>)
    requires Sane(c, used) && Proper(c, rows) && Runs(c, rows, trail) && Answered(trail) && Prompt(trail)
    requires InOrder(c, rows) && WhollyTracked(Settled(c), rows)
    ensures (forall i :: 0 <= i < |rows| ==> !Remains(StateAt(c, trail, 0), rows[i].ocid))
       <==> (forall i :: 0 <= i < |rows| ==> !RoutedGateway(Settled(c), rows[i].ocid))
  {
    hide Sane, Proper, Runs, StateAt, Stays, Remains, Settled, Prompt, Answered, InOrder, WhollyTracked, RoutedGateway;
    LeftWhenPrompt(c, used, rows, trail);
    if forall i :: 0 <= i < |rows| ==> !RoutedGateway(Settled(c), rows[i].ocid) {
      forall i | 0 <= i < |rows| ensures !Remains(StateAt(c, trail, 0), rows[i].ocid) {
        StaysNot(c, used, rows, i);
      }
    }
    if i :| 0 <= i < |rows| && RoutedGateway(Settled(c), rows[i].ocid) {
      RoutedStays(Settled(c), rows, i);
    }
  }

  predicate RoutedGateway(d: State, id: Ocid) {
    Has(d, Gateway, id) && Targeted(d, id)
  }

  lemma RoutedStays(d: State, rows: seq<Resource>, i: nat)
    requires i < |rows| && RoutedGateway(d, rows[i].ocid)
    ensures Stays(d, rows, i)
  {
  }

  lemma StaysNot(c: State, used: set<Ocid>, rows: seq<Resource>, i: nat)
    requires Sane(c, used) && i < |rows| && InOrder(c, rows) && WhollyTracked(Settled(c), rows)
    requires forall j :: 0 <= j < |rows| ==> !RoutedGateway(Settled(c), rows[j].ocid)
    ensures !Stays(Settled(c), rows, i)
  {
    hide Sane, Targeted, InOrder, WhollyTracked, OcidsFrom, IsDefaultList, Settled, ChildStays;
    forall j | 0 <= j < |rows| ensures !ChildStays(Settled(c), rows, j) {
      NoListStays(c, used, rows, j);
    }
    if x :| KeepsVcn(Settled(c), rows, i, x) {
      TrackedLater(c, rows, i, x);
    }
  }

  lemma NoListStays(c: State, used: set<Ocid>, rows: seq<Resource>, i: nat)
    requires Sane(c, used) && i < |rows| && InOrder(c, rows) && WhollyTracked(Settled(c), rows)
    requires !RoutedGateway(Settled(c), rows[i].ocid)
    ensures !ChildStays(Settled(c), rows, i)
  {
    hide InOrder, WhollyTracked, OcidsFrom, Targeted, Settled;
    if ChildStays(Settled(c), rows, i) {
      var d, id := Settled(c), rows[i].ocid;
      var x :| Has(d, Subnet, x) && id in d.children[x].lists && x !in OcidsFrom(rows, i + 1);
      SettledSane(c, used);
      TrackedLater(c, rows, i, x);
    }
  }

  lemma TrackedLater(c: State, rows: seq<Resource>, i: nat, x: Ocid)
    requires i < |rows| && InOrder(c, rows) && WhollyTracked(Settled(c), rows)
    requires DependsOn(Settled(c), x, rows[i].ocid) && !IsDefaultList(Settled(c), x)
    ensures x in OcidsFrom(rows, i + 1)
  {
    var j :| 0 <= j < |rows| && rows[j].ocid == x;
    assert DependsOn(c, rows[j].ocid, rows[i].ocid);
  }
}
