/** Network creates of several clients at once (internal/repository/network.go): the
    count, the choice of a slot and the insert are three statements without a
    transaction, so those of other clients may come in between. */
module CidrRaces {
  import opened Wrappers
  import opened CidrSlots

  type ClientId = nat

  /** What a client is about to do: choose a slot, or insert the one it chose when
      `since` was the next id. */
  datatype Client = Counted | Chose(slot: nat, since: nat)

  datatype System = System(rows: Table, nextId: nat, clients: map<ClientId, Client>)

  datatype Act =
    | Count(client: ClientId)
    | Choose(client: ClientId)
    | Insert(client: ClientId, name: string, region: string)
    | Drop(id: nat)

  function Block(slot: nat): (Cidr, Cidr)
    requires slot < |CIDR_BLOCKS|
  {
    CIDR_BLOCKS[slot]
  }

  /** A statement a client is not up to has no effect. */
  function Step(s: System, a: Act): System {
    match a
    case Count(c) =>
      s.(clients := if |s.rows| < MAX_NETWORKS then s.clients[c := Counted] else s.clients - {c})
    case Choose(c) =>
      if c in s.clients && s.clients[c].Counted? then
        match FirstFree(UsedRanges(s.rows), 0)
        case None => s.(clients := s.clients - {c})
        case Some(slot) => s.(clients := s.clients[c := Chose(slot, s.nextId)])
      else s
    case Insert(c, name, region) =>
      if c in s.clients && s.clients[c].Chose? && s.clients[c].slot < |CIDR_BLOCKS| then
        var block := Block(s.clients[c].slot);
        System(s.rows[s.nextId := Network(name, region, block.0, block.1)], s.nextId + 1, s.clients - {c})
      else s
    case Drop(id) => s.(rows := s.rows - {id})
  }

  function Exec(start: System, acts: seq<Act>): System
    decreases |acts|
  {
    if acts == [] then start else Step(Exec(start, acts[..|acts| - 1]), acts[|acts| - 1])
  }

  /** Any table whose networks have slots of their own, and nobody at work. */
  ghost predicate Fresh(start: System) {
    DistinctSlots(start.rows) && (forall id :: id in start.rows ==> id < start.nextId) && start.clients == map[]
  }

  /** Since the client read the table, a row has come in that has its slot. */
  ghost predicate Missed(s: System, c: ClientId) {
    && c in s.clients && s.clients[c].Chose? && s.clients[c].slot < |CIDR_BLOCKS|
    && exists id :: s.clients[c].since <= id && id in s.rows && s.rows[id].vcn == Block(s.clients[c].slot).0
  }

  ghost predicate InsertsMissed(start: System, acts: seq<Act>, n: nat)
    requires n < |acts|
  {
    acts[n].Insert? && Missed(Exec(start, acts[..n]), acts[n].client)
  }

  // ---- What every run keeps ----

  ghost predicate Sound(s: System) {
    && (forall id :: id in s.rows ==> id < s.nextId && exists slot :: UsesSlot(s.rows[id], slot))
    && (forall c :: c in s.clients && s.clients[c].Chose? ==>
          && s.clients[c].slot < |CIDR_BLOCKS| && s.clients[c].since <= s.nextId
          && forall id :: id in s.rows && id < s.clients[c].since ==> s.rows[id].vcn != Block(s.clients[c].slot).0)
  }

  lemma StepSound(s: System, a: Act)
    requires Sound(s)
    ensures Sound(Step(s, a))
  {
    hide UsesSlot, Block, UsedRanges;
    var s' := Step(s, a);
    if a.Insert? && s' != s {
      InsertedUsesSlot(s, a);
    }
    if a.Choose? && s' != s {
      FreeForAll(s.rows);
    }
  }

  lemma FreeForAll(rows: Table)
    ensures FirstFree(UsedRanges(rows), 0).Some? ==>
      forall id :: id in rows ==> rows[id].vcn != Block(FirstFree(UsedRanges(rows), 0).value).0
  {
    hide FirstFree;
    assert forall id :: id in rows ==> rows[id].vcn in UsedRanges(rows);
  }

  lemma {:induction false} AlwaysSound(start: System, acts: seq<Act>)
    requires Fresh(start)
    ensures Sound(Exec(start, acts))
    decreases |acts|
  {
    if acts != [] {
      hide Sound, Step;
      AlwaysSound(start, acts[..|acts| - 1]);
      StepSound(Exec(start, acts[..|acts| - 1]), acts[|acts| - 1]);
    }
  }

  /** One statement keeps the slots apart unless it inserts a slot that was taken
      behind the client's back; such an insert always makes two rows share it. */
  lemma StepDistinct(s: System, a: Act)
    requires Sound(s)
    ensures a.Insert? && Missed(s, a.client) ==> !DistinctSlots(Step(s, a).rows)
    ensures DistinctSlots(s.rows) && !(a.Insert? && Missed(s, a.client)) ==> DistinctSlots(Step(s, a).rows)
  {
    hide UsedRanges, FirstFree, UsesSlot;
    var s' := Step(s, a);
    if a.Insert? && Missed(s, a.client) {
      var slot := s.clients[a.client].slot;
      var id :| s.clients[a.client].since <= id && id in s.rows && s.rows[id].vcn == Block(slot).0;
      assert s'.rows[s.nextId].vcn == s'.rows[id].vcn && id != s.nextId;
    }
    if a.Insert? && s' != s {
      InsertedUsesSlot(s, a);
    }
  }

  lemma InsertedUsesSlot(s: System, a: Act)
    requires a.Insert? && a.client in s.clients && s.clients[a.client].Chose?
    requires s.clients[a.client].slot < |CIDR_BLOCKS|
    ensures UsesSlot(Step(s, a).rows[s.nextId], s.clients[a.client].slot)
  {
    SlotShape(s.clients[a.client].slot);
  }

  /** For every table with distinct slots and every interleaving of any number of
      creates and deletes: the slots are distinct all along if and only if no insert
      uses a read that missed another insert of the same slot. */
  lemma DistinctUnlessMissed(start: System, acts: seq<Act>)
    requires Fresh(start)
    ensures (forall n :: 0 <= n <= |acts| ==> DistinctSlots(Exec(start, acts[..n]).rows))
       <==> (forall n :: 0 <= n < |acts| ==> !InsertsMissed(start, acts, n))
  {
    hide Exec, DistinctSlots, Missed, Sound;
    forall n | 0 <= n < |acts| && InsertsMissed(start, acts, n)
      ensures !DistinctSlots(Exec(start, acts[..n + 1]).rows)
    {
      ExecOn(start, acts, n);
      AlwaysSound(start, acts[..n]);
      StepDistinct(Exec(start, acts[..n]), acts[n]);
    }
    if forall n :: 0 <= n < |acts| ==> !InsertsMissed(start, acts, n) {
      forall n | 0 <= n <= |acts| ensures DistinctSlots(Exec(start, acts[..n]).rows) {
        DistinctSoFar(start, acts, n);
      }
    }
  }

  lemma ExecOn(start: System, acts: seq<Act>, n: nat)
    requires n < |acts|
    ensures Exec(start, acts[..n + 1]) == Step(Exec(start, acts[..n]), acts[n])
  {
    assert acts[..n + 1][..n] == acts[..n];
  }

  lemma {:induction false} DistinctSoFar(start: System, acts: seq<Act>, n: nat)
    requires Fresh(start) && n <= |acts| && forall k :: 0 <= k < n ==> !InsertsMissed(start, acts, k)
    ensures DistinctSlots(Exec(start, acts[..n]).rows)
  {
    if n > 0 {
      hide DistinctSlots, Missed, Sound, Exec, Step, Fresh;
      DistinctSoFar(start, acts, n - 1);
      ExecOn(start, acts, n - 1);
      AlwaysSound(start, acts[..n - 1]);
      StepDistinct(Exec(start, acts[..n - 1]), acts[n - 1]);
      assert !InsertsMissed(start, acts, n - 1);
    }
  }

  // ---- Two instances ----

  function WholeCreate(c: ClientId, name: string, region: string): seq<Act> {
    [Count(c), Choose(c), Insert(c, name, region)]
  }

  lemma ThreeSteps(s: System, a: Act, b: Act, c: Act)
    ensures Exec(s, [a, b, c]) == Step(Step(Step(s, a), b), c)
  {
    hide Exec, Step;
    var acts := [a, b, c];
    ExecNone(s);
    ExecOn(s, acts, 0);
    ExecOn(s, acts, 1);
    ExecOn(s, acts, 2);
    assert acts[..3] == acts && acts[..0] == [];
  }

  lemma ExecNone(s: System)
    ensures Exec(s, []) == s
  {
  }

  lemma CountStep(s: System, c: ClientId)
    ensures Step(s, Count(c)) == if |s.rows| < MAX_NETWORKS then s.(clients := s.clients[c := Counted])
                                 else s.(clients := s.clients - {c})
  {
  }

  /** Below the limit the client chooses the lowest free slot. */
  lemma ChooseStep(s: System, c: ClientId)
    requires |s.rows| < MAX_NETWORKS && c in s.clients && s.clients[c].Counted?
    ensures FirstFree(UsedRanges(s.rows), 0).Some?
    ensures Step(s, Choose(c)) == s.(clients := s.clients[c := Chose(FirstFree(UsedRanges(s.rows), 0).value, s.nextId)])
  {
    hide UsedRanges, FirstFree;
    SomeSlotIsFree(s.rows);
  }

  function Inserted(s: System, c: ClientId, slot: nat, name: string, region: string): System
    requires slot < |CIDR_BLOCKS|
  {
    System(s.rows[s.nextId := Network(name, region, Block(slot).0, Block(slot).1)], s.nextId + 1, s.clients - {c})
  }

  lemma InsertStep(s: System, c: ClientId, slot: nat, since: nat, name: string, region: string)
    requires c in s.clients && s.clients[c] == Chose(slot, since) && slot < |CIDR_BLOCKS|
    ensures Step(s, Insert(c, name, region)) == Inserted(s, c, slot, name, region)
  {
    hide Block;
  }

  lemma IdleSteps(s: System, c: ClientId, name: string, region: string)
    requires c !in s.clients
    ensures Step(s, Choose(c)) == s && Step(s, Insert(c, name, region)) == s
  {
  }

  lemma CreatedAs(s: System, slot: nat, name: string, region: string)
    requires |s.rows| < MAX_NETWORKS && FirstFree(UsedRanges(s.rows), 0) == Some(slot)
    ensures Created(s.rows, s.nextId, name, region)
         == Ok(s.rows[s.nextId := Network(name, region, Block(slot).0, Block(slot).1)])
  {
    hide UsedRanges, FirstFree;
  }

  /** A create whose statements nobody comes between is the create of the whole-create
      model, and misses nothing. */
  lemma UninterruptedCreate(s: System, c: ClientId, name: string, region: string)
    requires Sound(s)
    ensures match Created(s.rows, s.nextId, name, region)
            case Ok(after) => Exec(s, WholeCreate(c, name, region)) == System(after, s.nextId + 1, s.clients - {c})
            case Err(_) => Exec(s, WholeCreate(c, name, region)) == s.(clients := s.clients - {c})
    ensures !Missed(Step(Step(s, Count(c)), Choose(c)), c)
  {
    hide UsedRanges, FirstFree, Step, Exec, Block, Missed, Sound;
    ThreeSteps(s, Count(c), Choose(c), Insert(c, name, region));
    CountStep(s, c);
    if |s.rows| < MAX_NETWORKS {
      var s1 := Step(s, Count(c));
      ChooseStep(s1, c);
      var slot := FirstFree(UsedRanges(s.rows), 0).value;
      InsertStep(Step(s1, Choose(c)), c, slot, s.nextId, name, region);
      CreatedAs(s, slot, name, region);
      assert s.clients[c := Counted][c := Chose(slot, s.nextId)] - {c} == s.clients - {c};
      NothingMissedYet(s, c, Step(s1, Choose(c)), slot);
    } else {
      IdleSteps(s.(clients := s.clients - {c}), c, name, region);
      NotUpTo(s.(clients := s.clients - {c}), c);
    }
  }

  lemma NothingMissedYet(s: System, c: ClientId, s': System, slot: nat)
    requires Sound(s) && s'.rows == s.rows && s'.clients == s.clients[c := Counted][c := Chose(slot, s.nextId)]
    ensures !Missed(s', c)
  {
  }

  lemma NotUpTo(s: System, c: ClientId)
    requires c !in s.clients
    ensures !Missed(s, c)
  {
  }

  function TwoAtOnce(name: string, region: string): seq<Act> {
    [Count(0), Count(1), Choose(0), Choose(1), Insert(0, name, region), Insert(1, name, region)]
  }

  lemma SixSteps(s: System, a: Act, b: Act, c: Act, d: Act, e: Act, f: Act)
    ensures Exec(s, [a, b, c, d, e, f]) == Step(Step(Step(Exec(s, [a, b, c]), d), e), f)
  {
    hide Exec, Step;
    var acts := [a, b, c, d, e, f];
    ExecOn(s, acts, 3);
    ExecOn(s, acts, 4);
    ExecOn(s, acts, 5);
    assert acts[..6] == acts && acts[..3] == [a, b, c];
  }

  /** The last two rows are alike, and nobody counted them in. */
  predicate Collided(start: System, rows: Table) {
    && start.nextId in rows && start.nextId + 1 in rows && rows[start.nextId] == rows[start.nextId + 1]
    && |rows| == |start.rows| + 2
  }

  /** It does happen, from every table with room: two clients that both choose before
      either inserts get the same slot, and each of them passes the limit test. */
  lemma InterleavedCreatesCollide(start: System, name: string, region: string)
    requires Fresh(start) && |start.rows| < 15
    ensures Collided(start, Exec(start, TwoAtOnce(name, region)).rows)
    ensures !DistinctSlots(Exec(start, TwoAtOnce(name, region)).rows)
  {
    hide UsedRanges, FirstFree, Step, Exec, Block, DistinctSlots, Fresh, Collided;
    SixSteps(start, Count(0), Count(1), Choose(0), Choose(1), Insert(0, name, region), Insert(1, name, region));
    var slot, chosen := BothChoose(start);
    BothInsert(start, chosen, slot, name, region);
  }

  lemma BothInsert(start: System, chosen: System, slot: nat, name: string, region: string)
    requires Fresh(start) && chosen.rows == start.rows && chosen.nextId == start.nextId && slot < |CIDR_BLOCKS|
    requires 0 in chosen.clients && chosen.clients[0] == Chose(slot, start.nextId)
    requires 1 in chosen.clients && chosen.clients[1] == Chose(slot, start.nextId)
    ensures var rows := Step(Step(chosen, Insert(0, name, region)), Insert(1, name, region)).rows;
            Collided(start, rows) && !DistinctSlots(rows)
  {
    hide Step, Block, DistinctSlots, Fresh, Collided;
    InsertStep(chosen, 0, slot, start.nextId, name, region);
    InsertStep(Step(chosen, Insert(0, name, region)), 1, slot, start.nextId, name, region);
    TwoAlike(start, Network(name, region, Block(slot).0, Block(slot).1));
  }

  lemma BothChoose(start: System) returns (slot: nat, chosen: System)
    requires |start.rows| < MAX_NETWORKS
    ensures slot < |CIDR_BLOCKS| && chosen == Step(Exec(start, [Count(0), Count(1), Choose(0)]), Choose(1))
    ensures chosen.rows == start.rows && chosen.nextId == start.nextId
    ensures 0 in chosen.clients && chosen.clients[0] == Chose(slot, start.nextId)
    ensures 1 in chosen.clients && chosen.clients[1] == Chose(slot, start.nextId)
  {
    hide UsedRanges, FirstFree, Step, Exec;
    ThreeSteps(start, Count(0), Count(1), Choose(0));
    var s1 := Step(start, Count(0));
    CountStep(start, 0);
    CountStep(s1, 1);
    var s2 := Step(s1, Count(1));
    ChooseStep(s2, 0);
    ChooseStep(Step(s2, Choose(0)), 1);
    chosen := Step(Step(s2, Choose(0)), Choose(1));
    slot := FirstFree(UsedRanges(start.rows), 0).value;
  }

  lemma TwoAlike(start: System, network: Network)
    requires Fresh(start)
    ensures Collided(start, start.rows[start.nextId := network][start.nextId + 1 := network])
    ensures !DistinctSlots(start.rows[start.nextId := network][start.nextId + 1 := network])
  {
    hide UsesSlot;
    var rows := start.rows[start.nextId := network][start.nextId + 1 := network];
    assert rows[start.nextId].vcn == rows[start.nextId + 1].vcn;
  }
}
