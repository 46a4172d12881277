/** The CIDR slot allocator of internal/repository/network.go. */
module CidrSlots {
  import opened Wrappers

  // An IPv4 prefix in the notation of section 3.1 of RFC 4632: a.b.c.d/length.
  datatype Cidr = Cidr(a: nat, b: nat, c: nat, d: nat, length: nat)

  const MAX_NETWORKS := 15

  // The VCN range and the subnet range of each slot.
  const CIDR_BLOCKS: seq<(Cidr, Cidr)> := [
    (Cidr(10, 0, 0, 0, 16), Cidr(10, 0, 0, 0, 20)),
    (Cidr(10, 1, 0, 0, 16), Cidr(10, 1, 0, 0, 20)),
    (Cidr(10, 2, 0, 0, 16), Cidr(10, 2, 0, 0, 20)),
    (Cidr(10, 3, 0, 0, 16), Cidr(10, 3, 0, 0, 20)),
    (Cidr(10, 4, 0, 0, 16), Cidr(10, 4, 0, 0, 20)),
    (Cidr(10, 5, 0, 0, 16), Cidr(10, 5, 0, 0, 20)),
    (Cidr(10, 6, 0, 0, 16), Cidr(10, 6, 0, 0, 20)),
    (Cidr(10, 7, 0, 0, 16), Cidr(10, 7, 0, 0, 20)),
    (Cidr(10, 8, 0, 0, 16), Cidr(10, 8, 0, 0, 20)),
    (Cidr(10, 9, 0, 0, 16), Cidr(10, 9, 0, 0, 20)),
    (Cidr(10, 10, 0, 0, 16), Cidr(10, 10, 0, 0, 20)),
    (Cidr(10, 11, 0, 0, 16), Cidr(10, 11, 0, 0, 20)),
    (Cidr(10, 12, 0, 0, 16), Cidr(10, 12, 0, 0, 20)),
    (Cidr(10, 13, 0, 0, 16), Cidr(10, 13, 0, 0, 20)),
    (Cidr(10, 14, 0, 0, 16), Cidr(10, 14, 0, 0, 20))
  ]

  datatype Network = Network(name: string, region: string, vcn: Cidr, subnet: Cidr)

  datatype Error = LimitReached | AllSlotsInUse | HasInstances(count: nat)

  datatype Result<+T> = Ok(value: T) | Err(error: Error)

  type Table = map<nat, Network>

  function UsedRanges(rows: Table): set<Cidr> {
    set id | id in rows :: rows[id].vcn
  }

  // The first slot from `from` on whose VCN range no row uses.
  function FirstFree(used: set<Cidr>, from: nat): (slot: Option<nat>)
    requires from <= |CIDR_BLOCKS|
    ensures slot.Some? ==> from <= slot.value < |CIDR_BLOCKS| && CIDR_BLOCKS[slot.value].0 !in used
    ensures slot.Some? ==> forall i :: from <= i < slot.value ==> CIDR_BLOCKS[i].0 in used
    ensures slot.None? ==> forall i :: from <= i < |CIDR_BLOCKS| ==> CIDR_BLOCKS[i].0 in used
    decreases |CIDR_BLOCKS| - from
  {
    if from == |CIDR_BLOCKS| then None
    else if CIDR_BLOCKS[from].0 !in used then Some(from)
    else FirstFree(used, from + 1)
  }

  function Created(rows: Table, id: nat, name: string, region: string): Result<Table> {
    if |rows| >= MAX_NETWORKS then Err(LimitReached)
    else
      match FirstFree(UsedRanges(rows), 0)
      case None => Err(AllSlotsInUse)
      case Some(slot) => Ok(rows[id := Network(name, region, CIDR_BLOCKS[slot].0, CIDR_BLOCKS[slot].1)])
  }

  class Repository {
    var rows: Table
    var nextId: nat
    // How many VPS rows refer to each network.
    var instances: map<nat, nat>

    /** Works on the tables as it finds them. */
    constructor (rows: Table, nextId: nat, instances: map<nat, nat>)
      ensures this.rows == rows && this.nextId == nextId && this.instances == instances
    {
      this.rows, this.nextId, this.instances := rows, nextId, instances;
    }

    method AllocateCidrSlot() returns (slot: Option<nat>)
      ensures slot == FirstFree(UsedRanges(rows), 0)
    {
      var used: map<Cidr, bool> := map[];
      var todo := rows.Keys;
      while todo != {}
        invariant todo <= rows.Keys
        invariant forall id :: id in rows && id !in todo ==> rows[id].vcn in used
        invariant forall range :: range in used ==> exists id :: id in rows && rows[id].vcn == range
      {
        var id :| id in todo;
        todo := todo - {id};
        used := used[rows[id].vcn := true];
      }
      assert used.Keys == UsedRanges(rows);
      var i := 0;
      while i < |CIDR_BLOCKS|
        invariant 0 <= i <= |CIDR_BLOCKS|
        invariant FirstFree(used.Keys, i) == FirstFree(used.Keys, 0)
      {
        if CIDR_BLOCKS[i].0 !in used {
          return Some(i);
        }
        i := i + 1;
      }
      return None;
    }

    method Create(name: string, region: string) returns (result: Result<nat>)
      modifies this
      ensures instances == old(instances)
      ensures match Created(old(rows), old(nextId), name, region)
              case Ok(after) => rows == after && result == Ok(old(nextId)) && nextId == old(nextId) + 1
              case Err(error) => rows == old(rows) && result == Err(error) && nextId == old(nextId)
      ensures |old(rows)| >= 15 ==> result == Err(LimitReached)
      ensures |old(rows)| < 15 ==>
        && result == Ok(old(nextId))
        && exists slot ::
             && IsLowestFree(old(rows), slot)
             && rows
                == old(rows)[old(nextId) := Network(name, region, Cidr(10, slot, 0, 0, 16), Cidr(10, slot, 0, 0, 20))]
    {
      CreateBelowLimit(rows, nextId, name, region);
      if |rows| >= MAX_NETWORKS {
        return Err(LimitReached);
      }
      var slot := AllocateCidrSlot();
      if slot.None? {
        return Err(AllSlotsInUse);
      }
      var block := CIDR_BLOCKS[slot.value];
      rows := rows[nextId := Network(name, region, block.0, block.1)];
      result := Ok(nextId);
      nextId := nextId + 1;
    }

    method Delete(id: nat) returns (result: Result<()>)
      modifies this`rows
      ensures if id in instances && instances[id] > 0
              then rows == old(rows) && result == Err(HasInstances(instances[id]))
              else rows == old(rows) - {id} && result == Ok(())
    {
      var count := if id in instances then instances[id] else 0;
      if count > 0 {
        return Err(HasInstances(count));
      }
      rows := rows - {id};
      return Ok(());
    }
  }

  // ---- Runs of creates and deletes, each done as a whole ----

  datatype Action = Create(name: string, region: string) | Delete(id: nat)

  datatype State = State(rows: Table, nextId: nat)

  function Step(s: State, a: Action): State {
    match a
    case Create(name, region) =>
      (match Created(s.rows, s.nextId, name, region)
       case Ok(after) => State(after, s.nextId + 1)
       case Err(_) => s)
    case Delete(id) => s.(rows := s.rows - {id})
  }

  function Exec(start: State, actions: seq<Action>): State
    decreases |actions|
  {
    if actions == [] then start else Step(Exec(start, actions[..|actions| - 1]), actions[|actions| - 1])
  }

  predicate UsesSlot(network: Network, slot: nat) {
    slot < 15 && network.vcn == Cidr(10, slot, 0, 0, 16) && network.subnet == Cidr(10, slot, 0, 0, 20)
  }

  ghost predicate IsTaken(rows: Table, slot: nat) {
    exists id :: id in rows && rows[id].vcn == Cidr(10, slot, 0, 0, 16)
  }

  ghost predicate IsLowestFree(rows: Table, slot: nat) {
    slot < 15 && !IsTaken(rows, slot) && forall lower: nat :: lower < slot ==> IsTaken(rows, lower)
  }

  ghost predicate DistinctSlots(rows: Table) {
    && (forall id :: id in rows ==> exists slot :: UsesSlot(rows[id], slot))
    && (forall i, j :: i in rows && j in rows && i != j ==> rows[i].vcn != rows[j].vcn)
  }

  ghost predicate Inv(s: State) {
    DistinctSlots(s.rows) && forall id :: id in s.rows ==> id < s.nextId
  }

  lemma {:induction false} Invariant(start: State, actions: seq<Action>)
    requires Inv(start)
    ensures Inv(Exec(start, actions))
    decreases |actions|
  {
    if actions != [] {
      var init, a := actions[..|actions| - 1], actions[|actions| - 1];
      Invariant(start, init);
      var s := Exec(start, init);
      if a.Create? && Created(s.rows, s.nextId, a.name, a.region).Ok? {
        var slot := FirstFree(UsedRanges(s.rows), 0).value;
        var s' := Exec(start, actions);
        SlotShape(slot);
        assert UsesSlot(s'.rows[s.nextId], slot);
      }
    }
  }

  // The ranges of the first n slots.
  function Ranges(n: nat): set<Cidr>
    requires n <= |CIDR_BLOCKS|
  {
    set i | 0 <= i < n :: CIDR_BLOCKS[i].0
  }

  lemma {:induction false} RangesCount(n: nat)
    requires n <= |CIDR_BLOCKS|
    ensures |Ranges(n)| == n
  {
    if n > 0 {
      RangesCount(n - 1);
      var last := CIDR_BLOCKS[n - 1].0;
      assert Ranges(n) == Ranges(n - 1) + {last};
      assert last !in Ranges(n - 1) by {
        forall i | 0 <= i < n - 1 ensures CIDR_BLOCKS[i].0 != last {
          SlotShape(i);
          SlotShape(n - 1);
        }
      }
    }
  }

  lemma {:induction false} UsedCount(rows: Table)
    ensures |UsedRanges(rows)| <= |rows|
    decreases |rows|
  {
    if rows == map[] {
      assert UsedRanges(rows) == {};
    } else {
      var id :| id in rows;
      var rest := rows - {id};
      UsedCount(rest);
      forall range | range in UsedRanges(rows) ensures range in UsedRanges(rest) + {rows[id].vcn} {
        var x :| x in rows && rows[x].vcn == range;
        assert x == id || x in rest;
      }
      assert UsedRanges(rows) == UsedRanges(rest) + {rows[id].vcn};
    }
  }

  lemma SubsetCount<T>(a: set<T>, b: set<T>)
    requires a <= b
    ensures |a| <= |b|
  {
    assert b == a + (b - a);
  }

  lemma SomeSlotIsFree(rows: Table)
    requires |rows| < MAX_NETWORKS
    ensures FirstFree(UsedRanges(rows), 0).Some?
  {
    if FirstFree(UsedRanges(rows), 0).None? {
      assert Ranges(|CIDR_BLOCKS|) <= UsedRanges(rows);
      RangesCount(|CIDR_BLOCKS|);
      UsedCount(rows);
      SubsetCount(Ranges(|CIDR_BLOCKS|), UsedRanges(rows));
    }
  }

  lemma TakenIsUsed(rows: Table, slot: nat)
    ensures IsTaken(rows, slot) <==> Cidr(10, slot, 0, 0, 16) in UsedRanges(rows)
  {
  }

  lemma FirstFreeIsLowest(rows: Table, slot: nat)
    requires FirstFree(UsedRanges(rows), 0) == Some(slot)
    ensures IsLowestFree(rows, slot)
  {
    hide FirstFree, IsTaken, UsedRanges;
    SlotShape(slot);
    TakenIsUsed(rows, slot);
    forall lower: nat | lower < slot ensures IsTaken(rows, lower) {
      SlotShape(lower);
      TakenIsUsed(rows, lower);
    }
  }

  /** Fifteen slots cannot all be taken by fewer than fifteen networks: below the
      limit a create always succeeds, and it takes the lowest slot not in use. */
  lemma CreateBelowLimit(rows: Table, id: nat, name: string, region: string)
    ensures |rows| >= 15 ==> Created(rows, id, name, region) == Err(LimitReached)
    ensures |rows| < 15 ==>
      exists slot ::
        && IsLowestFree(rows, slot)
        && Created(rows, id, name, region)
           == Ok(rows[id := Network(name, region, Cidr(10, slot, 0, 0, 16), Cidr(10, slot, 0, 0, 20))])
  {
    if |rows| < 15 {
      SomeSlotIsFree(rows);
      var slot := FirstFree(UsedRanges(rows), 0).value;
      SlotShape(slot);
      FirstFreeIsLowest(rows, slot);
    }
  }

  // ---- Addresses ----

  function PowerOfTwo(n: nat): nat {
    if n == 0 then 1 else 2 * PowerOfTwo(n - 1)
  }

  function FirstAddress(range: Cidr): nat {
    ((range.a * 256 + range.b) * 256 + range.c) * 256 + range.d
  }

  function Size(range: Cidr): nat {
    if range.length <= 32 then PowerOfTwo(32 - range.length) else 0
  }

  predicate Contains(range: Cidr, address: nat) {
    FirstAddress(range) <= address < FirstAddress(range) + Size(range)
  }

  lemma Sizes()
    ensures PowerOfTwo(16) == 65536 && PowerOfTwo(12) == 4096
  {
    assert PowerOfTwo(4) == 16;
    assert PowerOfTwo(8) == 256;
    assert PowerOfTwo(12) == 4096;
  }

  lemma SlotShape(slot: nat)
    requires slot < |CIDR_BLOCKS|
    ensures CIDR_BLOCKS[slot] == (Cidr(10, slot, 0, 0, 16), Cidr(10, slot, 0, 0, 20))
  {
  }

  lemma SlotAddresses(network: Network, slot: nat, address: nat)
    requires UsesSlot(network, slot)
    ensures Contains(network.vcn, address) <==> (10 * 256 + slot) * 65536 <= address < (10 * 256 + slot + 1) * 65536
    ensures Contains(network.subnet, address) ==> Contains(network.vcn, address)
    ensures Size(network.subnet) == 4096 && Size(network.vcn) == 65536
  {
    Sizes();
  }

  /** After any run on a table with distinct slots the networks' address ranges are
      pairwise disjoint and every subnet lies inside its own VCN. */
  lemma RangesDisjoint(start: State, actions: seq<Action>, i: nat, j: nat, address: nat)
    requires Inv(start) && i in Exec(start, actions).rows && j in Exec(start, actions).rows
    ensures var rows := Exec(start, actions).rows;
            && (Contains(rows[i].vcn, address) && Contains(rows[j].vcn, address) ==> i == j)
            && (Contains(rows[i].subnet, address) ==> Contains(rows[i].vcn, address))
            && Size(rows[i].subnet) == 4096 && Size(rows[i].vcn) == 65536
  {
    Invariant(start, actions);
    hide Exec, Contains, Size, UsesSlot;
    var rows := Exec(start, actions).rows;
    var p :| UsesSlot(rows[i], p);
    var q :| UsesSlot(rows[j], q);
    SlotAddresses(rows[i], p, address);
    SlotAddresses(rows[j], q, address);
    if p == q {
      SameSlot(rows[i], rows[j], p);
    }
  }

  lemma SameSlot(a: Network, b: Network, slot: nat)
    requires UsesSlot(a, slot) && UsesSlot(b, slot)
    ensures a.vcn == b.vcn
  {
  }
}
