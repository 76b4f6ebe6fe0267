/** Creating a primary partition from the expert partitioner: the requested
    size picks the first unused slot that can hold a primary partition of
    that size, and the partition is created there. */
module CreatePartition {
  import opened Seqs
  import PS = PartitionSlots

  datatype PartitionType = Primary | Extended | Logical

  datatype Partition = Partition(slotName: string, region: PS.Region, partitionType: PartitionType)

  /** A partition table; creating a partition appends it. */
  class PartitionTable {
    var partitions: seq<Partition>

    constructor ()
      ensures partitions == []
    {
      partitions := [];
    }

    method CreatePartition(name: string, region: PS.Region, partitionType: PartitionType) returns (p: Partition)
      modifies this
      ensures p == Partition(name, region, partitionType)
      ensures partitions == old(partitions) + [p]
    {
      p := Partition(name, region, partitionType);
      partitions := partitions + [p];
    }
  }

  /** The region conversions: a number of blocks to KiB, and KiB to blocks. */
  datatype RegionOps = RegionOps(
    toKb: (PS.Region, nat) -> nat,
    toValue: (PS.Region, nat) -> nat)

  /** The requested size in whole KiB, rounded down. */
  function SizeK(bytes: nat): (r: nat)
    ensures r * 1024 <= bytes < (r + 1) * 1024
  {
    bytes / 1024
  }

  /** A slot that can take a primary partition of `sizeK` KiB. */
  predicate Suitable(ops: RegionOps, sizeK: nat, slot: PS.Slot)
  {
    slot.primarySlot && slot.primaryPossible && sizeK <= ops.toKb(slot.region, slot.region.length)
  }

  function SuitableFor(ops: RegionOps, sizeK: nat): PS.Slot -> bool
  {
    slot => Suitable(ops, sizeK, slot)
  }

  /** Keeps, in order, the suitable slots. */
  method DeleteUnsuitable(ops: RegionOps, sizeK: nat, slots: seq<PS.Slot>) returns (kept: seq<PS.Slot>)
    ensures kept == Filter(slots, SuitableFor(ops, sizeK))
  {
    kept := [];
    var i := 0;
    while i < |slots|
      invariant 0 <= i <= |slots|
      invariant kept == Filter(slots[..i], SuitableFor(ops, sizeK))
    {
      assert slots[..i + 1] == slots[..i] + [slots[i]];
      FilterConcat(slots[..i], [slots[i]], SuitableFor(ops, sizeK));
      if Suitable(ops, sizeK, slots[i]) {
        kept := kept + [slots[i]];
      }
      i := i + 1;
    }
    assert slots[..i] == slots;
  }

  /** The kept slots are the suitable ones, and the first of them is the
      first suitable slot of the table, not the smallest one. */
  lemma {:induction false} KeptSlotsSpec(ops: RegionOps, sizeK: nat, slots: seq<PS.Slot>)
    ensures var kept := Filter(slots, SuitableFor(ops, sizeK));
      (forall s :: s in kept <==> s in slots && Suitable(ops, sizeK, s)) &&
      (kept != [] ==>
         exists i :: 0 <= i < |slots| && slots[i] == kept[0] &&
                     forall j :: 0 <= j < i ==> !Suitable(ops, sizeK, slots[j])) &&
      (kept == [] <==> forall j :: 0 <= j < |slots| ==> !Suitable(ops, sizeK, slots[j]))
  {
    FilterMembership(slots, SuitableFor(ops, sizeK));
    if slots != [] {
      KeptSlotsSpec(ops, sizeK, slots[1..]);
      var kept := Filter(slots, SuitableFor(ops, sizeK));
      if !Suitable(ops, sizeK, slots[0]) && kept != [] {
        var i :| 0 <= i < |slots[1..]| && slots[1..][i] == kept[0] &&
          forall j :: 0 <= j < i ==> !Suitable(ops, sizeK, slots[1..][j]);
        assert slots[i + 1] == kept[0];
      }
      if kept == [] {
        forall j | 0 <= j < |slots| ensures !Suitable(ops, sizeK, slots[j]) {
          assert slots[j] in slots;
        }
      }
    }
  }

  datatype Outcome = NoSuitableSlot | Created(partition: Partition)

  /** Keeps the suitable slots; without one reports that none was found and
      creates nothing; otherwise sets the first slot's length to the
      requested size and creates a primary partition there. */
  method Doit(ops: RegionOps, sizeBytes: nat, table: PartitionTable, unusedSlots: seq<PS.Slot>) returns (outcome: Outcome)
    modifies table
    ensures var kept := Filter(unusedSlots, SuitableFor(ops, SizeK(sizeBytes)));
      (kept == [] ==> outcome == NoSuitableSlot && table.partitions == old(table.partitions)) &&
      (kept != [] ==>
        outcome == Created(Partition(
          kept[0].name,
          kept[0].region.(length := ops.toValue(kept[0].region, SizeK(sizeBytes))),
          Primary)) &&
        table.partitions == old(table.partitions) + [outcome.partition])
  {
    var sizeK := SizeK(sizeBytes);
    var slots := DeleteUnsuitable(ops, sizeK, unusedSlots);
    if slots == [] {
      return NoSuitableSlot;
    }
    var slot := slots[0];
    var region := slot.region.(length := ops.toValue(slot.region, sizeK));
    var p := table.CreatePartition(slot.name, region, Primary);
    outcome := Created(p);
  }
}
