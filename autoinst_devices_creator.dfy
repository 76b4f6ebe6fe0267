/** The AutoYaST devices creator: takes the planned devices of a profile and a
    devicegraph in which old devices were already deleted or resized, and
    creates or reuses the planned devices in dependency order (partitions,
    disk-like devices, MD RAIDs, bcaches, volume groups, NFS shares). When a
    creator finds no room, it retries once with "flexible" devices whose
    minimum size is 1 byte and whose weight is the old minimum.

    The distribution calculator, the Partition/Md/Bcache/Lvm/Nfs creators and
    the planned devices' own `reuse!`, `shrink?` and `size_in` are not shown;
    they are the function-valued fields of `Ops`. */
module AutoinstCreation {
  import opened Wrappers
  import opened Seqs
  import G = Devicegraphs
  import P = Planned

  datatype Error = NoDiskSpace | CreatorError(message: string)

  /** An entry of the AutoYaST issues list. */
  datatype Issue = NoPvs(vg: P.Device)

  /** A device a creator made: its name and the planned device it came from. */
  datatype Created = Created(name: string, planned: P.Device)

  /** A creator's result: the new devicegraph and the devices created so far. */
  datatype CreatorResult = CreatorResult(devicegraph: G.Devicegraph, created: seq<Created>)

  /** What `populated_devicegraph` returns: the final creator result together
      with every planned device that was to be created. */
  datatype AutoinstCreatorResult = AutoinstCreatorResult(creatorResult: CreatorResult, createdDevices: seq<P.Device>)

  /** A distribution of planned partitions over free spaces, as the calculator
      returns it. */
  datatype Distribution = Distribution(placements: seq<(P.Device, G.FreeSpace)>)

  /** The collaborators this class calls but whose code is not part of the model. */
  datatype Ops = Ops(
    duplicate: G.Devicegraph -> G.Devicegraph,
    shrinks: G.Devicegraph -> P.Device -> bool,
    reuse: (G.Devicegraph, P.Device) -> G.Devicegraph,
    sizeIn: (P.Device, Option<G.Disk>) -> nat,
    calculate: (seq<P.Device>, seq<G.FreeSpace>) -> Option<Distribution>,
    createPartitions: (G.Devicegraph, Distribution) -> Result<CreatorResult, Error>,
    mdNameIs: (P.Device, Option<string>) -> bool,
    reuseMd: (G.Devicegraph, P.Device) -> CreatorResult,
    createMd: (G.Devicegraph, P.Device, seq<Option<string>>) -> Result<CreatorResult, Error>,
    reuseBcache: (G.Devicegraph, P.Device) -> CreatorResult,
    createBcache: (G.Devicegraph, P.Device, Option<string>, Option<string>) -> Result<CreatorResult, Error>,
    reuseVg: (G.Devicegraph, P.Device) -> CreatorResult,
    createVolumes: (G.Devicegraph, P.Device, seq<Option<string>>) -> Result<CreatorResult, Error>,
    createNfs: (G.Devicegraph, P.Device) -> Result<CreatorResult, Error>)

  // ---------------------------------------------------------------------------
  // Creator results

  /** `merge`: the later devicegraph, and the created devices of both results. */
  function Merge(a: CreatorResult, b: CreatorResult): (r: CreatorResult)
    ensures r.devicegraph == b.devicegraph
    ensures r.created == a.created + b.created
  {
    CreatorResult(b.devicegraph, a.created + b.created)
  }

  /** `created_names { |d| pred(d) }`: names of the created devices whose planned
      device satisfies `pred`, in creation order. */
  function CreatedNames(cs: seq<Created>, pred: P.Device -> bool): seq<string>
  {
    if cs == [] then [] else (if pred(cs[0].planned) then [cs[0].name] else []) + CreatedNames(cs[1..], pred)
  }

  /** The names listed are exactly those of the created devices selected by
      `pred`; the list is empty exactly when no created device is selected; and
      its first name belongs to the first selected device. */
  lemma {:induction false} CreatedNamesSpec(cs: seq<Created>, pred: P.Device -> bool)
    ensures forall n :: n in CreatedNames(cs, pred) <==> exists i :: 0 <= i < |cs| && cs[i].name == n && pred(cs[i].planned)
    ensures CreatedNames(cs, pred) == [] <==> forall i :: 0 <= i < |cs| ==> !pred(cs[i].planned)
    ensures CreatedNames(cs, pred) != [] ==>
      exists i :: 0 <= i < |cs| && pred(cs[i].planned) && CreatedNames(cs, pred)[0] == cs[i].name &&
        (forall j :: 0 <= j < i ==> !pred(cs[j].planned))
  {
    if cs != [] {
      CreatedNamesSpec(cs[1..], pred);
      assert forall i :: 1 <= i < |cs| ==> cs[i] == cs[1..][i - 1];
      if !pred(cs[0].planned) && CreatedNames(cs, pred) != [] {
        var i :| 0 <= i < |cs[1..]| && pred(cs[1..][i].planned) && CreatedNames(cs[1..], pred)[0] == cs[1..][i].name &&
          (forall j :: 0 <= j < i ==> !pred(cs[1..][j].planned));
        assert cs[i + 1] == cs[1..][i];
      }
    }
  }

  // ---------------------------------------------------------------------------
  // Planned device adjustments

  /** The flexible copy of one device: minimum 1 byte, weight the old minimum. */
  function FlexibleDevice(d: P.Device): P.Device
  {
    d.(common := d.common.(size := d.common.size.(min := 1, weight := d.common.size.min)))
  }

  /** `flexible_devices`: same devices, same order; each copy has a minimum size
      of 1 byte, a weight equal to the original minimum in bytes and the
      original maximum, and is otherwise the original device. */
  function FlexibleDevices(ds: seq<P.Device>): (r: seq<P.Device>)
    ensures |r| == |ds|
    ensures forall i :: 0 <= i < |ds| ==> r[i].common.size.min == 1
    ensures forall i :: 0 <= i < |ds| ==> r[i].common.size.weight == ds[i].common.size.min
    ensures forall i :: 0 <= i < |ds| ==> r[i].common.size.max == ds[i].common.size.max
    ensures forall i :: 0 <= i < |ds| ==>
      r[i].kind == ds[i].kind && r[i].common.(size := ds[i].common.size) == ds[i].common
  {
    Map(ds, FlexibleDevice)
  }

  /** A copy of an MD RAID, a bcache or a volume group whose nested devices
      (`partitions` / `lvs`) are made flexible; nothing else changes. */
  function WithFlexibleChildren(d: P.Device): (r: P.Device)
    ensures P.Children(r) == FlexibleDevices(P.Children(d))
    ensures r.common == d.common
    ensures P.WithChildren(r.kind, []) == P.WithChildren(d.kind, [])
  {
    P.Device(d.common, P.WithChildren(d.kind, FlexibleDevices(P.Children(d))))
  }

  function SizedPartition(ops: Ops, original: G.Devicegraph, part: P.Device): P.Device
  {
    if part.kind.Partition? && part.kind.percentSize.Some? then
      var size := ops.sizeIn(part, G.FindDisk(original, part.kind.disk));
      part.(common := part.common.(size := part.common.size.(min := size, max := size)))
    else part
  }

  /** `sized_partitions`: a partition sized as a percentage gets minimum and
      maximum both set to its size on its disk of the original devicegraph,
      and keeps everything else; every other partition is returned unchanged. */
  function SizedPartitions(ops: Ops, original: G.Devicegraph, parts: seq<P.Device>): (r: seq<P.Device>)
    ensures |r| == |parts|
    ensures forall i :: 0 <= i < |parts| && parts[i].kind.Partition? && parts[i].kind.percentSize.Some? ==>
      r[i].common.size.min == r[i].common.size.max == ops.sizeIn(parts[i], G.FindDisk(original, parts[i].kind.disk)) &&
      r[i].common.size.weight == parts[i].common.size.weight &&
      r[i].kind == parts[i].kind &&
      r[i].common.(size := parts[i].common.size) == parts[i].common
    ensures forall i :: 0 <= i < |parts| && !(parts[i].kind.Partition? && parts[i].kind.percentSize.Some?) ==> r[i] == parts[i]
  {
    Map(parts, (part: P.Device) => SizedPartition(ops, original, part))
  }

  // ---------------------------------------------------------------------------
  // Partitions

  predicate IsPartitionDev(d: P.Device) { d.kind.Partition? }
  predicate IsDiskLike(d: P.Device) { d.kind.StrayBlk? || d.kind.Disk? }
  predicate IsMdDev(d: P.Device) { d.kind.Md? }
  predicate IsBcacheDev(d: P.Device) { d.kind.Bcache? }
  predicate IsVgDev(d: P.Device) { d.kind.LvmVg? }
  predicate IsNfsDev(d: P.Device) { d.kind.Nfs? }
  predicate IsPrimary(d: P.Device) { d.kind.Partition? && d.kind.primary }

  predicate OnDisk(diskNames: seq<string>, d: G.Disk) { d.name in diskNames }

  /** The free spaces of the disks whose name is in `diskNames`. */
  function FreeSpacesFor(g: G.Devicegraph, diskNames: seq<string>): seq<G.FreeSpace>
  {
    Flatten(Map(Filter(g.disks, (d: G.Disk) => OnDisk(diskNames, d)), (d: G.Disk) => d.freeSpaces))
  }

  /** A free space is considered exactly when it lies on a disk of the
      devicegraph whose name is in `diskNames`. */
  lemma FreeSpacesForSpec(g: G.Devicegraph, diskNames: seq<string>)
    ensures forall s :: s in FreeSpacesFor(g, diskNames) <==> exists d :: d in g.disks && d.name in diskNames && s in d.freeSpaces
  {
    var disks := Filter(g.disks, (d: G.Disk) => OnDisk(diskNames, d));
    FilterMembership(g.disks, (d: G.Disk) => OnDisk(diskNames, d));
    var spaces := Map(disks, (d: G.Disk) => d.freeSpaces);
    FlattenMembership(spaces);
    forall s ensures s in FreeSpacesFor(g, diskNames) <==> exists d :: d in g.disks && d.name in diskNames && s in d.freeSpaces {
      if exists d :: d in g.disks && d.name in diskNames && s in d.freeSpaces {
        var d :| d in g.disks && d.name in diskNames && s in d.freeSpaces;
        var i :| 0 <= i < |disks| && disks[i] == d;
        assert s in spaces[i];
      }
      if s in FreeSpacesFor(g, diskNames) {
        var i :| 0 <= i < |spaces| && s in spaces[i];
        assert disks[i] in disks && s in disks[i].freeSpaces;
      }
    }
  }

  /** `best_distribution`: the calculator over the selected disks' free spaces
      with the devices as planned; only when that finds nothing, a second call
      with their flexible copies. */
  function BestDistribution(ops: Ops, g: G.Devicegraph, diskNames: seq<string>, parts: seq<P.Device>): (r: Option<Distribution>)
    ensures ops.calculate(parts, FreeSpacesFor(g, diskNames)).Some? ==> r == ops.calculate(parts, FreeSpacesFor(g, diskNames))
    ensures ops.calculate(parts, FreeSpacesFor(g, diskNames)).None? ==>
      r == ops.calculate(FlexibleDevices(parts), FreeSpacesFor(g, diskNames))
  {
    var spaces := FreeSpacesFor(g, diskNames);
    var dist := ops.calculate(parts, spaces);
    if dist.Some? then dist else ops.calculate(FlexibleDevices(parts), spaces)
  }

  /** The order `create_partitions` hands the partitions to the calculator in:
      primary partitions first, then the others. */
  function PrimaryFirst(parts: seq<P.Device>): seq<P.Device>
  {
    SelectedFirst(parts, IsPrimary)
  }

  /** The reordering loses and adds nothing, puts every primary partition before
      every other one, and keeps the original order inside each group. */
  lemma PrimaryFirstSpec(parts: seq<P.Device>)
    ensures multiset(PrimaryFirst(parts)) == multiset(parts) && |PrimaryFirst(parts)| == |parts|
    ensures forall i :: 0 <= i < |Filter(parts, IsPrimary)| ==> IsPrimary(PrimaryFirst(parts)[i])
    ensures forall i :: |Filter(parts, IsPrimary)| <= i < |parts| ==> !IsPrimary(PrimaryFirst(parts)[i])
    ensures Filter(PrimaryFirst(parts), IsPrimary) == Filter(parts, IsPrimary)
    ensures Reject(PrimaryFirst(parts), IsPrimary) == Reject(parts, IsPrimary)
  {
    SelectedFirstSpec(parts, IsPrimary);
    SelectedFirstKeepsOrder(parts, IsPrimary);
  }

  /** `create_partitions`: fails with NoDiskSpace exactly when no distribution is
      found for the primary-first ordering; otherwise the partition creator
      builds the partitions of that distribution. */
  function CreatePartitions(ops: Ops, g: G.Devicegraph, diskNames: seq<string>, parts: seq<P.Device>): (r: Result<CreatorResult, Error>)
    ensures BestDistribution(ops, g, diskNames, PrimaryFirst(parts)).None? ==> r == Err(NoDiskSpace)
    ensures BestDistribution(ops, g, diskNames, PrimaryFirst(parts)).Some? ==>
      r == ops.createPartitions(g, BestDistribution(ops, g, diskNames, PrimaryFirst(parts)).value)
  {
    var dist := BestDistribution(ops, g, diskNames, PrimaryFirst(parts));
    if dist.None? then Err(NoDiskSpace) else ops.createPartitions(g, dist.value)
  }

  /** The order `reuse_partitions` reuses partitions in: those that shrink in
      the devicegraph as it was before any reuse, then the rest. */
  function ReuseOrder(shrinks: P.Device -> bool, devs: seq<P.Device>): seq<P.Device>
  {
    SelectedFirst(devs, shrinks)
  }

  /** Every partition is reused exactly once; every shrinking one before every
      other one; each group in its original order. */
  lemma ReuseOrderSpec(shrinks: P.Device -> bool, devs: seq<P.Device>)
    ensures multiset(ReuseOrder(shrinks, devs)) == multiset(devs) && |ReuseOrder(shrinks, devs)| == |devs|
    ensures forall i :: 0 <= i < |Filter(devs, shrinks)| ==> shrinks(ReuseOrder(shrinks, devs)[i])
    ensures forall i :: |Filter(devs, shrinks)| <= i < |devs| ==> !shrinks(ReuseOrder(shrinks, devs)[i])
    ensures Filter(ReuseOrder(shrinks, devs), shrinks) == Filter(devs, shrinks)
    ensures Reject(ReuseOrder(shrinks, devs), shrinks) == Reject(devs, shrinks)
  {
    SelectedFirstSpec(devs, shrinks);
    SelectedFirstKeepsOrder(devs, shrinks);
  }

  /** The devicegraph after `reuse!` of every device of `devs`, in order. */
  function ReuseAll(ops: Ops, g: G.Devicegraph, devs: seq<P.Device>): G.Devicegraph
    decreases |devs|
  {
    if devs == [] then g else ReuseAll(ops, ops.reuse(g, devs[0]), devs[1..])
  }

  lemma {:induction false} ReuseAllStep(ops: Ops, g: G.Devicegraph, devs: seq<P.Device>, i: nat)
    requires i < |devs|
    ensures ReuseAll(ops, g, devs[..i + 1]) == ops.reuse(ReuseAll(ops, g, devs[..i]), devs[i])
    decreases i
  {
    if i > 0 {
      assert devs[..i + 1][1..] == devs[1..][..i];
      assert devs[..i][1..] == devs[1..][..i - 1];
      ReuseAllStep(ops, ops.reuse(g, devs[0]), devs[1..], i - 1);
    }
  }

  /** The creator result after merging `reuser`'s result for each device, each
      step starting from the previous step's devicegraph (`each_with_object`
      with `merge!`). */
  function MergeReused(r: CreatorResult, devs: seq<P.Device>, reuser: (G.Devicegraph, P.Device) -> CreatorResult): CreatorResult
    decreases |devs|
  {
    if devs == [] then r else MergeReused(Merge(r, reuser(r.devicegraph, devs[0])), devs[1..], reuser)
  }

  lemma {:induction false} MergeReusedStep(r: CreatorResult, devs: seq<P.Device>, reuser: (G.Devicegraph, P.Device) -> CreatorResult, i: nat)
    requires i < |devs|
    ensures var before := MergeReused(r, devs[..i], reuser);
      MergeReused(r, devs[..i + 1], reuser) == Merge(before, reuser(before.devicegraph, devs[i]))
    decreases i
  {
    if i > 0 {
      assert devs[..i + 1][1..] == devs[1..][..i];
      assert devs[..i][1..] == devs[1..][..i - 1];
      MergeReusedStep(Merge(r, reuser(r.devicegraph, devs[0])), devs[1..], reuser, i - 1);
    }
  }

  /** Merging reused devices only ever appends to the created devices. */
  lemma {:induction false} MergeReusedKeepsCreated(r: CreatorResult, devs: seq<P.Device>, reuser: (G.Devicegraph, P.Device) -> CreatorResult)
    ensures |MergeReused(r, devs, reuser).created| >= |r.created|
    ensures MergeReused(r, devs, reuser).created[..|r.created|] == r.created
    decreases |devs|
  {
    if devs != [] {
      var next := Merge(r, reuser(r.devicegraph, devs[0]));
      MergeReusedKeepsCreated(next, devs[1..], reuser);
      assert next.created[..|r.created|] == r.created;
    }
  }

  // ---------------------------------------------------------------------------
  // MD RAIDs

  /** The devices `md` takes as members: those that answer `raid_name` with a
      name `md` answers to. */
  function MdMemberOf(ops: Ops, md: P.Device): P.Device -> bool
  {
    (d: P.Device) => P.CanBeMember(d) && ops.mdNameIs(md, P.RaidName(d))
  }

  /** The member names passed to the MD creator for `md` (`create_mds`): the
      names of the created devices that are its members, then the reuse names of
      the reusable devices that are. */
  function MdMembers(ops: Ops, acc: CreatorResult, md: P.Device, reusable: seq<P.Device>): seq<Option<string>>
  {
    Somes(CreatedNames(acc.created, MdMemberOf(ops, md))) + Map(Filter(reusable, MdMemberOf(ops, md)), P.ReuseName)
  }

  /** The first part of the list names exactly the created members; the rest
      holds the reuse name of every reusable member, one entry each. */
  lemma MdMembersSpec(ops: Ops, acc: CreatorResult, md: P.Device, reusable: seq<P.Device>)
    ensures var r := MdMembers(ops, acc, md, reusable);
      var k := |CreatedNames(acc.created, MdMemberOf(ops, md))|;
      k <= |r| &&
      (forall n :: Some(n) in r[..k] <==>
        exists i :: 0 <= i < |acc.created| && acc.created[i].name == n && MdMemberOf(ops, md)(acc.created[i].planned)) &&
      (forall d :: d in reusable && MdMemberOf(ops, md)(d) ==> P.ReuseName(d) in r[k..]) &&
      |r| - k == |Filter(reusable, MdMemberOf(ops, md))|
  {
    var created := CreatedNames(acc.created, MdMemberOf(ops, md));
    var reused := Filter(reusable, MdMemberOf(ops, md));
    var r := MdMembers(ops, acc, md, reusable);
    CreatedNamesSpec(acc.created, MdMemberOf(ops, md));
    SomesMembership(created);
    FilterMembership(reusable, MdMemberOf(ops, md));
    MapMembership(reused, P.ReuseName);
    assert r[..|created|] == Somes(created) && r[|created|..] == Map(reused, P.ReuseName);
  }

  /** `create_md`: the MD creator with the RAID as planned; only on NoDiskSpace,
      one more call with its partitions made flexible. Any other outcome is the
      first call's. */
  function CreateMd(ops: Ops, g: G.Devicegraph, md: P.Device, devices: seq<Option<string>>): (r: Result<CreatorResult, Error>)
    ensures ops.createMd(g, md, devices) != Err(NoDiskSpace) ==> r == ops.createMd(g, md, devices)
    ensures ops.createMd(g, md, devices) == Err(NoDiskSpace) ==> r == ops.createMd(g, WithFlexibleChildren(md), devices)
  {
    var first := ops.createMd(g, md, devices);
    if first == Err(NoDiskSpace) then ops.createMd(g, WithFlexibleChildren(md), devices) else first
  }

  /** `create_mds`: folds the MD creations over `mds`, each starting from the
      previous result; the first error stops the fold. */
  function CreateMds(ops: Ops, acc: CreatorResult, mds: seq<P.Device>, reusable: seq<P.Device>): (r: Result<CreatorResult, Error>)
    ensures r.Ok? ==> |r.value.created| >= |acc.created| && r.value.created[..|acc.created|] == acc.created
    ensures mds == [] ==> r == Ok(acc)
    decreases |mds|
  {
    if mds == [] then Ok(acc)
    else
      match CreateMd(ops, acc.devicegraph, mds[0], MdMembers(ops, acc, mds[0], reusable))
      case Err(e) => Err(e)
      case Ok(made) =>
        var r := CreateMds(ops, Merge(acc, made), mds[1..], reusable);
        assert r.Ok? ==> r.value.created[..|acc.created|] == (acc.created + made.created)[..|acc.created|];
        r
  }

  // ---------------------------------------------------------------------------
  // Bcaches

  /** `bcache_member_for?`: the devices that play `role` in the bcache named
      `bcacheName`. */
  function BcacheMemberOf(bcacheName: string, role: P.Role): P.Device -> bool
  {
    (d: P.Device) => P.BcacheMemberFor(d, bcacheName, role)
  }

  /** `find_bcache_member`: the first created device playing `role` for the
      bcache; failing that, the reuse name of the first reusable device playing
      it; failing that, None. */
  function FindBcacheMember(bcacheName: string, role: P.Role, result: CreatorResult, reusable: seq<P.Device>): Option<string>
  {
    var names := CreatedNames(result.created, BcacheMemberOf(bcacheName, role));
    if names != [] then Some(names[0])
    else
      match Find(reusable, BcacheMemberOf(bcacheName, role))
      case None => None
      case Some(d) => P.ReuseName(d)
  }

  /** Created devices take precedence over reusable ones, the first one
      found wins, and None means no device plays the role. */
  lemma FindBcacheMemberSpec(bcacheName: string, role: P.Role, result: CreatorResult, reusable: seq<P.Device>)
    ensures var r := FindBcacheMember(bcacheName, role, result, reusable);
      (exists i :: 0 <= i < |result.created| && P.BcacheMemberFor(result.created[i].planned, bcacheName, role)) ==>
        exists i :: 0 <= i < |result.created| && P.BcacheMemberFor(result.created[i].planned, bcacheName, role) &&
          r == Some(result.created[i].name) &&
          forall j :: 0 <= j < i ==> !P.BcacheMemberFor(result.created[j].planned, bcacheName, role)
    ensures var r := FindBcacheMember(bcacheName, role, result, reusable);
      (forall i :: 0 <= i < |result.created| ==> !P.BcacheMemberFor(result.created[i].planned, bcacheName, role)) &&
      (exists i :: 0 <= i < |reusable| && P.BcacheMemberFor(reusable[i], bcacheName, role)) ==>
        exists i :: 0 <= i < |reusable| && P.BcacheMemberFor(reusable[i], bcacheName, role) &&
          r == P.ReuseName(reusable[i]) &&
          forall j :: 0 <= j < i ==> !P.BcacheMemberFor(reusable[j], bcacheName, role)
    ensures var r := FindBcacheMember(bcacheName, role, result, reusable);
      (forall i :: 0 <= i < |result.created| ==> !P.BcacheMemberFor(result.created[i].planned, bcacheName, role)) &&
      (forall i :: 0 <= i < |reusable| ==> !P.BcacheMemberFor(reusable[i], bcacheName, role)) ==>
        r == None
  {
    CreatedNamesSpec(result.created, BcacheMemberOf(bcacheName, role));
  }

  /** `create_bcache`: the bcache creator as planned; only on NoDiskSpace, one
      more call with its partitions made flexible. */
  function CreateBcache(ops: Ops, g: G.Devicegraph, bcache: P.Device, backing: Option<string>, caching: Option<string>): (r: Result<CreatorResult, Error>)
    ensures ops.createBcache(g, bcache, backing, caching) != Err(NoDiskSpace) ==> r == ops.createBcache(g, bcache, backing, caching)
    ensures ops.createBcache(g, bcache, backing, caching) == Err(NoDiskSpace) ==>
      r == ops.createBcache(g, WithFlexibleChildren(bcache), backing, caching)
  {
    var first := ops.createBcache(g, bcache, backing, caching);
    if first == Err(NoDiskSpace) then ops.createBcache(g, WithFlexibleChildren(bcache), backing, caching) else first
  }

  /** `create_bcaches`: folds the bcache creations; members are looked up in
      `previous`, the creator result from before the fold, and the fold
      accumulator only receives the merges. */
  function CreateBcaches(ops: Ops, previous: CreatorResult, acc: CreatorResult, bcaches: seq<P.Device>, reusable: seq<P.Device>): (r: Result<CreatorResult, Error>)
    requires forall b :: b in bcaches ==> b.kind.Bcache?
    ensures r.Ok? ==> |r.value.created| >= |acc.created| && r.value.created[..|acc.created|] == acc.created
    ensures bcaches == [] ==> r == Ok(acc)
    decreases |bcaches|
  {
    if bcaches == [] then Ok(acc)
    else
      var b := bcaches[0];
      var backing := FindBcacheMember(b.kind.name, P.Backing, previous, reusable);
      var caching := FindBcacheMember(b.kind.name, P.Caching, previous, reusable);
      match CreateBcache(ops, acc.devicegraph, b, backing, caching)
      case Err(e) => Err(e)
      case Ok(made) =>
        var r := CreateBcaches(ops, previous, Merge(acc, made), bcaches[1..], reusable);
        assert r.Ok? ==> r.value.created[..|acc.created|] == (acc.created + made.created)[..|acc.created|];
        r
  }

  // ---------------------------------------------------------------------------
  // LVM

  /** `pv_for?(vg_name)` as a selector. */
  function PvOf(vgName: string): P.Device -> bool
  {
    (d: P.Device) => P.PvFor(d, vgName)
  }

  /** The physical volume names for the volume group `vgName` (`set_up_lvm`):
      names of the previously created devices that are PVs for it, then the
      reuse names of the reusable devices that are. */
  function PvNames(previous: CreatorResult, vgName: string, reusable: seq<P.Device>): seq<Option<string>>
  {
    Somes(CreatedNames(previous.created, PvOf(vgName))) + Map(Filter(reusable, PvOf(vgName)), P.ReuseName)
  }

  /** The list is empty exactly when no device of either list is a PV for the
      volume group. */
  lemma PvNamesEmpty(previous: CreatorResult, vgName: string, reusable: seq<P.Device>)
    ensures PvNames(previous, vgName, reusable) == [] <==>
      (forall i :: 0 <= i < |previous.created| ==> !P.PvFor(previous.created[i].planned, vgName)) &&
      (forall d :: d in reusable ==> !P.PvFor(d, vgName))
  {
    CreatedNamesSpec(previous.created, PvOf(vgName));
    var reused := Filter(reusable, PvOf(vgName));
    FilterMembership(reusable, PvOf(vgName));
    assert reused != [] ==> reused[0] in reused;
  }

  /** `create_logical_volumes`: the LVM creator as planned; on any error, one
      more call with the logical volumes made flexible. */
  function CreateLogicalVolumes(ops: Ops, g: G.Devicegraph, vg: P.Device, pvs: seq<Option<string>>): (r: Result<CreatorResult, Error>)
    ensures ops.createVolumes(g, vg, pvs).Ok? ==> r == ops.createVolumes(g, vg, pvs)
    ensures ops.createVolumes(g, vg, pvs).Err? ==> r == ops.createVolumes(g, WithFlexibleChildren(vg), pvs)
  {
    var first := ops.createVolumes(g, vg, pvs);
    if first.Err? then ops.createVolumes(g, WithFlexibleChildren(vg), pvs) else first
  }

  /** One step of the `set_up_lvm` fold: a volume group without physical
      volumes records a `:no_pvs` issue and leaves the result as it was;
      otherwise its creation result is merged in. */
  function SetUpVg(ops: Ops, previous: CreatorResult, acc: CreatorResult, issues: seq<Issue>, vg: P.Device, reusable: seq<P.Device>): (r: Result<(CreatorResult, seq<Issue>), Error>)
    requires vg.kind.LvmVg?
    ensures PvNames(previous, vg.kind.vgName, reusable) == [] ==> r == Ok((acc, issues + [NoPvs(vg)]))
    ensures PvNames(previous, vg.kind.vgName, reusable) != [] ==>
      match CreateLogicalVolumes(ops, acc.devicegraph, vg, PvNames(previous, vg.kind.vgName, reusable))
      case Ok(made) => r == Ok((Merge(acc, made), issues))
      case Err(e) => r == Err(e)
  {
    var pvs := PvNames(previous, vg.kind.vgName, reusable);
    if pvs == [] then Ok((acc, issues + [NoPvs(vg)]))
    else
      match CreateLogicalVolumes(ops, acc.devicegraph, vg, pvs)
      case Err(e) => Err(e)
      case Ok(made) => Ok((Merge(acc, made), issues))
  }

  /** `set_up_lvm`: folds `SetUpVg` over the volume groups. */
  function SetUpLvm(ops: Ops, previous: CreatorResult, acc: CreatorResult, issues: seq<Issue>, vgs: seq<P.Device>, reusable: seq<P.Device>): Result<(CreatorResult, seq<Issue>), Error>
    requires forall vg :: vg in vgs ==> vg.kind.LvmVg?
    decreases |vgs|
  {
    if vgs == [] then Ok((acc, issues))
    else
      match SetUpVg(ops, previous, acc, issues, vgs[0], reusable)
      case Err(e) => Err(e)
      case Ok(step) => SetUpLvm(ops, previous, step.0, step.1, vgs[1..], reusable)
  }

  predicate HasNoPvs(previous: CreatorResult, reusable: seq<P.Device>, vg: P.Device)
    requires vg.kind.LvmVg?
  {
    PvNames(previous, vg.kind.vgName, reusable) == []
  }

  function NoPvsIssues(previous: CreatorResult, reusable: seq<P.Device>, vgs: seq<P.Device>): seq<Issue>
    requires forall vg :: vg in vgs ==> vg.kind.LvmVg?
    decreases |vgs|
  {
    if vgs == [] then []
    else (if HasNoPvs(previous, reusable, vgs[0]) then [NoPvs(vgs[0])] else []) + NoPvsIssues(previous, reusable, vgs[1..])
  }

  /** When `set_up_lvm` succeeds, the issues it adds are exactly one `:no_pvs`
      issue per volume group without physical volumes, in order; the volume
      groups that have some are not reported. */
  lemma {:induction false} SetUpLvmIssues(ops: Ops, previous: CreatorResult, acc: CreatorResult, issues: seq<Issue>, vgs: seq<P.Device>, reusable: seq<P.Device>)
    requires forall vg :: vg in vgs ==> vg.kind.LvmVg?
    requires SetUpLvm(ops, previous, acc, issues, vgs, reusable).Ok?
    ensures SetUpLvm(ops, previous, acc, issues, vgs, reusable).value.1 == issues + NoPvsIssues(previous, reusable, vgs)
    decreases |vgs|
  {
    if vgs != [] {
      var step := SetUpVg(ops, previous, acc, issues, vgs[0], reusable).value;
      SetUpLvmIssues(ops, previous, step.0, step.1, vgs[1..], reusable);
    }
  }

  /** A run where no volume group finds physical volumes never fails and never
      changes the result: it only records one issue per volume group. */
  lemma {:induction false} SetUpLvmWithoutPvs(ops: Ops, previous: CreatorResult, acc: CreatorResult, issues: seq<Issue>, vgs: seq<P.Device>, reusable: seq<P.Device>)
    requires forall vg :: vg in vgs ==> vg.kind.LvmVg?
    requires forall vg :: vg in vgs ==> HasNoPvs(previous, reusable, vg)
    ensures SetUpLvm(ops, previous, acc, issues, vgs, reusable).Ok?
    ensures SetUpLvm(ops, previous, acc, issues, vgs, reusable).value.0 == acc
    ensures |SetUpLvm(ops, previous, acc, issues, vgs, reusable).value.1| == |issues| + |vgs|
    decreases |vgs|
  {
    if vgs != [] {
      assert vgs[0] in vgs && HasNoPvs(previous, reusable, vgs[0]);
      SetUpLvmWithoutPvs(ops, previous, acc, issues + [NoPvs(vgs[0])], vgs[1..], reusable);
    }
  }

  // ---------------------------------------------------------------------------
  // NFS

  /** `create_nfs_filesystems`: folds the NFS creations, merging each result. */
  function CreateNfsFilesystems(ops: Ops, acc: CreatorResult, shares: seq<P.Device>): (r: Result<CreatorResult, Error>)
    ensures r.Ok? ==> |r.value.created| >= |acc.created| && r.value.created[..|acc.created|] == acc.created
    ensures shares == [] ==> r == Ok(acc)
    decreases |shares|
  {
    if shares == [] then Ok(acc)
    else
      match ops.createNfs(acc.devicegraph, shares[0])
      case Err(e) => Err(e)
      case Ok(made) =>
        var r := CreateNfsFilesystems(ops, Merge(acc, made), shares[1..]);
        assert r.Ok? ==> r.value.created[..|acc.created|] == (acc.created + made.created)[..|acc.created|];
        r
  }

  // ---------------------------------------------------------------------------
  // The whole run, step by step

  /** What a run works on: the collaborators, the original devicegraph, the
      planned devices and the names of the disks to consider. */
  datatype Env = Env(ops: Ops, original: G.Devicegraph, planned: seq<P.Device>, diskNames: seq<string>)

  /** The creator's changing state: devices to create, devices to reuse, the
      current creator result, the current devicegraph and the issues list. */
  datatype State = State(
    toCreate: seq<P.Device>,
    toReuse: seq<P.Device>,
    result: Option<CreatorResult>,
    graph: G.Devicegraph,
    issues: seq<Issue>)

  function PartitionsOf(env: Env): seq<P.Device>
  {
    SizedPartitions(env.ops, env.original, Filter(env.planned, IsPartitionDev))
  }

  function MdsOf(env: Env): seq<P.Device> { Filter(env.planned, IsMdDev) }

  function BcachesOf(env: Env): (r: seq<P.Device>)
    ensures forall d :: d in r ==> d.kind.Bcache?
  {
    FilterMembership(env.planned, IsBcacheDev);
    Filter(env.planned, IsBcacheDev)
  }

  function VgsOf(env: Env): (r: seq<P.Device>)
    ensures forall d :: d in r ==> d.kind.LvmVg?
  {
    FilterMembership(env.planned, IsVgDev);
    Filter(env.planned, IsVgDev)
  }

  function NfsOf(env: Env): seq<P.Device> { Filter(env.planned, IsNfsDev) }

  function ChildrenOf(devs: seq<P.Device>): seq<P.Device>
  {
    Flatten(Map(devs, P.Children))
  }

  /** `process_partitions`: reuses the partitions with a reuse target, then
      creates the others. Every planned disk partition goes to exactly one of
      the two lists. */
  function PartitionsStep(env: Env, s: State): (r: Result<State, Error>)
    ensures r.Ok? ==> r.value.result.Some? && r.value.graph == r.value.result.value.devicegraph
    ensures r.Ok? ==> r.value.issues == s.issues
    ensures r.Ok? ==> r.value.toCreate == s.toCreate + Reject(PartitionsOf(env), P.IsReuse)
    ensures r.Ok? ==> r.value.toReuse == s.toReuse + Filter(PartitionsOf(env), P.IsReuse)
  {
    var parts := PartitionsOf(env);
    var toReuse := Filter(parts, P.IsReuse);
    var toCreate := Reject(parts, P.IsReuse);
    var g := ReuseAll(env.ops, s.graph, ReuseOrder(env.ops.shrinks(s.graph), toReuse));
    match CreatePartitions(env.ops, g, env.diskNames, toCreate)
    case Err(e) => Err(e)
    case Ok(res) => Ok(State(s.toCreate + toCreate, s.toReuse + toReuse, Some(res), res.devicegraph, s.issues))
  }

  /** Every planned disk partition lands in exactly one of the two lists: the
      ones it adds to the reuse list have a reuse target, the ones it adds to
      the create list do not, and together they are the planned partitions. */
  lemma PartitionsStepSplits(env: Env, s: State)
    requires PartitionsStep(env, s).Ok?
    ensures var r := PartitionsStep(env, s).value;
      multiset(r.toCreate) + multiset(r.toReuse) == multiset(s.toCreate) + multiset(s.toReuse) + multiset(PartitionsOf(env)) &&
      (forall d :: d in r.toCreate[|s.toCreate|..] ==> !P.IsReuse(d)) &&
      (forall d :: d in r.toReuse[|s.toReuse|..] ==> P.IsReuse(d))
  {
    var r := PartitionsStep(env, s).value;
    PartitionIsPermutation(PartitionsOf(env), P.IsReuse);
    FilterMembership(PartitionsOf(env), P.IsReuse);
    RejectMembership(PartitionsOf(env), P.IsReuse);
    assert r.toCreate[|s.toCreate|..] == Reject(PartitionsOf(env), P.IsReuse);
    assert r.toReuse[|s.toReuse|..] == Filter(PartitionsOf(env), P.IsReuse);
  }

  /** `process_disk_like_devs`: reuses every planned disk and stray block device
      and adds them to the reuse list. The current devicegraph is the one the
      creator result holds, so both see the change. */
  function DiskLikeStep(env: Env, s: State): (r: State)
    ensures r.toReuse == s.toReuse + Filter(env.planned, IsDiskLike)
    ensures r.toCreate == s.toCreate && r.issues == s.issues
    ensures s.result.Some? ==>
      (r.result.Some? && r.result.value.created == s.result.value.created && r.result.value.devicegraph == r.graph)
  {
    var devs := Filter(env.planned, IsDiskLike);
    var g := ReuseAll(env.ops, s.graph, devs);
    var res := if s.result.Some? then Some(s.result.value.(devicegraph := g)) else None;
    State(s.toCreate, s.toReuse + devs, res, g, s.issues)
  }

  /** `process_mds`: reuses the MD RAIDs with a reuse target, then runs the MD
      creations for all of them; the devices reusable by an MD are taken from
      the reuse list as it was before this step. */
  function MdsStep(env: Env, s: State): (r: Result<State, Error>)
    requires s.result.Some?
    ensures r.Ok? ==> r.value.result.Some? && r.value.graph == r.value.result.value.devicegraph
    ensures r.Ok? ==> r.value.toCreate == s.toCreate + Reject(MdsOf(env), P.IsReuse)
    ensures r.Ok? ==> r.value.toReuse == s.toReuse + ChildrenOf(Filter(MdsOf(env), P.IsReuse))
    ensures r.Ok? ==> r.value.issues == s.issues
  {
    var mds := MdsOf(env);
    var reusable := Filter(s.toReuse, P.CanBeMember);
    var reused := MergeReused(s.result.value, Filter(mds, P.IsReuse), env.ops.reuseMd);
    match CreateMds(env.ops, reused, mds, reusable)
    case Err(e) => Err(e)
    case Ok(res) =>
      Ok(State(s.toCreate + Reject(mds, P.IsReuse), s.toReuse + ChildrenOf(Filter(mds, P.IsReuse)), Some(res), res.devicegraph, s.issues))
  }

  /** `process_bcaches`: reuses the bcaches with a reuse target, adds their
      partitions to the reuse list, then runs the bcache creations for all of
      them with that extended reuse list. */
  function BcachesStep(env: Env, s: State): (r: Result<State, Error>)
    requires s.result.Some?
    ensures r.Ok? ==> r.value.result.Some? && r.value.graph == r.value.result.value.devicegraph
    ensures r.Ok? ==> r.value.toCreate == s.toCreate + Reject(BcachesOf(env), P.IsReuse)
    ensures r.Ok? ==> r.value.toReuse == s.toReuse + ChildrenOf(Filter(BcachesOf(env), P.IsReuse))
    ensures r.Ok? ==> r.value.issues == s.issues
  {
    var bcaches := BcachesOf(env);
    var reused := MergeReused(s.result.value, Filter(bcaches, P.IsReuse), env.ops.reuseBcache);
    var toReuse := s.toReuse + ChildrenOf(Filter(bcaches, P.IsReuse));
    match CreateBcaches(env.ops, reused, reused, bcaches, toReuse)
    case Err(e) => Err(e)
    case Ok(res) => Ok(State(s.toCreate + Reject(bcaches, P.IsReuse), toReuse, Some(res), res.devicegraph, s.issues))
  }

  /** `process_vgs`: reuses the volume groups with a reuse target, adds every
      planned volume group to the create list and sets up LVM for all of them. */
  function VgsStep(env: Env, s: State): (r: Result<State, Error>)
    requires s.result.Some?
    ensures r.Ok? ==> r.value.result.Some? && r.value.graph == r.value.result.value.devicegraph
    ensures r.Ok? ==> r.value.toCreate == s.toCreate + VgsOf(env)
    ensures r.Ok? ==> r.value.toReuse == s.toReuse
    ensures r.Ok? ==> r.value.issues == s.issues + NoPvsIssues(
      MergeReused(s.result.value, Filter(VgsOf(env), P.IsReuse), env.ops.reuseVg), s.toReuse, VgsOf(env))
  {
    var vgs := VgsOf(env);
    var reused := MergeReused(s.result.value, Filter(vgs, P.IsReuse), env.ops.reuseVg);
    var r := SetUpLvm(env.ops, reused, reused, s.issues, vgs, s.toReuse);
    if r.Err? then Err(r.error)
    else
      SetUpLvmIssues(env.ops, reused, reused, s.issues, vgs, s.toReuse);
      Ok(State(s.toCreate + vgs, s.toReuse, Some(r.value.0), r.value.0.devicegraph, r.value.1))
  }

  /** `process_nfs_filesystems`: adds the NFS shares to the create list and
      creates them. */
  function NfsStep(env: Env, s: State): (r: Result<State, Error>)
    requires s.result.Some?
    ensures r.Ok? ==> r.value.result.Some? && r.value.graph == r.value.result.value.devicegraph
    ensures r.Ok? ==> r.value.toCreate == s.toCreate + NfsOf(env)
    ensures r.Ok? ==> r.value.toReuse == s.toReuse && r.value.issues == s.issues
  {
    match CreateNfsFilesystems(env.ops, s.result.value, NfsOf(env))
    case Err(e) => Err(e)
    case Ok(res) => Ok(State(s.toCreate + NfsOf(env), s.toReuse, Some(res), res.devicegraph, s.issues))
  }

  /** `process_devices`: the six steps in dependency order; the first error
      stops the run. */
  function ProcessAll(env: Env, s: State): (r: Result<State, Error>)
    ensures r.Ok? ==> r.value.result.Some?
  {
    match PartitionsStep(env, s)
    case Err(e) => Err(e)
    case Ok(s1) =>
      var s2 := DiskLikeStep(env, s1);
      match MdsStep(env, s2)
      case Err(e) => Err(e)
      case Ok(s3) =>
        match BcachesStep(env, s3)
        case Err(e) => Err(e)
        case Ok(s4) =>
          match VgsStep(env, s4)
          case Err(e) => Err(e)
          case Ok(s5) => NfsStep(env, s5)
  }

  /** The state `reset` leaves: empty lists, no creator result, and a duplicate
      of the original devicegraph as the current one. */
  function ResetState(env: Env, issues: seq<Issue>): State
  {
    State([], [], None, env.ops.duplicate(env.original), issues)
  }

  /** `populated_devicegraph` as a value: reset, then the six steps. */
  function Populate(env: Env, issues: seq<Issue>): Result<AutoinstCreatorResult, Error>
  {
    match ProcessAll(env, ResetState(env, issues))
    case Err(e) => Err(e)
    case Ok(s) => Ok(AutoinstCreatorResult(s.result.value, s.toCreate))
  }

  /** The devices reported as created are the planned partitions to create,
      then the MD RAIDs to create, then the bcaches to create, then every
      volume group, then every NFS share: the steps run in dependency order
      and each one appends its own category. */
  lemma PopulateCreatesInDependencyOrder(env: Env, issues: seq<Issue>)
    requires Populate(env, issues).Ok?
    ensures Populate(env, issues).value.createdDevices ==
      Reject(PartitionsOf(env), P.IsReuse) + Reject(MdsOf(env), P.IsReuse) + Reject(BcachesOf(env), P.IsReuse) +
      VgsOf(env) + NfsOf(env)
  {
    var s0 := ResetState(env, issues);
    var s1 := PartitionsStep(env, s0).value;
    assert s1.toCreate == Reject(PartitionsOf(env), P.IsReuse);
    var s2 := DiskLikeStep(env, s1);
    var s3 := MdsStep(env, s2).value;
    var s4 := BcachesStep(env, s3).value;
    var s5 := VgsStep(env, s4).value;
    var s6 := NfsStep(env, s5).value;
    assert ProcessAll(env, s0) == Ok(s6);
  }

  // ---------------------------------------------------------------------------
  // The creator object

  class AutoinstDevicesCreator {
    const ops: Ops
    const originalGraph: G.Devicegraph
    var issues: seq<Issue>
    var plannedDevices: seq<P.Device>
    var diskNames: seq<string>
    var devicesToCreate: seq<P.Device>
    var devicesToReuse: seq<P.Device>
    var creatorResult: Option<CreatorResult>
    var devicegraph: G.Devicegraph

    /** The inputs of the current run. */
    function Inputs(): Env
      reads this`plannedDevices, this`diskNames
    {
      Env(ops, originalGraph, plannedDevices, diskNames)
    }

    /** The changing part of the object. */
    function Current(): State
      reads this`devicesToCreate, this`devicesToReuse, this`creatorResult, this`devicegraph, this`issues
    {
      State(devicesToCreate, devicesToReuse, creatorResult, devicegraph, issues)
    }

    constructor(ops: Ops, originalGraph: G.Devicegraph, issues: seq<Issue>)
      ensures this.ops == ops && this.originalGraph == originalGraph && this.issues == issues
      ensures plannedDevices == [] && diskNames == [] && creatorResult == None
    {
      this.ops := ops;
      this.originalGraph := originalGraph;
      this.issues := issues;
      plannedDevices, diskNames := [], [];
      devicesToCreate, devicesToReuse := [], [];
      creatorResult := None;
      devicegraph := originalGraph;
    }

    /** `populated_devicegraph`: resets, remembers the inputs and processes
      every category; the outcome is `Populate` of the inputs. */
    method PopulatedDevicegraph(planned: seq<P.Device>, names: seq<string>) returns (r: Result<AutoinstCreatorResult, Error>)
      modifies this
      ensures plannedDevices == planned && diskNames == names
      ensures r == Populate(Inputs(), old(issues))
      ensures r.Ok? ==> ProcessAll(Inputs(), ResetState(Inputs(), old(issues))) == Ok(Current())
    {
      Reset();
      plannedDevices := planned;
      diskNames := names;
      r := ProcessDevices();
    }

    /** `reset`: empties both lists, forgets the creator result and takes a
      duplicate of the original devicegraph; the original stays as it was. */
    method Reset()
      modifies this`devicesToCreate, this`devicesToReuse, this`creatorResult, this`devicegraph
      ensures Current() == ResetState(Inputs(), issues)
      ensures devicegraph == ops.duplicate(originalGraph)
    {
      devicesToCreate := [];
      devicesToReuse := [];
      creatorResult := None;
      devicegraph := ops.duplicate(originalGraph);
    }

    /** The `creator_result=` setter: the current devicegraph follows the result. */
    method SetCreatorResult(result: CreatorResult)
      modifies this`creatorResult, this`devicegraph
      ensures creatorResult == Some(result) && devicegraph == result.devicegraph
    {
      creatorResult := Some(result);
      devicegraph := result.devicegraph;
    }

    /** `process_devices`. */
    method ProcessDevices() returns (r: Result<AutoinstCreatorResult, Error>)
      modifies this`devicesToCreate, this`devicesToReuse, this`creatorResult, this`devicegraph, this`issues
      ensures match ProcessAll(Inputs(), old(Current()))
        case Err(e) => r == Err(e)
        case Ok(s) => r == Ok(AutoinstCreatorResult(s.result.value, s.toCreate)) && Current() == s
    {
      ghost var env := Inputs();
      var e := ProcessPartitions();
      if e.Some? { return Err(e.value); }
      ghost var s1 := Current();
      ProcessDiskLikeDevs();
      ghost var s2 := Current();
      assert s2 == DiskLikeStep(env, s1);
      e := ProcessMds();
      if e.Some? { return Err(e.value); }
      ghost var s3 := Current();
      assert MdsStep(env, s2) == Ok(s3);
      e := ProcessBcaches();
      if e.Some? { return Err(e.value); }
      ghost var s4 := Current();
      assert BcachesStep(env, s3) == Ok(s4);
      e := ProcessVgs();
      if e.Some? { return Err(e.value); }
      ghost var s5 := Current();
      assert VgsStep(env, s4) == Ok(s5);
      e := ProcessNfsFilesystems();
      if e.Some? { return Err(e.value); }
      assert NfsStep(env, s5) == Ok(Current());
      r := Ok(AutoinstCreatorResult(creatorResult.value, devicesToCreate));
    }

    /** `process_partitions`. */
    method ProcessPartitions() returns (e: Option<Error>)
      modifies this`devicesToCreate, this`devicesToReuse, this`creatorResult, this`devicegraph
      ensures e == None <==> PartitionsStep(Inputs(), old(Current())).Ok?
      ensures e.Some? ==> PartitionsStep(Inputs(), old(Current())) == Err(e.value)
      ensures e.None? ==> Current() == PartitionsStep(Inputs(), old(Current())).value
    {
      ghost var env, s0 := Inputs(), Current();
      var parts := SizedPartitions(ops, originalGraph, Filter(plannedDevices, IsPartitionDev));
      assert parts == PartitionsOf(env);
      var toReuse := Filter(parts, P.IsReuse);
      var toCreate := Reject(parts, P.IsReuse);
      ReusePartitions(toReuse);
      assert devicegraph == ReuseAll(ops, s0.graph, ReuseOrder(ops.shrinks(s0.graph), toReuse));
      devicesToCreate := devicesToCreate + toCreate;
      devicesToReuse := devicesToReuse + toReuse;
      var res := CreatePartitions(ops, devicegraph, diskNames, toCreate);
      assert Inputs() == env;
      if res.Err? {
        return Some(res.error);
      }
      SetCreatorResult(res.value);
      e := None;
      assert Current() == State(s0.toCreate + toCreate, s0.toReuse + toReuse, Some(res.value), res.value.devicegraph, s0.issues);
    }

    /** `reuse_partitions`: classifies the partitions as shrinking or not in the
      devicegraph as it is before any reuse, then reuses the shrinking ones
      first, each partition once. */
    method ReusePartitions(reused: seq<P.Device>)
      modifies this`devicegraph
      ensures devicegraph == ReuseAll(ops, old(devicegraph), ReuseOrder(ops.shrinks(old(devicegraph)), reused))
    {
      var order := ReuseOrder(ops.shrinks(devicegraph), reused);
      ReuseEachDevice(order);
    }

    /** `reuse!` on each device in turn, in the current devicegraph. */
    method ReuseEachDevice(devs: seq<P.Device>)
      modifies this`devicegraph
      ensures devicegraph == ReuseAll(ops, old(devicegraph), devs)
    {
      var i := 0;
      while i < |devs|
        invariant 0 <= i <= |devs|
        invariant devicegraph == ReuseAll(ops, old(devicegraph), devs[..i])
      {
        ReuseAllStep(ops, old(devicegraph), devs, i);
        devicegraph := ops.reuse(devicegraph, devs[i]);
        i := i + 1;
      }
      assert devs[..i] == devs;
    }

    /** `process_disk_like_devs`. */
    method ProcessDiskLikeDevs()
      modifies this`devicesToReuse, this`creatorResult, this`devicegraph
      ensures Current() == DiskLikeStep(Inputs(), old(Current()))
    {
      var devs := Filter(plannedDevices, IsDiskLike);
      ReuseEachDevice(devs);
      if creatorResult.Some? {
        creatorResult := Some(creatorResult.value.(devicegraph := devicegraph));
      }
      devicesToReuse := devicesToReuse + devs;
    }

    /** The `each_with_object(creator_result) { ... merge! }` loops of
      `reuse_mds`, `reuse_bcaches` and `reuse_vgs`: the creator result is
      updated in place; the current devicegraph is left as it was. */
    method MergeEachReused(devs: seq<P.Device>, reuser: (G.Devicegraph, P.Device) -> CreatorResult)
      requires creatorResult.Some?
      modifies this`creatorResult
      ensures creatorResult == Some(MergeReused(old(creatorResult.value), devs, reuser))
    {
      var i := 0;
      while i < |devs|
        invariant 0 <= i <= |devs|
        invariant creatorResult == Some(MergeReused(old(creatorResult.value), devs[..i], reuser))
      {
        MergeReusedStep(old(creatorResult.value), devs, reuser, i);
        var result := creatorResult.value;
        creatorResult := Some(Merge(result, reuser(result.devicegraph, devs[i])));
        i := i + 1;
      }
      assert devs[..i] == devs;
    }

    /** `process_mds`. */
    method ProcessMds() returns (e: Option<Error>)
      requires creatorResult.Some?
      modifies this`devicesToCreate, this`devicesToReuse, this`creatorResult, this`devicegraph
      ensures e == None <==> MdsStep(Inputs(), old(Current())).Ok?
      ensures e.Some? ==> MdsStep(Inputs(), old(Current())) == Err(e.value)
      ensures e.None? ==> Current() == MdsStep(Inputs(), old(Current())).value
    {
      ghost var env, s0 := Inputs(), Current();
      var mds := MdsOf(Inputs());
      var reusable := Filter(devicesToReuse, P.CanBeMember);
      MergeEachReused(Filter(mds, P.IsReuse), ops.reuseMd);
      devicesToCreate := devicesToCreate + Reject(mds, P.IsReuse);
      devicesToReuse := devicesToReuse + ChildrenOf(Filter(mds, P.IsReuse));
      var res := CreateMds(ops, creatorResult.value, mds, reusable);
      assert Inputs() == env;
      if res.Err? {
        return Some(res.error);
      }
      SetCreatorResult(res.value);
      e := None;
      assert Current() == State(devicesToCreate, devicesToReuse, Some(res.value), res.value.devicegraph, s0.issues);
    }

    /** `process_bcaches`. */
    method ProcessBcaches() returns (e: Option<Error>)
      requires creatorResult.Some?
      modifies this`devicesToCreate, this`devicesToReuse, this`creatorResult, this`devicegraph
      ensures e == None <==> BcachesStep(Inputs(), old(Current())).Ok?
      ensures e.Some? ==> BcachesStep(Inputs(), old(Current())) == Err(e.value)
      ensures e.None? ==> Current() == BcachesStep(Inputs(), old(Current())).value
    {
      ghost var env, s0 := Inputs(), Current();
      var bcaches := BcachesOf(Inputs());
      MergeEachReused(Filter(bcaches, P.IsReuse), ops.reuseBcache);
      devicesToCreate := devicesToCreate + Reject(bcaches, P.IsReuse);
      devicesToReuse := devicesToReuse + ChildrenOf(Filter(bcaches, P.IsReuse));
      var res := CreateBcaches(ops, creatorResult.value, creatorResult.value, bcaches, devicesToReuse);
      assert Inputs() == env;
      if res.Err? {
        return Some(res.error);
      }
      SetCreatorResult(res.value);
      e := None;
      assert Current() == State(devicesToCreate, devicesToReuse, Some(res.value), res.value.devicegraph, s0.issues);
    }

    /** `process_vgs`; a volume group without physical volumes is appended to
      the issues list. */
    method ProcessVgs() returns (e: Option<Error>)
      requires creatorResult.Some?
      modifies this`devicesToCreate, this`creatorResult, this`devicegraph, this`issues
      ensures e == None <==> VgsStep(Inputs(), old(Current())).Ok?
      ensures e.Some? ==> VgsStep(Inputs(), old(Current())) == Err(e.value)
      ensures e.None? ==> Current() == VgsStep(Inputs(), old(Current())).value
    {
      var vgs := VgsOf(Inputs());
      MergeEachReused(Filter(vgs, P.IsReuse), ops.reuseVg);
      devicesToCreate := devicesToCreate + vgs;
      var res := SetUpLvm(ops, creatorResult.value, creatorResult.value, issues, vgs, devicesToReuse);
      if res.Err? {
        return Some(res.error);
      }
      issues := res.value.1;
      SetCreatorResult(res.value.0);
      e := None;
    }

    /** `process_nfs_filesystems`. */
    method ProcessNfsFilesystems() returns (e: Option<Error>)
      requires creatorResult.Some?
      modifies this`devicesToCreate, this`creatorResult, this`devicegraph
      ensures e == None <==> NfsStep(Inputs(), old(Current())).Ok?
      ensures e.Some? ==> NfsStep(Inputs(), old(Current())) == Err(e.value)
      ensures e.None? ==> Current() == NfsStep(Inputs(), old(Current())).value
    {
      var shares := Filter(plannedDevices, IsNfsDev);
      devicesToCreate := devicesToCreate + shares;
      var res := CreateNfsFilesystems(ops, creatorResult.value, shares);
      if res.Err? {
        return Some(res.error);
      }
      SetCreatorResult(res.value);
      e := None;
    }
  }
}
