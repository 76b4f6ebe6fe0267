/** The analyzer behind the boot requirement strategies: from the current
    devicegraph, the planned devices and the boot disk name chosen by the
    user it answers where the bootloader will be looked for and what the
    root filesystem will look like. */
module BootAnalyzer {
  import opened Wrappers
  import opened Seqs
  import G = Devicegraphs
  import P = Planned

  const RootMountPoint := "/"

  // ---------------------------------------------------------------------
  // The planned root device

  /** A planned device mounted at "/". */
  predicate IsPlannedRoot(d: P.Device)
  {
    P.HasMountPoint(d) && d.common.mountPoint == Some(RootMountPoint)
  }

  /** The first planned device mounted at "/", if any. */
  function RootPlannedDev(planned: seq<P.Device>): (r: Option<P.Device>)
    ensures r.Some? ==> r.value in planned && IsPlannedRoot(r.value)
    ensures r.None? <==> forall d :: d in planned ==> !IsPlannedRoot(d)
  {
    Find(planned, IsPlannedRoot)
  }

  /** The lookup as the constructor writes it: the block assigns "/" to the
      mount point instead of comparing with it, so it picks the first
      planned device that has a mount point at all, and that device's mount
      point becomes "/". Returns the device found and the planned list after
      the assignment. */
  function RootPlannedDevAsWritten(planned: seq<P.Device>): (r: (Option<P.Device>, seq<P.Device>))
    ensures |r.1| == |planned|
  {
    match FindIndex(planned, P.HasMountPoint)
    case None => (None, planned)
    case Some(i) =>
      var rooted := planned[i].(common := planned[i].common.(mountPoint := Some(RootMountPoint)));
      (Some(rooted), planned[i := rooted])
  }

  /** The index of the first element satisfying `p`. */
  function FindIndex<T>(s: seq<T>, p: T -> bool): (r: Option<nat>)
    ensures r.Some? ==> r.value < |s| && p(s[r.value]) && forall j :: 0 <= j < r.value ==> !p(s[j])
    ensures r.None? ==> forall j :: 0 <= j < |s| ==> !p(s[j])
  {
    if s == [] then None
    else if p(s[0]) then Some(0)
    else match FindIndex(s[1..], p)
      case None => None
      case Some(i) => Some(i + 1)
  }

  function SwapDevice(): P.Device
  {
    P.Device(
      P.Common(None, P.Size(0, 0, 0), Some("swap"), Some(G.SwapFs), false),
      P.Partition(P.Membership(None, None, None, None), "/dev/sda", true, None))
  }

  function RootDevice(): P.Device
  {
    P.Device(
      P.Common(None, P.Size(0, 0, 0), Some(RootMountPoint), Some(G.Btrfs), false),
      P.Partition(P.Membership(None, None, None, None), "/dev/sda", true, None))
  }

  /** With a swap partition planned before the root partition, the lookup
      as written takes the swap partition for the root (and remounts it at
      "/"), where the device mounted at "/" was meant; with only the swap
      partition planned it reports a root where there is none. */
  lemma RootPlannedDevAsWrittenPicksSwap()
    ensures RootPlannedDevAsWritten([SwapDevice(), RootDevice()]).0.value.kind == SwapDevice().kind
    ensures RootPlannedDevAsWritten([SwapDevice(), RootDevice()]).1[0] != SwapDevice()
    ensures RootPlannedDev([SwapDevice(), RootDevice()]) == Some(RootDevice())
    ensures RootPlannedDevAsWritten([SwapDevice()]).0.Some?
    ensures RootPlannedDev([SwapDevice()]) == None
  {
    assert IsPlannedRoot(RootDevice());
    assert !IsPlannedRoot(SwapDevice());
    assert [SwapDevice()][1..] == [];
  }

  /** The two lookups agree whenever the first device with a mount point is
      the one mounted at "/". */
  lemma RootPlannedDevAgreesWhenRootComesFirst(planned: seq<P.Device>)
    requires FindIndex(planned, P.HasMountPoint).Some?
    requires IsPlannedRoot(planned[FindIndex(planned, P.HasMountPoint).value])
    ensures RootPlannedDevAsWritten(planned).0 == RootPlannedDev(planned)
    ensures RootPlannedDevAsWritten(planned).1 == planned
  {
    var i := FindIndex(planned, P.HasMountPoint).value;
    FirstRootIsFirstMounted(planned, i);
    assert planned[i].(common := planned[i].common.(mountPoint := Some(RootMountPoint))) == planned[i];
  }

  lemma {:induction false} FirstRootIsFirstMounted(planned: seq<P.Device>, i: nat)
    requires i < |planned| && IsPlannedRoot(planned[i])
    requires forall j :: 0 <= j < i ==> !P.HasMountPoint(planned[j])
    ensures RootPlannedDev(planned) == Some(planned[i])
  {
    if i > 0 {
      FirstRootIsFirstMounted(planned[1..], i - 1);
    }
  }

  // ---------------------------------------------------------------------
  // The root filesystem and the boot disk

  predicate IsRootFilesystem(fs: G.Filesystem)
  {
    fs.mountpoint == Some(RootMountPoint)
  }

  /** The first filesystem of the devicegraph mounted at "/". */
  function RootFilesystem(g: G.Devicegraph): (r: Option<G.Filesystem>)
    ensures r.Some? ==> r.value in g.filesystems && IsRootFilesystem(r.value)
    ensures r.None? <==> forall fs :: fs in g.filesystems ==> !IsRootFilesystem(fs)
  {
    Find(g.filesystems, IsRootFilesystem)
  }

  predicate IsDiskAncestor(a: G.Ancestor)
  {
    a.DiskAncestor?
  }

  /** The first disk among the ancestors of a filesystem. */
  function FirstDiskAncestor(fs: G.Filesystem): (r: Option<G.Disk>)
    ensures r.Some? ==> G.DiskAncestor(r.value) in fs.ancestors
    ensures r.None? <==> forall a :: a in fs.ancestors ==> !a.DiskAncestor?
  {
    match Find(fs.ancestors, IsDiskAncestor)
    case Some(a) => Some(a.disk)
    case None => None
  }

  /** The disk named `name` in the devicegraph. */
  function DiskNamed(g: G.Devicegraph, name: Option<string>): (r: Option<G.Disk>)
    ensures r.Some? ==> name.Some? && r.value in g.disks && r.value.name == name.value
    ensures name.Some? && r.None? ==> forall d :: d in g.disks ==> d.name != name.value
  {
    if name.Some? then G.FindDisk(g, name.value) else None
  }

  /** The boot disk: the disk named by the user; failing that the first
      disk below the root filesystem; failing that the first disk of the
      devicegraph. */
  function BootDiskOf(g: G.Devicegraph, bootDiskName: Option<string>): Option<G.Disk>
  {
    if DiskNamed(g, bootDiskName).Some? then DiskNamed(g, bootDiskName)
    else if RootFilesystem(g).Some? && FirstDiskAncestor(RootFilesystem(g).value).Some? then
      FirstDiskAncestor(RootFilesystem(g).value)
    else First(g.disks)
  }

  /** The fallback chain, stated link by link: a disk carrying the chosen
      name wins; otherwise a disk below the root filesystem; otherwise the
      first disk. A devicegraph with disks always has a boot disk. */
  lemma BootDiskFallbacks(g: G.Devicegraph, bootDiskName: Option<string>)
    ensures var r := BootDiskOf(g, bootDiskName);
      (bootDiskName.Some? && (exists d :: d in g.disks && d.name == bootDiskName.value) ==>
        r.Some? && r.value in g.disks && r.value.name == bootDiskName.value) &&
      (DiskNamed(g, bootDiskName).None? && RootFilesystem(g).Some? &&
       (exists a :: a in RootFilesystem(g).value.ancestors && a.DiskAncestor?) ==>
        r.Some? && G.DiskAncestor(r.value) in RootFilesystem(g).value.ancestors) &&
      (DiskNamed(g, bootDiskName).None? &&
       (RootFilesystem(g).None? || forall a :: a in RootFilesystem(g).value.ancestors ==> !a.DiskAncestor?) ==>
        r == First(g.disks)) &&
      (g.disks != [] ==> r.Some?)
  {
  }

  /** The type of partition table the boot disk has, or will have once it
      is used: its preferred type when it has none yet. */
  function PtableTypeOf(disk: Option<G.Disk>): (r: Option<G.PtableType>)
    ensures r.None? <==> disk.None?
    ensures disk.Some? && disk.value.ptable.Some? ==> r == disk.value.ptable
    ensures disk.Some? && disk.value.ptable.None? ==> r == Some(disk.value.preferredPtable)
  {
    match disk
    case None => None
    case Some(d) => if d.ptable.Some? then d.ptable else Some(d.preferredPtable)
  }

  // ---------------------------------------------------------------------
  // Facts about the root

  predicate IsLv(b: G.BlkDevice)
  {
    b.kind == G.LvmLvBlk
  }

  predicate IsEncrypted(b: G.BlkDevice)
  {
    b.encrypted
  }

  /** `root_in_lvm?`: a planned root decides alone; without one, the root
      filesystem decides; without either, false. */
  function RootInLvm(rootPlanned: Option<P.Device>, rootFs: Option<G.Filesystem>): (r: bool)
    ensures rootPlanned.Some? ==> (r <==> rootPlanned.value.kind.LvmLv?)
    ensures rootPlanned.None? && rootFs.Some? ==>
      (r <==> exists b :: b in rootFs.value.plainBlkDevices && b.kind == G.LvmLvBlk)
    ensures rootPlanned.None? && rootFs.None? ==> !r
  {
    if rootPlanned.Some? then rootPlanned.value.kind.LvmLv?
    else if rootFs.Some? then Find(rootFs.value.plainBlkDevices, IsLv).Some?
    else false
  }

  /** `encrypted_root?`, in the same order of precedence. */
  function EncryptedRoot(rootPlanned: Option<P.Device>, rootFs: Option<G.Filesystem>): (r: bool)
    ensures rootPlanned.Some? ==> (r <==> P.CanBeEncrypted(rootPlanned.value) && rootPlanned.value.common.encrypt)
    ensures rootPlanned.None? && rootFs.Some? ==>
      (r <==> exists b :: b in rootFs.value.plainBlkDevices && b.encrypted)
    ensures rootPlanned.None? && rootFs.None? ==> !r
  {
    if rootPlanned.Some? then P.CanBeEncrypted(rootPlanned.value) && rootPlanned.value.common.encrypt
    else if rootFs.Some? then Find(rootFs.value.plainBlkDevices, IsEncrypted).Some?
    else false
  }

  datatype AnalyzerError = NoFilesystemType

  /** `btrfs_root?`, in the same order of precedence. A planned root that can
      be formatted but has no filesystem type makes the source call a method
      on nil; that is the error. */
  function BtrfsRoot(rootPlanned: Option<P.Device>, rootFs: Option<G.Filesystem>): (r: Result<bool, AnalyzerError>)
    ensures r.Err? <==> rootPlanned.Some? && P.CanBeFormatted(rootPlanned.value) && rootPlanned.value.common.fsType.None?
    ensures r == Ok(true) <==>
      (rootPlanned.Some? && P.CanBeFormatted(rootPlanned.value) && rootPlanned.value.common.fsType == Some(G.Btrfs)) ||
      (rootPlanned.None? && rootFs.Some? && rootFs.value.fsType == G.Btrfs)
  {
    if rootPlanned.Some? then
      if !P.CanBeFormatted(rootPlanned.value) then Ok(false)
      else if rootPlanned.value.common.fsType.None? then Err(NoFilesystemType)
      else Ok(rootPlanned.value.common.fsType.value == G.Btrfs)
    else if rootFs.Some? then Ok(rootFs.value.fsType == G.Btrfs)
    else Ok(false)
  }

  /** A planned root hides whatever the devicegraph says about "/". */
  lemma PlannedRootTakesPrecedence(d: P.Device, fs1: Option<G.Filesystem>, fs2: Option<G.Filesystem>)
    ensures RootInLvm(Some(d), fs1) == RootInLvm(Some(d), fs2)
    ensures EncryptedRoot(Some(d), fs1) == EncryptedRoot(Some(d), fs2)
    ensures BtrfsRoot(Some(d), fs1) == BtrfsRoot(Some(d), fs2)
  {
  }

  // ---------------------------------------------------------------------
  // The analyzer object

  class Analyzer {
    const devicegraph: G.Devicegraph
    const plannedDevices: seq<P.Device>
    const bootDiskName: Option<string>
    const rootPlannedDev: Option<P.Device>
    const rootFilesystem: Option<G.Filesystem>
    var bootDisk: Option<G.Disk>

    /** The memoised boot disk, once there is one, is the boot disk. */
    predicate Valid()
      reads this`bootDisk
    {
      rootFilesystem == RootFilesystem(devicegraph) &&
      (bootDisk.Some? ==> bootDisk == BootDiskOf(devicegraph, bootDiskName))
    }

    constructor (devicegraph: G.Devicegraph, plannedDevices: seq<P.Device>, bootDiskName: Option<string>)
      ensures Valid()
      ensures this.devicegraph == devicegraph && this.plannedDevices == plannedDevices
      ensures this.bootDiskName == bootDiskName && bootDisk == None
      ensures rootPlannedDev == RootPlannedDev(plannedDevices)
      ensures rootFilesystem == RootFilesystem(devicegraph)
    {
      this.devicegraph := devicegraph;
      this.plannedDevices := plannedDevices;
      this.bootDiskName := bootDiskName;
      rootPlannedDev := RootPlannedDev(plannedDevices);
      rootFilesystem := RootFilesystem(devicegraph);
      bootDisk := None;
    }

    /** Computes the boot disk through the fallbacks, or returns the one
        already found. */
    method BootDisk() returns (r: Option<G.Disk>)
      requires Valid()
      modifies this`bootDisk
      ensures Valid()
      ensures r == BootDiskOf(devicegraph, bootDiskName)
      ensures bootDisk == r
      ensures old(bootDisk).Some? ==> r == old(bootDisk)
    {
      if bootDisk.Some? {
        return bootDisk;
      }
      if bootDiskName.Some? {
        bootDisk := G.FindDisk(devicegraph, bootDiskName.value);
      }
      if bootDisk.None? && rootFilesystem.Some? {
        bootDisk := FirstDiskAncestor(rootFilesystem.value);
      }
      if bootDisk.None? {
        bootDisk := First(devicegraph.disks);
      }
      r := bootDisk;
    }

    method BootPtableType() returns (r: Option<G.PtableType>)
      requires Valid()
      modifies this`bootDisk
      ensures Valid()
      ensures r == PtableTypeOf(BootDiskOf(devicegraph, bootDiskName))
    {
      var disk := BootDisk();
      if disk.None? {
        return None;
      }
      if disk.value.ptable.Some? {
        return disk.value.ptable;
      }
      r := Some(disk.value.preferredPtable);
    }

    /** `boot_ptable_type?`: false without a boot disk. */
    method BootPtableTypeIs(t: G.PtableType) returns (r: bool)
      requires Valid()
      modifies this`bootDisk
      ensures Valid()
      ensures r <==> PtableTypeOf(BootDiskOf(devicegraph, bootDiskName)) == Some(t)
    {
      var current := BootPtableType();
      if current.None? {
        return false;
      }
      r := current.value == t;
    }
  }
}
