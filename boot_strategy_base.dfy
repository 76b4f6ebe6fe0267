/** The base boot requirement strategy: the extra partitions the root disk
    needs so that the installed system can boot from an LVM root, namely a
    `/boot` partition on an MS-DOS partition table and a BIOS boot partition
    for GRUB on a GPT one. */
module BootStrategyBase {
  import opened Wrappers
  import G = Devicegraphs

  const KiB: nat := 1024
  const MiB: nat := 1024 * 1024

  datatype Align = KeepSize

  /** Partition ids the strategy asks for. */
  datatype PartitionId = IdGptBios

  /** A volume the proposal will have to make room for. `None` in `align` and
      `bootable` leaves the planned volume's own default. */
  datatype PlannedVolume = PlannedVolume(
    mountPoint: Option<string>,
    fsType: Option<G.FsType>,
    disk: Option<string>,
    partitionId: Option<PartitionId>,
    minSize: nat,
    maxSize: nat,
    desiredSize: nat,
    align: Option<Align>,
    bootable: Option<bool>,
    canLiveOnLv: bool)

  datatype Settings = Settings(rootDevice: Option<string>, useLvm: bool)

  /** The disk analyzer: the device with a given name (or none), and the
      existing GRUB partitions of every disk, by disk name. */
  datatype DiskAnalyzer = DiskAnalyzer(
    deviceByName: Option<string> -> Option<G.Disk>,
    grubPartitions: map<string, seq<string>>)

  datatype Strategy = Strategy(settings: Settings, diskAnalyzer: DiskAnalyzer, rootDisk: Option<G.Disk>)

  /** A strategy remembers the disk of the root device from the start. */
  function NewStrategy(settings: Settings, diskAnalyzer: DiskAnalyzer): (r: Strategy)
    ensures r.settings == settings && r.diskAnalyzer == diskAnalyzer
    ensures r.rootDisk == diskAnalyzer.deviceByName(settings.rootDevice)
  {
    Strategy(settings, diskAnalyzer, diskAnalyzer.deviceByName(settings.rootDevice))
  }

  /** The partition table type of the root disk; none without a root disk
      or without a partition table on it. */
  function RootPtableType(st: Strategy): (r: Option<G.PtableType>)
    ensures r.Some? <==> st.rootDisk.Some? && st.rootDisk.value.ptable.Some?
    ensures r.Some? ==> r == st.rootDisk.value.ptable
  {
    if st.rootDisk.None? then None
    else if st.rootDisk.value.ptable.None? then None
    else st.rootDisk.value.ptable
  }

  predicate RootPtableTypeIs(st: Strategy, t: G.PtableType)
  {
    RootPtableType(st) == Some(t)
  }

  predicate BootPartitionNeeded(st: Strategy)
  {
    RootPtableTypeIs(st, G.Msdos) && st.settings.useLvm
  }

  predicate GrubPartitionNeeded(st: Strategy)
  {
    RootPtableTypeIs(st, G.Gpt) && st.settings.useLvm
  }

  /** The root device has no GRUB partition: none is recorded for it, or the
      recorded list is empty (also when there is no root device). */
  predicate GrubPartitionMissing(st: Strategy)
  {
    var parts := st.diskAnalyzer.grubPartitions;
    st.settings.rootDevice.None? || st.settings.rootDevice.value !in parts ||
    parts[st.settings.rootDevice.value] == []
  }

  /** The `/boot` volume: ext4 on the root device, between 100 MiB and
      500 MiB, 200 MiB wished for, never on a logical volume. */
  function BootVolume(st: Strategy): (v: PlannedVolume)
    ensures v.mountPoint == Some("/boot") && v.fsType == Some(G.Ext4)
    ensures v.disk == st.settings.rootDevice
    ensures 100 * MiB == v.minSize <= v.desiredSize == 200 * MiB <= v.maxSize == 500 * MiB
    ensures !v.canLiveOnLv
  {
    PlannedVolume(Some("/boot"), Some(G.Ext4), st.settings.rootDevice, None,
      100 * MiB, 500 * MiB, 200 * MiB, None, None, false)
  }

  /** The BIOS boot partition for GRUB: no mount point, between 256 KiB and
      8 MiB, 1 MiB wished for, size kept when aligning, not bootable, never on
      a logical volume. */
  function GrubVolume(): (v: PlannedVolume)
    ensures v.mountPoint == None && v.partitionId == Some(IdGptBios)
    ensures 256 * KiB == v.minSize <= v.desiredSize == MiB <= v.maxSize == 8 * MiB
    ensures v.align == Some(KeepSize) && v.bootable == Some(false) && !v.canLiveOnLv
  {
    PlannedVolume(None, None, None, Some(IdGptBios),
      256 * KiB, 8 * MiB, MiB, Some(KeepSize), Some(false), false)
  }

  /** The volumes to add: `/boot` when it is needed, then the GRUB partition
      when it is needed and missing. The two exclude each other (a table is
      not MS-DOS and GPT at once), and without a partition table on the root
      disk, or without LVM, nothing is needed. */
  method NeededPartitions(st: Strategy) returns (volumes: seq<PlannedVolume>)
    ensures |volumes| <= 1
    ensures forall v :: v in volumes ==> v == BootVolume(st) || v == GrubVolume()
    ensures BootVolume(st) in volumes <==> RootPtableType(st) == Some(G.Msdos) && st.settings.useLvm
    ensures GrubVolume() in volumes <==>
      RootPtableType(st) == Some(G.Gpt) && st.settings.useLvm && GrubPartitionMissing(st)
    ensures st.rootDisk.None? || st.rootDisk.value.ptable.None? || !st.settings.useLvm ==> volumes == []
  {
    volumes := [];
    if BootPartitionNeeded(st) {
      volumes := volumes + [BootVolume(st)];
    }
    if GrubPartitionNeeded(st) && GrubPartitionMissing(st) {
      volumes := volumes + [GrubVolume()];
    }
  }
}
