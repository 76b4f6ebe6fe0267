/** The parts of a devicegraph that the modelled code reads: disks with their
    partition tables and free spaces, and filesystems with the devices below
    them. A devicegraph is a value here; the library's object graph and its
    `duplicate` are outside the model. */
module Devicegraphs {
  import opened Wrappers
  import opened Seqs

  /** Partition table types (libstorage's PtType values that the code names). */
  datatype PtableType = Msdos | Gpt | Dasd | ImplicitPt

  datatype FsType = Btrfs | Ext4 | Xfs | SwapFs | Vfat | NfsFs

  /** A contiguous extent: first block, number of blocks and block size in bytes. */
  datatype Region = Region(start: int, length: int, blockSize: int)

  /** An unused region of the disk named `diskName`. */
  datatype FreeSpace = FreeSpace(diskName: string, region: Region)

  datatype Disk = Disk(
    name: string,
    size: nat,
    ptable: Option<PtableType>,
    preferredPtable: PtableType,
    freeSpaces: seq<FreeSpace>)

  datatype BlkKind = DiskBlk | PartitionBlk | LvmLvBlk | MdBlk | BcacheBlk

  datatype BlkDevice = BlkDevice(name: string, kind: BlkKind, encrypted: bool)

  /** An ancestor of a filesystem in the graph: a disk, or any other device. */
  datatype Ancestor = DiskAncestor(disk: Disk) | OtherAncestor(name: string)

  datatype Filesystem = Filesystem(
    mountpoint: Option<string>,
    fsType: FsType,
    ancestors: seq<Ancestor>,
    plainBlkDevices: seq<BlkDevice>)

  datatype Devicegraph = Devicegraph(disks: seq<Disk>, filesystems: seq<Filesystem>)

  /** `find_by_name` restricted to disks: the first disk called `name`. */
  function FindDisk(g: Devicegraph, name: string): (r: Option<Disk>)
    ensures r.Some? ==> r.value in g.disks && r.value.name == name
    ensures r.None? ==> forall d :: d in g.disks ==> d.name != name
  {
    Find(g.disks, (d: Disk) => d.name == name)
  }
}
