/** Planned devices: constraint-only descriptions of the devices a proposal
    creates or reuses. The source's planned classes and their `respond_to?`
    capability probes become one closed sum type; the capability predicates
    below say which variants answer which question. */
module Planned {
  import opened Wrappers
  import G = Devicegraphs

  /** Size limits in bytes and the weight used to share out extra space. */
  datatype Size = Size(min: nat, max: nat, weight: nat)

  /** Attributes every variant carries. `reuseName` is the name of the existing
      device to reuse instead of creating a new one. */
  datatype Common = Common(
    reuseName: Option<string>,
    size: Size,
    mountPoint: Option<string>,
    fsType: Option<G.FsType>,
    encrypt: bool)

  /** What a device may be a member of: an MD RAID (`raid_name`), a volume
      group (`lvm_volume_group_name`), or a bcache as backing or caching
      device. */
  datatype Membership = Membership(
    raidName: Option<string>,
    pvFor: Option<string>,
    bcacheBackingFor: Option<string>,
    bcacheCachingFor: Option<string>)

  datatype Role = Backing | Caching

  /** A planned device: the attributes every kind carries, and what kind of
      device it is. */
  datatype Device = Device(common: Common, kind: Kind)

  datatype Kind =
    | Partition(member: Membership, disk: string, primary: bool, percentSize: Option<nat>)
    | Disk(member: Membership, name: string)
    | StrayBlk(member: Membership, name: string)
    | Md(member: Membership, name: string, partitions: seq<Device>)
    | Bcache(member: Membership, name: string, partitions: seq<Device>)
    | LvmVg(vgName: string, lvs: seq<Device>)
    | LvmLv
    | Nfs(share: string)

  /** `reuse?`: the device names an existing device to reuse. */
  predicate IsReuse(d: Device)
  {
    d.common.reuseName.Some?
  }

  function ReuseName(d: Device): Option<string>
  {
    d.common.reuseName
  }

  /** The variants that can be MD, LVM or bcache members (they answer `raid_name`,
      `pv_for?`, `bcache_backing_for?` and `bcache_caching_for?`). */
  predicate CanBeMember(d: Device)
  {
    d.kind.Partition? || d.kind.Disk? || d.kind.StrayBlk? || d.kind.Md? || d.kind.Bcache?
  }

  /** `raid_name`, or None for a variant that does not answer it. */
  function RaidName(d: Device): (r: Option<string>)
    ensures r.Some? ==> CanBeMember(d)
  {
    if CanBeMember(d) then d.kind.member.raidName else None
  }

  /** `pv_for?(vg_name)`. */
  predicate PvFor(d: Device, vgName: string)
  {
    CanBeMember(d) && d.kind.member.pvFor == Some(vgName)
  }

  /** `bcache_backing_for?` / `bcache_caching_for?`, false for a variant that
      answers neither. */
  predicate BcacheMemberFor(d: Device, bcacheName: string, role: Role)
  {
    CanBeMember(d) &&
    match role
    case Backing => d.kind.member.bcacheBackingFor == Some(bcacheName)
    case Caching => d.kind.member.bcacheCachingFor == Some(bcacheName)
  }

  /** Variants that answer `mount_point` (every one except a volume group). */
  predicate HasMountPoint(d: Device)
  {
    !d.kind.LvmVg?
  }

  /** Variants that answer `encrypt?`. */
  predicate CanBeEncrypted(d: Device)
  {
    !d.kind.LvmVg? && !d.kind.Nfs?
  }

  /** Variants that answer `filesystem_type`. */
  predicate CanBeFormatted(d: Device)
  {
    !d.kind.LvmVg?
  }

  /** The planned devices nested inside an MD RAID, a bcache or a volume group
      (`partitions` / `lvs`); none for the other variants. */
  function Children(d: Device): seq<Device>
  {
    match d.kind
    case Md(_, _, ps) => ps
    case Bcache(_, _, ps) => ps
    case LvmVg(_, lvs) => lvs
    case _ => []
  }

  /** The same kind with the nested devices replaced by `children`; a kind
      without nested devices is left as it is. */
  function WithChildren(k: Kind, children: seq<Device>): Kind
  {
    match k
    case Md(m, n, _) => Md(m, n, children)
    case Bcache(m, n, _) => Bcache(m, n, children)
    case LvmVg(n, _) => LvmVg(n, children)
    case _ => k
  }
}
