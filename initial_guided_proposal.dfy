/** The initial guided proposal: it runs the guided proposal once per group
    of candidate disks, once per settings variant the settings generator
    offers, once per candidate root disk and once per way of spreading the
    volume sets over the chosen disks, and stops at the first attempt that
    succeeds. When every attempt of a level fails, that level reports the
    default error computed from the settings it started with. */
module InitialGuidedProposal {
  import opened Wrappers
  import opened Seqs
  import G = Devicegraphs

  datatype AllocateMode = AutoMode | DeviceMode

  /** A set of volumes that live together: whether it is proposed, whether
      it holds the root filesystem, and the disk it is assigned to. */
  datatype VolumeSet = VolumeSet(proposed: bool, root: bool, device: Option<string>)

  /** The proposal settings the search reads and rewrites. */
  datatype Settings = Settings(
    candidateDevices: seq<string>,
    explicitCandidateDevices: seq<string>,
    rootDevice: Option<string>,
    allocateMode: AllocateMode,
    volumesSets: seq<VolumeSet>,
    ngFormat: bool)

  datatype ProposalError = ProposalError(message: string)

  /** What the settings generator changed to obtain one variant. */
  datatype Adjustments = Adjustments(entries: seq<string>)

  datatype GeneratorKind = NgGenerator | LegacyGenerator

  /** One variant of the settings and the adjustments that produced it. */
  datatype Variant = Variant(settings: Settings, adjustments: Adjustments)

  /** A settings generator: the finite list of variants it yields, in order,
      and how many of them it has handed out. */
  datatype Generator = Generator(variants: seq<Variant>, next: nat)

  /** The space maker shared by the attempts of one candidate group. */
  datatype SpaceMaker = SpaceMaker(candidateDevices: seq<string>)

  /** The collaborators of the search that live outside the modelled file:
      the default candidate devices and the default error of the guided
      proposal, the devicegraph the proposal starts from, the two settings
      generators, and the attempt with fixed settings
      (`try_with_each_target_size`), which either succeeds or fails with an
      error. */
  datatype Ops = Ops(
    candidateDevices: Settings -> seq<string>,
    initialGraph: G.Devicegraph,
    variants: (GeneratorKind, Settings) -> seq<Variant>,
    leaf: Settings -> bool,
    leafError: Settings -> ProposalError,
    defaultError: Settings -> ProposalError)

  // ---------------------------------------------------------------------
  // Candidate groups

  function Singleton(name: string): seq<string>
  {
    [name]
  }

  /** Every candidate on its own, then all of them together, without
      repeating a group. */
  function GroupsOfCandidateDevices(candidates: seq<string>): seq<seq<string>>
  {
    Uniq(Map(candidates, Singleton) + [candidates])
  }

  /** The groups are exactly the single candidates and the whole list, each
      once; so there is always at least one group. */
  lemma GroupsOfCandidateDevicesSpec(candidates: seq<string>)
    ensures forall g :: g in GroupsOfCandidateDevices(candidates) <==>
      g == candidates || exists c :: c in candidates && g == [c]
    ensures NoDuplicates(GroupsOfCandidateDevices(candidates))
    ensures |GroupsOfCandidateDevices(candidates)| >= 1
  {
    var all := Map(candidates, Singleton) + [candidates];
    forall g ensures g in all <==> g == candidates || exists c :: c in candidates && g == [c] {
      if exists c :: c in candidates && g == [c] {
        var c :| c in candidates && g == [c];
        MapMembership(candidates, Singleton);
        assert Singleton(c) in Map(candidates, Singleton);
      }
    }
    assert candidates in GroupsOfCandidateDevices(candidates);
  }

  /** With distinct candidates, and not exactly one of them, nothing is
      dropped: the singletons in order followed by the whole list (for
      `sda`, `sdb`: `[sda]`, `[sdb]`, `[sda, sdb]`). A single candidate gives
      a single group. */
  lemma GroupsOfDistinctCandidates(candidates: seq<string>)
    requires NoDuplicates(candidates)
    ensures |candidates| != 1 ==>
      GroupsOfCandidateDevices(candidates) == Map(candidates, Singleton) + [candidates]
    ensures |candidates| == 1 ==> GroupsOfCandidateDevices(candidates) == [candidates]
  {
    var all := Map(candidates, Singleton) + [candidates];
    if |candidates| != 1 {
      assert NoDuplicates(all);
      UniqOfDistinct(all);
    } else {
      assert candidates == [candidates[0]];
      assert Map(candidates, Singleton) == [candidates];
      assert all == [candidates, candidates];
      assert all[..1] == [candidates] && [candidates][..0] == [];
    }
  }

  // ---------------------------------------------------------------------
  // Candidate root disks

  /** The disks of `g` named in `names`, in the order of the names; names
      that denote no disk are skipped. */
  function FoundDisks(g: G.Devicegraph, names: seq<string>): seq<G.Disk>
  {
    if names == [] then []
    else
      match G.FindDisk(g, names[0])
      case Some(d) => [d] + FoundDisks(g, names[1..])
      case None => FoundDisks(g, names[1..])
  }

  lemma {:induction false} FoundDisksSpec(g: G.Devicegraph, names: seq<string>)
    ensures forall d :: d in FoundDisks(g, names) ==> d in g.disks && d.name in names
    ensures forall n :: n in names && G.FindDisk(g, n).Some? ==> G.FindDisk(g, n).value in FoundDisks(g, names)
  {
    if names != [] {
      FoundDisksSpec(g, names[1..]);
      assert forall n :: n in names ==> n == names[0] || n in names[1..];
    }
  }

  function DiskSize(d: G.Disk): int
  {
    d.size
  }

  function DiskName(d: G.Disk): string
  {
    d.name
  }

  /** The root disks to try: the chosen root device when the allocation is
      automatic and a root device is set; otherwise the candidate devices
      found in the initial devicegraph, biggest first. */
  function CandidateRoots(g: G.Devicegraph, s: Settings): seq<string>
  {
    if s.allocateMode == AutoMode && s.rootDevice.Some? then [s.rootDevice.value]
    else Map(SortDesc(FoundDisks(g, s.candidateDevices), DiskSize), DiskName)
  }

  /** Outside the automatic case with a root device, the roots are the names
      of the candidate disks of the graph, every one of them, ordered by
      non-increasing size. */
  lemma CandidateRootsSpec(g: G.Devicegraph, s: Settings)
    ensures s.allocateMode == AutoMode && s.rootDevice.Some? ==>
      CandidateRoots(g, s) == [s.rootDevice.value]
    ensures !(s.allocateMode == AutoMode && s.rootDevice.Some?) ==>
      exists sorted ::
        multiset(sorted) == multiset(FoundDisks(g, s.candidateDevices)) &&
        NonIncreasing(sorted, DiskSize) &&
        CandidateRoots(g, s) == Map(sorted, DiskName)
    ensures !(s.allocateMode == AutoMode && s.rootDevice.Some?) ==>
      forall n :: n in CandidateRoots(g, s) ==> n in s.candidateDevices
  {
    if !(s.allocateMode == AutoMode && s.rootDevice.Some?) {
      var found := FoundDisks(g, s.candidateDevices);
      var sorted := SortDesc(found, DiskSize);
      FoundDisksSpec(g, s.candidateDevices);
      forall n | n in CandidateRoots(g, s) ensures n in s.candidateDevices {
        var i :| 0 <= i < |sorted| && Map(sorted, DiskName)[i] == n;
        assert sorted[i] in multiset(found);
      }
    }
  }

  // ---------------------------------------------------------------------
  // Spreading the volume sets over the disks

  function Pow(b: nat, e: nat): nat
  {
    if e == 0 then 1 else b * Pow(b, e - 1)
  }

  /** Every element of `p` is one of `names`. */
  predicate Over(p: seq<string>, names: seq<string>)
  {
    forall i :: 0 <= i < |p| ==> p[i] in names
  }

  function Prepend(n: string): seq<string> -> seq<string>
  {
    (p: seq<string>) => [n] + p
  }

  function PrependedTo(shorter: seq<seq<string>>): string -> seq<seq<string>>
  {
    (n: string) => Map(shorter, Prepend(n))
  }

  /** Every sequence of `k` names drawn from `names` with repetition, in
      lexicographic order of positions (`repeated_permutation(k)`). */
  function RepeatedPermutations(names: seq<string>, k: nat): seq<seq<string>>
  {
    if k == 0 then [[]]
    else Flatten(Map(names, PrependedTo(RepeatedPermutations(names, k - 1))))
  }

  /** There are `|names|` to the power `k` of them. */
  lemma {:induction false} RepeatedPermutationsCount(names: seq<string>, k: nat)
    ensures |RepeatedPermutations(names, k)| == Pow(|names|, k)
  {
    if k > 0 {
      var shorter := RepeatedPermutations(names, k - 1);
      RepeatedPermutationsCount(names, k - 1);
      var parts := Map(names, PrependedTo(shorter));
      assert forall i :: 0 <= i < |parts| ==> |parts[i]| == |shorter|;
      FlattenUniformLength(parts, |shorter|);
    }
  }

  /** The sequences obtained by putting `n` in front of those of `shorter`. */
  lemma PrependedMembership(shorter: seq<seq<string>>, n: string, p: seq<string>)
    ensures p in PrependedTo(shorter)(n) <==> |p| > 0 && p[0] == n && p[1..] in shorter
  {
    var ps := PrependedTo(shorter)(n);
    if p in ps {
      var j :| 0 <= j < |ps| && ps[j] == p;
      assert p == [n] + shorter[j];
    }
    if |p| > 0 && p[0] == n && p[1..] in shorter {
      var j :| 0 <= j < |shorter| && shorter[j] == p[1..];
      assert ps[j] == [n] + p[1..] == p;
    }
  }

  lemma OverCons(p: seq<string>, names: seq<string>)
    requires |p| > 0
    ensures Over(p, names) <==> p[0] in names && Over(p[1..], names)
  {
    if p[0] in names && Over(p[1..], names) {
      forall i | 0 <= i < |p| ensures p[i] in names {
        if i > 0 {
          assert p[i] == p[1..][i - 1];
        }
      }
    }
  }

  /** They are exactly the sequences of length `k` over `names`. */
  lemma {:induction false} RepeatedPermutationsMembership(names: seq<string>, k: nat)
    ensures forall p :: p in RepeatedPermutations(names, k) <==> |p| == k && Over(p, names)
  {
    forall p ensures p in RepeatedPermutations(names, k) <==> |p| == k && Over(p, names) {
      RepeatedPermutationsMember(names, k, p);
    }
  }

  lemma {:induction false} RepeatedPermutationsMember(names: seq<string>, k: nat, p: seq<string>)
    ensures p in RepeatedPermutations(names, k) <==> |p| == k && Over(p, names)
  {
    if k > 0 {
      var shorter := RepeatedPermutations(names, k - 1);
      var parts := Map(names, PrependedTo(shorter));
      assert RepeatedPermutations(names, k) == Flatten(parts);
      FlattenMembership(parts);
      if p in Flatten(parts) {
        var i :| 0 <= i < |parts| && p in parts[i];
        PrependedMembership(shorter, names[i], p);
        RepeatedPermutationsMember(names, k - 1, p[1..]);
        OverCons(p, names);
      }
      if |p| == k && Over(p, names) {
        OverCons(p, names);
        var i :| 0 <= i < |names| && names[i] == p[0];
        RepeatedPermutationsMember(names, k - 1, p[1..]);
        PrependedMembership(shorter, names[i], p);
        assert p in parts[i];
      }
    }
  }

  /** A set the disks are spread over: proposed and not the root set. */
  predicate IsProposed(v: VolumeSet)
  {
    v.proposed
  }

  predicate IsRoot(v: VolumeSet)
  {
    v.root
  }

  predicate IsTarget(v: VolumeSet)
  {
    v.proposed && !v.root
  }

  /** The proposed sets that do not hold the root filesystem, in order. */
  function Targets(sets: seq<VolumeSet>): seq<VolumeSet>
  {
    Reject(Filter(sets, IsProposed), IsRoot)
  }

  /** Appending one set adds it to the targets exactly when it is one. */
  lemma TargetsSnoc(sets: seq<VolumeSet>, v: VolumeSet)
    ensures Targets(sets + [v]) == Targets(sets) + (if IsTarget(v) then [v] else [])
  {
    FilterConcat(sets, [v], IsProposed);
    RejectConcat(Filter(sets, IsProposed), Filter([v], IsProposed), IsRoot);
  }

  lemma TargetsStep(sets: seq<VolumeSet>, i: nat)
    requires i < |sets|
    ensures |Targets(sets[..i + 1])| == |Targets(sets[..i])| + (if IsTarget(sets[i]) then 1 else 0)
  {
    assert sets[..i + 1] == sets[..i] + [sets[i]];
    TargetsSnoc(sets[..i], sets[i]);
  }

  /** The number of disks a spread uses, counting the root device (which may
      be unset) as one more. */
  function DistinctDisks(p: seq<string>, root: Option<string>): nat
  {
    |(set x | x in p :: Some(x)) + {root}|
  }

  function SpreadKey(root: Option<string>): seq<string> -> int
  {
    (p: seq<string>) => DistinctDisks(p, root)
  }

  /** Every way of assigning an explicit candidate disk to each target set,
      those using more distinct disks first. */
  function DisksPermutations(s: Settings): seq<seq<string>>
  {
    SortDesc(
      RepeatedPermutations(s.explicitCandidateDevices, |Targets(s.volumesSets)|),
      SpreadKey(s.rootDevice))
  }

  /** All n^k spreads, each of the k disks an explicit candidate, those
      using more distinct disks (the root device included) first. */
  lemma DisksPermutationsSpec(s: Settings)
    ensures var k := |Targets(s.volumesSets)|;
      multiset(DisksPermutations(s)) == multiset(RepeatedPermutations(s.explicitCandidateDevices, k)) &&
      |DisksPermutations(s)| == Pow(|s.explicitCandidateDevices|, k) &&
      NonIncreasing(DisksPermutations(s), SpreadKey(s.rootDevice)) &&
      forall p :: p in DisksPermutations(s) <==> |p| == k && Over(p, s.explicitCandidateDevices)
  {
    var k := |Targets(s.volumesSets)|;
    RepeatedPermutationsCount(s.explicitCandidateDevices, k);
    DisksPermutationsMembership(s);
  }

  /** The spreads are exactly the sequences of one explicit candidate per
      target set. */
  lemma DisksPermutationsMembership(s: Settings)
    ensures forall p :: p in DisksPermutations(s) <==>
      |p| == |Targets(s.volumesSets)| && Over(p, s.explicitCandidateDevices)
  {
    var k := |Targets(s.volumesSets)|;
    RepeatedPermutationsMembership(s.explicitCandidateDevices, k);
    var all := RepeatedPermutations(s.explicitCandidateDevices, k);
    forall p ensures p in DisksPermutations(s) <==> p in all {
      assert p in DisksPermutations(s) <==> p in multiset(DisksPermutations(s));
    }
  }

  /** The disk at position `idx` of a spread, or none past its end. */
  function Nth(perm: seq<string>, idx: nat): Option<string>
  {
    if idx < |perm| then Some(perm[idx]) else None
  }

  /** The `i`-th target set gets the `i`-th disk of the spread. */
  function AssignPermutation(sets: seq<VolumeSet>, perm: seq<string>): (r: seq<VolumeSet>)
    ensures |r| == |sets|
  {
    seq(|sets|, i requires 0 <= i < |sets| =>
      if IsTarget(sets[i]) then sets[i].(device := Nth(perm, |Targets(sets[..i])|)) else sets[i])
  }

  function Device(v: VolumeSet): Option<string>
  {
    v.device
  }

  function NthAll(perm: seq<string>, m: nat): seq<Option<string>>
  {
    seq(m, j requires 0 <= j < m => Nth(perm, j))
  }

  /** Only the devices of the target sets change; read in order, they are
      the disks of the spread. */
  lemma AssignPermutationSpec(sets: seq<VolumeSet>, perm: seq<string>)
    ensures var r := AssignPermutation(sets, perm);
      (forall i :: 0 <= i < |sets| ==> r[i] == sets[i].(device := r[i].device)) &&
      (forall i :: 0 <= i < |sets| && !IsTarget(sets[i]) ==> r[i] == sets[i]) &&
      Map(Targets(r), Device) == NthAll(perm, |Targets(sets)|)
    ensures |perm| == |Targets(sets)| ==>
      Map(Targets(AssignPermutation(sets, perm)), Device) == Somes(perm)
  {
    var r := AssignPermutation(sets, perm);
    AssignedPrefix(sets, perm, |sets|);
    assert r[..|sets|] == r && sets[..|sets|] == sets;
  }

  lemma {:induction false} AssignedPrefix(sets: seq<VolumeSet>, perm: seq<string>, n: nat)
    requires n <= |sets|
    ensures var r := AssignPermutation(sets, perm);
      Map(Targets(r[..n]), Device) == NthAll(perm, |Targets(sets[..n])|)
  {
    var r := AssignPermutation(sets, perm);
    if n > 0 {
      AssignedPrefix(sets, perm, n - 1);
      TargetsStep(sets, n - 1);
      assert r[..n] == r[..n - 1] + [r[n - 1]];
      TargetsSnoc(r[..n - 1], r[n - 1]);
      var c := |Targets(sets[..n - 1])|;
      if IsTarget(sets[n - 1]) {
        assert Map(Targets(r[..n]), Device) == Map(Targets(r[..n - 1]), Device) + [Nth(perm, c)];
      } else {
        assert Targets(r[..n]) == Targets(r[..n - 1]);
      }
    }
  }

  /** Giving every target set a disk of the spread a second time overwrites
      the first spread completely. */
  lemma AssignPermutationOverwrites(sets: seq<VolumeSet>, p1: seq<string>, p2: seq<string>)
    ensures AssignPermutation(AssignPermutation(sets, p1), p2) == AssignPermutation(sets, p2)
  {
    var r1 := AssignPermutation(sets, p1);
    SameTargetsCount(sets, r1, |sets|);
    forall i | 0 <= i < |sets|
      ensures AssignPermutation(r1, p2)[i] == AssignPermutation(sets, p2)[i]
    {
      SameTargetsCount(sets, r1, i);
    }
  }

  /** Two lists of sets that differ only in devices have as many targets in
      every prefix. */
  lemma {:induction false} SameTargetsCount(a: seq<VolumeSet>, b: seq<VolumeSet>, n: nat)
    requires |a| == |b| && n <= |a|
    requires forall i :: 0 <= i < |a| ==> b[i] == a[i].(device := b[i].device)
    ensures |Targets(a[..n])| == |Targets(b[..n])|
  {
    if n > 0 {
      SameTargetsCount(a, b, n - 1);
      TargetsStep(a, n - 1);
      TargetsStep(b, n - 1);
    }
  }

  // ---------------------------------------------------------------------
  // The search, level by level

  /** One attempt with fixed settings. */
  function Attempt(ops: Ops, s: Settings): Result<Settings, ProposalError>
  {
    if ops.leaf(s) then Ok(s) else Err(ops.leafError(s))
  }

  /** What a level of the search reports, and the settings it leaves behind. */
  datatype Outcome = Outcome(result: Result<Settings, ProposalError>, settings: Settings)

  function WithPermutation(s: Settings, perm: seq<string>): Settings
  {
    s.(volumesSets := AssignPermutation(s.volumesSets, perm))
  }

  /** Tries the spreads in order on the settings as the previous spread left
      them; `error` when none succeeds. */
  function PermutationsFrom(ops: Ops, s: Settings, perms: seq<seq<string>>, error: ProposalError): Outcome
    decreases |perms|
  {
    if perms == [] then Outcome(Err(error), s)
    else
      var next := WithPermutation(s, perms[0]);
      if Attempt(ops, next).Ok? then Outcome(Attempt(ops, next), next)
      else PermutationsFrom(ops, next, perms[1..], error)
  }

  /** `try_with_each_permutation`: with automatic allocation a single attempt
      whose error is passed on; otherwise every spread in turn. */
  function EachPermutation(ops: Ops, s: Settings): Outcome
  {
    if s.allocateMode == AutoMode then Outcome(Attempt(ops, s), s)
    else PermutationsFrom(ops, s, DisksPermutations(s), ops.defaultError(s))
  }

  function RootsFrom(ops: Ops, s: Settings, roots: seq<string>, error: ProposalError): Outcome
    decreases |roots|
  {
    if roots == [] then Outcome(Err(error), s)
    else
      var o := EachPermutation(ops, s.(rootDevice := Some(roots[0])));
      if o.result.Ok? then o else RootsFrom(ops, o.settings, roots[1..], error)
  }

  /** `try_with_different_root_devices`. */
  function DifferentRootDevices(ops: Ops, s: Settings): Outcome
  {
    RootsFrom(ops, s, CandidateRoots(ops.initialGraph, s), ops.defaultError(s))
  }

  /** What the settings level reports, and the settings and the adjustments
      it leaves behind. */
  datatype SearchOutcome = SearchOutcome(
    result: Result<Settings, ProposalError>,
    settings: Settings,
    adjustments: Option<Adjustments>)

  function VariantsFrom(ops: Ops, s: Settings, adj: Option<Adjustments>, vs: seq<Variant>, error: ProposalError): SearchOutcome
    decreases |vs|
  {
    if vs == [] then SearchOutcome(Err(error), s, adj)
    else
      var o := DifferentRootDevices(ops, vs[0].settings);
      if o.result.Ok? then SearchOutcome(o.result, o.settings, Some(vs[0].adjustments))
      else VariantsFrom(ops, o.settings, Some(vs[0].adjustments), vs[1..], error)
  }

  function GeneratorKindFor(s: Settings): GeneratorKind
  {
    if s.ngFormat then NgGenerator else LegacyGenerator
  }

  /** `try_with_different_settings`. */
  function DifferentSettings(ops: Ops, s: Settings, adj: Option<Adjustments>): SearchOutcome
  {
    VariantsFrom(ops, s, adj, ops.variants(GeneratorKindFor(s), s), ops.defaultError(s))
  }

  /** Every group starts again from the initial settings, with the group as
      candidate devices. */
  function GroupsFrom(
    ops: Ops, initial: Settings, s: Settings, adj: Option<Adjustments>,
    groups: seq<seq<string>>, error: ProposalError): SearchOutcome
    decreases |groups|
  {
    if groups == [] then SearchOutcome(Err(error), s, adj)
    else
      var o := DifferentSettings(ops, initial.(candidateDevices := groups[0]), adj);
      if o.result.Ok? then o else GroupsFrom(ops, initial, o.settings, o.adjustments, groups[1..], error)
  }

  /** `try_with_each_candidate_group`, started from settings `s`. */
  function Proposal(ops: Ops, initial: Settings, s: Settings, adj: Option<Adjustments>): SearchOutcome
  {
    GroupsFrom(ops, initial, s, adj, GroupsOfCandidateDevices(ops.candidateDevices(s)), ops.defaultError(s))
  }

  // ---------------------------------------------------------------------
  // What the search promises

  /** A success is always settings the attempt accepted, and they are the
      settings left behind; a failure is the error the level was given. */
  predicate Reports(result: Result<Settings, ProposalError>, after: Settings, ops: Ops, error: ProposalError)
  {
    (result.Ok? ==> ops.leaf(result.value) && after == result.value) &&
    (result.Err? ==> result.error == error)
  }

  /** Tried in order, the spreads overwrite each other, so each attempt sees
      the entry settings with just that spread. A success is the first spread
      that works; a failure means that none does. */
  lemma {:induction false} PermutationsFromSpec(ops: Ops, s: Settings, perms: seq<seq<string>>, error: ProposalError)
    ensures var o := PermutationsFrom(ops, s, perms, error);
      Reports(o.result, o.settings, ops, error) &&
      (o.result.Err? ==> forall i :: 0 <= i < |perms| ==> !ops.leaf(WithPermutation(s, perms[i]))) &&
      (o.result.Ok? ==>
         exists i :: 0 <= i < |perms| && o.result.value == WithPermutation(s, perms[i]) &&
                     forall j :: 0 <= j < i ==> !ops.leaf(WithPermutation(s, perms[j])))
    decreases |perms|
  {
    if perms != [] {
      var next := WithPermutation(s, perms[0]);
      PermutationsFromSpec(ops, next, perms[1..], error);
      forall p ensures WithPermutation(next, p) == WithPermutation(s, p) {
        AssignPermutationOverwrites(s.volumesSets, perms[0], p);
      }
      var o := PermutationsFrom(ops, s, perms, error);
      if !ops.leaf(next) && o.result.Ok? {
        var i :| 0 <= i < |perms[1..]| && o.result.value == WithPermutation(next, perms[1..][i]) &&
          forall j :: 0 <= j < i ==> !ops.leaf(WithPermutation(next, perms[1..][j]));
        assert o.result.value == WithPermutation(s, perms[i + 1]);
        forall j | 0 <= j < i + 1 ensures !ops.leaf(WithPermutation(s, perms[j])) {
          if j > 0 {
            assert perms[j] == perms[1..][j - 1];
          }
        }
      }
      if o.result.Err? {
        forall i | 0 <= i < |perms| ensures !ops.leaf(WithPermutation(s, perms[i])) {
          if i > 0 {
            assert perms[i] == perms[1..][i - 1];
          }
        }
      }
    }
  }

  /** With automatic allocation the attempt's own result is passed on;
      otherwise the level behaves as `PermutationsFromSpec` says, over all
      spreads of the explicit candidate disks. */
  lemma EachPermutationSpec(ops: Ops, s: Settings)
    ensures var o := EachPermutation(ops, s);
      Reports(o.result, o.settings, ops, if s.allocateMode == AutoMode then ops.leafError(s) else ops.defaultError(s)) &&
      (s.allocateMode == DeviceMode && o.result.Err? ==>
        forall p :: |p| == |Targets(s.volumesSets)| && Over(p, s.explicitCandidateDevices) ==>
          !ops.leaf(WithPermutation(s, p)))
  {
    if s.allocateMode == DeviceMode {
      var perms := DisksPermutations(s);
      PermutationsFromSpec(ops, s, perms, ops.defaultError(s));
      if PermutationsFrom(ops, s, perms, ops.defaultError(s)).result.Err? {
        DisksPermutationsMembership(s);
        forall p | |p| == |Targets(s.volumesSets)| && Over(p, s.explicitCandidateDevices)
          ensures !ops.leaf(WithPermutation(s, p))
        {
          var i :| 0 <= i < |perms| && perms[i] == p;
        }
      }
    }
  }

  /** Two lists of volume sets that differ at most in the devices of their
      target sets. */
  predicate SameButDevices(a: seq<VolumeSet>, b: seq<VolumeSet>)
  {
    |a| == |b| &&
    (forall i :: 0 <= i < |a| ==> a[i] == b[i].(device := a[i].device)) &&
    (forall i :: 0 <= i < |a| && !IsTarget(b[i]) ==> a[i] == b[i])
  }

  /** Settings `a` are settings `b` with, in device mode, another spread of
      disks over the volume sets. */
  predicate RespreadOf(a: Settings, b: Settings)
  {
    a == b ||
    (b.allocateMode == DeviceMode && a == b.(volumesSets := a.volumesSets) &&
     SameButDevices(a.volumesSets, b.volumesSets))
  }

  /** Spreading disks over sets that differ only in their devices gives the
      same sets. */
  lemma AssignPermutationIgnoresDevices(a: seq<VolumeSet>, b: seq<VolumeSet>, p: seq<string>)
    requires SameButDevices(b, a)
    ensures AssignPermutation(a, p) == AssignPermutation(b, p)
  {
    forall i | 0 <= i < |a|
      ensures AssignPermutation(a, p)[i] == AssignPermutation(b, p)[i]
    {
      SameTargetsCount(a, b, i);
      assert b[i] == a[i].(device := b[i].device);
      var x := Nth(p, |Targets(a[..i])|);
      assert b[i].(device := x) == a[i].(device := x);
    }
  }

  /** Whatever spread a level leaves behind, the next spread replaces it. */
  lemma WithPermutationOfRespread(a: Settings, b: Settings, p: seq<string>)
    requires RespreadOf(a, b)
    ensures WithPermutation(a, p) == WithPermutation(b, p)
  {
    if a != b {
      AssignPermutationIgnoresDevices(b.volumesSets, a.volumesSets, p);
    }
  }

  /** The spread level leaves the settings it was given, with at most
      another spread of disks. */
  lemma {:induction false} PermutationsFromLeaves(ops: Ops, s: Settings, perms: seq<seq<string>>, error: ProposalError)
    requires s.allocateMode == DeviceMode
    ensures RespreadOf(PermutationsFrom(ops, s, perms, error).settings, s)
    decreases |perms|
  {
    if perms != [] {
      var next := WithPermutation(s, perms[0]);
      AssignPermutationSpec(s.volumesSets, perms[0]);
      assert RespreadOf(next, s);
      PermutationsFromLeaves(ops, next, perms[1..], error);
      var after := PermutationsFrom(ops, next, perms[1..], error).settings;
      if after != next {
        assert SameButDevices(after.volumesSets, s.volumesSets);
      }
    }
  }

  lemma EachPermutationLeaves(ops: Ops, s: Settings)
    ensures RespreadOf(EachPermutation(ops, s).settings, s)
  {
    if s.allocateMode == DeviceMode {
      PermutationsFromLeaves(ops, s, DisksPermutations(s), ops.defaultError(s));
    }
  }

  /** A respread of the settings changes neither whether the spread level
      succeeds nor the settings it succeeds with. */
  lemma EachPermutationOfRespread(ops: Ops, a: Settings, b: Settings)
    requires RespreadOf(a, b)
    ensures EachPermutation(ops, a).result.Ok? == EachPermutation(ops, b).result.Ok?
    ensures EachPermutation(ops, a).result.Ok? ==> EachPermutation(ops, a).result == EachPermutation(ops, b).result
  {
    if a != b {
      SameTargetsCount(b.volumesSets, a.volumesSets, |a.volumesSets|);
      assert a.volumesSets[..|a.volumesSets|] == a.volumesSets;
      assert b.volumesSets[..|b.volumesSets|] == b.volumesSets;
      var perms := DisksPermutations(a);
      assert perms == DisksPermutations(b);
      forall p ensures WithPermutation(a, p) == WithPermutation(b, p) {
        WithPermutationOfRespread(a, b, p);
      }
      PermutationsFromSpec(ops, a, perms, ops.defaultError(a));
      PermutationsFromSpec(ops, b, perms, ops.defaultError(b));
      var ra := PermutationsFrom(ops, a, perms, ops.defaultError(a)).result;
      var rb := PermutationsFrom(ops, b, perms, ops.defaultError(b)).result;
      if ra.Ok? && rb.Ok? {
        var i :| 0 <= i < |perms| && ra.value == WithPermutation(a, perms[i]) &&
          forall j :: 0 <= j < i ==> !ops.leaf(WithPermutation(a, perms[j]));
        var k :| 0 <= k < |perms| && rb.value == WithPermutation(b, perms[k]) &&
          forall j :: 0 <= j < k ==> !ops.leaf(WithPermutation(b, perms[j]));
        assert ops.leaf(WithPermutation(a, perms[i])) && ops.leaf(WithPermutation(b, perms[k]));
        assert i == k;
      }
    }
  }

  /** A success of the root level is accepted settings, and a failure is
      the given error. */
  lemma {:induction false} RootsFromReports(ops: Ops, s: Settings, roots: seq<string>, error: ProposalError)
    ensures var o := RootsFrom(ops, s, roots, error);
      Reports(o.result, o.settings, ops, error)
    decreases |roots|
  {
    if roots != [] {
      EachPermutationSpec(ops, s.(rootDevice := Some(roots[0])));
      var o := EachPermutation(ops, s.(rootDevice := Some(roots[0])));
      RootsFromReports(ops, o.settings, roots[1..], error);
    }
  }

  /** The root level tries the candidate roots in order. Each root's spreads
      are tried on whatever spread the previous root left, which makes no
      difference: a success is the first root whose spread level succeeds,
      as it would from the entry settings; a failure is the given error
      after every root failed. */
  lemma {:induction false} RootsFromSpec(ops: Ops, s: Settings, roots: seq<string>, error: ProposalError)
    ensures var o := RootsFrom(ops, s, roots, error);
      Reports(o.result, o.settings, ops, error) &&
      (o.result.Err? ==> forall i :: 0 <= i < |roots| ==>
        EachPermutation(ops, s.(rootDevice := Some(roots[i]))).result.Err?) &&
      (o.result.Ok? ==>
        exists i :: 0 <= i < |roots| && o.result == EachPermutation(ops, s.(rootDevice := Some(roots[i]))).result &&
                    forall j :: 0 <= j < i ==> EachPermutation(ops, s.(rootDevice := Some(roots[j]))).result.Err?)
    decreases |roots|
  {
    RootsFromReports(ops, s, roots, error);
    if roots != [] {
      var first := s.(rootDevice := Some(roots[0]));
      var o := EachPermutation(ops, first);
      RootsFromSpec(ops, o.settings, roots[1..], error);
      if o.result.Err? {
        EachPermutationLeaves(ops, first);
        forall x ensures RespreadOf(o.settings.(rootDevice := x), s.(rootDevice := x)) {
          if o.settings != first {
            assert o.settings.(rootDevice := x) == s.(rootDevice := x).(volumesSets := o.settings.volumesSets);
          }
        }
        forall i | 0 < i < |roots|
          ensures EachPermutation(ops, o.settings.(rootDevice := Some(roots[i]))).result.Ok? ==
                  EachPermutation(ops, s.(rootDevice := Some(roots[i]))).result.Ok?
          ensures EachPermutation(ops, o.settings.(rootDevice := Some(roots[i]))).result.Ok? ==>
                  EachPermutation(ops, o.settings.(rootDevice := Some(roots[i]))).result ==
                  EachPermutation(ops, s.(rootDevice := Some(roots[i]))).result
        {
          EachPermutationOfRespread(ops, o.settings.(rootDevice := Some(roots[i])), s.(rootDevice := Some(roots[i])));
        }
        var r := RootsFrom(ops, s, roots, error);
        if r.result.Err? {
          forall i | 0 <= i < |roots| ensures EachPermutation(ops, s.(rootDevice := Some(roots[i]))).result.Err? {
            if i > 0 {
              assert roots[i] == roots[1..][i - 1];
            }
          }
        } else {
          var i :| 0 <= i < |roots[1..]| &&
            r.result == EachPermutation(ops, o.settings.(rootDevice := Some(roots[1..][i]))).result &&
            forall j :: 0 <= j < i ==> EachPermutation(ops, o.settings.(rootDevice := Some(roots[1..][j]))).result.Err?;
          assert roots[1..][i] == roots[i + 1];
          forall j | 0 <= j < i + 1 ensures EachPermutation(ops, s.(rootDevice := Some(roots[j]))).result.Err? {
            if j > 0 {
              assert roots[j] == roots[1..][j - 1];
            }
          }
        }
      }
    }
  }

  /** A success of the settings level is accepted settings, and a failure
      is the given error. */
  lemma {:induction false} VariantsFromReports(
    ops: Ops, s: Settings, adj: Option<Adjustments>, vs: seq<Variant>, error: ProposalError)
    ensures var o := VariantsFrom(ops, s, adj, vs, error);
      Reports(o.result, o.settings, ops, error)
    decreases |vs|
  {
    if vs != [] {
      RootsFromReports(ops, vs[0].settings, CandidateRoots(ops.initialGraph, vs[0].settings), ops.defaultError(vs[0].settings));
      var o := DifferentRootDevices(ops, vs[0].settings);
      VariantsFromReports(ops, o.settings, Some(vs[0].adjustments), vs[1..], error);
    }
  }

  /** Each variant starts from its own settings: a success is the first
      variant whose root level succeeds; a failure is the given error after
      every variant failed. */
  lemma {:induction false} VariantsFromSpec(
    ops: Ops, s: Settings, adj: Option<Adjustments>, vs: seq<Variant>, error: ProposalError)
    ensures var o := VariantsFrom(ops, s, adj, vs, error);
      Reports(o.result, o.settings, ops, error) &&
      (o.result.Err? ==> forall i :: 0 <= i < |vs| ==> DifferentRootDevices(ops, vs[i].settings).result.Err?) &&
      (o.result.Ok? ==>
        exists i :: 0 <= i < |vs| && o.result == DifferentRootDevices(ops, vs[i].settings).result &&
                    forall j :: 0 <= j < i ==> DifferentRootDevices(ops, vs[j].settings).result.Err?)
    decreases |vs|
  {
    VariantsFromReports(ops, s, adj, vs, error);
    if vs != [] {
      var o := DifferentRootDevices(ops, vs[0].settings);
      VariantsFromSpec(ops, o.settings, Some(vs[0].adjustments), vs[1..], error);
      var r := VariantsFrom(ops, s, adj, vs, error);
      if o.result.Err? {
        if r.result.Err? {
          forall i | 0 <= i < |vs| ensures DifferentRootDevices(ops, vs[i].settings).result.Err? {
            if i > 0 {
              assert vs[i] == vs[1..][i - 1];
            }
          }
        } else {
          var i :| 0 <= i < |vs[1..]| && r.result == DifferentRootDevices(ops, vs[1..][i].settings).result &&
            forall j :: 0 <= j < i ==> DifferentRootDevices(ops, vs[1..][j].settings).result.Err?;
          assert vs[1..][i] == vs[i + 1];
          forall j | 0 <= j < i + 1 ensures DifferentRootDevices(ops, vs[j].settings).result.Err? {
            if j > 0 {
              assert vs[j] == vs[1..][j - 1];
            }
          }
        }
      }
    }
  }

  /** The verdict on a list of variants does not depend on the settings and
      adjustments left behind before it. */
  lemma {:induction false} VariantsFromResult(
    ops: Ops, s1: Settings, a1: Option<Adjustments>, s2: Settings, a2: Option<Adjustments>,
    vs: seq<Variant>, error: ProposalError)
    ensures VariantsFrom(ops, s1, a1, vs, error).result == VariantsFrom(ops, s2, a2, vs, error).result
    decreases |vs|
  {
    if vs != [] {
      var o := DifferentRootDevices(ops, vs[0].settings);
      VariantsFromResult(ops, o.settings, Some(vs[0].adjustments), o.settings, Some(vs[0].adjustments), vs[1..], error);
    }
  }

  /** Every group starts afresh from the initial settings: a success is the
      first group whose settings level succeeds; a failure means every group
      failed. */
  lemma {:induction false} GroupsFromSpec(
    ops: Ops, initial: Settings, s: Settings, adj: Option<Adjustments>,
    groups: seq<seq<string>>, error: ProposalError)
    ensures var o := GroupsFrom(ops, initial, s, adj, groups, error);
      Reports(o.result, o.settings, ops, error) &&
      (o.result.Err? ==> forall i :: 0 <= i < |groups| ==>
        DifferentSettings(ops, initial.(candidateDevices := groups[i]), None).result.Err?) &&
      (o.result.Ok? ==>
        exists i :: 0 <= i < |groups| &&
          o.result == DifferentSettings(ops, initial.(candidateDevices := groups[i]), None).result &&
          forall j :: 0 <= j < i ==> DifferentSettings(ops, initial.(candidateDevices := groups[j]), None).result.Err?)
    decreases |groups|
  {
    if groups != [] {
      var first := initial.(candidateDevices := groups[0]);
      var o := DifferentSettings(ops, first, adj);
      VariantsFromSpec(ops, first, adj, ops.variants(GeneratorKindFor(first), first), ops.defaultError(first));
      GroupsFromSpec(ops, initial, o.settings, o.adjustments, groups[1..], error);
      VariantsFromResult(ops, first, adj, first, None, ops.variants(GeneratorKindFor(first), first), ops.defaultError(first));
      var r := GroupsFrom(ops, initial, s, adj, groups, error);
      if o.result.Err? {
        if r.result.Err? {
          forall i | 0 <= i < |groups|
            ensures DifferentSettings(ops, initial.(candidateDevices := groups[i]), None).result.Err?
          {
            if i > 0 {
              assert groups[i] == groups[1..][i - 1];
            }
          }
        } else {
          var i :| 0 <= i < |groups[1..]| &&
            r.result == DifferentSettings(ops, initial.(candidateDevices := groups[1..][i]), None).result &&
            forall j :: 0 <= j < i ==> DifferentSettings(ops, initial.(candidateDevices := groups[1..][j]), None).result.Err?;
          assert groups[1..][i] == groups[i + 1];
          forall j | 0 <= j < i + 1
            ensures DifferentSettings(ops, initial.(candidateDevices := groups[j]), None).result.Err?
          {
            if j > 0 {
              assert groups[j] == groups[1..][j - 1];
            }
          }
        }
      }
    }
  }

  /** The whole search: a success is settings the attempt accepted; a
      failure is the default error of the settings it started from, after
      every group (every single candidate and all of them together) failed. */
  lemma ProposalSpec(ops: Ops, initial: Settings, s: Settings, adj: Option<Adjustments>)
    ensures var o := Proposal(ops, initial, s, adj);
      Reports(o.result, o.settings, ops, ops.defaultError(s)) &&
      (o.result.Err? ==>
        DifferentSettings(ops, initial.(candidateDevices := ops.candidateDevices(s)), None).result.Err? &&
        forall c :: c in ops.candidateDevices(s) ==>
          DifferentSettings(ops, initial.(candidateDevices := [c]), None).result.Err?)
  {
    var candidates := ops.candidateDevices(s);
    var groups := GroupsOfCandidateDevices(candidates);
    GroupsFromSpec(ops, initial, s, adj, groups, ops.defaultError(s));
    GroupsOfCandidateDevicesSpec(candidates);
    if Proposal(ops, initial, s, adj).result.Err? {
      var i :| 0 <= i < |groups| && groups[i] == candidates;
      forall c | c in candidates
        ensures DifferentSettings(ops, initial.(candidateDevices := [c]), None).result.Err?
      {
        assert [c] in groups;
      }
    }
  }

  // ---------------------------------------------------------------------
  // The proposal object

  class InitialProposal {
    const ops: Ops
    const initialSettings: Settings
    var settings: Settings
    var spaceMaker: Option<SpaceMaker>
    var autoSettingsAdjustment: Option<Adjustments>
    var generator: Generator

    constructor (ops: Ops, settings: Settings)
      ensures this.ops == ops && initialSettings == settings && this.settings == settings
      ensures spaceMaker == None && autoSettingsAdjustment == None
    {
      this.ops := ops;
      initialSettings := settings;
      this.settings := settings;
      spaceMaker := None;
      autoSettingsAdjustment := None;
      generator := Generator([], 0);
    }

    /** Tries every group of candidate devices, each from the initial
        settings and with a fresh space maker. */
    method TryProposal() returns (r: Result<Settings, ProposalError>)
      modifies this`settings, this`spaceMaker, this`autoSettingsAdjustment, this`generator
      ensures var o := Proposal(ops, initialSettings, old(settings), old(autoSettingsAdjustment));
        r == o.result && settings == o.settings && autoSettingsAdjustment == o.adjustments
      ensures spaceMaker == None
    {
      var error := ops.defaultError(settings);
      var groups := GroupsOfCandidateDevices(ops.candidateDevices(settings));
      GroupsOfCandidateDevicesSpec(ops.candidateDevices(settings));
      var i := 0;
      while i < |groups|
        invariant 0 <= i <= |groups|
        invariant GroupsFrom(ops, initialSettings, settings, autoSettingsAdjustment, groups[i..], error) ==
          Proposal(ops, initialSettings, old(settings), old(autoSettingsAdjustment))
        invariant i > 0 ==> spaceMaker == None
      {
        ResetSettings();
        settings := settings.(candidateDevices := groups[i]);
        r := TryWithDifferentSettings();
        if r.Ok? {
          return;
        }
        i := i + 1;
      }
      r := Err(error);
    }

    method ResetSettings()
      modifies this`spaceMaker, this`settings
      ensures spaceMaker == None && settings == initialSettings
    {
      spaceMaker := None;
      settings := initialSettings;
    }

    method CreateSettingsGenerator()
      modifies this`generator
      ensures generator == Generator(ops.variants(GeneratorKindFor(settings), settings), 0)
    {
      var kind := if settings.ngFormat then NgGenerator else LegacyGenerator;
      generator := Generator(ops.variants(kind, settings), 0);
    }

    /** Takes the next variant of the generator, if any, as the settings and
        records its adjustments; without one nothing changes. */
    method AssignNextSettings() returns (found: bool)
      modifies this`settings, this`autoSettingsAdjustment, this`generator
      ensures found <==> old(generator.next) < |old(generator.variants)|
      ensures !found ==>
        settings == old(settings) && autoSettingsAdjustment == old(autoSettingsAdjustment) &&
        generator == old(generator)
      ensures found ==>
        var v := old(generator.variants)[old(generator.next)];
        settings == v.settings && autoSettingsAdjustment == Some(v.adjustments) &&
        generator == old(generator).(next := old(generator.next) + 1)
    {
      if generator.next >= |generator.variants| {
        return false;
      }
      var v := generator.variants[generator.next];
      generator := generator.(next := generator.next + 1);
      settings := v.settings;
      autoSettingsAdjustment := Some(v.adjustments);
      return true;
    }

    method TryWithDifferentSettings() returns (r: Result<Settings, ProposalError>)
      modifies this`settings, this`autoSettingsAdjustment, this`generator
      ensures var o := DifferentSettings(ops, old(settings), old(autoSettingsAdjustment));
        r == o.result && settings == o.settings && autoSettingsAdjustment == o.adjustments
    {
      var error := ops.defaultError(settings);
      CreateSettingsGenerator();
      var vs := generator.variants;
      while true
        invariant generator.variants == vs && generator.next <= |vs|
        invariant VariantsFrom(ops, settings, autoSettingsAdjustment, vs[generator.next..], error) ==
          DifferentSettings(ops, old(settings), old(autoSettingsAdjustment))
        decreases |vs| - generator.next
      {
        ghost var k := generator.next;
        var more := AssignNextSettings();
        if !more {
          break;
        }
        assert vs[k..][1..] == vs[k + 1..];
        r := TryWithDifferentRootDevices();
        if r.Ok? {
          return;
        }
      }
      r := Err(error);
    }

    method TryWithDifferentRootDevices() returns (r: Result<Settings, ProposalError>)
      modifies this`settings
      ensures var o := DifferentRootDevices(ops, old(settings));
        r == o.result && settings == o.settings
    {
      var error := ops.defaultError(settings);
      var roots := CandidateRoots(ops.initialGraph, settings);
      var i := 0;
      while i < |roots|
        invariant 0 <= i <= |roots|
        invariant RootsFrom(ops, settings, roots[i..], error) == DifferentRootDevices(ops, old(settings))
      {
        settings := settings.(rootDevice := Some(roots[i]));
        assert roots[i..][1..] == roots[i + 1..];
        r := TryWithEachPermutation();
        if r.Ok? {
          return;
        }
        i := i + 1;
      }
      r := Err(error);
    }

    method TryWithEachPermutation() returns (r: Result<Settings, ProposalError>)
      modifies this`settings
      ensures var o := EachPermutation(ops, old(settings));
        r == o.result && settings == o.settings
    {
      if settings.allocateMode == AutoMode {
        r := Attempt(ops, settings);
        return;
      }
      var error := ops.defaultError(settings);
      var perms := DisksPermutations(settings);
      var i := 0;
      while i < |perms|
        invariant 0 <= i <= |perms|
        invariant PermutationsFrom(ops, settings, perms[i..], error) == EachPermutation(ops, old(settings))
      {
        AssignDevices(perms[i]);
        assert perms[i..][1..] == perms[i + 1..];
        r := Attempt(ops, settings);
        if r.Ok? {
          return;
        }
        i := i + 1;
      }
      r := Err(error);
    }

    /** Gives the proposed non-root volume sets, in order, the disks of the
        spread. */
    method AssignDevices(perm: seq<string>)
      modifies this`settings
      ensures settings == WithPermutation(old(settings), perm)
    {
      var sets := settings.volumesSets;
      ghost var original := sets;
      var idx := 0;
      var i := 0;
      while i < |sets|
        invariant 0 <= i <= |sets| == |original|
        invariant settings == old(settings)
        invariant idx == |Targets(original[..i])|
        invariant forall j :: 0 <= j < i ==> sets[j] == AssignPermutation(original, perm)[j]
        invariant forall j :: i <= j < |sets| ==> sets[j] == original[j]
      {
        TargetsStep(original, i);
        if sets[i].proposed && !sets[i].root {
          var device := if idx < |perm| then Some(perm[idx]) else None;
          sets := sets[i := sets[i].(device := device)];
          idx := idx + 1;
        }
        i := i + 1;
      }
      assert sets == AssignPermutation(original, perm);
      settings := settings.(volumesSets := sets);
    }
  }
}
