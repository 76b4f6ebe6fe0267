# yast-storage-ng: a verified model of the proposal and boot-requirement core

This project models, in Dafny, the decision-making core of the YaST storage
stack:

- **The AutoYaST devices creator** (`AutoinstCreation`). It takes the planned
  devices of an AutoYaST profile and creates or reuses them in dependency
  order: partitions, disk-like devices, MD RAIDs, bcaches, LVM volume groups,
  NFS shares. A creator that finds no room is retried once with "flexible"
  devices: minimum size 1 byte, weight equal to the old minimum.
- **The initial guided proposal** (`InitialGuidedProposal`). It is a nested
  search: groups of candidate disks, then settings variants, then root disks,
  then spreads of the volume sets over the disks. The first successful
  attempt wins. A level whose every option fails reports the default error of
  the settings it started with.
- **The boot-requirement rules.**
  - `BootAnalyzer`: the boot-disk fallback chain and the facts about the
    root (in LVM, encrypted, Btrfs).
  - `BootStrategyBase`: the `/boot` and BIOS-GRUB partitions needed for an
    LVM root.
- **The encryption-method catalog** (`EncryptionMethods`) and **swap
  matching** (`SwapEncryption`). The catalog does first-match lookups over a
  fixed, ordered list of methods. A swap method recognises its devices by a
  case-insensitive `swap` crypt option together with its own key file.
- **Partition slots** (`PartitionSlots`, `CreatePartition`). These cover the
  flags string of a slot and the expert partitioner's choice of slot for a
  new primary partition.

`Devicegraphs` and `Planned` hold the data the modules share:

- disks, filesystems and their ancestors;
- planned devices as one closed datatype with a variant per kind.

`Seqs` and `Wrappers` are generic sequence functions and
`Option`/`Result`.

Code that changes state step by step is modelled as classes:

- `AutoinstDevicesCreator`, `InitialProposal`, `Analyzer` and
  `PartitionTable`, with `modifies` frames;
- the loops of `reuse_partitions`, the `merge!` loops, the settings
  generator loop, the permutation loop and `delete_if`, with invariants;
- the string building of `flags_string`.

Each such method is proved against a specification function. The properties
are then proved as lemmas about that function.

Collaborators whose code is not part of this model become function-valued
fields of `Ops` records that the model never looks inside. These are the
distribution calculator, the partition/MD/bcache/LVM/NFS creators, the
settings generators, the guided proposal's fixed-settings attempt, the disk
analyzer, the libstorage region conversions and `File.exist?`. An exception
raised by the source becomes the `Err` case of a `Result`.

## Model

| member | source | states |
|---|---|---|
| AutoinstCreation.CreatedNamesSpec | src/lib/y2storage/proposal/autoinst_devices_creator.rb:328 | `created_names` lists exactly the names of the created devices the block selects; it is empty exactly when none is selected, and its first name belongs to the first selected device |
| AutoinstCreation.FlexibleDevices | src/lib/y2storage/proposal/autoinst_devices_creator.rb:475-482 | same number of devices in the same order; each has minimum size 1, weight equal to the original minimum, the original maximum, and is otherwise the original device |
| AutoinstCreation.WithFlexibleChildren | src/lib/y2storage/proposal/autoinst_devices_creator.rb:398-400 | the clone of an MD, bcache or VG has its nested partitions/LVs made flexible and nothing else changed |
| AutoinstCreation.SizedPartitions | src/lib/y2storage/proposal/autoinst_devices_creator.rb:507-515 | a percent-sized partition gets min = max = its size on its disk of the original devicegraph and keeps everything else; every other partition is unchanged |
| AutoinstCreation.FreeSpacesForSpec | src/lib/y2storage/proposal/autoinst_devices_creator.rb:127-128 | a free space is offered to the calculator exactly when it is on a disk whose name is in `disk_names` |
| AutoinstCreation.BestDistribution | src/lib/y2storage/proposal/autoinst_devices_creator.rb:126-136 | the calculator's answer for the devices as planned when there is one; otherwise its answer for their flexible copies over the same spaces |
| AutoinstCreation.PrimaryFirstSpec | src/lib/y2storage/proposal/autoinst_devices_creator.rb:299-300 | the partitions handed to the calculator are a permutation of the input, primary ones first, each group in its original order |
| AutoinstCreation.CreatePartitions | src/lib/y2storage/proposal/autoinst_devices_creator.rb:297-306 | `NoDiskSpace` exactly when no distribution is found for the primary-first order; otherwise the partition creator's result for that distribution |
| AutoinstCreation.ReuseOrderSpec | src/lib/y2storage/proposal/autoinst_devices_creator.rb:258-261 | every partition to reuse appears exactly once; all shrinking ones come before the others; each group keeps its order |
| AutoinstCreation.ReuseAllStep | src/lib/y2storage/proposal/autoinst_devices_creator.rb:260 | reusing one more device applies `reuse!` to the devicegraph the previous ones left |
| AutoinstCreation.MergeReusedStep | src/lib/y2storage/proposal/autoinst_devices_creator.rb:266-291 | each `merge!` step of `reuse_mds`/`reuse_bcaches`/`reuse_vgs` starts from the devicegraph of the result so far |
| AutoinstCreation.MergeReusedKeepsCreated | src/lib/y2storage/proposal/autoinst_devices_creator.rb:266-291 | merging reused devices only appends to the created devices |
| AutoinstCreation.MdMembersSpec | src/lib/y2storage/proposal/autoinst_devices_creator.rb:328-329 | an MD's device list names exactly its created members first, then the reuse name of every reusable member once each |
| AutoinstCreation.CreateMd | src/lib/y2storage/proposal/autoinst_devices_creator.rb:394-402 | the creator's result as planned unless it is `NoDiskSpace`; then one retry with flexible partitions |
| AutoinstCreation.CreateMds | src/lib/y2storage/proposal/autoinst_devices_creator.rb:315-332 | the fold keeps every device created before it as a prefix and is the identity on no MDs |
| AutoinstCreation.FindBcacheMemberSpec | src/lib/y2storage/proposal/autoinst_devices_creator.rb:452-457 | the first created device playing the role wins; failing that, the first reusable one's reuse name; with neither, nil |
| AutoinstCreation.CreateBcache | src/lib/y2storage/proposal/autoinst_devices_creator.rb:411-419 | the creator's result as planned unless it is `NoDiskSpace`; then one retry with flexible partitions |
| AutoinstCreation.CreateBcaches | src/lib/y2storage/proposal/autoinst_devices_creator.rb:341-348 | the fold keeps earlier created devices as a prefix and is the identity on no bcaches |
| AutoinstCreation.PvNamesEmpty | src/lib/y2storage/proposal/autoinst_devices_creator.rb:364-366 | a VG's PV list is empty exactly when neither a previously created device nor a reusable one is a PV for it |
| AutoinstCreation.CreateLogicalVolumes | src/lib/y2storage/proposal/autoinst_devices_creator.rb:427-436 | the creator's result as planned when it succeeds; after any error, one retry with flexible LVs |
| AutoinstCreation.SetUpVg | src/lib/y2storage/proposal/autoinst_devices_creator.rb:363-372 | a VG without PVs adds a `:no_pvs` issue and leaves the result unchanged; otherwise its creation result is merged in |
| AutoinstCreation.SetUpLvmIssues | src/lib/y2storage/proposal/autoinst_devices_creator.rb:357-373 | a successful `set_up_lvm` adds exactly one `:no_pvs` issue per VG without PVs, in order |
| AutoinstCreation.SetUpLvmWithoutPvs | src/lib/y2storage/proposal/autoinst_devices_creator.rb:363-369 | when no VG finds PVs, the run never fails, leaves the result as it was and adds one issue per VG |
| AutoinstCreation.CreateNfsFilesystems | src/lib/y2storage/proposal/autoinst_devices_creator.rb:379-384 | the fold keeps earlier created devices as a prefix and is the identity on no shares |
| AutoinstCreation.PartitionsStep | src/lib/y2storage/proposal/autoinst_devices_creator.rb:191-199 | the partitions without a reuse target go to the create list and those with one to the reuse list; the current devicegraph is the new result's |
| AutoinstCreation.PartitionsStepSplits | src/lib/y2storage/proposal/autoinst_devices_creator.rb:193 | every planned disk partition lands in exactly one of the two lists, according to `reuse?` |
| AutoinstCreation.DiskLikeStep | src/lib/y2storage/proposal/autoinst_devices_creator.rb:205-213 | planned disks and stray block devices join the reuse list; the creator result sees the same devicegraph change |
| AutoinstCreation.MdsStep | src/lib/y2storage/proposal/autoinst_devices_creator.rb:216-224 | MDs without a reuse target join the create list; the partitions of reused MDs join the reuse list |
| AutoinstCreation.BcachesStep | src/lib/y2storage/proposal/autoinst_devices_creator.rb:227-234 | bcaches without a reuse target join the create list; the partitions of reused bcaches join the reuse list |
| AutoinstCreation.VgsStep | src/lib/y2storage/proposal/autoinst_devices_creator.rb:237-244 | every planned VG joins the create list; the issues grow by one `:no_pvs` per VG without PVs |
| AutoinstCreation.NfsStep | src/lib/y2storage/proposal/autoinst_devices_creator.rb:247-250 | NFS shares join the create list and nothing else |
| AutoinstCreation.ProcessAll | src/lib/y2storage/proposal/autoinst_devices_creator.rb:178-188 | a successful run always ends with a creator result |
| AutoinstCreation.PopulateCreatesInDependencyOrder | src/lib/y2storage/proposal/autoinst_devices_creator.rb:178-188 | the devices reported as created are the partitions, MDs and bcaches to create, then every VG, then every NFS share, in that order |
| AutoinstCreation.AutoinstDevicesCreator.constructor | src/lib/y2storage/proposal/autoinst_devices_creator.rb:72-75 | keeps the original devicegraph and the issues list |
| AutoinstCreation.AutoinstDevicesCreator.PopulatedDevicegraph | src/lib/y2storage/proposal/autoinst_devices_creator.rb:84-95 | resets, records the inputs and returns `Populate` of them; on success the object's state is the final state of the run |
| AutoinstCreation.AutoinstDevicesCreator.Reset | src/lib/y2storage/proposal/autoinst_devices_creator.rb:167-172 | both lists are empty, there is no creator result, and the devicegraph is a duplicate of the original, which is left untouched |
| AutoinstCreation.AutoinstDevicesCreator.SetCreatorResult | src/lib/y2storage/proposal/autoinst_devices_creator.rb:145-148 | the current devicegraph follows the new creator result |
| AutoinstCreation.AutoinstDevicesCreator.ProcessDevices | src/lib/y2storage/proposal/autoinst_devices_creator.rb:178-188 | the six steps run in order; the outcome and the new state are those of `ProcessAll` |
| AutoinstCreation.AutoinstDevicesCreator.ProcessPartitions | src/lib/y2storage/proposal/autoinst_devices_creator.rb:191-199 | its error and new state are those of `PartitionsStep` |
| AutoinstCreation.AutoinstDevicesCreator.ReusePartitions | src/lib/y2storage/proposal/autoinst_devices_creator.rb:258-261 | `reuse!` is applied to the shrinking partitions first, classified before any reuse, each once |
| AutoinstCreation.AutoinstDevicesCreator.ReuseEachDevice | src/lib/y2storage/proposal/autoinst_devices_creator.rb:260 | the loop applies `reuse!` to each device in turn |
| AutoinstCreation.AutoinstDevicesCreator.ProcessDiskLikeDevs | src/lib/y2storage/proposal/autoinst_devices_creator.rb:205-213 | the new state is `DiskLikeStep` of the old one |
| AutoinstCreation.AutoinstDevicesCreator.MergeEachReused | src/lib/y2storage/proposal/autoinst_devices_creator.rb:266-291 | the creator result after the `merge!` loop is `MergeReused` of the old one |
| AutoinstCreation.AutoinstDevicesCreator.ProcessMds | src/lib/y2storage/proposal/autoinst_devices_creator.rb:216-224 | its error and new state are those of `MdsStep` |
| AutoinstCreation.AutoinstDevicesCreator.ProcessBcaches | src/lib/y2storage/proposal/autoinst_devices_creator.rb:227-234 | its error and new state are those of `BcachesStep` |
| AutoinstCreation.AutoinstDevicesCreator.ProcessVgs | src/lib/y2storage/proposal/autoinst_devices_creator.rb:237-244 | its error and new state are those of `VgsStep` |
| AutoinstCreation.AutoinstDevicesCreator.ProcessNfsFilesystems | src/lib/y2storage/proposal/autoinst_devices_creator.rb:247-250 | its error and new state are those of `NfsStep` |
| InitialGuidedProposal.GroupsOfCandidateDevicesSpec | src/lib/y2storage/initial_guided_proposal.rb:232-242 | the groups are exactly the single candidates and the whole list, with no group repeated, and there is at least one |
| InitialGuidedProposal.GroupsOfDistinctCandidates | src/lib/y2storage/initial_guided_proposal.rb:232-242 | for distinct candidates: the singletons in order, then the whole list; a single candidate gives one group |
| InitialGuidedProposal.FoundDisksSpec | src/lib/y2storage/initial_guided_proposal.rb:256-257 | only disks of the devicegraph named as candidates, and every candidate that names a disk |
| InitialGuidedProposal.CandidateRootsSpec | src/lib/y2storage/initial_guided_proposal.rb:251-260 | `[root_device]` in auto mode with a root device; otherwise the names of the candidate disks, the same disks, ordered by non-increasing size |
| InitialGuidedProposal.RepeatedPermutationsCount | src/lib/y2storage/initial_guided_proposal.rb:266 | there are n to the power k repeated permutations |
| InitialGuidedProposal.RepeatedPermutationsMembership | src/lib/y2storage/initial_guided_proposal.rb:266 | they are exactly the sequences of length k over the candidate disks |
| InitialGuidedProposal.TargetsSnoc | src/lib/y2storage/initial_guided_proposal.rb:263 | a further volume set is a spread target exactly when it is proposed and not the root set |
| InitialGuidedProposal.DisksPermutationsSpec | src/lib/y2storage/initial_guided_proposal.rb:262-271 | all n^k spreads, each of length k over the explicit candidates, ordered by non-increasing number of distinct disks counting the root device |
| InitialGuidedProposal.DisksPermutationsMembership | src/lib/y2storage/initial_guided_proposal.rb:262-271 | the spreads are exactly the sequences of k explicit candidates, k the number of target volume sets |
| InitialGuidedProposal.AssignPermutationSpec | src/lib/y2storage/initial_guided_proposal.rb:172-177 | only the devices of the target sets change; in order, they are the disks of the spread |
| InitialGuidedProposal.AssignPermutationOverwrites | src/lib/y2storage/initial_guided_proposal.rb:172-177 | assigning a second spread completely replaces the first |
| InitialGuidedProposal.SameTargetsCount | src/lib/y2storage/initial_guided_proposal.rb:172-177 | changing devices never changes which sets are targets |
| InitialGuidedProposal.PermutationsFromSpec | src/lib/y2storage/initial_guided_proposal.rb:166-184 | a success is the first spread whose attempt succeeds; a failure is the given error after every spread failed |
| InitialGuidedProposal.EachPermutationSpec | src/lib/y2storage/initial_guided_proposal.rb:166-184 | auto mode makes one attempt and passes its error on; otherwise the spread search reports the default error on exhaustion |
| InitialGuidedProposal.AssignPermutationIgnoresDevices | src/lib/y2storage/initial_guided_proposal.rb:172-177 | assigning a spread to sets that differ only in their target devices gives the same sets |
| InitialGuidedProposal.WithPermutationOfRespread | src/lib/y2storage/initial_guided_proposal.rb:172-177 | the next spread replaces whatever spread the settings carried |
| InitialGuidedProposal.PermutationsFromLeaves | src/lib/y2storage/initial_guided_proposal.rb:166-184 | the spread level leaves the settings it was given, with at most another spread of disks over the target sets |
| InitialGuidedProposal.EachPermutationLeaves | src/lib/y2storage/initial_guided_proposal.rb:166-184 | the same for the whole spread level, in either allocation mode |
| InitialGuidedProposal.EachPermutationOfRespread | src/lib/y2storage/initial_guided_proposal.rb:166-184 | a leftover spread changes neither whether the spread level succeeds nor the settings it succeeds with |
| InitialGuidedProposal.RootsFromReports | src/lib/y2storage/initial_guided_proposal.rb:148-164 | a success of the root level is accepted settings, left behind; a failure is the given error |
| InitialGuidedProposal.RootsFromSpec | src/lib/y2storage/initial_guided_proposal.rb:148-164 | a success is accepted settings and equals the result of the first candidate root whose spread level succeeds, every earlier root having failed; a failure is the given error after every root failed, each judged as from the entry settings |
| InitialGuidedProposal.VariantsFromReports | src/lib/y2storage/initial_guided_proposal.rb:119-135 | a success of the settings level is accepted settings, left behind; a failure is the given error |
| InitialGuidedProposal.VariantsFromSpec | src/lib/y2storage/initial_guided_proposal.rb:119-135 | a success is accepted settings and equals the result of the first variant whose root level succeeds, every earlier variant having failed; a failure is the given error after every variant failed |
| InitialGuidedProposal.VariantsFromResult | src/lib/y2storage/initial_guided_proposal.rb:119-135 | the verdict on the variants does not depend on the settings left behind before them |
| InitialGuidedProposal.GroupsFromSpec | src/lib/y2storage/initial_guided_proposal.rb:90-105 | a success equals the result of the first group whose settings level succeeds from the initial settings, every earlier group having failed; a failure means every group failed |
| InitialGuidedProposal.ProposalSpec | src/lib/y2storage/initial_guided_proposal.rb:77-105 | a success is settings the attempt accepted; a failure is the default error after every single candidate and the whole list failed |
| InitialGuidedProposal.InitialProposal.constructor | src/lib/y2storage/initial_guided_proposal.rb:36-40 | the settings start as the initial settings, with no space maker and no adjustments |
| InitialGuidedProposal.InitialProposal.TryProposal | src/lib/y2storage/initial_guided_proposal.rb:77-105 | the result, settings and adjustments are those of `Proposal`; the space maker is cleared |
| InitialGuidedProposal.InitialProposal.ResetSettings | src/lib/y2storage/initial_guided_proposal.rb:190-193 | the settings are the initial ones and the space maker is cleared |
| InitialGuidedProposal.InitialProposal.CreateSettingsGenerator | src/lib/y2storage/initial_guided_proposal.rb:203-209 | a fresh generator of the kind the settings format asks for |
| InitialGuidedProposal.InitialProposal.AssignNextSettings | src/lib/y2storage/initial_guided_proposal.rb:216-224 | false and nothing changed when the generator is exhausted; otherwise the next variant's settings and adjustments are installed |
| InitialGuidedProposal.InitialProposal.TryWithDifferentSettings | src/lib/y2storage/initial_guided_proposal.rb:119-135 | the result, settings and adjustments are those of `DifferentSettings` |
| InitialGuidedProposal.InitialProposal.TryWithDifferentRootDevices | src/lib/y2storage/initial_guided_proposal.rb:148-164 | the result and settings are those of `DifferentRootDevices` |
| InitialGuidedProposal.InitialProposal.TryWithEachPermutation | src/lib/y2storage/initial_guided_proposal.rb:166-184 | the result and settings are those of `EachPermutation` |
| InitialGuidedProposal.InitialProposal.AssignDevices | src/lib/y2storage/initial_guided_proposal.rb:172-177 | the i-th target set gets the i-th disk of the spread |
| BootAnalyzer.RootPlannedDev | src/lib/y2storage/boot_requirements_strategies/analyzer.rb:44-46 | the first planned device mounted at "/"; none exactly when no planned device is |
| BootAnalyzer.RootPlannedDevAsWrittenPicksSwap | src/lib/y2storage/boot_requirements_strategies/analyzer.rb:44-46 | the lookup as written picks a swap partition planned before root and remounts it at "/" |
| BootAnalyzer.RootPlannedDevAgreesWhenRootComesFirst | src/lib/y2storage/boot_requirements_strategies/analyzer.rb:44-46 | as written and corrected agree when the first device with a mount point is the root |
| BootAnalyzer.RootFilesystem | src/lib/y2storage/boot_requirements_strategies/analyzer.rb:47 | the first filesystem mounted at "/"; none exactly when there is no such filesystem |
| BootAnalyzer.FirstDiskAncestor | src/lib/y2storage/boot_requirements_strategies/analyzer.rb:78 | a disk among the filesystem's ancestors; none exactly when no ancestor is a disk |
| BootAnalyzer.DiskNamed | src/lib/y2storage/boot_requirements_strategies/analyzer.rb:66-68 | a disk of the devicegraph with the chosen name; none when no disk has it |
| BootAnalyzer.BootDiskFallbacks | src/lib/y2storage/boot_requirements_strategies/analyzer.rb:63-83 | the named disk wins; then a disk below the root filesystem; then the first disk; there is always one when the devicegraph has disks |
| BootAnalyzer.PtableTypeOf | src/lib/y2storage/boot_requirements_strategies/analyzer.rb:132-138 | none exactly without a boot disk; the existing table's type when there is one, otherwise the disk's preferred type |
| BootAnalyzer.RootInLvm | src/lib/y2storage/boot_requirements_strategies/analyzer.rb:85-93 | a planned root decides alone; otherwise some plain block device of the root filesystem is an LV; false with neither |
| BootAnalyzer.EncryptedRoot | src/lib/y2storage/boot_requirements_strategies/analyzer.rb:95-107 | the same order of precedence, asking whether the root is encrypted |
| BootAnalyzer.BtrfsRoot | src/lib/y2storage/boot_requirements_strategies/analyzer.rb:109-117 | the same order of precedence, asking whether the filesystem type is Btrfs; an error when a formattable planned root has no type |
| BootAnalyzer.PlannedRootTakesPrecedence | src/lib/y2storage/boot_requirements_strategies/analyzer.rb:85-117 | with a planned root, nothing the devicegraph holds changes the three answers |
| BootAnalyzer.Analyzer.constructor | src/lib/y2storage/boot_requirements_strategies/analyzer.rb:39-48 | records the inputs, the planned root device and the root filesystem; no boot disk yet |
| BootAnalyzer.Analyzer.BootDisk | src/lib/y2storage/boot_requirements_strategies/analyzer.rb:63-83 | returns the boot disk of the fallback chain and memoises it; once memoised it is returned unchanged |
| BootAnalyzer.Analyzer.BootPtableType | src/lib/y2storage/boot_requirements_strategies/analyzer.rb:132-138 | the partition table type of the boot disk |
| BootAnalyzer.Analyzer.BootPtableTypeIs | src/lib/y2storage/boot_requirements_strategies/analyzer.rb:119-122 | true exactly when there is a boot disk whose table type is the given one |
| BootStrategyBase.NewStrategy | src/lib/storage/boot_requirements_strategies/base.rb:41-45 | the root disk is the device the analyzer finds for the root device |
| BootStrategyBase.RootPtableType | src/lib/storage/boot_requirements_strategies/base.rb:99-103 | a type exactly when there is a root disk with a partition table, and it is that table's type |
| BootStrategyBase.BootVolume | src/lib/storage/boot_requirements_strategies/base.rb:76-84 | ext4 on `/boot` on the root device, 100 MiB ≤ 200 MiB desired ≤ 500 MiB, never on an LV |
| BootStrategyBase.GrubVolume | src/lib/storage/boot_requirements_strategies/base.rb:86-97 | GPT BIOS id, 256 KiB ≤ 1 MiB desired ≤ 8 MiB, size kept when aligning, not bootable, never on an LV |
| BootStrategyBase.NeededPartitions | src/lib/storage/boot_requirements_strategies/base.rb:47-74 | at most one volume, and only the `/boot` or the GRUB volume; `/boot` exactly for msdos with LVM; GRUB exactly for gpt with LVM and no GRUB partition; none without a table or without LVM |
| SwapEncryption.KeyFile | src/lib/y2storage/encryption_method/swap.rb:53-57 | the method's key file, or the "No key file indicated!" error when it has none |
| SwapEncryption.CaseEqualSwap | src/lib/y2storage/encryption_method/swap.rb:104-106 | an option equals "swap" ignoring case exactly when it spells s-w-a-p in any mix of cases |
| SwapEncryption.ContainSwapOption | src/lib/y2storage/encryption_method/swap.rb:104-106 | true exactly when some option is "swap" ignoring case; never for no options |
| SwapEncryption.UseKeyFile | src/lib/y2storage/encryption_method/swap.rb:112-114 | true exactly when the given key file is the method's; an error when the method has none |
| SwapEncryption.Used | src/lib/y2storage/encryption_method/swap.rb:96-98 | true exactly with a swap option and the method's own key file; the missing key file is only an error when a swap option is present |
| SwapEncryption.UsedFor | src/lib/y2storage/encryption_method/swap.rb:27-29 | matches on the encryption device's key file |
| SwapEncryption.UsedForCrypttab | src/lib/y2storage/encryption_method/swap.rb:32-34 | a crypttab entry matches exactly when an encryption device with its password field as key file would |
| SwapEncryption.NoSwapOptionNoMatch | src/lib/y2storage/encryption_method/swap.rb:96-106 | a device without a swap option never matches, whatever its key file |
| SwapEncryption.Available | src/lib/y2storage/encryption_method/swap.rb:42-44 | usable exactly when the key file exists; an error without a key file |
| SwapEncryption.EncryptionProcess | src/lib/y2storage/encryption_method/swap.rb:117-121 | a volatile process with the method's key file, cipher, key size and sector size; an error without a key file |
| EncryptionMethods.AllSpec | src/lib/y2storage/encryption_method.rb:48-54 | five methods, each once, every method listed, the LUKS ones first and the swap ones last |
| EncryptionMethods.AllMethods | src/lib/y2storage/encryption_method.rb:55-57 | the whole catalog, every method once |
| EncryptionMethods.OnlyForSwap | src/lib/y2storage/encryption_method/swap.rb:37-39 | always true for a swap method |
| EncryptionMethods.FirstMatch | src/lib/y2storage/encryption_method.rb:70-88 | nil exactly when no method matches; otherwise the first matching one; a check's error stops the search |
| EncryptionMethods.SelectMatching | src/lib/y2storage/encryption_method.rb:62-64 | the order-preserving selection of the passing methods, or the error of a check |
| EncryptionMethods.AvailableSpec | src/lib/y2storage/encryption_method.rb:62-64 | the available methods are exactly those that report available, each once |
| EncryptionMethods.FindById | src/lib/y2storage/encryption_method.rb:86-88 | the method with that name, or nil exactly when none has it |
| EncryptionMethods.FindByIdRoundTrip | src/lib/y2storage/encryption_method.rb:86-88 | looking up a method's own name gives the method back |
| EncryptionMethods.ForDeviceNeedsSwapOption | src/lib/y2storage/encryption_method.rb:70-72 | a device without a swap option is never attributed to a swap method |
| PartitionSlots.FlagsString | src/lib/y2storage/partition_tables/partition_slot.rb:33-42 | the string built by the six conditional appends is the flags string of the slot, FlagsOf |
| PartitionSlots.FlagsStringMembership | src/lib/y2storage/partition_tables/partition_slot.rb:35-40 | each of P, p, E, e, L, l appears exactly when its flag is set; the string is empty exactly when no flag is set |
| PartitionSlots.FlagsStringOrder | src/lib/y2storage/partition_tables/partition_slot.rb:33-42 | the letters keep the order of "PpEeLl", so the string has at most six letters |
| PartitionSlots.SixAppendsInOrder | src/lib/y2storage/partition_tables/partition_slot.rb:35-40 | six conditional appends give a subsequence of the six letters, in their order, of at most six letters |
| PartitionSlots.AppendExtends | src/lib/y2storage/partition_tables/partition_slot.rb:35-40 | a conditional append keeps a subsequence of the letters seen so far and adds at most one letter |
| PartitionSlots.SizeInBytes | src/lib/y2storage/partition_tables/partition_slot.rb:24 | a whole number of blocks, giving back the length when divided by the block size; zero exactly for an empty region or a zero block size |
| CreatePartition.PartitionTable.CreatePartition | src/lib/expert-partitioner/dialogs/create-partition.rb:90-91 | appends a partition with the given name, region and type |
| CreatePartition.SizeK | src/lib/expert-partitioner/dialogs/create-partition.rb:68 | the requested size in whole KiB, rounded down |
| CreatePartition.DeleteUnsuitable | src/lib/expert-partitioner/dialogs/create-partition.rb:74-77 | keeps exactly the primary slots where a primary is possible and the size fits, in order |
| CreatePartition.KeptSlotsSpec | src/lib/expert-partitioner/dialogs/create-partition.rb:74-86 | the kept slots are exactly the suitable ones; the first is the first suitable slot in table order, not the smallest; none exactly when no slot suits |
| CreatePartition.Doit | src/lib/expert-partitioner/dialogs/create-partition.rb:61-93 | no suitable slot: reports it and creates nothing; otherwise a primary partition on the first suitable slot with the length set to the requested size |

## Left out

- I/O of every kind is not modelled: logging, UI dialogs and pop-ups. The
  `Popup::Error` of `doit` is the `NoSuitableSlot` outcome.
- The code of the collaborators is not part of this model. They are
  uninterpreted functions in `Ops` records:
  - the partitions distribution calculator;
  - the Partition/Md/Bcache/Lvm/Nfs creators;
  - `Planned#reuse!`, `#shrink?`, `#size_in`, `Md#name?`;
  - `Devicegraph#duplicate`;
  - the settings generators;
  - the guided proposal's `try_with_each_target_size`, `candidate_devices`
    and `default_proposal_error`;
  - the disk analyzer;
  - `Region#to_kb`/`#to_value`;
  - `File.exist?`.
- `Storage::humanstring_to_byte` is not modelled; `Doit` takes the byte
  count.
- AutoinstCreation.AutoinstDevicesCreator.ProcessVgs: when a later VG fails,
  the `:no_pvs` issues already added to the issues list stay in the source.
  The model drops them together with the failed run.
- `reusable_by_bcache` is not modelled: the source never calls it.
- The planned-disk branch of `boot_disk` (analyzer.rb:70-75) is not
  modelled. It refers to an undefined `root`.
- Ruby's object identity is not modelled. Devicegraphs, planned devices and
  settings are values. The aliasing between `settings` and
  `initial_settings`, and between `@devicegraph` and the creator result's
  devicegraph, is written out where it is observable.
- SwapEncryption.FoldCase folds only ASCII capitals and the long s. Ruby's
  `casecmp?` folds all of Unicode, but no other character folds into "swap".
- InitialGuidedProposal.DisksPermutationsSpec: the order of spreads that use
  the same number of disks is left open, because the source's sort is not
  stable. The same goes for disks of equal size in
  InitialGuidedProposal.CandidateRootsSpec.
- The space maker is created by the guided proposal's attempt, which is not
  modelled. The model only records that every group starts without one.
- EncryptionMethods.OnlyForSwap: the answer of the LUKS methods is a
  parameter, because their code is not part of this model.
- The `PlannedVolume` defaults for the fields `boot_volume` and
  `grub_volume` do not set are not modelled. They are `None` in
  `BootStrategyBase.PlannedVolume`.
- `PartitionSlot`'s forwards to libstorage and `Region#show_range` are not
  modelled. `DiskSize` pretty-printing is not modelled either; only the
  byte count of `inspect` is.

## Findings

| source | as written | input that shows it | evidently intended | confidence | as-written member | corrected member |
|---|---|---|---|---|---|---|
| src/lib/y2storage/boot_requirements_strategies/analyzer.rb:45 | `dev.mount_point = "/"` assigns, so the first planned device with a mount point attribute is taken as the root, and its mount point is overwritten with "/" | a planned swap partition listed before the planned "/" partition | `dev.mount_point == "/"`: the first planned device mounted at "/" | not executed | BootAnalyzer.RootPlannedDevAsWritten, shown by BootAnalyzer.RootPlannedDevAsWrittenPicksSwap | BootAnalyzer.RootPlannedDev |
