# vmtool: a verified model

vmtool manages virtual machines through libvirt. It prints domain descriptions as unescaped
XML, reads disks back out of them by string search, hands out guest device names and volume
names, and runs storage operations of many calls, any of which libvirt may refuse. This
project models that behaviour in Dafny 4.11 and proves what it keeps. `dafny verify
dfyconfig.toml` checks everything.

## How it is built

| file | what it holds |
|---|---|
| `Text`, `Outcomes` | the string library calls with contracts that determine them; 64-bit numbers, results, errors |
| `DomainDescription` | the printer (`domainXML`, `disksXML`, `diskXML`, `networkXML`) and the parser (`parseFileDisks`, `xmlAttr`), the loops as methods |
| `DomainText`, `DomainRoundTrip`, `NetworkRoundTrip` | what the parser reads of what was printed, and exactly when that is what was configured; attaching appends one disk; the one-shot text replacement moves the boot disk and nothing else; name, sizes and network are read back as configured |
| `TagReader`, `DiskBlocks` | the whole description read tag by tag, every attribute of it; the attributes of each disk out of the blocks that the parser finds |
| `VolumeNames` | volume names, device names, and their injectivity |
| `Libvirt` | pools, volumes, domains and the calls vmtool makes, each of which may be refused |
| `Operations` | what every operation does to the world, call by call, as functions |
| `Hypervisor` | the `Manager` as written: a class whose methods call libvirt in order and return early, each proved equal to its function in `Operations` |
| `Safety` | the invariant: no dangling disk, no shared volume, consistent numbering, printed text |
| `Migration`, `DiskAddition`, `DiskGrowth`, `VmRemoval`, `Creation`, `CreationExits` | every exit of each operation, told by the numbers of the refused calls and what the host offers |
| `WholeRuns`, `IdleVolumes`, `Conservation` | the strong invariant over runs; volumes that nobody lists; what create, change, delete gives back, and exactly when it is everything |
| `UncleanNames` | VM names the unescaped printer cannot take: exactly which new VMs list the disks they were given, and what the others list instead |
| `Bystanders` | domains that no operation names, made by any tool: operations do beside them what they do without them |
| `SilentVms`, `EveryRun` | whole runs of any operations under any names, also on VMs that list no disk and beside other domains: exactly when every listed disk stays its VM's own |
| `GuestAddress` | finding and awaiting a guest's address |
| `AppService`, `CreateContract` | `Service` with the staged `CreateVM`, its events, its effects and its contract; `ResizeDisk` and `DeleteVM` |
| `Console` | the web console's two pumps and their handler as interleaved steps |
| `ExtraVars`, `PlaybookPath` | extra variables printed and parsed; playbook names resolved |

**Faults.** A `World` is a host, the number of calls made so far, and the set of call numbers
that are refused. A theorem about all worlds is therefore a theorem about every fault
schedule. A crash in the middle of an operation is the schedule in which every later call is
refused, so a statement about every exit is also one about the state after every step.

**What is assumed of libvirt** (stated in `Libvirt.dfy`): a refused call changes nothing; a
pool maps a volume name to one path in its directory and refuses names that are taken, empty,
hold a slash or would not be plain XML text; a resize never shrinks a volume, and a volume that
an active domain lists is resized through that domain only; only a domain that is not active
can be started, only an active one can be destroyed, rebooted or changed live; a description
read back from libvirt identifies its domain, a freshly printed one cannot redefine an existing
domain; undefining a domain leaves volumes alone, and an active domain in place; an attached
fragment is spliced in behind the last disk, and without the live flag an active domain does
not have it yet. Pools live in absolute directories. Whether a
description is well-formed XML is not looked at: `DefineDomain` accepts any text with a proper
name, also text libvirt itself would refuse, such as one with a single `'` in a path. (A path
with two can make well-formed text: the name in `UncleanNames.QuotedNameCostsADisk` does.)

**What inputs need.** The printer does not escape. Pool directories are without `<`, `>` and
`'`, network fields without `<`; volumes that no VM lists may have any name. VM names are not
restricted beyond what `CreateVM` refuses (the empty one) and what libvirt refuses in a volume
name: `DomainRoundTrip.ParserUndoesPrinterExactly` says of every configuration what is read
back of it, and the theorems about creating, whole runs and conservation say exactly what a
`'` or `>` in a name costs. There are three kinds of names: with neither (`CleanText`), with a
`>` before any `'` (`BracketFirst`; such a VM is silent, it lists no disk), and with a `'`
before any `>` (`QuoteFirst`). Theorems about `Unquoted` operations are about the first two.

**Which hosts.** `Safe` is the strong invariant: every VM was printed by vmtool and lists its
disks in order. `SilentVms.Sound` allows silent VMs besides. Neither is a demand on the host:
`EveryRun.RunsBesideOthers` carries everything over to hosts with other domains, and by
`EveryRun.RunsOnAnyHost` runs may start on any host whose volumes lie in its pools. Other
domains that are active can hold a volume back from being resized. Then an operation ends as it
would on a schedule with that one call refused (`EveryRun.PerformHeld`), which the theorems,
being about all schedules, cover.

## Findings

* `Delete` can report success and leave every volume of the VM behind: when the one call that
  reads the description is refused, the list of disks is empty
  (`VmRemoval.UnreadDescriptionLeavesVolumes`), and a volume whose lookup is refused is
  passed over. `VmRemoval.DeleteExits` says exactly when a success has removed every volume
  that the domain lists, and which volumes a failure has removed. What it does not list stays
  in any case:
* A VM may be called `a>b`. It is created and runs, but the parser cuts its disk's path off at
  the bracket, so it lists no disk: without any fault `ResizeDisk` and `MigrateDisk` find none,
  and `Delete` reports success and leaves its volumes behind
  (`UncleanNames.ClosingBracketLosesTheDisks`, `UncleanNames.BracketCreateSucceeds`). It harms
  no other VM.
* A VM may be called `web.qcow2' x='y`. What it lists is its disk's path up to the quote, and
  that is the boot disk of the VM `web`: both VMs then have one disk, and deleting the new one
  reports success, removes it and leaves `web` defined without a disk
  (`UncleanNames.QuotedNameCostsADisk`). In general a new VM whose name has a `'` before any
  `>` lists whatever lies at its paths cut off there, an image as well, and its deletion takes
  exactly that (`UncleanNames.QuoteListsAndTakesOthers`). `CreateVM` refuses only the empty name.
* So at some point of a run a listed disk is not its VM's own (it is missing, another VM's, or
  some other volume) if and only if the run defines a VM with such a name
  (`EveryRun.EveryDiskAfterEveryRun`); a new VM lists the disks it was given if and only if its
  name holds neither `'` nor `>` (`UncleanNames.CreatedDisksListedExactly`); and with any
  other name no sequence of changes and no delete gives the host back
  (`Conservation.CreateChangeDelete`), since no operation can remove such a volume
  (`UncleanNames.UnlistableVolumesStay`).
* `net_source` and `macvtap_mode` reach the printer unchecked too (internal/app/create.go:36-44,
  pkg/vmtool/network.go:6-32). The text behind a `<` in them can be read as further elements, a
  `<disk>` that the request does not have among them. Everything about printed text is proved
  for network fields without `<`.
* `AddDisk` can leave one orphan volume; `DiskAddition.LeavesOrphan` says for which faults. The
  orphan stays in every run that follows, and as long as the VM has as many disks as it had,
  every attempt to add one in that pool is refused (`EveryRun.OrphanBlocksItsDisk`).
* A failed create can leave its clone, and then every create under that name in that pool is
  refused before it starts (`CreationExits.LeftCloneBlocksRetry`,
  `EveryRun.LeftCloneBlocksItsName`).
* A migration that cannot be made (unknown pool, the disk's own pool, a pool that holds a
  volume of that name) is noticed only after a running VM was forced off: without any fault
  `MigrateDisk` returns an error and leaves the VM shut off
  (`Migration.RefusedMigrationStopsTheVm`).
* Volume names of different VMs collide exactly when a boot disk's VM is called like another
  VM with a disk number behind it: VM `web-2` and the second disk of VM `web` block each other
  in one pool (`VolumeNames.DiskVolNamesCollideExactly`, `IdleVolumes.BootBlocksExtra`,
  `IdleVolumes.ExtraBlocksBoot`).
* The size arithmetic wraps at 2^34 gigabytes. A successful create yields the size asked for
  exactly when it is below that (`CreationExits.CreatedAsAsked`); asked for 2^34 + 20 over an
  image of at most 20 gigabytes it succeeds and yields 20 (`CreationExits.CreateWraps`). The
  same holds of a resize (`DiskGrowth.ResizeDiskYieldsSize`). Only `resize-disk` on the command
  line is out of its reach, because it parses 32 bits (internal/cli/cli.go:657); the size of
  `create` (internal/cli/cli.go:169) and the sizes in the HTTP requests
  (internal/server/handlers.go:130, internal/server/handlers.go:351) are not bounded.
* `WaitForIP` never returns an address while the first candidate of each poll is text that
  does not parse, even if a later candidate is usable; `Info` would show that text
  (`GuestAddress.AwaitSucceedsExactly`).
* The comment on `getIP` (pkg/vmtool/libvirt.go:406-408) says that leases are asked first;
  the code asks the guest agent, then ARP, then the leases. The model follows the code.
* The comment on `Delete` (pkg/vmtool/libvirt.go:271) speaks of the cloned volume; the code
  removes every file-backed disk of the domain. The model follows the code.
* A bare playbook name is refused when the playbook directory cleans to `.` or `/`, and only
  then (`PlaybookPath.BareNameResolves`).
* `extraVarArgs` followed by `parseExtraVars` gives the map back, without its empty key,
  exactly when no other key holds an `=` (`ExtraVars.RoundTrip`).

## Model

| member | source | states |
|---|---|---|
| `DomainDescription.BuildDisksXml` | pkg/vmtool/libvirt.go:49-65 | the builder loop, with its skipped empty paths and filled-in targets, yields the recursive disk list text, which `TagReader.ReaderUndoesPrinter` and `DiskBlocks.DiskAttributes` read back |
| `DomainDescription.ParseFileDisks` | pkg/vmtool/libvirt.go:596-620 | the cursor loop yields exactly the disks of the recursive reading, blocks without path or target skipped |
| `DomainRoundTrip.ParserUndoesPrinterExactly` | pkg/vmtool/libvirt.go:68-106 | what is read back of every configuration no field of which can open a tag; it is the boot disk on vda, then the extra disks with a path in order, empty targets filled by position, if and only if each of these is non-empty and without quote and closing bracket |
| `TagReader.ReaderUndoesPrinter` | pkg/vmtool/libvirt.go:39-106 | a reader that knows only brackets and slashes gets back of every description, none of whose attributes holds a closing bracket, exactly its tags in order with all attributes and the text between them: machine, disks, interface, and the devices that every VM has, each written out |
| `TagReader.ReaderUndoesAttaching` | pkg/vmtool/libvirt.go:39-106 | and after a disk has been attached, the same with that disk behind the others |
| `TagReader.TargetsFilledIn` | pkg/vmtool/libvirt.go:53-60 | an extra disk without a target gets the letter of its position, counting from b; one without a path is passed over by the list |
| `DiskBlocks.DiskAttributes` | pkg/vmtool/libvirt.go:39-47 | in every description no field of which can open a tag there is one block for each configured disk, in order, and in each the disk tag says type file and device disk, the driver tag qemu and qcow2, the source and target tags what is read of path and target, and the bus is virtio for every target without a quote, a closing bracket or a u |
| `DiskBlocks.AttachedDiskAttributes` | pkg/vmtool/libvirt.go:39-47 | attaching leaves the blocks there are and adds one that says the same of the new disk |
| `DiskBlocks.DomainTypeRead` | pkg/vmtool/libvirt.go:69 | the domain type that is read from any printed description is kvm |
| `DiskBlocks.BootDeviceRead` | pkg/vmtool/libvirt.go:73-76 | and the boot device hd, for every name that cannot open a tag |
| `DomainRoundTrip.NameReadBack` | pkg/vmtool/libvirt.go:68-70 | libvirt reads back the VM's own name from the printed text |
| `DomainRoundTrip.SizesReadBack` | pkg/vmtool/libvirt.go:69-72 | the printed memory and processor elements hold the configured numbers, which decimal reading gives back |
| `NetworkRoundTrip.NetworkReadBack` | pkg/vmtool/network.go:6-32 | the printed interface has the configured type, the source under the attribute that goes with it, and for macvtap the mode, with the defaults where one is not given |
| `DomainRoundTrip.AttachAppends` | pkg/vmtool/libvirt.go:40-47 | splicing one more fragment behind the last disk gives the text printed with that disk appended |
| `DomainRoundTrip.ReplaceMovesBootDisk` | pkg/vmtool/libvirt.go:1092 | replacing the first occurrence of an absolute two-slash boot path gives exactly the text printed with the new path: nothing in the header matches first |
| `DomainRoundTrip.ParsedDisksAreClean` | pkg/vmtool/libvirt.go:622-643 | whatever the text, no listed disk has an empty field, a quote or a closing bracket |
| `DomainRoundTrip.FragmentReadBackExactly` | pkg/vmtool/libvirt.go:40-47 | among fields that can stand in an attribute, those read back unchanged are exactly the non-empty ones without quote and bracket |
| `VolumeNames.NextVirtioTarget` | pkg/vmtool/libvirt.go:645-657 | the scan returns the first of vda to vdz, in the order of the letters, that is not in use, and none exactly when all 26 are, stated in characters |
| `VolumeNames.NextTargetIsFirstLetter` | pkg/vmtool/libvirt.go:645-657 | the specification of the scan, in characters: an answer t is given if and only if t is vd and a letter c, not in use, with every letter before c in use |
| `VolumeNames.NextTargetNumbered` | pkg/vmtool/libvirt.go:645-657 | with vda, vdb, … in use without a gap the next target is the next letter, in characters, and there is none exactly at 26 |
| `VolumeNames.ExtraVolNameInjective` | pkg/vmtool/libvirt.go:669-672 | an extra disk's volume name determines its VM and its number among extra disks, for all names and numbers |
| `VolumeNames.NormalizeKeepsExtraNames` | pkg/vmtool/libvirt.go:659-667 | normalizing is idempotent, keeps exactly the names that are empty or have the suffix, and never changes an extra disk's name |
| `VolumeNames.DiskVolNamesCollideExactly` | pkg/vmtool/libvirt.go:669-672 | two disks, of any VMs, have one volume name if and only if they are the same disk or one is the boot disk of a VM named like the other's VM and number |
| `VolumeNames.DiskVolNameInjective` | pkg/vmtool/libvirt.go:669-672 | disks of one VM never share a volume name, the boot disk included |
| `Hypervisor.Manager.Define` | pkg/vmtool/libvirt.go:109-119 | same world and result as the specification, on every schedule |
| `Hypervisor.Manager.Start` | pkg/vmtool/libvirt.go:122-129 | same world and result as the specification |
| `Hypervisor.Manager.CloneImage` | pkg/vmtool/libvirt.go:182-223 | same world and result as the specification, default pool and each early return included |
| `Hypervisor.Manager.ResizeVolume` | pkg/vmtool/libvirt.go:262-269 | same world and result as the specification |
| `Hypervisor.Manager.DeleteVolumeByPath` | pkg/vmtool/libvirt.go:674-684 | same world and result as the specification: a refused lookup counts as success |
| `Hypervisor.Manager.CreateVolume` | pkg/vmtool/libvirt.go:687-724 | same world and result as the specification |
| `Hypervisor.Manager.CreateEmptyDisk` | pkg/vmtool/libvirt.go:726-736 | same world and result as the specification |
| `Hypervisor.Manager.Create` | pkg/vmtool/libvirt.go:228-259 | same world and result as the specification, the configuration being overwritten on the way |
| `Hypervisor.Manager.AddDisk` | pkg/vmtool/libvirt.go:741-781 | same world and result as the specification, both rollbacks included |
| `Hypervisor.Manager.ResizeDisk` | pkg/vmtool/libvirt.go:965-1020 | same world and result as the specification, online and offline |
| `Hypervisor.Manager.MigrateDisk` | pkg/vmtool/libvirt.go:1024-1113 | same world and result as the specification, through every early return |
| `Hypervisor.Manager.Delete` | pkg/vmtool/libvirt.go:272-312 | same world and result as the specification, the loop over the volumes included |
| `Hypervisor.Manager.Info` | pkg/vmtool/libvirt.go:330-362 | same world and result as the specification, of which `Operations.InfoTells` says what it shows |
| `Operations.InfoTells` | pkg/vmtool/libvirt.go:330-362 | Info leaves the host as it is, fails exactly when one of its three calls is refused, and shows the VM's own state, with the text of the first candidate exactly while it runs and there is one |
| `Hypervisor.Manager.WaitForIp` | pkg/vmtool/libvirt.go:435-451 | same world and result as the specification |
| `Operations.WaitTells` | pkg/vmtool/libvirt.go:435-451 | the wait leaves the host as it is and ends with what the polls yield, or with a refused lookup |
| `Hypervisor.Manager.Reboot` | pkg/vmtool/libvirt.go:564-571 | same world and result as the specification |
| `Operations.RebootTells` | pkg/vmtool/libvirt.go:564-571 | a reboot leaves the host as it is and succeeds exactly when the VM is active and neither call is refused |
| `Migration.MigrationEnds` | pkg/vmtool/libvirt.go:1024-1113 | the numbers of the refused calls, and whether the copy can be made, tell at which of six stages the host is left, the last exactly on success |
| `Migration.MigrationNeverLosesTheDisk` | pkg/vmtool/libvirt.go:1024-1113 | at every exit the boot path names a volume with the original's name, capacity and content, extra disks, other volumes and other domains are untouched; on success the old volume is gone, the count unchanged, and the VM runs iff it was active |
| `Migration.MigratedDisk` | pkg/vmtool/libvirt.go:1061-1099 | on success the volume, with its name, capacity and content, is in the target pool and under that pool's path, where nothing was, the old one is gone, and no other volume has changed |
| `Migration.RefusedMigrationStopsTheVm` | pkg/vmtool/libvirt.go:1046-1084 | without any fault, a migration whose copy cannot be made fails and leaves an active VM shut off; the disk's own pool is such a target |
| `DiskAddition.CreateVolumeOutcome` | pkg/vmtool/libvirt.go:687-724 | exit by exit for every name and size: which calls must succeed for the volume to exist, that it is empty, of so many gigabytes, under the name with its suffix, in the pool given or else in default, and what is returned when only the path cannot be read |
| `DiskAddition.NoPoolIsDefault` | pkg/vmtool/libvirt.go:182-223 | adding a disk, cloning and creating a volume without a pool is doing so in the pool default |
| `DiskAddition.EmptyDiskOutcome` | pkg/vmtool/libvirt.go:726-736 | on a safe host the new volume is the conventional one and the target the next letter, or there is no target at 26 disks |
| `DiskAddition.AddDiskExits` | pkg/vmtool/libvirt.go:741-781 | for every fault schedule exactly which result and which host: unchanged, orphan left, or disk attached |
| `DiskAddition.AddedDisk` | pkg/vmtool/libvirt.go:741-781 | to any domain, whoever made it, a success adds one empty volume of the size asked for, named after the VM and the number of its disks and one, in the pool asked for or default, and attaches it under the first letter that no disk has, all written out |
| `DiskAddition.AddDiskIsAtomic` | pkg/vmtool/libvirt.go:741-781 | a failure changes no domain and no existing volume and adds at most the one orphan; success appends one disk under the next letter; no target exactly at 26 disks, before any volume is created |
| `DiskGrowth.GigaBytesExact` | pkg/vmtool/libvirt.go:996 | the 64-bit multiplication is exact if and only if the size is below 2^34 |
| `DiskGrowth.GigaBytesWraps` | pkg/vmtool/libvirt.go:996 | from there on sizes start over |
| `DiskGrowth.RejectedExactly` | pkg/vmtool/libvirt.go:997-1000 | unless it wraps, a size is rejected if and only if it is at most the whole gigabytes in use |
| `DiskGrowth.ResizeDiskExits` | pkg/vmtool/libvirt.go:965-1020 | online through vda and offline alike, success sets the capacity of the very volume that was compared, to strictly more; every failure changes nothing; and the result on every schedule |
| `DiskGrowth.ResizeDiskYieldsSize` | pkg/vmtool/libvirt.go:965-1020 | success yields the size asked for if and only if that size is below 2^34 |
| `VmRemoval.DeleteVolumesOutcome` | pkg/vmtool/libvirt.go:306-311 | whatever the list names, only listed volumes go, and all of them when no call fails; if it names existing volumes once each, a success is complete exactly if no lookup was refused |
| `VmRemoval.DeleteVolumesStops` | pkg/vmtool/libvirt.go:306-311 | whatever the list names, on every schedule: it fails exactly when a deletion is refused, by the numbers of the calls, and ends with the first that is; of the volumes before it exactly those are gone whose lookup was not refused, and nothing else has changed |
| `VmRemoval.DeleteExits` | pkg/vmtool/libvirt.go:272-312 | for any domain, whoever made it: unchanged, stopped, or undefined with exactly those volumes gone that were looked up before the first refused deletion, which is there exactly on an error; each volume from that one on is still there if the list names existing volumes once each; none is left without faults, and a success has removed all exactly when the list was read and no lookup refused |
| `VmRemoval.DeleteRemovesExactlyTheVm` | pkg/vmtool/libvirt.go:272-312 | without faults the VM and exactly its own volumes are gone, with noclone no volume |
| `VmRemoval.UnreadDescriptionLeavesVolumes` | pkg/vmtool/libvirt.go:279-286 | a schedule with one fault for which Delete succeeds and leaves every volume |
| `Creation.FirstExtraDisk` | internal/app/create.go:76-90 | the name and target that CreateVM writes down are those that the Manager computes |
| `Creation.CreateProgramsAgree` | pkg/vmtool/libvirt.go:228-259 | Manager.Create and the segment of CreateVM leave the same world and result, for every configuration without preset extra disks |
| `Creation.CloneOutcome` | pkg/vmtool/libvirt.go:182-223 | a changed host has exactly the fresh copy with the image's capacity and content |
| `Creation.ProvisionExits` | internal/app/create.go:52-101 | clone mode, any name, wherever it stops: everything there before is untouched, and the host is safe if and only if no domain was defined under a name with a quote or bracket; for other names success adds exactly the running VM and its own new volumes |
| `CreationExits.CreationEnds` | internal/app/create.go:52-101 | with and without cloning, the numbers of the refused calls and what the host offers tell where a create ends: nothing, clone left, sized, extra disk left, defined, started |
| `CreationExits.CreateSucceedsExactly` | internal/app/create.go:52-101 | without faults a create succeeds if and only if image, pools, free names, size and domain name allow it |
| `CreationExits.CreatedAsAsked` | internal/app/create.go:52-101 | a success has made the running domain, the boot disk in its pool, under its name, with the image's content and the size asked for (exactly that many gigabytes if and only if below 2^34), the extra disk with its size, and no other volume |
| `CreationExits.CreateWraps` | internal/app/create.go:70 | 2^34 + 20 gigabytes over an image of at most 20: success, and 20 gigabytes |
| `CreationExits.LeftCloneBlocksRetry` | pkg/vmtool/libvirt.go:212-215 | once a failed create has cloned, the next one under that name in that pool is refused at once |
| `CreationExits.SomeCreateSucceeds` | internal/app/create.go:52-101 | from a given safe host a VM is created, so safe hosts with domains are reached |
| `WholeRuns.PerformKeepsSafe` | internal/app/create.go:10-101 | each operation, whichever call fails, keeps the strong invariant, under which every domain lists all its disks in order, if and only if it does not define a domain under a name with a quote or bracket |
| `WholeRuns.RunsKeepSafe` | pkg/vmtool/libvirt.go:1024-1113 | that invariant holds at every point of a run of creates, additions, resizes, migrations, deletions and power changes if and only if no create of the run does that |
| `WholeRuns.SafeMeans` | pkg/vmtool/libvirt.go:726-736 | the invariant in the host's terms: disk i exists, sits on the device whose letter is i after a, is named after VM and number, all in characters, and is nobody else's |
| `SilentVms.PerformKeepsDisksOwn` | internal/app/create.go:10-101 | each operation, on any VM, under any name and schedule: every listed disk stays an existing volume of its VM's own, in order, that no other disk names, if and only if no domain is defined whose name holds a quote before any closing bracket |
| `SilentVms.PerformKeepsSound` | pkg/vmtool/libvirt.go:590-643 | and then every VM lists its disks in order or none at all, and volumes that nobody lists stay untouched |
| `EveryRun.EveryDiskAfterEveryRun` | pkg/vmtool/libvirt.go:741-781 | every listed disk is its VM's own at every point of a run of any operations under any names, if and only if no create of the run defines such a domain |
| `EveryRun.RunsKeepIdle` | pkg/vmtool/libvirt.go:741-781 | over every run of operations without such names, silent VMs included, a volume that no VM lists stays in place with its capacity and content, and stays unlisted |
| `EveryRun.OrphanBlocksItsDisk` | pkg/vmtool/libvirt.go:766-779 | an orphan of AddDisk, on any VM, stays in every such run, and as long as the VM has as many disks every attempt to add one in that pool is refused |
| `EveryRun.LeftCloneBlocksItsName` | pkg/vmtool/libvirt.go:203-215 | a clone left by a failed create, under any name, stays in every such run, and every create under its name in its pool is refused |
| `IdleVolumes.BootBlocksExtra` | pkg/vmtool/libvirt.go:669-672 | a boot disk that has the volume name of another VM's next disk keeps that disk out of its pool |
| `IdleVolumes.ExtraBlocksBoot` | pkg/vmtool/libvirt.go:203-215 | and a VM named like another VM's extra disk cannot be created in the pool of that disk |
| `UncleanNames.CreatedDisksListedExactly` | internal/app/create.go:52-101 | with and without cloning, what a new domain lists is what is read back of its disks, and it is the disks it was given if and only if the VM's name (without cloning: the image's path, and the name if an extra disk was asked for) holds no quote and no closing bracket |
| `UncleanNames.ClosingBracketLosesTheDisks` | internal/app/create.go:11-13 | a VM with a closing bracket before any quote in its name runs and lists nothing: without faults no resize and no migration, and a delete that reports success and leaves exactly the volumes it was given |
| `UncleanNames.BracketCreateSucceeds` | internal/app/create.go:11-13 | `a>b` is created on a given safe host |
| `UncleanNames.QuoteListsAndTakesOthers` | pkg/vmtool/libvirt.go:622-643 | a VM with a quote before any closing bracket in its name lists exactly its paths cut off at the quote, and a faultless delete takes of the volumes from before exactly those that lie there |
| `UncleanNames.QuoteSharesADisk` | pkg/vmtool/libvirt.go:272-312 | when the name up to the quote is the name of another VM's volume in that pool, both list it, and the deletion leaves the other VM defined without it |
| `UncleanNames.QuotedNameCostsADisk` | internal/app/create.go:11-13 | both creates succeed on a given safe host, and the delete costs the VM `web` its boot disk |
| `UncleanNames.UnlistableVolumesStay` | pkg/vmtool/libvirt.go:622-643 | on every world and schedule, whatever domains there are, no operation removes a volume whose path holds a quote or a closing bracket |
| `UncleanNames.UnlistableVolumesStayForever` | pkg/vmtool/libvirt.go:622-643 | nor does any run |
| `EveryRun.RunsBesideOthers` | pkg/vmtool/libvirt.go:741-781 | beside any domains that no operation names, every run leaves them and all volumes not listed by vmtool's VMs as they were, and every disk of vmtool's VMs is listed by no other domain of either kind |
| `EveryRun.RunsBeside` | pkg/vmtool/libvirt.go:1024-1113 | a run beside other domains, the active ones of which list nothing that vmtool's VMs list or may come to have, is the run without them, with them added |
| `EveryRun.PerformHeld` | pkg/vmtool/libvirt.go:1007-1019 | beside any other domains, whatever they hold, an operation leaves what it leaves without them on some schedule |
| `EveryRun.RunsOnAnyHost` | pkg/vmtool/libvirt.go:182-223 | from any host whose volumes lie in its pools, with any domains: a run under other names leaves every domain and volume that was there as it was, and gives its VMs disks that nobody else has |
| `EveryRun.UnnamedVmStays` | pkg/vmtool/libvirt.go:622-643 | a VM, silent or not, that a run does not name keeps its text and run state, and the volumes it lists their capacity and content |
| `Bystanders.PerformBeside` | pkg/vmtool/libvirt.go:741-781 | each operation does beside domains that it does not name, and that hold nothing it resizes, what it does without them, answer and call numbers included |
| `Conservation.ChangesKeepOwnership` | pkg/vmtool/libvirt.go:741-781 | after any changes, failing or not, the VM is the sole owner of its volumes, and the volumes there are besides are exactly those the changes left over |
| `Conservation.CreateChangeDelete` | internal/app/lifecycle.go:28-43 | create under any name, any changes, faultless delete: the host is as it was if and only if the name holds neither quote nor closing bracket and no change left anything over, told change by change from schedule and host; unless a quote comes before any closing bracket, pools, domains and all prior volumes are as before; and with neither, what is left besides is exactly what the changes left over |
| `Conservation.LeftoversStay` | pkg/vmtool/libvirt.go:1081-1099 | what changes leave over is listed by nobody and stays in every run that follows |
| `Conservation.NocloneCreateDelete` | pkg/vmtool/libvirt.go:302-304 | the noclone pair restores the domains, keeps the image and leaves exactly the extra disk that was asked for |
| `GuestAddress.GetIp` | pkg/vmtool/libvirt.go:409-432 | the nested loops return the first candidate |
| `GuestAddress.CandidatesExact` | pkg/vmtool/libvirt.go:409-432 | the candidates are exactly the IPv4 addresses outside the loopback range that some source reports on an interface other than lo |
| `GuestAddress.SourcePreference` | pkg/vmtool/libvirt.go:410-431 | the agent's report is preferred to ARP's and ARP's to the leases', a source being used only when all before it report nothing; failure exactly when all do |
| `GuestAddress.GetIpTakesTheFirst` | pkg/vmtool/libvirt.go:415-430 | of the first source that reports any, the first address of the first interface, in the order reported |
| `GuestAddress.PollForIp` | pkg/vmtool/libvirt.go:442-450 | the polling loop returns what the recursive reading of the polls says |
| `GuestAddress.AwaitSucceedsExactly` | pkg/vmtool/libvirt.go:435-451 | the wait succeeds if and only if in some poll the first candidate parses, and takes it from the earliest such poll |
| `AppService.Service.CloneStage` | internal/app/create.go:52-66 | its part of the provisioning and its pair of events |
| `AppService.Service.ResizeStage` | internal/app/create.go:68-75 | its part of the provisioning and its pair of events |
| `AppService.Service.ExtraDiskStage` | internal/app/create.go:77-90 | its part of the provisioning and its pair of events |
| `AppService.Service.DefineStage` | internal/app/create.go:92-101 | its part of the provisioning and its pair of events |
| `AppService.Service.BringUp` | internal/app/create.go:52-101 | the four stages are the provisioning function; the trace follows the plan and succeeds exactly when complete |
| `AppService.Service.ThroughInventory` | internal/app/create.go:135-149 | a temporary inventory is removed whether or not its command succeeds |
| `AppService.Service.PlaybookStages` | internal/app/create.go:151-176 | an unresolvable name stops it without an event; otherwise playbook, then reboot |
| `AppService.Service.Furnish` | internal/app/create.go:126-176 | trace and deeds are prefixes of what was planned |
| `AppService.Service.AwaitAddress` | internal/app/create.go:103-116 | the wait is concluded by an event exactly when the VM's state can be read |
| `AppService.Service.Settle` | internal/app/create.go:103-182 | everything after the start: trace, deeds, the wait left open exactly when Info fails in the world after the wait, and which error is returned |
| `AppService.Service.CreateVM` | internal/app/create.go:10-183 | every input and schedule: the trace follows the plan, the deeds are a prefix of those planned, libvirt has seen exactly the provisioning; a wait is left open if and only if the started VM's state cannot be read, and failed if and only if it can and there is no address; what info shows, which error is returned, and when a missing address is a success; and exactly the requests without a name, an image or a known network are refused before anything is asked |
| `AppService.Service.ResizeDisk` | internal/app/disk.go:24-52 | the volume's resize is the Manager's; the filesystem result is set exactly when the VM runs and has an address; an error never follows a filesystem change |
| `AppService.Service.DeleteVM` | internal/app/lifecycle.go:28-43 | deletes as the Manager does, then forgets name and address exactly on success without noclone |
| `CreateContract.TraceGrammar` | internal/app/create.go:57-176 | events alternate begin and conclusion of one stage, a failure is last, and only a wait can stay unconcluded, at the end |
| `CreateContract.PlanIsOrdered` | internal/app/create.go:52-176 | the plan holds exactly the requested stages, in strictly increasing order |
| `CreateContract.EveryTraceIsProper` | internal/app/create.go:57-176 | every trace of CreateVM: requested stages in increasing order, begin and conclusion alternating, none skipped, at most the last failed, open at the end exactly when the wait was abandoned |
| `CreateContract.NothingTemporaryStays` | internal/app/create.go:137-142 | at every exit as many temporary inventories were removed as made |
| `CreateContract.CompleteRunDid` | internal/app/create.go:135-176 | everything a complete run did, in order: machine keys dropped, inventory written, filesystem grown, the playbook run from the path its name resolves to with the caller's variables and the device id, rebooted last, each exactly if asked for |
| `CreateContract.CreateVmIsCreate` | internal/app/create.go:31-101 | libvirt sees of CreateVM what it sees of Manager.Create on the same configuration |
| `CreateContract.DefinitionStays` | internal/app/create.go:92-182 | on CreateVM's final host a new domain is there if and only if the schedule let provisioning define it, and then with the final configuration's text, started or not |
| `CreateContract.RequestReachesLibvirt` | internal/app/create.go:22-101 | the domain that a successful create leaves carries the requested name, memory, processors and network, with the defaults; its disks are the boot disk on vda in the requested pool and, exactly when asked for, the extra disk on vdb in its pool or the boot disk's, if and only if name and image path can be printed |
| `CreateContract.RequestedVolumes` | internal/app/create.go:19-90 | in the request's own terms: the clone is in the requested pool or in default, holds the image's content and has the requested size if below 2^34; the extra disk is empty, in its pool or the clone's, with its size; there is no other volume, and none from before has changed but an image that is not cloned |
| `CreateContract.CreateVmKeepsSafe` | internal/app/create.go:10-183 | any name, wherever CreateVM stops on a safe host: nothing prior is touched; every listed disk is its VM's own if and only if no domain was defined whose name holds a quote before any closing bracket, and the host is safe if and only if none was under a name with a quote or bracket |
| `Console.SizesAreProper` | internal/server/console.go:157-190 | no window has a zero side; a request is met exactly or by the largest size, a missing or non-positive one by the default; a frame asks for a size exactly when it decodes as a resize to it with two sides |
| `Console.RunKeepsInv` | internal/server/console.go:102-155 | the invariant of control, output and input over every interleaving |
| `Console.ChannelClosedOnce` | internal/server/console.go:111-154 | the done channel is closed at most once, cleanup starts only after a pump has stopped, and at its end the process was killed and reaped, the PTY closed before |
| `Console.StreamsAreFaithful` | internal/server/console.go:116-152 | frames sent are a prefix of the PTY output, non-empty and at most 32768 bytes; PTY input is the received frames in order but for those that decode as resizes; the window is the last of these that Setsize carried out |
| `Console.FrameIsHandled` | internal/server/console.go:138-151 | from the decoder alone: a text frame that decodes as a resize with two sides types nothing and makes the window that wide and that high if Setsize takes; every other text frame and every binary frame is typed, whole unless the write fails, and leaves the window |
| `Console.ErrorsEndPumps` | internal/server/console.go:116-152 | the output pump stops exactly when a read has failed, once what came with it is delivered, or a delivery has; the input pump exactly when a read or a write has failed |
| `Console.WindowsAreProper` | internal/server/console.go:140-143 | every window is proper if the first one is |
| `Console.StepLowersRank` | internal/server/console.go:102-109 | once PTY and socket are closed each own step brings a pump closer to its end |
| `Console.PumpsExit` | internal/server/console.go:102-155 | after the handler has returned the output pump takes at most two more steps, the input pump at most three |
| `Console.PumpsAreNeverStuck` | internal/server/console.go:102-155 | and until it has ended it can always take one |
| `Console.HandlerIsNeverStuck` | internal/server/console.go:103-109 | once a pump has stopped the handler can go on until it has finished |
| `Console.HandlerIsShort` | internal/server/console.go:103-109 | and it takes at most five steps, however the pumps behave |
| `ExtraVars.SortStrings` | pkg/vmtool/ansible.go:23 | sorting distinct keys keeps them and orders them strictly |
| `ExtraVars.BelowAtDifference` | pkg/vmtool/ansible.go:23 | the order is that of the characters at the first difference, what ends there coming first |
| `ExtraVars.ExtraVarArgs` | pkg/vmtool/ansible.go:12-29 | one argument for every non-empty key, in strictly ascending order |
| `ExtraVars.ArgsDetermined` | pkg/vmtool/ansible.go:16-28 | the arguments do not depend on the map's iteration order |
| `ExtraVars.ParseExtraVars` | internal/cli/cli.go:469-482 | the loop with its early error agrees with the recursive reading |
| `ExtraVars.ParsedExactly` | internal/cli/cli.go:469-482 | accepted exactly if every pair holds an `=` that is not its first character; then a key has a value if and only if the last pair for that key gives it |
| `ExtraVars.ParsedKeys` | internal/cli/cli.go:474-479 | accepted keys are not empty and hold no `=` |
| `ExtraVars.RoundTrip` | pkg/vmtool/ansible.go:12-29 | printing then parsing gives the map without its empty key, if and only if no other key holds an `=` |
| `ExtraVars.ParsePrintParse` | internal/cli/cli.go:469-482 | what was parsed prints to arguments that parse to the same map |
| `ExtraVars.WithDeviceId` | internal/app/playbook.go:10-19 | the copied map has the caller's device id, else the VM's name |
| `ExtraVars.OneDeviceId` | internal/app/playbook.go:10-19 | exactly one device id argument, the caller's value kept, and every other variable as it was given |
| `PlaybookPath.CleanLaws` | internal/app/playbook.go:36-37 | a trailing slash or a dot changes nothing, and descending and going back up leads to where one was |
| `PlaybookPath.CleanIdempotent` | internal/app/playbook.go:36-37 | cleaning a path twice is cleaning it once |
| `PlaybookPath.CleanLeadsThere` | internal/app/playbook.go:36-37 | a cleaned path leads where the path did, from every directory |
| `PlaybookPath.CleanIsTidy` | internal/app/playbook.go:36-37 | and has no empty or dot element and no parent element but in front of a relative path |
| `PlaybookPath.BareNameResolves` | internal/app/playbook.go:36-41 | a bare name resolves to the cleaned directory, a slash and the name; refused if and only if that directory is `.` or `/` |
| `PlaybookPath.AcceptedExactly` | internal/app/playbook.go:21-42 | exactly the names that end in .yml or .yaml and have no parent element are accepted, one with a separator unchanged, a bare one below the configured directory, which is ansible/playbooks by default |
| `PlaybookPath.AcceptedStaysInside` | internal/app/playbook.go:21-42 | an accepted path is a playbook and has no parent element beyond those of the configured directory |
| `PlaybookPath.DefaultDirectory` | internal/app/service.go:46-51 | the default directory cleans to itself, so every bare playbook name is accepted with it |

## Left out

- `internal/api`, `internal/tui`, handlers and routing: generated code, field copying and user interface.
- Pool and image administration, networks, bridges, autostart, lists: they have no inverse and keep no invariant. `DeleteImage` and noclone VMs stay out of the whole-run invariant because they legitimately share or remove an image; noclone is covered by `Conservation.NocloneCreateDelete`.
- libvirt rewriting a description beyond the splice of an attached disk, its own escaping included (a `>` read back as `&gt;` names no volume either), and separate live and persistent descriptions: one text per domain. A domain's uuid is modelled only by whether a description was read back from libvirt.
- Two operations at the same time: calls of one operation are not interleaved with those of another. Power changes of a domain may happen between operations, not within one.
- VM names with a `'` before any `>`: what such a VM lists, and what its creation and its deletion do to others, is stated exactly; runs that go on after one was defined are not followed further.
- Escaping and encodings: a Go string is its sequence of characters; names with `&` and bytes that are not UTF-8 are not looked into.
- SSH credentials, machine keys, inventory files, ansible and image lookup (`ForgetMachine`, `ResolveAuth`, `WriteInventory`, `TempInventory`, `GrowDisk`, `RunPlaybook`, `ImagePath`): commands that may fail, take their turn in the fault schedule and touch no domain or volume. Their source is only used for the order in which they are called.
- Error texts and kinds: errors are told apart where the code branches on them; `wrap` keeps the error and is not modelled. Event details and outputs are left out; a nil progress function observes nothing.
- Hypervisor.Manager.Info: does not model the CPU count, memory and autostart flag, which no other operation reads.
- Hypervisor.Manager.WaitForIp: the deadline is the number of polls that fit before it; the answers of the address sources are inputs.
- AppService.Service.ResizeDisk: the grow error is modelled by its cause, not by its text.
- Console.StreamsAreFaithful: JSON decoding is an arbitrary total function; control frames of the WebSocket library are not modelled.
- ExtraVars.SortStrings: the library's sort is modelled by insertion on values, not in place.
- PlaybookPath.CleanIdempotent: filepath.Clean is modelled on a system whose separator is a slash.
