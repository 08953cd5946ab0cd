/**
  Whole runs: any sequence of operations, any of whose calls may fail, keeps the host safe,
  exactly unless a domain is defined under a name that cannot stand in an attribute.  Safe is
  the strong invariant, that every VM lists its disks in order; that the disks it lists are
  its own holds more often, and EveryRun says exactly when.
 */
module WholeRuns {
  import opened Text
  import opened Outcomes
  import opened DomainDescription
  import opened VolumeNames
  import opened Libvirt
  import opened Operations
  import opened Safety
  import opened Migration
  import opened DiskAddition
  import opened DiskGrowth
  import opened VmRemoval
  import opened Creation
  import opened CreationExits
  import opened DomainText

  // ---------------------------------------------------------------- storage safety

  /** One operation of a run.  Power is any change of a domain's run state: by vmtool, by the guest, by a crash. */
  datatype Op =
    | CreateVm(cfg: VMConfig)
    | AddDiskTo(vm: string, sizeGB: u64, pool: string)
    | ResizeDiskOf(vm: string, sizeGB: u64)
    | MigrateDiskOf(vm: string, pool: string)
    | DeleteVm(vm: string)
    | Power(vm: string, run: RunState)

  /** CreateVM refuses an empty name; creates are in clone mode, under any other name. */
  predicate Allowed(op: Op) {
    op.CreateVm? ==> CloneRequest(op.cfg) && op.cfg.name != ""
  }

  /** The same, under names that can stand in an attribute. */
  predicate Sensible(op: Op) {
    Allowed(op) && (op.CreateVm? ==> CleanText(op.cfg.name))
  }

  function SetPower(w: World, vm: string, run: RunState): World {
    if vm in w.host.doms then w.(host := SetRun(w.host, vm, run)) else w
  }

  function Perform(w: World, op: Op): World {
    match op
    case CreateVm(cfg) => Provision(w, cfg).w
    case AddDiskTo(vm, sizeGB, pool) => AddDisk(w, vm, sizeGB, pool).w
    case ResizeDiskOf(vm, sizeGB) => ResizeDisk(w, vm, sizeGB).w
    case MigrateDiskOf(vm, pool) => MigrateDisk(w, vm, pool).w
    case DeleteVm(vm) => Delete(w, vm, false).w
    case Power(vm, run) => SetPower(w, vm, run)
  }

  function Run(w: World, ops: seq<Op>): World
    decreases |ops|
  {
    if ops == [] then w else Run(Perform(w, ops[0]), ops[1..])
  }

  /** Operations on a domain that does not exist change nothing. */
  lemma UnknownDomain(w: World, vm: string, sizeGB: u64, pool: string, noclone: bool)
    requires vm !in w.host.doms
    ensures AddDisk(w, vm, sizeGB, pool).w.host == w.host && AddDisk(w, vm, sizeGB, pool).r.Err?
    ensures ResizeDisk(w, vm, sizeGB).w.host == w.host && ResizeDisk(w, vm, sizeGB).r.Err?
    ensures MigrateDisk(w, vm, pool).w.host == w.host && MigrateDisk(w, vm, pool).r.Err?
    ensures Delete(w, vm, noclone).w.host == w.host && Delete(w, vm, noclone).r.Err?
  {
  }

  lemma DeleteKeepsSafe(w: World, vm: string, noclone: bool)
    requires Safe(w.host) && vm in w.host.doms
    ensures Safe(Delete(w, vm, noclone).w.host)
  {
    hide Safe, Lists, Delete, OwnPaths, Without, Thorough;
    var gone := DeleteExits(w, vm, noclone);
    SafeWithout(w.host, vm, gone);
    if Active(w.host.doms[vm].run) {
      SafeSetRun(w.host, vm, Shutoff);
    }
  }

  /** A create gets as far as defining a domain whose name cannot stand in an attribute. */
  ghost predicate DefinesUnclean(w: World, op: Op) {
    op.CreateVm? && !CleanText(op.cfg.name) && CreateProgress(w, op.cfg) in {DomainDefined, VmStarted}
  }

  lemma DefinesUncleanMeans(w: World, cfg: VMConfig)
    requires CloneRequest(cfg)
    ensures DefinesUnclean(w, CreateVm(cfg)) <==> AddsUnclean(w.host, Provision(w, cfg).w.host, cfg.name)
  {
    CreationEnds(w, cfg);
    hide Provision, CleanText, CreateProgress, ProgressHost;
    DefinedAt(w, cfg);
  }

  /**
    One operation, whichever of its calls fails: the host stays safe, unless a domain is
    defined under a name that cannot stand in an attribute; then it does not.
   */
  lemma PerformKeepsSafe(w: World, op: Op)
    requires Safe(w.host) && Allowed(op)
    ensures Safe(Perform(w, op).host) <==> !DefinesUnclean(w, op)
  {
    hide Safe, Lists, Provision, AddDisk, ResizeDisk, MigrateDisk, Delete, CloneRequest, KeepsDisk, CanAdd, CanCopy;
    hide CleanText, CreateProgress, AddsUnclean, Spares, OwnsIfAny, OwnsAll;
    match op
    case CreateVm(cfg) =>
      ProvisionExits(w, cfg);
      DefinesUncleanMeans(w, cfg);
    case AddDiskTo(vm, sizeGB, pool) =>
      if vm in w.host.doms {
        AddDiskIsAtomic(w, vm, sizeGB, pool);
      } else {
        UnknownDomain(w, vm, sizeGB, pool, false);
      }
    case ResizeDiskOf(vm, sizeGB) =>
      if vm in w.host.doms {
        ResizeDiskExits(w, vm, sizeGB);
        SafeSetCapacity(w.host, BootPath(w.host, vm), GigaBytes(sizeGB));
      } else {
        UnknownDomain(w, vm, sizeGB, "", false);
      }
    case MigrateDiskOf(vm, pool) =>
      if vm in w.host.doms {
        MigrationNeverLosesTheDisk(w, vm, pool);
      } else {
        UnknownDomain(w, vm, 0, pool, false);
      }
    case DeleteVm(vm) =>
      if vm in w.host.doms {
        DeleteKeepsSafe(w, vm, false);
      } else {
        UnknownDomain(w, vm, 0, "", false);
      }
    case Power(vm, run) =>
      if vm in w.host.doms {
        SafeSetRun(w.host, vm, run);
      }
  }

  /** A run and one operation more. */
  lemma {:induction false} RunOneMore(w: World, ops: seq<Op>, k: nat)
    requires k < |ops|
    ensures Run(w, ops[..k + 1]) == Perform(Run(w, ops[..k]), ops[k])
    decreases k
  {
    hide Perform;
    if k > 0 {
      RunOneMore(Perform(w, ops[0]), ops[1..], k - 1);
      assert ops[..k + 1][1..] == ops[1..][..k] && ops[..k][1..] == ops[1..][..k - 1];
    }
  }

  lemma {:induction false} StaysSafe(w: World, ops: seq<Op>, k: nat)
    requires Safe(w.host) && (forall i :: 0 <= i < |ops| ==> Allowed(ops[i])) && k <= |ops|
    requires forall i :: 0 <= i < k ==> !DefinesUnclean(Run(w, ops[..i]), ops[i])
    ensures Safe(Run(w, ops[..k]).host)
  {
    hide Safe, Perform, Allowed, DefinesUnclean;
    if k > 0 {
      StaysSafe(w, ops, k - 1);
      RunOneMore(w, ops, k - 1);
      PerformKeepsSafe(Run(w, ops[..k - 1]), ops[k - 1]);
    }
  }

  /**
    The invariant over whole runs: from a safe host, at every point of every finite run and
    under every fault schedule, every domain lists its boot disk and its other disks, numbered
    consistently, each an existing volume that no other lists; exactly unless some create of
    the run defines a domain under a name that cannot stand in an attribute.
   */
  lemma RunsKeepSafe(w: World, ops: seq<Op>)
    requires Safe(w.host) && forall i :: 0 <= i < |ops| ==> Allowed(ops[i])
    ensures (forall k :: 0 <= k <= |ops| ==> Safe(Run(w, ops[..k]).host))
       <==> (forall i :: 0 <= i < |ops| ==> !DefinesUnclean(Run(w, ops[..i]), ops[i]))
  {
    hide Safe, Perform, Allowed, DefinesUnclean, Run;
    if forall i :: 0 <= i < |ops| ==> !DefinesUnclean(Run(w, ops[..i]), ops[i]) {
      forall k | 0 <= k <= |ops|
        ensures Safe(Run(w, ops[..k]).host)
      {
        StaysSafe(w, ops, k);
      }
    } else {
      var i :| 0 <= i < |ops| && DefinesUnclean(Run(w, ops[..i]), ops[i]);
      RunOneMore(w, ops, i);
      if Safe(Run(w, ops[..i]).host) {
        PerformKeepsSafe(Run(w, ops[..i]), ops[i]);
      }
    }
  }

  lemma SensibleIsClean(w: World, op: Op)
    requires Sensible(op)
    ensures Allowed(op) && !DefinesUnclean(w, op)
  {
  }

  /** What Safe says, in terms of the host alone. */
  lemma SafeMeans(h: Host, vm: string, i: nat)
    requires Safe(h) && vm in h.doms && i < |Disks(h, vm)|
    ensures |Disks(h, vm)| <= 26
    ensures var d := Disks(h, vm)[i];
      && d.path in h.vols && d.target == "vd" + [('a' as int + i) as char]
      && h.vols[d.path].name == (if i == 0 then vm + ".qcow2" else vm + "-" + Dec(i + 1) + ".qcow2")
      && (forall other, j :: other in h.doms && 0 <= j < |Disks(h, other)| && (other != vm || j != i)
            ==> Disks(h, other)[j].path != d.path)
  {
    hide FileDisks, Printed, VolumeOk, PoolsOk;
    var lists, d := Lists(h), Disks(h, vm)[i];
    assert ListOk(h.vols, vm, lists[vm]);
    assert DiskOk(h.vols, vm, i, lists[vm][i]);
    forall other, j | other in h.doms && 0 <= j < |Disks(h, other)| && Disks(h, other)[j].path == d.path
      ensures other == vm && j == i
    {
      assert DiskAt(lists, vm, i, d.path) && DiskAt(lists, other, j, d.path);
    }
  }

  /**
    The invariant in the host's own terms: a disk is an existing volume, attached as the i-th
    device and named after the VM and i, and no other disk of any domain names that volume.
   */
  ghost predicate OwnDisk(h: Host, vm: string, i: nat)
    requires vm in h.doms && i < |Disks(h, vm)|
  {
    var d := Disks(h, vm)[i];
    && d.path in h.vols && i < 26 && d.target == "vd" + [('a' as int + i) as char]
    && h.vols[d.path].name == (if i == 0 then vm + ".qcow2" else vm + "-" + Dec(i + 1) + ".qcow2")
    && (forall other, j :: other in h.doms && 0 <= j < |Disks(h, other)| && (other != vm || j != i)
          ==> Disks(h, other)[j].path != d.path)
  }

  ghost predicate EveryDiskOwn(h: Host) {
    forall vm, i :: vm in h.doms && 0 <= i < |Disks(h, vm)| ==> OwnDisk(h, vm, i)
  }

  lemma EveryDiskIsOwn(h: Host)
    requires Safe(h)
    ensures EveryDiskOwn(h)
  {
    hide Safe, Disks, VdTarget, DiskVolName;
    forall vm, i | vm in h.doms && 0 <= i < |Disks(h, vm)|
      ensures OwnDisk(h, vm, i)
    {
      SafeMeans(h, vm, i);
    }
  }

  /** Where runs may start: any host without domains whose volumes lie in its pools. */
  lemma HostWithoutDomainsIsSafe(h: Host)
    requires PoolsOk(h.pools) && h.doms == map[]
    requires forall p :: p in h.vols ==> VolumeOk(h.pools, p, h.vols[p])
    ensures Safe(h)
  {
    hide PoolsOk, VolumeOk, TextOk;
    assert Lists(h) == map[];
  }
}
