/**
  Volumes that no VM lists, as images, orphans and leftovers are: no operation touches one or
  takes one for itself, in any run.
 */
module IdleVolumes {
  import opened Outcomes
  import opened DomainDescription
  import opened DomainText
  import opened VolumeNames
  import opened Libvirt
  import opened Operations
  import opened Safety
  import opened Migration
  import opened DiskAddition
  import opened DiskGrowth
  import opened VmRemoval
  import opened Creation
  import opened CreationExits
  import opened WholeRuns

  ghost predicate Idle(h: Host, p: string) {
    p in h.vols && Unlisted(Lists(h), p)
  }

  /** Every volume that nobody lists is still there, as it was, and still nobody's. */
  ghost predicate KeepsIdle(h: Host, g: Host) {
    g.pools == h.pools && forall p :: Idle(h, p) ==> Idle(g, p) && g.vols[p] == h.vols[p]
  }

  /** Every place in the new lists is an old one or names a volume that was not there. */
  ghost predicate ClaimsOldOrNew(lists: DiskLists, after: DiskLists, vols: map<string, Volume>) {
    forall n, i, p :: DiskAt(after, n, i, p) && p in vols ==> !Unlisted(lists, p)
  }

  lemma KeepsIdleBy(h: Host, g: Host)
    requires g.pools == h.pools && ClaimsOldOrNew(Lists(h), Lists(g), h.vols)
    requires forall p :: Idle(h, p) ==> p in g.vols && g.vols[p] == h.vols[p]
    ensures KeepsIdle(h, g)
  {
    hide Lists, DiskAt;
  }

  lemma SameLists(lists: DiskLists, vols: map<string, Volume>)
    ensures ClaimsOldOrNew(lists, lists, vols)
  {
    hide DiskAt;
  }

  /** One VM is given a list of its old disks and of new volumes. */
  lemma OneList(lists: DiskLists, vm: string, disks: seq<DiskDevice>, vols: map<string, Volume>)
    requires forall k :: 0 <= k < |disks| && disks[k].path in vols ==> !Unlisted(lists, disks[k].path)
    ensures ClaimsOldOrNew(lists, lists[vm := disks], vols)
  {
    var after := lists[vm := disks];
    forall n, i, p | DiskAt(after, n, i, p) && p in vols
      ensures !Unlisted(lists, p)
    {
      if n != vm {
        assert DiskAt(lists, n, i, p);
      }
    }
  }

  lemma FewerLists(lists: DiskLists, vm: string, vols: map<string, Volume>)
    ensures ClaimsOldOrNew(lists, lists - {vm}, vols)
  {
    forall n, i, p | DiskAt(lists - {vm}, n, i, p)
      ensures !Unlisted(lists, p)
    {
      assert DiskAt(lists, n, i, p);
    }
  }

  // ---------------------------------------------------------------- operation by operation

  lemma CreateKeepsIdle(w: World, cfg: VMConfig)
    requires Safe(w.host) && CleanRequest(cfg) && cfg.name != ""
    ensures KeepsIdle(w.host, Provision(w, cfg).w.host)
  {
    var h, g := w.host, Provision(w, cfg).w.host;
    hide Safe, Provision, CleanRequest, OwnPaths;
    CleanCreateExits(w, cfg);
    forall n, i, p | DiskAt(Lists(g), n, i, p) && p in h.vols
      ensures !Unlisted(Lists(h), p)
    {
      if n in h.doms {
        assert DiskAt(Lists(h), n, i, p);
      } else {
        ListedIsOwn(g, n, i, p);
      }
    }
    KeepsIdleBy(h, g);
  }

  lemma ListedIsOwn(g: Host, n: string, i: int, p: string)
    requires DiskAt(Lists(g), n, i, p)
    ensures n in g.doms && p in OwnPaths(g, n)
  {
    hide FileDisks;
    assert Paths(Disks(g, n))[i] == p;
  }

  lemma AddKeepsIdle(w: World, vm: string, sizeGB: u64, pool: string)
    requires Safe(w.host) && vm in w.host.doms
    ensures KeepsIdle(w.host, AddDisk(w, vm, sizeGB, pool).w.host)
  {
    var h, o := w.host, AddDisk(w, vm, sizeGB, pool);
    hide Safe, AddDisk, Disks, NextPath, NextVolume, LeavesOrphan, DiskAt, Numbered, TextOk, VdTarget, VolumeNameOk;
    AddDiskIsAtomic(w, vm, sizeGB, pool);
    if o.r.Ok? {
      DomainFacts(h, vm);
      OldDisksListed(h, vm);
      hide Lists;
      OneList(Lists(h), vm, Disks(h, vm) + [o.r.value], h.vols);
    } else {
      SameDomainLists(h, o.w.host);
      hide Lists;
      SameLists(Lists(h), h.vols);
    }
    KeepsIdleBy(h, o.w.host);
  }

  lemma SameDomainLists(h: Host, g: Host)
    requires g.doms == h.doms
    ensures Lists(g) == Lists(h)
  {
    hide FileDisks;
  }

  lemma OldDisksListed(h: Host, vm: string)
    requires vm in h.doms
    ensures forall k :: 0 <= k < |Disks(h, vm)| ==> !Unlisted(Lists(h), Disks(h, vm)[k].path)
  {
    hide FileDisks;
    forall k | 0 <= k < |Disks(h, vm)|
      ensures !Unlisted(Lists(h), Disks(h, vm)[k].path)
    {
      assert DiskAt(Lists(h), vm, k, Disks(h, vm)[k].path);
    }
  }

  lemma GrowKeepsIdle(w: World, vm: string, sizeGB: u64)
    requires Safe(w.host) && vm in w.host.doms
    ensures KeepsIdle(w.host, ResizeDisk(w, vm, sizeGB).w.host)
  {
    var h, g := w.host, ResizeDisk(w, vm, sizeGB).w.host;
    hide Safe, ResizeDisk, Lists, DiskAt, BootPath, GigaBytes;
    ResizeDiskExits(w, vm, sizeGB);
    SafeSetCapacity(h, BootPath(h, vm), GigaBytes(sizeGB));
    BootFacts(h, vm);
    SameLists(Lists(h), h.vols);
    KeepsIdleBy(h, g);
  }

  lemma MigrateKeepsIdle(w: World, vm: string, pool: string)
    requires Safe(w.host) && vm in w.host.doms
    ensures KeepsIdle(w.host, MigrateDisk(w, vm, pool).w.host)
  {
    var h, g := w.host, MigrateDisk(w, vm, pool).w.host;
    hide Safe, MigrateDisk, Lists, DiskAt, BootPath, CopyPath, Disks, MigrationStage, StageHost;
    BootFacts(h, vm);
    MigrationNeverLosesTheDisk(w, vm, pool);
    MigrationEnds(w, vm, pool);
    StageLists(h, vm, pool, MigrationStage(w, vm, pool));
    KeepsIdleBy(h, g);
  }

  lemma StageLists(h: Host, vm: string, target: string, s: Stage)
    requires Safe(h) && HasBoot(h, vm) && (s !in {AtStart, AtStopped} ==> CanCopy(h, vm, target))
    ensures ClaimsOldOrNew(Lists(h), Lists(StageHost(h, vm, target, s)), h.vols)
  {
    hide Safe, Lists, DiskAt, BootPath, CopyPath, Disks, Copied, Moved, Cleaned, Restarted, Stopped;
    SafeUpToCopy(h, vm, target);
    SameLists(Lists(h), h.vols);
    if s !in {AtStart, AtStopped} {
      SafeFromMove(h, vm, target);
      OldDisksListed(h, vm);
      OneList(Lists(h), vm, MovedList(h, vm, target), h.vols);
    }
  }

  lemma DeleteKeepsIdle(w: World, vm: string)
    requires Safe(w.host) && vm in w.host.doms
    ensures KeepsIdle(w.host, Delete(w, vm, false).w.host)
  {
    var h, g := w.host, Delete(w, vm, false).w.host;
    hide Safe, Delete, Lists, OwnPaths, Thorough, DiskAt;
    var gone := DeleteExits(w, vm, false);
    SameLists(Lists(h), h.vols);
    FewerLists(Lists(h), vm, h.vols);
    SafeWithout(h, vm, gone);
    OwnIsListed(h, vm);
    if Active(h.doms[vm].run) {
      SafeSetRun(h, vm, Shutoff);
    }
    KeepsIdleBy(h, g);
  }

  lemma OwnIsListed(h: Host, vm: string)
    requires vm in h.doms
    ensures forall p :: p in OwnPaths(h, vm) ==> !Unlisted(Lists(h), p)
  {
    hide FileDisks;
    var paths := Paths(Disks(h, vm));
    forall p | p in paths
      ensures !Unlisted(Lists(h), p)
    {
      var i :| 0 <= i < |paths| && paths[i] == p;
      assert DiskAt(Lists(h), vm, i, p);
    }
  }

  lemma PerformKeepsIdle(w: World, op: Op)
    requires Safe(w.host) && Sensible(op)
    ensures KeepsIdle(w.host, Perform(w, op).host)
  {
    hide Safe, Provision, AddDisk, ResizeDisk, MigrateDisk, Delete, CloneRequest, CleanText, KeepsIdle, Lists;
    Unchanged(w.host);
    match op
    case CreateVm(cfg) =>
      CreateKeepsIdle(w, cfg);
    case AddDiskTo(vm, sizeGB, pool) =>
      if vm in w.host.doms {
        AddKeepsIdle(w, vm, sizeGB, pool);
      } else {
        UnknownDomain(w, vm, sizeGB, pool, false);
      }
    case ResizeDiskOf(vm, sizeGB) =>
      if vm in w.host.doms {
        GrowKeepsIdle(w, vm, sizeGB);
      } else {
        UnknownDomain(w, vm, sizeGB, "", false);
      }
    case MigrateDiskOf(vm, pool) =>
      if vm in w.host.doms {
        MigrateKeepsIdle(w, vm, pool);
      } else {
        UnknownDomain(w, vm, 0, pool, false);
      }
    case DeleteVm(vm) =>
      if vm in w.host.doms {
        DeleteKeepsIdle(w, vm);
      } else {
        UnknownDomain(w, vm, 0, "", false);
      }
    case Power(vm, run) =>
      if vm in w.host.doms {
        PowerKeepsIdle(w.host, vm, run);
      }
  }

  lemma Unchanged(h: Host)
    ensures KeepsIdle(h, h)
  {
  }

  lemma PowerKeepsIdle(h: Host, vm: string, run: RunState)
    requires Safe(h) && vm in h.doms
    ensures KeepsIdle(h, SetRun(h, vm, run))
  {
    hide Safe, Lists, DiskAt;
    SafeSetRun(h, vm, run);
    SameLists(Lists(h), h.vols);
    KeepsIdleBy(h, SetRun(h, vm, run));
  }

  // ---------------------------------------------------------------- what an idle volume blocks

  /** The next disk's volume is already there: no size can be added, whatever the schedule. */
  lemma TakenNameIsRefused(w: World, vm: string, sizeGB: u64, pool: string)
    requires Numbered(w.host, vm)
    requires OrDefault(pool) in w.host.pools && NextPath(w.host, vm, pool) in w.host.vols
    ensures AddDisk(w, vm, sizeGB, pool).r.Err? && AddDisk(w, vm, sizeGB, pool).w.host == w.host
  {
    hide AddDisk, Disks, NextPath, LeavesOrphan;
    AddDiskExits(w, vm, sizeGB, pool);
  }

  /** A VM's next disk cannot be added in the pool where another VM's boot disk has its volume name. */
  lemma BootBlocksExtra(w: World, other: string, vm: string, sizeGB: u64, pool: string)
    requires Safe(w.host) && other in w.host.doms && vm in w.host.doms && HasBoot(w.host, other)
    requires BootTakesExtra(other, vm, |Disks(w.host, vm)|)
    requires w.host.vols[BootPath(w.host, other)].pool == OrDefault(pool)
    ensures AddDisk(w, vm, sizeGB, pool).r.Err? && AddDisk(w, vm, sizeGB, pool).w.host == w.host
  {
    hide Safe, AddDisk, Lists, DiskAt, BootPath, PathIn, FileDisks, Numbered, VdTarget, TextOk;
    BootFacts(w.host, other);
    BootInPlace(w.host, BootPath(w.host, other));
    BootAgainstExtra(other, vm, |Disks(w.host, vm)|);
    DomainFacts(w.host, vm);
    TakenNameIsRefused(w, vm, sizeGB, pool);
  }

  /** And a VM named like another VM's extra disk cannot be created in the pool of that disk. */
  lemma ExtraBlocksBoot(w: World, vm: string, j: nat, cfg: VMConfig)
    requires Safe(w.host) && vm in w.host.doms && j < |Disks(w.host, vm)| && BootTakesExtra(cfg.name, vm, j)
    requires NameFits(cfg) && !cfg.noclone && Disks(w.host, vm)[j].path in w.host.vols
    requires w.host.vols[Disks(w.host, vm)[j].path].pool == OrDefault(cfg.pool)
    ensures Provision(w, cfg).r == Err(CallFailed) && Provision(w, cfg).w.host == w.host
  {
    hide Safe, Provision, Lists, FileDisks, PathIn, VdTarget, ExtraVolName, NameFits;
    var path := Disks(w.host, vm)[j].path;
    SafeMeans(w.host, vm, j);
    BootInPlace(w.host, path);
    BootAgainstExtra(cfg.name, vm, j);
    TakenCloneIsRefused(w, cfg);
  }
}
