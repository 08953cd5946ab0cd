/**
  Create, change, delete: the VM takes its own volumes with it and gives everything else back
  exactly as it was.
 */
module Conservation {
  import opened Text
  import opened Outcomes
  import opened DomainDescription
  import opened DomainText
  import opened VolumeNames
  import opened Libvirt
  import opened DomainRoundTrip
  import opened Operations
  import opened Safety
  import opened Migration
  import opened DiskAddition
  import opened DiskGrowth
  import opened VmRemoval
  import opened Creation
  import opened CreationExits
  import opened WholeRuns
  import opened IdleVolumes
  import opened UncleanNames
  import opened SilentVms
  import opened EveryRun

  /** What may happen to a VM between its creation and its deletion. */
  datatype Change =
    | Add(sizeGB: u64, pool: string)
    | Grow(sizeGB: u64)
    | Migrate(pool: string)
    | SetPower(run: RunState)

  function ApplyChange(w: World, vm: string, c: Change): Step<()> {
    match c
    case Add(sizeGB, pool) =>
      var o := AddDisk(w, vm, sizeGB, pool);
      Step(o.w, if o.r.Ok? then Ok(()) else Err(o.r.error))
    case Grow(sizeGB) => ResizeDisk(w, vm, sizeGB)
    case Migrate(pool) => MigrateDisk(w, vm, pool)
    case SetPower(run) =>
      if vm in w.host.doms then Step(w.(host := SetRun(w.host, vm, run)), Ok(())) else Step(w, Err(CallFailed))
  }

  /** All changes in turn, failed ones included. */
  function ApplyChanges(w: World, vm: string, cs: seq<Change>): World
    decreases |cs|
  {
    if cs == [] then w else ApplyChanges(ApplyChange(w, vm, cs[0]).w, vm, cs[1..])
  }

  // ---------------------------------------------------------------- what a change leaves over

  /**
    The volume that one change leaves over, told by the numbers of the refused calls and what
    the host offers: the orphan of an AddDisk, the copy of a migration that did not get to
    use it, the original of a migration that could not delete it.  All else leaves nothing.
   */
  ghost function Leftover(w: World, vm: string, c: Change): set<string> {
    match c
    case Add(sizeGB, pool) => if AddLeavesOrphan(w, vm, sizeGB, pool) then {NextPath(w.host, vm, pool)} else {}
    case Migrate(pool) =>
      if !HasBoot(w.host, vm) then {} else
      var s := MigrationStage(w, vm, pool);
      if s == AtCopied && pool in w.host.pools then {CopyPath(w.host, vm, pool)}
      else if s == AtMoved then {BootPath(w.host, vm)}
      else {}
    case Grow(_) => {}
    case SetPower(_) => {}
  }

  ghost function Leftovers(w: World, vm: string, cs: seq<Change>): set<string>
    decreases |cs|
  {
    if cs == [] then {} else Leftover(w, vm, cs[0]) + Leftovers(ApplyChange(w, vm, cs[0]).w, vm, cs[1..])
  }

  /** Nothing is left over in the end exactly when no single change left something over. */
  lemma {:induction false} NothingLeftExactly(w: World, vm: string, cs: seq<Change>)
    ensures Leftovers(w, vm, cs) == {} <==>
      forall i :: 0 <= i < |cs| ==> Leftover(ApplyChanges(w, vm, cs[..i]), vm, cs[i]) == {}
    decreases |cs|
  {
    hide Leftover, ApplyChange;
    if cs != [] {
      var next := ApplyChange(w, vm, cs[0]).w;
      NothingLeftExactly(next, vm, cs[1..]);
      assert cs[..0] == [];
      forall i | 0 < i < |cs|
        ensures ApplyChanges(w, vm, cs[..i]) == ApplyChanges(next, vm, cs[1..][..i - 1]) && cs[i] == cs[1..][i - 1]
      {
        assert cs[..i][1..] == cs[1..][..i - 1] && cs[..i][0] == cs[0];
      }
      assert forall i :: 0 <= i < |cs[1..]| ==> cs[1..][i] == cs[i + 1];
    }
  }

  // ---------------------------------------------------------------- what a VM owns, as its disks change

  lemma OwnPathsAppend(disks: seq<DiskDevice>, d: DiskDevice)
    ensures AllPaths(Paths(disks + [d])) == AllPaths(Paths(disks)) + {d.path}
  {
    var before, after := Paths(disks), Paths(disks + [d]);
    assert after == before + [d.path];
  }

  lemma OwnPathsMove(disks: seq<DiskDevice>, d: DiskDevice)
    requires disks != [] && forall i :: 0 < i < |disks| ==> disks[i].path != disks[0].path
    ensures AllPaths(Paths([d] + disks[1..])) == AllPaths(Paths(disks)) - {disks[0].path} + {d.path}
  {
    var before, after := Paths(disks), Paths([d] + disks[1..]);
    assert after == [d.path] + before[1..];
    assert before == [disks[0].path] + before[1..];
    assert disks[0].path !in before[1..];
  }

  /** `g` is `b` with the VM on volumes of its own, and with `left` besides, which is nobody's. */
  ghost predicate OwnsWith(b: Host, g: Host, vm: string, left: set<string>) {
    && Owns(b, g, vm) && left !! b.vols.Keys && left !! OwnPaths(g, vm)
    && g.vols.Keys == b.vols.Keys + OwnPaths(g, vm) + left
  }

  /** Owning is a matter of disk lists, volumes and the other domains. */
  lemma OwnsStep(b: Host, h: Host, g: Host, vm: string, left: set<string>, more: set<string>)
    requires OwnsWith(b, h, vm, left) && vm in g.doms && g.pools == h.pools && g.doms.Keys == h.doms.Keys
    requires forall n :: n in h.doms && n != vm ==> g.doms[n] == h.doms[n]
    requires forall p :: p in h.vols && p !in OwnPaths(h, vm) ==> p in g.vols && g.vols[p] == h.vols[p]
    requires forall p :: p in OwnPaths(g, vm) + more ==> p in OwnPaths(h, vm) || p !in h.vols
    requires more !! OwnPaths(g, vm) && g.vols.Keys == h.vols.Keys - OwnPaths(h, vm) + OwnPaths(g, vm) + more
    ensures OwnsWith(b, g, vm, left + more)
  {
    hide OwnPaths;
  }

  lemma DisksOf(h: Host, vm: string)
    requires Safe(h) && vm in h.doms
    ensures Lists(h)[vm] == Disks(h, vm) && OwnPaths(h, vm) == AllPaths(Paths(Disks(h, vm)))
    ensures OwnPaths(h, vm) <= h.vols.Keys
  {
    hide Safe, Disks, Paths, DiskAt;
    OwnDisks(h, vm);
    DomainFacts(h, vm);
  }

  /** What AddDisk does to the volumes, in terms of what it leaves over. */
  lemma AddLeaves(w: World, vm: string, sizeGB: u64, pool: string)
    requires Safe(w.host) && vm in w.host.doms
    ensures var o, h, left := AddDisk(w, vm, sizeGB, pool), w.host, Leftover(w, vm, Add(sizeGB, pool));
      && left !! h.vols.Keys
      && (o.r.Ok? ==> left == {} && o.w.host.vols.Keys == h.vols.Keys + {o.r.value.path} && o.r.value.path !in h.vols)
      && (o.r.Err? ==> o.w.host.vols.Keys == h.vols.Keys + left)
      && (forall p :: p in h.vols ==> p in o.w.host.vols && o.w.host.vols[p] == h.vols[p])
  {
    hide Safe, Lists, Disks, AddDisk, AttachedXml, PathIn, ExtraVolName, VdTarget, Numbered, TextOk;
    DomainFacts(w.host, vm);
    AddDiskExits(w, vm, sizeGB, pool);
  }

  lemma AddKeepsOwnership(b: Host, w: World, vm: string, sizeGB: u64, pool: string, left: set<string>)
    requires Safe(w.host) && OwnsWith(b, w.host, vm, left)
    ensures var g := AddDisk(w, vm, sizeGB, pool).w.host;
      Safe(g) && OwnsWith(b, g, vm, left + Leftover(w, vm, Add(sizeGB, pool)))
  {
    hide Safe, Lists, Disks, AddDisk, AllPaths, Paths, NextPath, VdTarget, LeavesOrphan, Spares, Leftover;
    var h, o := w.host, AddDisk(w, vm, sizeGB, pool);
    var g := o.w.host;
    AddDiskIsAtomic(w, vm, sizeGB, pool);
    AddLeaves(w, vm, sizeGB, pool);
    DisksOf(h, vm);
    DisksOf(g, vm);
    if o.r.Ok? {
      OwnPathsAppend(Disks(h, vm), o.r.value);
    } else {
      SameDisks(h, g, vm);
    }
    hide CanAdd, NextVolume;
    OwnsStep(b, h, g, vm, left, Leftover(w, vm, Add(sizeGB, pool)));
  }

  lemma SameDisks(h: Host, g: Host, vm: string)
    requires vm in h.doms && g.doms == h.doms
    ensures Disks(g, vm) == Disks(h, vm)
  {
  }

  lemma BootFirst(h: Host, vm: string)
    requires Safe(h) && vm in h.doms
    ensures Disks(h, vm) != [] && Disks(h, vm)[0].path == BootPath(h, vm) && BootPath(h, vm) in OwnPaths(h, vm)
    ensures forall i :: 0 < i < |Disks(h, vm)| ==> Disks(h, vm)[i].path != Disks(h, vm)[0].path
  {
    hide Safe, Disks, DiskAt, Lists, BootPath;
    BootFacts(h, vm);
    OwnDisks(h, vm);
    var paths := Paths(Disks(h, vm));
    assert paths[0] in AllPaths(paths);
    forall i | 0 < i < |Disks(h, vm)|
      ensures Disks(h, vm)[i].path != Disks(h, vm)[0].path
    {
      assert paths[0] != paths[i];
    }
  }

  /** The boot path and the volumes at each stage of a migration. */
  lemma StageVolumes(h: Host, vm: string, target: string, s: Stage)
    requires Safe(h) && HasBoot(h, vm) && (s !in {AtStart, AtStopped} ==> CanCopy(h, vm, target))
    ensures var g, old_ := StageHost(h, vm, target, s), BootPath(h, vm);
      && vm in g.doms
      && (s in {AtMoved, AtCleaned, AtRestarted} ==> BootPath(g, vm) == CopyPath(h, vm, target))
      && (s !in {AtMoved, AtCleaned, AtRestarted} ==> BootPath(g, vm) == old_)
      && (s in {AtStart, AtStopped} ==> g.vols == h.vols)
      && (s in {AtCopied, AtMoved} ==> g.vols.Keys == h.vols.Keys + {CopyPath(h, vm, target)})
      && (s in {AtCleaned, AtRestarted} ==> g.vols.Keys == h.vols.Keys - {old_} + {CopyPath(h, vm, target)})
  {
    hide Safe, Lists, DiskAt, FileDisks, PathIn, TextOk, NameOf, ReplaceFirst, PoolPath, CopyPath;
    BootFacts(h, vm);
    if s !in {AtStart, AtStopped} {
      MovedText(h, vm, target);
    }
  }

  lemma LeftoverOfMigration(w: World, vm: string, pool: string)
    requires HasBoot(w.host, vm)
    requires MigrationStage(w, vm, pool) !in {AtStart, AtStopped} ==> CanCopy(w.host, vm, pool)
    ensures var s, left := MigrationStage(w, vm, pool), Leftover(w, vm, Migrate(pool));
      && (s == AtCopied ==>
           && pool in w.host.pools && left == {CopyPath(w.host, vm, pool)}
           && CopyPath(w.host, vm, pool) !in w.host.vols)
      && (s == AtMoved ==> left == {BootPath(w.host, vm)})
      && (s !in {AtCopied, AtMoved} ==> left == {})
  {
    hide MigrationStage, BootPath, CopyPath;
  }

  lemma EndsAtMeans(h: Host, vm: string, target: string, s: Stage, o: Step<()>)
    requires HasBoot(h, vm) && EndsAt(h, vm, target, s, o)
    ensures s !in {AtStart, AtStopped} ==> CanCopy(h, vm, target) && target in h.pools
    ensures s !in {AtStart, AtStopped} ==> CopyPath(h, vm, target) !in h.vols
    ensures o.w.host == StageHost(h, vm, target, s)
  {
    hide StageHost, BootPath, CopyPath;
  }

  /** The sets of volumes along a migration. */
  lemma StageSets(keys: set<string>, s: Stage, old_: string, copy: string, after: set<string>, boot: string,
                  left: set<string>)
    requires old_ in keys && (s !in {AtStart, AtStopped} ==> copy !in keys)
    requires boot == if s in {AtMoved, AtCleaned, AtRestarted} then copy else old_
    requires s in {AtStart, AtStopped} ==> after == keys
    requires s in {AtCopied, AtMoved} ==> after == keys + {copy}
    requires s in {AtCleaned, AtRestarted} ==> after == keys - {old_} + {copy}
    requires left == if s == AtCopied then {copy} else if s == AtMoved then {old_} else {}
    ensures boot !in left && after == keys - {old_} + {boot} + left
    ensures forall p :: p in left ==> p == old_ || p !in keys
  {
    if s == AtMoved {
      assert keys - {old_} + {copy} + {old_} == keys + {copy};
    }
  }

  /** What a migration does to the volumes, in terms of what it leaves over. */
  lemma MigrationLeaves(w: World, vm: string, pool: string)
    requires Safe(w.host) && vm in w.host.doms && HasBoot(w.host, vm)
    ensures var h, g, left := w.host, MigrateDisk(w, vm, pool).w.host, Leftover(w, vm, Migrate(pool));
      && vm in g.doms && BootPath(g, vm) !in left
      && (forall p :: p in left ==> p == BootPath(h, vm) || p !in h.vols)
      && g.vols.Keys == h.vols.Keys - {BootPath(h, vm)} + {BootPath(g, vm)} + left
  {
    var h, s := w.host, MigrationStage(w, vm, pool);
    assert BootPath(h, vm) in h.vols;
    hide *;
    MigrationEnds(w, vm, pool);
    EndsAtMeans(h, vm, pool, s, MigrateDisk(w, vm, pool));
    StageVolumes(h, vm, pool, s);
    LeftoverOfMigration(w, vm, pool);
    var g := StageHost(h, vm, pool, s);
    StageSets(h.vols.Keys, s, BootPath(h, vm), if s in {AtStart, AtStopped} then "" else CopyPath(h, vm, pool),
              g.vols.Keys, BootPath(g, vm), Leftover(w, vm, Migrate(pool)));
  }

  /** What a migration keeps besides. */
  lemma MigrationFrame(h: Host, g: Host, vm: string)
    requires Safe(h) && Safe(g) && HasBoot(h, vm) && KeepsDisk(h, g, vm)
    ensures vm in g.doms && g.pools == h.pools && g.doms.Keys == h.doms.Keys
    ensures forall n :: n in h.doms && n != vm ==> g.doms[n] == h.doms[n]
    ensures forall p :: p in h.vols && p !in OwnPaths(h, vm) ==> p in g.vols && g.vols[p] == h.vols[p]
    ensures BootPath(g, vm) == BootPath(h, vm) || BootPath(g, vm) !in h.vols
  {
    hide Safe, OwnPaths, BootPath, Disks;
    MovedPaths(h, g, vm);
  }

  /** One of a VM's volumes is given up for a new one, or kept; what it gives up may be left over. */
  lemma MoveSets(keys: set<string>, own: set<string>, old_: string, new_: string, left: set<string>)
    requires own <= keys && old_ in own && (new_ == old_ || new_ !in keys) && new_ !in left
    requires forall p :: p in left ==> p == old_ || p !in keys
    ensures var after := own - {old_} + {new_};
      && keys - own + after + left == keys - {old_} + {new_} + left && left !! after
      && (forall p :: p in after + left ==> p in own || p !in keys)
  {
  }

  lemma MigrateKeepsOwnership(b: Host, w: World, vm: string, pool: string, left: set<string>)
    requires Safe(w.host) && OwnsWith(b, w.host, vm, left)
    ensures var g := MigrateDisk(w, vm, pool).w.host;
      Safe(g) && OwnsWith(b, g, vm, left + Leftover(w, vm, Migrate(pool)))
  {
    hide Safe, MigrateDisk, CanCopy, CopyPath, OwnPaths, BootPath, Leftover, KeepsDisk, OwnsWith, HasBoot;
    var h, g := w.host, MigrateDisk(w, vm, pool).w.host;
    OwnsPresent(b, h, vm, left);
    MigrationNeverLosesTheDisk(w, vm, pool);
    MigrationLeaves(w, vm, pool);
    MigrationFrame(h, g, vm);
    MovedPaths(h, g, vm);
    MoveSets(h.vols.Keys, OwnPaths(h, vm), BootPath(h, vm), BootPath(g, vm), Leftover(w, vm, Migrate(pool)));
    OwnsStep(b, h, g, vm, left, Leftover(w, vm, Migrate(pool)));
  }

  /** What a moved VM owns. */
  lemma MovedPaths(h: Host, g: Host, vm: string)
    requires Safe(h) && Safe(g) && HasBoot(h, vm) && KeepsDisk(h, g, vm)
    ensures OwnPaths(g, vm) == OwnPaths(h, vm) - {BootPath(h, vm)} + {BootPath(g, vm)}
    ensures BootPath(h, vm) in OwnPaths(h, vm) && OwnPaths(h, vm) <= h.vols.Keys
  {
    hide Safe, Lists, Disks, AllPaths, Paths, BootPath;
    DisksOf(h, vm);
    DisksOf(g, vm);
    BootFirst(h, vm);
    BootFirst(g, vm);
    var moved := Disks(g, vm)[0];
    assert Disks(g, vm) == [moved] + Disks(h, vm)[1..];
    OwnPathsMove(Disks(h, vm), moved);
  }

  lemma GrowKeepsOwnership(b: Host, w: World, vm: string, sizeGB: u64, left: set<string>)
    requires Safe(w.host) && OwnsWith(b, w.host, vm, left)
    ensures var g := ResizeDisk(w, vm, sizeGB).w.host;
      Safe(g) && OwnsWith(b, g, vm, left)
  {
    hide Safe, Lists, Disks, ResizeDisk, AllPaths, Paths, BootPath, GigaBytes, Spares;
    var h, o := w.host, ResizeDisk(w, vm, sizeGB);
    ResizeDiskExits(w, vm, sizeGB);
    if o.r.Ok? {
      SafeSetCapacity(h, BootPath(h, vm), GigaBytes(sizeGB));
      DisksOf(h, vm);
      BootFirst(h, vm);
      SameDisks(h, o.w.host, vm);
      assert left + {} == left;
      OwnsStep(b, h, o.w.host, vm, left, {});
    }
  }

  lemma PowerKeepsOwnership(b: Host, h: Host, vm: string, run: RunState, left: set<string>)
    requires Safe(h) && OwnsWith(b, h, vm, left)
    ensures Safe(SetRun(h, vm, run)) && OwnsWith(b, SetRun(h, vm, run), vm, left)
  {
    hide Safe, AllPaths, Paths, FileDisks;
    SafeSetRun(h, vm, run);
    assert Disks(SetRun(h, vm, run), vm) == Disks(h, vm);
  }

  lemma ChangeKeepsOwnership(b: Host, w: World, vm: string, c: Change, left: set<string>)
    requires Safe(w.host) && OwnsWith(b, w.host, vm, left)
    ensures var g := ApplyChange(w, vm, c).w.host;
      Safe(g) && OwnsWith(b, g, vm, left + Leftover(w, vm, c))
  {
    hide Safe, AddDisk, ResizeDisk, MigrateDisk, OwnPaths, Spares, AddLeavesOrphan, MigrationStage, HasBoot;
    assert left + {} == left;
    match c
    case Add(sizeGB, pool) => AddKeepsOwnership(b, w, vm, sizeGB, pool, left);
    case Grow(sizeGB) => GrowKeepsOwnership(b, w, vm, sizeGB, left);
    case Migrate(pool) => MigrateKeepsOwnership(b, w, vm, pool, left);
    case SetPower(run) => PowerKeepsOwnership(b, w.host, vm, run, left);
  }

  /** After any changes the VM is the sole owner of its volumes, and what there is besides was left over by them. */
  lemma {:induction false} ChangesKeepOwnership(b: Host, w: World, vm: string, cs: seq<Change>, left: set<string>)
    requires Safe(w.host) && OwnsWith(b, w.host, vm, left)
    ensures var g := ApplyChanges(w, vm, cs).host;
      Safe(g) && OwnsWith(b, g, vm, left + Leftovers(w, vm, cs))
    decreases |cs|
  {
    hide Safe, OwnsWith, ApplyChange, Leftover;
    if cs == [] {
      assert left + {} == left;
    } else {
      var more, next := Leftover(w, vm, cs[0]), ApplyChange(w, vm, cs[0]).w;
      ChangeKeepsOwnership(b, w, vm, cs[0], left);
      ChangesKeepOwnership(b, next, vm, cs[1..], left + more);
      assert left + more + Leftovers(next, vm, cs[1..]) == left + Leftovers(w, vm, cs);
    }
  }

  /** What is left over is listed by nobody. */
  lemma LeftoversAreIdle(b: Host, g: Host, vm: string, left: set<string>)
    requires Safe(b) && OwnsWith(b, g, vm, left)
    ensures forall p :: p in left ==> p in g.vols && Unlisted(Lists(g), p)
  {
    hide Safe, OwnPaths, FileDisks;
    forall n, i, p | p in left && DiskAt(Lists(g), n, i, p)
      ensures false
    {
      if n == vm {
        ListedIsOwn(g, n, i, p);
      } else {
        assert DiskAt(Lists(b), n, i, p);
        SafeLists(b);
        ListedExist(Lists(b), b.vols, n, i, p);
      }
    }
  }

  // ---------------------------------------------------------------- create, change, delete

  /** Taking a VM and its volumes away from a host that owes everything else to `b`. */
  lemma RemovingRestores(b: Host, h: Host, vm: string, left: set<string>)
    requires OwnsWith(b, h, vm, left)
    ensures var g := Without(h, vm, OwnPaths(h, vm));
      && g.pools == b.pools && g.doms == b.doms
      && (forall p :: p in b.vols ==> p in g.vols && g.vols[p] == b.vols[p])
      && left !! b.vols.Keys && g.vols.Keys == b.vols.Keys + left
      && (g == b <==> left == {})
  {
    hide OwnPaths;
    var g := Without(h, vm, OwnPaths(h, vm));
    assert g.doms.Keys == b.doms.Keys;
    assert g.doms == b.doms;
    assert g.vols.Keys == b.vols.Keys + left;
    if left == {} {
      assert g.vols == b.vols;
    } else {
      var p :| p in left;
      assert p in g.vols.Keys && p !in b.vols.Keys;
    }
  }

  lemma CreatedOwns(w: World, cfg: VMConfig)
    requires Safe(w.host) && CleanRequest(cfg) && cfg.name != "" && Provision(w, cfg).r.Ok?
    ensures var g := Provision(w, cfg).w.host;
      Safe(g) && OwnsWith(w.host, g, cfg.name, {}) && cfg.name in g.doms
  {
    hide Safe, Provision, CleanRequest, OwnPaths, Spares;
    CleanCreateExits(w, cfg);
  }

  /** What create, changes and delete give back when the name can stand in an attribute. */
  lemma CleanChangeDelete(w: World, cfg: VMConfig, cs: seq<Change>)
    requires Safe(w.host) && CleanRequest(cfg) && cfg.name != "" && Provision(w, cfg).r.Ok?
    requires NoFaults(ApplyChanges(Provision(w, cfg).w, cfg.name, cs))
    ensures var created := Provision(w, cfg).w;
      var deleted := Delete(ApplyChanges(created, cfg.name, cs), cfg.name, false);
      var left := Leftovers(created, cfg.name, cs);
      && deleted.r.Ok? && Safe(deleted.w.host)
      && deleted.w.host.pools == w.host.pools && deleted.w.host.doms == w.host.doms
      && (forall p :: p in w.host.vols ==> p in deleted.w.host.vols && deleted.w.host.vols[p] == w.host.vols[p])
      && left !! w.host.vols.Keys && deleted.w.host.vols.Keys == w.host.vols.Keys + left
      && (deleted.w.host == w.host <==>
           forall i :: 0 <= i < |cs| ==> Leftover(ApplyChanges(created, cfg.name, cs[..i]), cfg.name, cs[i]) == {})
  {
    hide Safe, Provision, CleanRequest, ApplyChanges, Delete, OwnPaths, Without, Spares, Leftover, Leftovers, OwnsWith;
    CreatedOwns(w, cfg);
    var created := Provision(w, cfg).w;
    var left := Leftovers(created, cfg.name, cs);
    ChangesKeepOwnership(w.host, created, cfg.name, cs, {});
    assert {} + left == left;
    var last := ApplyChanges(created, cfg.name, cs);
    OwnsPresent(w.host, last.host, cfg.name, left);
    DeleteRemovesExactlyTheVm(last, cfg.name, false);
    RemovingRestores(w.host, last.host, cfg.name, left);
    NothingLeftExactly(created, cfg.name, cs);
  }

  /** A change is an operation. */
  function AsOp(vm: string, c: Change): Op {
    match c
    case Add(sizeGB, pool) => AddDiskTo(vm, sizeGB, pool)
    case Grow(sizeGB) => ResizeDiskOf(vm, sizeGB)
    case Migrate(pool) => MigrateDiskOf(vm, pool)
    case SetPower(run) => Power(vm, run)
  }

  lemma ChangeIsOp(w: World, vm: string, c: Change)
    ensures ApplyChange(w, vm, c).w == Perform(w, AsOp(vm, c))
  {
    hide AddDisk, ResizeDisk, MigrateDisk;
  }

  lemma {:induction false} ChangesKeepVolumes(w: World, vm: string, cs: seq<Change>, p: string)
    requires Unlistable(p)
    ensures KeepsVolume(w.host, ApplyChanges(w, vm, cs).host, p)
    decreases |cs|
  {
    hide ApplyChange, Perform, Unlistable;
    if cs != [] {
      ChangeIsOp(w, vm, cs[0]);
      UnlistableVolumesStay(w, AsOp(vm, cs[0]), p);
      ChangesKeepVolumes(ApplyChange(w, vm, cs[0]).w, vm, cs[1..], p);
    }
  }

  /** A clone whose name cannot stand in an attribute outlives its VM. */
  lemma UncleanCloneStays(w: World, cfg: VMConfig, cs: seq<Change>)
    requires PoolsOk(w.host.pools) && CloneRequest(cfg) && !CleanText(cfg.name) && Provision(w, cfg).r.Ok?
    ensures CanCreate(w.host, cfg)
    ensures var p := ClonePath(w.host, cfg);
      var last := ApplyChanges(Provision(w, cfg).w, cfg.name, cs);
      p !in w.host.vols && p in Delete(last, cfg.name, false).w.host.vols
  {
    hide Provision, CanCreate, ApplyChanges, Delete, Perform, PathIn, BootAsAsked, CleanText, Unlistable;
    CreatedAsAsked(w, cfg);
    UncleanClone(w.host, cfg);
    var created, p := Provision(w, cfg).w, ClonePath(w.host, cfg);
    ChangesKeepVolumes(created, cfg.name, cs, p);
    var last := ApplyChanges(created, cfg.name, cs);
    DeleteKeepsVolumes(last, cfg.name, p);
  }

  lemma UncleanClone(h: Host, cfg: VMConfig)
    requires PoolsOk(h.pools) && CanCreate(h, cfg) && CloneRequest(cfg) && !CleanText(cfg.name)
    ensures OrDefault(cfg.pool) in h.pools
    ensures ClonePath(h, cfg) !in h.vols && ClonePath(h, cfg) in NewPaths(h, cfg) && Unlistable(ClonePath(h, cfg))
  {
    assert NoChar("vda", '\'') && NoChar("vda", '>') && PathIn(h.pools[OrDefault(cfg.pool)], cfg.name + QCOW2) != "";
    hide PathIn, VolumeNameOk, CanSize, CanExtra, CanDefine, NoChar, CleanText;
    BootPrintable(h, cfg);
  }

  // ---------------------------------------------------------------- VMs that list no disk

  /** Everything of `b` is there, and no domain besides but `vm`. */
  ghost predicate SparesOthers(b: Host, g: Host, vm: string) {
    && g.pools == b.pools
    && (forall p :: p in b.vols ==> p in g.vols && g.vols[p] == b.vols[p])
    && (forall n :: n != vm ==> (n in b.doms <==> n in g.doms))
    && (forall n :: n in b.doms && n != vm ==> g.doms[n] == b.doms[n])
  }

  lemma GrownSpares(b: Host, h: Host, g: Host, vm: string)
    requires SparesOthers(b, h, vm) && Grown(h, g, vm)
    ensures SparesOthers(b, g, vm)
  {
    hide VolumeOk, Silent, BracketFirst;
  }

  lemma SilentChangeKeepsDomain(w: World, vm: string, c: Change)
    requires Sound(w.host) && BracketFirst(vm) && vm in w.host.doms
    ensures vm in ApplyChange(w, vm, c).w.host.doms
  {
    hide Sound, BracketFirst, AddDisk, ResizeDisk, MigrateDisk, Disks, Numbered, LeavesOrphan, Splice, DiskXml;
    SilentDisks(w.host, vm);
    match c
    case Add(sizeGB, pool) => AddDiskExits(w, vm, sizeGB, pool);
    case Grow(sizeGB) => NothingToChange(w, vm, sizeGB, "");
    case Migrate(pool) => NothingToChange(w, vm, 0, pool);
    case SetPower(run) =>
  }

  /** Changes to a silent VM touch nothing that was there before. */
  lemma {:induction false} SilentChangesSpare(b: Host, w: World, vm: string, cs: seq<Change>)
    requires Sound(w.host) && BracketFirst(vm) && SparesOthers(b, w.host, vm) && vm in w.host.doms
    ensures var g := ApplyChanges(w, vm, cs).host; Sound(g) && SparesOthers(b, g, vm) && vm in g.doms
    decreases |cs|
  {
    hide Sound, BracketFirst, SparesOthers, ApplyChange, Perform, Grown;
    if cs != [] {
      ChangeIsOp(w, vm, cs[0]);
      SilentStep(w, AsOp(vm, cs[0]));
      SilentChangeKeepsDomain(w, vm, cs[0]);
      var next := ApplyChange(w, vm, cs[0]).w;
      GrownIsSound(w.host, next.host, vm);
      GrownSpares(b, w.host, next.host, vm);
      SilentChangesSpare(b, next, vm, cs[1..]);
    }
  }

  lemma SilentCreated(w: World, cfg: VMConfig)
    requires Safe(w.host) && CloneRequest(cfg) && BracketFirst(cfg.name) && Provision(w, cfg).r.Ok?
    ensures var g := Provision(w, cfg).w.host;
      Sound(g) && SparesOthers(w.host, g, cfg.name) && cfg.name in g.doms && cfg.name !in w.host.doms
  {
    hide Safe, Sound, Provision, CreateProgress, Grown, BracketFirst, CloneRequest, SparesOthers;
    SafeIsSound(w.host);
    CreateGrows(w, cfg);
    GrownIsSound(w.host, Provision(w, cfg).w.host, cfg.name);
    SparesItself(w.host, cfg.name);
    GrownSpares(w.host, w.host, Provision(w, cfg).w.host, cfg.name);
    SuccessDefines(w, cfg);
  }

  lemma SparesItself(b: Host, vm: string)
    ensures SparesOthers(b, b, vm)
  {
  }

  lemma SuccessDefines(w: World, cfg: VMConfig)
    requires CloneRequest(cfg) && Provision(w, cfg).r.Ok?
    ensures cfg.name in Provision(w, cfg).w.host.doms && cfg.name !in w.host.doms
  {
    hide Provision, CanCreate, DomainXml, FinalConfig, BootAsAsked;
    CreatedAsAsked(w, cfg);
    SuccessIsNew(w, cfg);
  }

  /** A silent VM whose disk was not read back is still there, whatever was changed; its deletion takes no volume. */
  lemma SilentDeleted(b: Host, w: World, vm: string)
    requires Sound(w.host) && SparesOthers(b, w.host, vm) && BracketFirst(vm) && vm in w.host.doms && vm !in b.doms
    requires NoFaults(w)
    ensures var deleted := Delete(w, vm, false);
      && deleted.r.Ok? && deleted.w.host.pools == b.pools && deleted.w.host.doms == b.doms
      && (forall p :: p in b.vols ==> p in deleted.w.host.vols && deleted.w.host.vols[p] == b.vols[p])
  {
    hide Delete, Disks, BracketFirst, Sound, Thorough;
    SilentDisks(w.host, vm);
    var gone := DeleteExits(w, vm, false);
    assert OwnPaths(w.host, vm) == {};
    assert gone == {};
    assert w.host.doms - {vm} == b.doms;
  }

  lemma SuccessTagless(w: World, cfg: VMConfig)
    requires CloneRequest(cfg) && Provision(w, cfg).r.Ok?
    ensures NoChar(cfg.name, '<')
  {
    hide Provision, CanSize, CanExtra, CanDefine, VolumeNameOk;
    SuccessIsStarted(w, cfg);
    CloneNamed(w.host, cfg);
  }

  lemma SilentChangeDelete(w: World, cfg: VMConfig, cs: seq<Change>)
    requires Safe(w.host) && CloneRequest(cfg) && Provision(w, cfg).r.Ok?
    requires !CleanText(cfg.name) && !QuoteFirst(cfg.name)
    requires NoFaults(ApplyChanges(Provision(w, cfg).w, cfg.name, cs))
    ensures var deleted := Delete(ApplyChanges(Provision(w, cfg).w, cfg.name, cs), cfg.name, false);
      && deleted.r.Ok? && deleted.w.host.pools == w.host.pools && deleted.w.host.doms == w.host.doms
      && (forall p :: p in w.host.vols ==> p in deleted.w.host.vols && deleted.w.host.vols[p] == w.host.vols[p])
  {
    hide Safe, Sound, Provision, CloneRequest, ApplyChanges, Delete, CleanText, QuoteFirst, BracketFirst, SparesOthers;
    hide NoChar, CanCreate;
    SuccessTagless(w, cfg);
    ThreeKinds(cfg.name);
    SilentCreated(w, cfg);
    var created := Provision(w, cfg).w;
    SilentChangesSpare(w.host, created, cfg.name, cs);
    SilentDeleted(w.host, ApplyChanges(created, cfg.name, cs), cfg.name);
  }

  /**
    Conservation: a VM is created in clone mode under any name, undergoes any changes,
    succeeding or failing anywhere, and is deleted by a Delete none of whose calls fails.  The
    host is exactly as it was if and only if the name can stand in an attribute and no change
    left anything over, which the schedule and the host tell of each change.  Unless the name
    holds a quote before any closing bracket (see QuoteListsAndTakesOthers), pools, domains and
    all volumes from before are exactly as they were; and if it can stand in an attribute, the
    volumes there are besides are exactly those the changes left over.
   */
  lemma CreateChangeDelete(w: World, cfg: VMConfig, cs: seq<Change>)
    requires Safe(w.host) && CloneRequest(cfg) && cfg.name != "" && Provision(w, cfg).r.Ok?
    requires NoFaults(ApplyChanges(Provision(w, cfg).w, cfg.name, cs))
    ensures var created := Provision(w, cfg).w;
      var deleted := Delete(ApplyChanges(created, cfg.name, cs), cfg.name, false);
      var left := Leftovers(created, cfg.name, cs);
      && (deleted.w.host == w.host <==>
        && CleanText(cfg.name)
        && forall i :: 0 <= i < |cs| ==> Leftover(ApplyChanges(created, cfg.name, cs[..i]), cfg.name, cs[i]) == {})
      && (!QuoteFirst(cfg.name) ==>
        && deleted.r.Ok? && deleted.w.host.pools == w.host.pools && deleted.w.host.doms == w.host.doms
        && (forall p :: p in w.host.vols ==> p in deleted.w.host.vols && deleted.w.host.vols[p] == w.host.vols[p]))
      && (CleanText(cfg.name) ==>
        && Safe(deleted.w.host)
        && left !! w.host.vols.Keys && deleted.w.host.vols.Keys == w.host.vols.Keys + left)
  {
    hide Safe, Provision, CloneRequest, ApplyChanges, Delete, Leftover, Leftovers, CleanText, CanCreate, ClonePath;
    hide QuoteFirst, BracketFirst;
    if CleanText(cfg.name) {
      CleanChangeDelete(w, cfg, cs);
    } else {
      PoolsOfSafe(w.host);
      UncleanCloneStays(w, cfg, cs);
      if !QuoteFirst(cfg.name) {
        SilentChangeDelete(w, cfg, cs);
      }
    }
  }

  lemma OwnsPresent(b: Host, h: Host, vm: string, left: set<string>)
    requires OwnsWith(b, h, vm, left)
    ensures vm in h.doms
  {
  }

  /**
    What the changes left over is idle: no VM lists it when the VM is still there, and none
    does after it is gone; so by RunsKeepIdle it stays, in every run that follows.
   */
  lemma LeftoversStay(w: World, cfg: VMConfig, cs: seq<Change>, ops: seq<Op>)
    requires Safe(w.host) && CleanRequest(cfg) && cfg.name != "" && Provision(w, cfg).r.Ok?
    requires forall i :: 0 <= i < |ops| ==> Unquoted(ops[i])
    ensures var created := Provision(w, cfg).w;
      var later := Run(ApplyChanges(created, cfg.name, cs), ops);
      forall p :: p in Leftovers(created, cfg.name, cs) ==> Idle(later.host, p)
  {
    hide Safe, Sound, Provision, CleanRequest, ApplyChanges, Leftovers, OwnsWith, Run, Unquoted, Lists, Unlisted;
    CreatedOwns(w, cfg);
    var created := Provision(w, cfg).w;
    var left := Leftovers(created, cfg.name, cs);
    ChangesKeepOwnership(w.host, created, cfg.name, cs, {});
    assert {} + left == left;
    var last := ApplyChanges(created, cfg.name, cs);
    LeftoversAreIdle(w.host, last.host, cfg.name, left);
    SafeIsSound(last.host);
    RunsKeepIdle(last, ops);
  }

  // ---------------------------------------------------------------- the noclone pair

  /** The volumes a noclone create can leave: the image at its new size and, if asked for, one extra disk. */
  ghost predicate KeepsImage(b: Host, g: Host, cfg: VMConfig) {
    && (forall p :: p in b.vols ==> p in g.vols && g.vols[p].(capacity := 0) == b.vols[p].(capacity := 0))
    && (forall p :: p in b.vols && p != cfg.diskPath ==> g.vols[p] == b.vols[p])
    && (cfg.diskSizeGB == 0 && cfg.diskPath in b.vols ==> g.vols[cfg.diskPath] == b.vols[cfg.diskPath])
    && (if cfg.extraDiskSizeGB == 0 then g.vols.Keys == b.vols.Keys
        else exists path :: path !in b.vols && g.vols.Keys == b.vols.Keys + {path}
               && g.vols[path].name == ExtraVolName(cfg.name, 2))
  }

  lemma NocloneCreate(w: World, cfg: VMConfig)
    requires cfg.noclone && cfg.extraDisks == [] && VolumeNameOk(cfg.name + QCOW2) && Provision(w, cfg).r.Ok?
    ensures var g := Provision(w, cfg).w.host;
      && cfg.name !in w.host.doms && cfg.name in g.doms && g.pools == w.host.pools
      && g.doms - {cfg.name} == w.host.doms && KeepsImage(w.host, g, cfg)
  {
    hide ProvisionSize, ProvisionExtra, ProvisionBoot, VolumeNameOk, ExtraVolName, PathIn, DomainXml, NameOf;
    ResizeOutcome(w, cfg);
    var sized := ProvisionSize(w, cfg).w;
    ExtraOutcome(sized, cfg);
    var extra := ProvisionExtra(sized, cfg);
    NamePlain(cfg.name);
    NameReadBack(extra.r.value);
    BootOutcome(extra.w, extra.r.value);
    ImageKept(w.host, sized.host, extra.w.host, cfg);
    assert Provision(w, cfg) == ProvisionBoot(extra.w, extra.r.value);
    SetRunOutcome(extra.w.host, cfg.name, DomainXml(extra.r.value));
  }

  lemma SetRunOutcome(h: Host, vm: string, xml: string)
    requires vm !in h.doms
    ensures var g := SetRun(SetXml(h, vm, xml), vm, Running);
      vm in g.doms && g.doms - {vm} == h.doms && g.vols == h.vols && g.pools == h.pools
  {
  }

  lemma ImageKept(b: Host, s: Host, e: Host, cfg: VMConfig)
    requires s == b
      || (cfg.diskSizeGB > 0 && cfg.diskPath in b.vols
          && s == SetCapacity(b, cfg.diskPath, GigaBytes(cfg.diskSizeGB)))
    requires if cfg.extraDiskSizeGB == 0 then e == s
      else exists path, v: Volume ::
        path !in s.vols && v.name == ExtraVolName(cfg.name, 2) && e == AddVolume(s, path, v)
    ensures KeepsImage(b, e, cfg)
  {
    hide ExtraVolName;
    if cfg.extraDiskSizeGB > 0 {
      var path, v: Volume :| path !in s.vols && v.name == ExtraVolName(cfg.name, 2) && e == AddVolume(s, path, v);
      assert path !in b.vols && e.vols.Keys == b.vols.Keys + {path};
    }
  }

  lemma NocloneDelete(w: World, vm: string)
    requires vm in w.host.doms && NoFaults(w)
    ensures Delete(w, vm, true).r.Ok? && Delete(w, vm, true).w.host == w.host.(doms := w.host.doms - {vm})
  {
    if Active(w.host.doms[vm].run) {
      assert SetRun(w.host, vm, Shutoff).doms - {vm} == w.host.doms - {vm};
    }
  }

  /**
    A VM that runs on the image itself: deleting it with noclone restores the domains and
    keeps the image, and what it leaves besides is exactly the extra disk it asked for.
   */
  lemma NocloneCreateDelete(w: World, cfg: VMConfig)
    requires cfg.noclone && cfg.extraDisks == [] && VolumeNameOk(cfg.name + QCOW2) && Provision(w, cfg).r.Ok?
    requires NoFaults(Provision(w, cfg).w)
    ensures var deleted := Delete(Provision(w, cfg).w, cfg.name, true);
      && deleted.r.Ok? && deleted.w.host.pools == w.host.pools && deleted.w.host.doms == w.host.doms
      && KeepsImage(w.host, deleted.w.host, cfg)
  {
    hide Provision, Delete, VolumeNameOk;
    NocloneCreate(w, cfg);
    NocloneDelete(Provision(w, cfg).w, cfg.name);
  }
}
