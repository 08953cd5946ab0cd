/**
  Attaching a new disk: what AddDisk leaves behind on every exit, the orphan it can leave
  and exactly when, and why the numbering of disks and volumes stays consistent.
 */
module DiskAddition {
  import opened Text
  import opened Outcomes
  import opened DomainDescription
  import opened DomainText
  import opened VolumeNames
  import opened Libvirt
  import opened Operations
  import opened Safety

  /** The volume that would back the next disk of a VM. */
  function NextVolume(h: Host, vm: string, sizeGB: u64, pool: string): Volume
    requires vm in h.doms && sizeGB * GIB < U64
  {
    Volume(OrDefault(pool), ExtraVolName(vm, |Disks(h, vm)| + 1), sizeGB * GIB, [])
  }

  function NextPath(h: Host, vm: string, pool: string): string
    requires vm in h.doms && OrDefault(pool) in h.pools
  {
    PathIn(h.pools[OrDefault(pool)], ExtraVolName(vm, |Disks(h, vm)| + 1))
  }

  /** What the host must offer for another disk to be created. */
  ghost predicate CanAdd(h: Host, vm: string, sizeGB: u64, pool: string) {
    && vm in h.doms && sizeGB > 0 && |Disks(h, vm)| < 26
    && sizeGB * GIB < U64 && OrDefault(pool) in h.pools && NextPath(h, vm, pool) !in h.vols
  }

  function NextDisk(h: Host, vm: string, pool: string): DiskDevice
    requires vm in h.doms && OrDefault(pool) in h.pools && |Disks(h, vm)| < 26
  {
    DiskDevice(NextPath(h, vm, pool), VdTarget(|Disks(h, vm)|))
  }

  /** The host with the new volume, and with the disk attached as well. */
  function WithVolume(h: Host, vm: string, sizeGB: u64, pool: string): Host
    requires vm in h.doms && sizeGB * GIB < U64 && OrDefault(pool) in h.pools
  {
    AddVolume(h, NextPath(h, vm, pool), NextVolume(h, vm, sizeGB, pool))
  }

  function AttachedXml(h: Host, vm: string, pool: string): string
    requires vm in h.doms && OrDefault(pool) in h.pools && |Disks(h, vm)| < 26
  {
    var d := NextDisk(h, vm, pool);
    Splice(h.doms[vm].xml, DiskXml(d.path, d.target))
  }

  function WithDisk(h: Host, vm: string, sizeGB: u64, pool: string): Host
    requires vm in h.doms && sizeGB * GIB < U64 && OrDefault(pool) in h.pools && |Disks(h, vm)| < 26
  {
    SetXml(WithVolume(h, vm, sizeGB, pool), vm, AttachedXml(h, vm, pool))
  }

  // ---------------------------------------------------------------- facts of a safe host

  /** Disks attached in order, under a name that can be part of a volume's: all that adding the next one builds on. */
  ghost predicate Numbered(h: Host, vm: string) {
    && vm in h.doms && |Disks(h, vm)| <= 26 && VolumeNameOk(vm + QCOW2)
    && (forall i :: 0 <= i < |Disks(h, vm)| ==> Disks(h, vm)[i].target == "vd" + [('a' as int + i) as char])
  }

  lemma DomainFacts(h: Host, vm: string)
    requires Safe(h) && vm in h.doms
    ensures 0 < |Disks(h, vm)| <= 26 && Lists(h)[vm] == Disks(h, vm)
    ensures forall i :: 0 <= i < |Disks(h, vm)| ==> Disks(h, vm)[i].target == VdTarget(i)
    ensures forall i :: 0 <= i < |Disks(h, vm)| ==> Disks(h, vm)[i].path in h.vols
    ensures VolumeNameOk(vm + QCOW2) && TextOk(vm, h.doms[vm].xml) && Numbered(h, vm)
  {
    hide FileDisks, PoolsOk, Exclusive, Printed, CleanText, VolumeNameOk;
    assert ListOk(h.vols, vm, Lists(h)[vm]);
    assert DiskOk(h.vols, vm, 0, Lists(h)[vm][0]);
    assert TextOk(vm, h.doms[vm].xml);
    forall i | 0 <= i < |Disks(h, vm)|
      ensures Disks(h, vm)[i].target == VdTarget(i) && Disks(h, vm)[i].path in h.vols
    {
      assert DiskOk(h.vols, vm, i, Lists(h)[vm][i]);
    }
  }

  lemma ExtraNameOk(vm: string, n: nat)
    requires VolumeNameOk(vm + QCOW2)
    ensures VolumeNameOk(ExtraVolName(vm, n)) && NormalizeVolName(ExtraVolName(vm, n)) == ExtraVolName(vm, n)
  {
    var digits, base := Dec(n), vm + QCOW2;
    assert forall i :: 0 <= i < |vm| ==> vm[i] == base[i];
    assert forall i :: 0 <= i < |QCOW2| ==> QCOW2[i] == base[|vm| + i];
    NormalizeKeepsExtraNames(vm, vm, n);
  }

  // ---------------------------------------------------------------- the parts of AddDisk

  /** A pool that is not named is the pool called default. */
  lemma NoPoolIsDefault(w: World, vm: string, sizeGB: u64, base: string, name: string)
    ensures AddDisk(w, vm, sizeGB, "") == AddDisk(w, vm, sizeGB, "default")
    ensures CloneImage(w, base, name, "") == CloneImage(w, base, name, "default")
    ensures CreateVolume(w, "", name, sizeGB) == CreateVolume(w, "default", name, sizeGB)
  {
    hide AttachNew, FileDisks, NextTarget;
  }

  /**
    CreateVolume, exit by exit: an empty volume under the name given, with the suffix it lacks,
    in the pool given or else in default.
   */
  lemma CreateVolumeOutcome(w: World, pool: string, name: string, sizeGB: u64)
    ensures var o, h := CreateVolume(w, pool, name, sizeGB), w.host;
      var target, bytes := if pool == "" then "default" else pool, sizeGB * 1024 * 1024 * 1024;
      var full := if HasSuffix(name, ".qcow2") then name else name + ".qcow2";
      var fits := bytes < 0x1_0000_0000_0000_0000 && target in h.pools && VolumeNameOk(full)
                  && PathIn(h.pools[target], full) !in h.vols;
      if sizeGB == 0 then o == Step(w, Err(ZeroSize))
      else if name == "" then o == Step(w, Err(NoVolumeName))
      else if !fits || w.clock in w.faults || w.clock + 1 in w.faults then
        o.r == Err(CallFailed) && o.w.host == h && Later(w, o.w)
      else
        var path := PathIn(h.pools[target], full);
        && o.w == World(AddVolume(h, path, Volume(target, full, bytes, [])), w.clock + 3, w.faults)
        && o.r == if w.clock + 2 in w.faults then Err(CallFailed) else Ok(path)
  {
    hide VolumeNameOk, PathIn, HasSuffix;
  }

  lemma AttachOutcome(w: World, vm: string, d: DiskDevice)
    requires vm in w.host.doms && d.path in w.host.vols
    ensures var o, c, f := AttachNew(w, vm, d), w.clock, w.faults;
      && Later(w, o.w)
      && (if c !in f && c + 1 !in f then
            o.r == Ok(d)
            && o.w.host == SetXml(w.host, vm, Splice(w.host.doms[vm].xml, DiskXml(d.path, d.target)))
          else
            var rollback := if c in f then c + 1 else c + 2;
            o.r == Err(CallFailed)
            && o.w.host == if rollback in f || rollback + 1 in f then w.host else DropVolume(w.host, d.path))
  {
    hide Splice, DiskXml;
  }

  /** Creating the volume for the next disk of a VM. */
  lemma EmptyDiskOutcome(w: World, vm: string, sizeGB: u64, pool: string)
    requires Numbered(w.host, vm) && sizeGB > 0
    ensures var h := w.host;
      var o := CreateEmptyDisk(w, vm, sizeGB, pool, Targets(Disks(h, vm)));
      if |Disks(h, vm)| == 26 then o == Step(w, Err(NoFreeTarget))
      else if !CanAdd(h, vm, sizeGB, pool) || w.clock in w.faults || w.clock + 1 in w.faults then
        o.r == Err(CallFailed) && o.w.host == h && Later(w, o.w)
      else
        && o.w == World(WithVolume(h, vm, sizeGB, pool), w.clock + 3, w.faults)
        && o.r == if w.clock + 2 in w.faults then Err(CallFailed) else Ok(NextDisk(h, vm, pool))
  {
    var h := w.host;
    hide FileDisks, VolumeNameOk, PathIn;
    var used := Targets(Disks(h, vm));
    NextTargetNumbered(used);
    hide NextTarget;
    ExtraNameOk(vm, |used| + 1);
    CreateVolumeOutcome(w, pool, ExtraVolName(vm, |used| + 1), sizeGB);
    hide CreateVolume, NormalizeVolName, ExtraVolName;
  }

  // ---------------------------------------------------------------- the invariant

  lemma AppendedListOk(lists: DiskLists, vols: map<string, Volume>, vm: string, d: DiskDevice, v: Volume)
    requires ListsOk(lists, vols) && vm in lists && 0 < |lists[vm]| < 26 && d.path !in vols
    requires d.target == VdTarget(|lists[vm]|) && v.name == DiskVolName(vm, |lists[vm]|)
    ensures var list := lists[vm] + [d];
      && ListOk(vols[d.path := v], vm, list)
      && (forall i, j :: 0 <= i < j < |list| ==> list[i].path != list[j].path)
      && (forall n, i, k :: n != vm && 0 <= k < |list| ==> !DiskAt(lists, n, i, list[k].path))
  {
    var after, list := vols[d.path := v], lists[vm] + [d];
    assert ListOk(vols, vm, lists[vm]);
    forall i | 0 <= i < |list|
      ensures DiskOk(after, vm, i, list[i])
      ensures i < |lists[vm]| ==> DiskAt(lists, vm, i, list[i].path) && list[i].path != d.path
    {
      if i < |lists[vm]| {
        assert DiskOk(vols, vm, i, lists[vm][i]);
        assert DiskAt(lists, vm, i, list[i].path);
      }
    }
    forall n, i | DiskAt(lists, n, i, d.path)
      ensures false
    {
      ListedExist(lists, vols, n, i, d.path);
    }
  }

  lemma NewDiskClean(h: Host, vm: string, sizeGB: u64, pool: string)
    requires Safe(h) && CanAdd(h, vm, sizeGB, pool)
    ensures CleanDisk(NextDisk(h, vm, pool)) && NextPath(h, vm, pool) != "" && NextDisk(h, vm, pool).target != ""
    ensures VolumeOk(h.pools, NextPath(h, vm, pool), NextVolume(h, vm, sizeGB, pool))
    ensures NextVolume(h, vm, sizeGB, pool).name == DiskVolName(vm, |Disks(h, vm)|)
  {
    hide Safe, Disks, Lists, VolumeNameOk, CleanText, PathIn, Printed, VdTarget;
    var n := |Disks(h, vm)|;
    DomainFacts(h, vm);
    ExtraNameOk(vm, n + 1);
    SafeNameClean(h, vm);
    ConventionalNameClean(vm, n);
    PoolFacts(h, OrDefault(pool));
    TargetClean(n);
    hide ExtraVolName, NormalizeVolName, OrDefault, Dec;
    PathClean(h.pools[OrDefault(pool)], ExtraVolName(vm, n + 1));
  }

  lemma TargetClean(i: nat)
    requires i < 26
    ensures CleanText(VdTarget(i)) && VdTarget(i) != ""
  {
  }

  lemma SafeWithVolume(h: Host, vm: string, sizeGB: u64, pool: string)
    requires Safe(h) && CanAdd(h, vm, sizeGB, pool)
    ensures Safe(WithVolume(h, vm, sizeGB, pool)) && Lists(WithVolume(h, vm, sizeGB, pool)) == Lists(h)
    ensures DropVolume(WithVolume(h, vm, sizeGB, pool), NextPath(h, vm, pool)) == h
  {
    hide Safe, Lists, Disks, VolumeOk, CleanText, PathIn, VdTarget, ExtraVolName;
    NewDiskClean(h, vm, sizeGB, pool);
    assert DropVolume(WithVolume(h, vm, sizeGB, pool), NextPath(h, vm, pool)) == h;
    SafeAddVolume(h, NextPath(h, vm, pool), NextVolume(h, vm, sizeGB, pool));
  }

  lemma AttachedText(h: Host, vm: string, sizeGB: u64, pool: string)
    requires Safe(h) && CanAdd(h, vm, sizeGB, pool)
    ensures FileDisks(AttachedXml(h, vm, pool)) == Disks(h, vm) + [NextDisk(h, vm, pool)]
    ensures TextOk(vm, AttachedXml(h, vm, pool))
  {
    hide Safe, FileDisks, Printed, CleanText, DiskXml, Splice, PathIn;
    NewDiskClean(h, vm, sizeGB, pool);
    DomainFacts(h, vm);
    PrintedAttach(h.doms[vm].xml, vm, NextDisk(h, vm, pool));
  }

  /** Both hosts that AddDisk can newly reach keep the invariant; attaching appends one disk. */
  lemma SafeWithDisk(h: Host, vm: string, sizeGB: u64, pool: string)
    requires Safe(h) && CanAdd(h, vm, sizeGB, pool)
    ensures Safe(WithDisk(h, vm, sizeGB, pool))
    ensures Lists(WithDisk(h, vm, sizeGB, pool)) == Lists(h)[vm := Disks(h, vm) + [NextDisk(h, vm, pool)]]
  {
    var d, v := NextDisk(h, vm, pool), NextVolume(h, vm, sizeGB, pool);
    var xml := AttachedXml(h, vm, pool);
    hide Safe, Lists, FileDisks, TextOk, VolumeOk, PathIn, DiskXml, Splice, ListsOk, DiskVolName, ListOk;
    hide VdTarget, ExtraVolName;
    hide DiskAt, AttachedXml;
    NewDiskClean(h, vm, sizeGB, pool);
    DomainFacts(h, vm);
    SafeLists(h);
    SafeWithVolume(h, vm, sizeGB, pool);
    AttachedText(h, vm, sizeGB, pool);
    AppendedListOk(Lists(h), h.vols, vm, d, v);
    var g := WithVolume(h, vm, sizeGB, pool);
    assert g.vols == h.vols[d.path := v];
    hide Disks;
    SafeSetXml(g, vm, xml);
  }

  // ---------------------------------------------------------------- every exit

  /** The faults that make AddDisk give up with the volume created but neither attached nor removed. */
  ghost predicate LeavesOrphan(c: nat, f: set<nat>) {
    if c + 4 in f then true                                   // the path could not be read back
    else if c + 5 in f then c + 6 in f || c + 7 in f          // the state was refused, and so was the rollback
    else c + 6 in f && (c + 7 in f || c + 8 in f)             // the attachment was refused, and so was the rollback
  }

  /** The faults and the host make AddDisk leave the new volume behind, unattached. */
  ghost predicate AddLeavesOrphan(w: World, vm: string, sizeGB: u64, pool: string) {
    var c, f := w.clock, w.faults;
    && CanAdd(w.host, vm, sizeGB, pool)
    && c !in f && c + 1 !in f && c + 2 !in f && c + 3 !in f && LeavesOrphan(c, f)
  }

  /**
    AddDisk, exit by exit.  With c the number of its first call: it fails before creating
    anything unless the four calls c..c+3 succeed and the disk can be added; it then attaches
    the disk, or puts everything back, or leaves the one orphan volume that LeavesOrphan describes.
   */
  lemma AddDiskExits(w: World, vm: string, sizeGB: u64, pool: string)
    requires Numbered(w.host, vm)
    ensures var o, h, c, f := AddDisk(w, vm, sizeGB, pool), w.host, w.clock, w.faults;
      && Later(w, o.w)
      && (if sizeGB == 0 then o == Step(w, Err(ZeroSize))
          else if c in f || c + 1 in f then o.r == Err(CallFailed) && o.w.host == h
          else if |Disks(h, vm)| == 26 then o.r == Err(NoFreeTarget) && o.w.host == h
          else if !CanAdd(h, vm, sizeGB, pool) || c + 2 in f || c + 3 in f then
            o.r == Err(CallFailed) && o.w.host == h
          else if c + 4 !in f && c + 5 !in f && c + 6 !in f then
            o.r == Ok(NextDisk(h, vm, pool)) && o.w.host == WithDisk(h, vm, sizeGB, pool)
          else
            o.r == Err(CallFailed)
            && o.w.host == if LeavesOrphan(c, f) then WithVolume(h, vm, sizeGB, pool) else h)
  {
    var h := w.host;
    hide CreateEmptyDisk, AttachNew, FileDisks, Splice, DiskXml, AddDisk, PathIn, VdTarget, ExtraVolName, VolumeNameOk;
    AddDiskSteps(w, vm, sizeGB, pool);
    if sizeGB > 0 {
      hide Disks, Targets;
      EmptyDiskOutcome(w.(clock := w.clock + 2), vm, sizeGB, pool);
      if CanAdd(h, vm, sizeGB, pool) {
        assert DropVolume(WithVolume(h, vm, sizeGB, pool), NextPath(h, vm, pool)) == h;
        var w5 := World(WithVolume(h, vm, sizeGB, pool), w.clock + 5, w.faults);
        assert vm in w5.host.doms && NextPath(h, vm, pool) in w5.host.vols;
        AttachOutcome(w5, vm, NextDisk(h, vm, pool));
      }
    }
  }

  lemma AddDiskSteps(w: World, vm: string, sizeGB: u64, pool: string)
    requires vm in w.host.doms
    ensures var o := AddDisk(w, vm, sizeGB, pool);
      if sizeGB == 0 then o == Step(w, Err(ZeroSize))
      else if w.clock in w.faults || w.clock + 1 in w.faults then
        o.r == Err(CallFailed) && o.w.host == w.host && Later(w, o.w)
      else
        var made := CreateEmptyDisk(w.(clock := w.clock + 2), vm, sizeGB, pool, Targets(Disks(w.host, vm)));
        o == if made.r.Err? then Step(made.w, Err(made.r.error)) else AttachNew(made.w, vm, made.r.value)
  {
    hide CreateEmptyDisk, AttachNew, FileDisks;
  }

  lemma AddedTo(w: World, vm: string, sizeGB: u64, pool: string)
    requires AddDisk(w, vm, sizeGB, pool).r.Ok?
    ensures vm in w.host.doms && sizeGB > 0
    ensures var made := CreateEmptyDisk(w.(clock := w.clock + 2), vm, sizeGB, pool, Targets(Disks(w.host, vm)));
      made.r.Ok? && AddDisk(w, vm, sizeGB, pool) == AttachNew(made.w, vm, made.r.value)
  {
    hide CreateEmptyDisk, AttachNew, FileDisks, Targets;
  }

  lemma MadeEmpty(w: World, vm: string, sizeGB: u64, pool: string, used: seq<string>)
    requires sizeGB > 0 && CreateEmptyDisk(w, vm, sizeGB, pool, used).r.Ok?
    ensures var o, h := CreateEmptyDisk(w, vm, sizeGB, pool, used), w.host;
      var target := if pool == "" then "default" else pool;
      var name, bytes := vm + "-" + Dec(|used| + 1) + ".qcow2", sizeGB * 1024 * 1024 * 1024;
      && bytes < 0x1_0000_0000_0000_0000 && target in h.pools
      && NextTarget(used) == Some(o.r.value.target) && o.r.value.path == h.pools[target] + "/" + name
      && o.r.value.path !in h.vols && o.w.host == AddVolume(h, o.r.value.path, Volume(target, name, bytes, []))
  {
    var name := ExtraVolName(vm, |used| + 1);
    assert name[|name| - 6..] == ".qcow2" && name != "";
    CreateVolumeOutcome(w, pool, name, sizeGB);
    hide CreateVolume, NextTarget, VolumeNameOk, HasSuffix, Dec;
  }

  /**
    The disk that is added to any domain, whoever made it: an empty volume of so many gigabytes,
    named after the VM and one more than the number of its disks, in the pool asked for or else
    in default, attached under the first letter that none of its disks has.
   */
  lemma AddedDisk(w: World, vm: string, sizeGB: u64, pool: string)
    requires AddDisk(w, vm, sizeGB, pool).r.Ok?
    ensures vm in w.host.doms
    ensures var o, h := AddDisk(w, vm, sizeGB, pool), w.host;
      var d, used, target := o.r.value, Targets(Disks(h, vm)), if pool == "" then "default" else pool;
      var name, bytes := vm + "-" + Dec(|used| + 1) + ".qcow2", sizeGB * 1024 * 1024 * 1024;
      && 0 < bytes < 0x1_0000_0000_0000_0000 && target in h.pools && d.target !in used
      && (exists c: char :: 'a' <= c <= 'z' && d.target == "vd" + [c]
                            && forall x: char :: 'a' <= x < c ==> "vd" + [x] in used)
      && d.path == h.pools[target] + "/" + name && d.path !in h.vols
      && o.w.host.vols == h.vols[d.path := Volume(target, name, bytes, [])]
      && o.w.host.doms == h.doms[vm := Domain(Splice(h.doms[vm].xml, DiskXml(d.path, d.target)), h.doms[vm].run)]
  {
    var start := w.(clock := w.clock + 2);
    AddedTo(w, vm, sizeGB, pool);
    hide AddDisk, Disks, Splice, DiskXml, CreateEmptyDisk, AttachNew, Targets, NextTarget, Dec;
    var used := Targets(Disks(w.host, vm));
    var made := CreateEmptyDisk(start, vm, sizeGB, pool, used);
    MadeEmpty(start, vm, sizeGB, pool, used);
    NextTargetIsFirstLetter(used);
    AttachOutcome(made.w, vm, made.r.value);
  }

  /**
    What AddDisk promises.  A success attaches one new disk under the next letter.  A failed
    call changes no domain and no existing volume; what it may add is the one volume of that
    disk.  A disk is refused for lack of a target exactly when all 26 are in use.  Without
    faults it fails only where it must.
   */
  lemma AddDiskIsAtomic(w: World, vm: string, sizeGB: u64, pool: string)
    requires Safe(w.host) && vm in w.host.doms
    ensures var o, h := AddDisk(w, vm, sizeGB, pool), w.host; var g := o.w.host;
      && Safe(g)
      && (o.r.Ok? ==>
        && CanAdd(h, vm, sizeGB, pool) && o.r.value == NextDisk(h, vm, pool)
        && o.r.value.target == "vd" + [('a' as int + |Disks(h, vm)|) as char]
        && g.vols == h.vols[NextPath(h, vm, pool) := NextVolume(h, vm, sizeGB, pool)]
        && g.pools == h.pools && g.doms.Keys == h.doms.Keys && g.doms[vm].run == h.doms[vm].run
        && (forall n :: n in h.doms && n != vm ==> g.doms[n] == h.doms[n])
        && Lists(g) == Lists(h)[vm := Disks(h, vm) + [o.r.value]])
      && (o.r.Err? ==>
        && g.doms == h.doms && g.pools == h.pools
        && (g.vols == h.vols
            || (CanAdd(h, vm, sizeGB, pool) && LeavesOrphan(w.clock, w.faults)
                && g.vols == h.vols[NextPath(h, vm, pool) := NextVolume(h, vm, sizeGB, pool)])))
      && (o.r == Err(NoFreeTarget) ==> |Disks(h, vm)| == 26 && g == h)
      && (NoFaults(w) && sizeGB > 0 && |Disks(h, vm)| == 26 ==> o.r == Err(NoFreeTarget))
      && (NoFaults(w) ==> (o.r.Ok? <==> CanAdd(h, vm, sizeGB, pool)))
  {
    var h := w.host;
    hide Safe, Lists, AddDisk, Disks, NextPath, AttachedXml, ExtraVolName, Numbered;
    DomainFacts(h, vm);
    AddDiskExits(w, vm, sizeGB, pool);
    if CanAdd(h, vm, sizeGB, pool) {
      SafeWithVolume(h, vm, sizeGB, pool);
      SafeWithDisk(h, vm, sizeGB, pool);
    }
  }
}
