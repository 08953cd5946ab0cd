/**
  Moving a boot disk to another pool: the hosts MigrateDisk can leave behind, whichever call
  fails, and why none of them has lost the disk.
 */
module Migration {
  import opened Text
  import opened Outcomes
  import opened DomainDescription
  import opened DomainText
  import opened DomainRoundTrip
  import opened VolumeNames
  import opened Libvirt
  import opened Operations
  import opened Safety

  /** The path of the boot disk, as the code reads it out of the domain's text. */
  function BootPath(h: Host, vm: string): string
    requires vm in h.doms
  {
    SourcePath(h.doms[vm].xml)
  }

  ghost predicate HasBoot(h: Host, vm: string) {
    vm in h.doms && BootPath(h, vm) in h.vols
  }

  function CopyPath(h: Host, vm: string, target: string): string
    requires vm in h.doms && BootPath(h, vm) in h.vols && target in h.pools
  {
    PathIn(h.pools[target], h.vols[BootPath(h, vm)].name)
  }

  // The successive hosts of a migration.

  function Stopped(h: Host, vm: string): Host
    requires vm in h.doms
  {
    if Active(h.doms[vm].run) then SetRun(h, vm, Shutoff) else h
  }

  function Copied(h: Host, vm: string, target: string): Host
    requires vm in h.doms && BootPath(h, vm) in h.vols && target in h.pools
  {
    var boot := h.vols[BootPath(h, vm)];
    AddVolume(Stopped(h, vm), CopyPath(h, vm, target), boot.(pool := target))
  }

  function MovedXml(h: Host, vm: string, target: string): string
    requires vm in h.doms && BootPath(h, vm) in h.vols && target in h.pools
  {
    ReplaceFirst(h.doms[vm].xml, BootPath(h, vm), CopyPath(h, vm, target))
  }

  function Moved(h: Host, vm: string, target: string): Host
    requires vm in h.doms && BootPath(h, vm) in h.vols && target in h.pools
  {
    SetXml(Copied(h, vm, target), vm, MovedXml(h, vm, target))
  }

  function Cleaned(h: Host, vm: string, target: string): Host
    requires vm in h.doms && BootPath(h, vm) in h.vols && target in h.pools
  {
    DropVolume(Moved(h, vm, target), BootPath(h, vm))
  }

  function Restarted(h: Host, vm: string, target: string): Host
    requires vm in h.doms && BootPath(h, vm) in h.vols && target in h.pools
  {
    if Active(h.doms[vm].run) then SetRun(Cleaned(h, vm, target), vm, Running) else Cleaned(h, vm, target)
  }

  /** The copy can be made: the pool exists and does not hold a volume of that name yet. */
  ghost predicate CanCopy(h: Host, vm: string, target: string)
    requires HasBoot(h, vm)
  {
    target in h.pools && CopyPath(h, vm, target) !in h.vols
  }

  lemma BootFacts(h: Host, vm: string)
    requires Safe(h) && vm in h.doms
    ensures HasBoot(h, vm)
    ensures DiskAt(Lists(h), vm, 0, BootPath(h, vm))
    ensures Disks(h, vm) != [] && Disks(h, vm)[0] == DiskDevice(BootPath(h, vm), "vda")
    ensures PoolPath(BootPath(h, vm)) && BootPath(h, vm) != ""
    ensures h.vols[BootPath(h, vm)].name == vm + QCOW2 && VolumeNameOk(h.vols[BootPath(h, vm)].name)
  {
    hide FileDisks, PoolPath, Printed, PoolsOk, VolumeOk, Exclusive, CleanText, VolumeNameOk;
    assert ListOk(h.vols, vm, Lists(h)[vm]);
    assert DiskOk(h.vols, vm, 0, Lists(h)[vm][0]);
    assert VdTarget(0) == "vda";
    assert TextOk(vm, h.doms[vm].xml);
    SafeNameClean(h, vm);
    ConventionalPath(h, BootPath(h, vm), vm, 0);
  }

  /** The boot disk is held exactly while its VM is active. */
  lemma BootInUse(h: Host, vm: string)
    requires Safe(h) && vm in h.doms
    ensures InUse(h.doms, BootPath(h, vm)) <==> Active(h.doms[vm].run)
  {
    BootFacts(h, vm);
    hide Safe, FileDisks, InUse;
    OwnInUse(h, vm, 0);
  }

  /** The text with the copy's path in it is again printed text, differing in the boot disk only. */
  lemma MovedText(h: Host, vm: string, target: string)
    requires Safe(h) && vm in h.doms && HasBoot(h, vm) && target in h.pools
    ensures TextOk(vm, MovedXml(h, vm, target))
    ensures NameOf(MovedXml(h, vm, target)) == vm && '/' !in vm && vm != ""
    ensures FileDisks(MovedXml(h, vm, target)) == Disks(h, vm)[0 := DiskDevice(CopyPath(h, vm, target), "vda")]
    ensures PoolPath(CopyPath(h, vm, target))
    ensures VolumeOk(h.pools, CopyPath(h, vm, target), h.vols[BootPath(h, vm)].(pool := target))
  {
    hide FileDisks, NameOf, ReplaceFirst, Printed, PoolPath, Lists, ListsOk;
    BootFacts(h, vm);
    assert TextOk(vm, h.doms[vm].xml);
    var boot := h.vols[BootPath(h, vm)];
    assert VolumeOk(h.pools, BootPath(h, vm), boot);
    SafeNameClean(h, vm);
    ConventionalNameClean(vm, 0);
    PathClean(h.pools[target], boot.name);
    PrintedMove(h.doms[vm].xml, vm, CopyPath(h, vm, target));
    PrintedText(MovedXml(h, vm, target), vm);
  }

  // ---------------------------------------------------------------- every stage keeps the invariant

  /** The moved list: the copy in front, then the untouched extra disks. */
  function MovedList(h: Host, vm: string, target: string): seq<DiskDevice>
    requires vm in h.doms && BootPath(h, vm) in h.vols && target in h.pools && Disks(h, vm) != []
  {
    Disks(h, vm)[0 := DiskDevice(CopyPath(h, vm, target), "vda")]
  }

  lemma MovedListOk(lists: DiskLists, vols: map<string, Volume>, vm: string, copy: string, v: Volume)
    requires ListsOk(lists, vols) && vm in lists && copy !in vols && v.name == vm + QCOW2
    ensures |lists[vm]| > 0
    ensures ListOk(vols[copy := v], vm, lists[vm][0 := DiskDevice(copy, "vda")])
  {
    var after, moved := vols[copy := v], lists[vm][0 := DiskDevice(copy, "vda")];
    assert ListOk(vols, vm, lists[vm]);
    assert VdTarget(0) == "vda";
    forall i | 0 <= i < |moved|
      ensures DiskOk(after, vm, i, moved[i])
    {
      assert DiskOk(vols, vm, i, lists[vm][i]);
    }
  }

  lemma MovedListExclusive(lists: DiskLists, vols: map<string, Volume>, vm: string, copy: string)
    requires ListsOk(lists, vols) && vm in lists && copy !in vols && |lists[vm]| > 0
    ensures var moved := lists[vm][0 := DiskDevice(copy, "vda")];
      && (forall i, j :: 0 <= i < j < |moved| ==> moved[i].path != moved[j].path)
      && (forall n, i, k :: n != vm && 0 <= k < |moved| ==> !DiskAt(lists, n, i, moved[k].path))
      && Unlisted(lists[vm := moved], lists[vm][0].path)
  {
    var moved := lists[vm][0 := DiskDevice(copy, "vda")];
    forall k | 0 <= k < |moved|
      ensures k > 0 ==> DiskAt(lists, vm, k, moved[k].path) && moved[k].path != copy
    {
      assert DiskAt(lists, vm, k, lists[vm][k].path);
      ListedExist(lists, vols, vm, k, lists[vm][k].path);
    }
    forall n, i | DiskAt(lists, n, i, copy)
      ensures false
    {
      ListedExist(lists, vols, n, i, copy);
    }
    assert DiskAt(lists, vm, 0, lists[vm][0].path);
    hide ListOk;
    var after := lists[vm := moved];
    forall n, i
      ensures !DiskAt(after, n, i, lists[vm][0].path)
    {
      assert n != vm ==> !DiskAt(lists, n, i, lists[vm][0].path);
      ListedExist(lists, vols, vm, 0, lists[vm][0].path);
    }
  }

  lemma SafeUpToCopy(h: Host, vm: string, target: string)
    requires Safe(h) && vm in h.doms && HasBoot(h, vm)
    ensures Safe(Stopped(h, vm)) && Lists(Stopped(h, vm)) == Lists(h)
    ensures CanCopy(h, vm, target) ==>
      Safe(Copied(h, vm, target)) && Lists(Copied(h, vm, target)) == Lists(h)
  {
    hide Safe, Lists;
    if Active(h.doms[vm].run) {
      SafeSetRun(h, vm, Shutoff);
    }
    if CanCopy(h, vm, target) {
      MovedText(h, vm, target);
      SafeAddVolume(Stopped(h, vm), CopyPath(h, vm, target), h.vols[BootPath(h, vm)].(pool := target));
    }
  }

  lemma SafeFromMove(h: Host, vm: string, target: string)
    requires Safe(h) && vm in h.doms && HasBoot(h, vm) && CanCopy(h, vm, target)
    ensures Safe(Moved(h, vm, target)) && Safe(Cleaned(h, vm, target)) && Safe(Restarted(h, vm, target))
    ensures Disks(h, vm) != []
    ensures Lists(Restarted(h, vm, target)) == Lists(h)[vm := MovedList(h, vm, target)]
    ensures Lists(Cleaned(h, vm, target)) == Lists(h)[vm := MovedList(h, vm, target)]
    ensures Lists(Moved(h, vm, target)) == Lists(h)[vm := MovedList(h, vm, target)]
  {
    BootFacts(h, vm);
    MovedText(h, vm, target);
    SafeUpToCopy(h, vm, target);
    var copy, v := CopyPath(h, vm, target), h.vols[BootPath(h, vm)].(pool := target);
    assert Lists(h)[vm] == Disks(h, vm);
    MovedListOk(Lists(h), h.vols, vm, copy, v);
    MovedListExclusive(Lists(h), h.vols, vm, copy);
    hide Safe, Lists, FileDisks, TextOk, ListOk, DiskAt;
    SafeSetXml(Copied(h, vm, target), vm, MovedXml(h, vm, target));
    SafeDropVolume(Moved(h, vm, target), BootPath(h, vm));
    if Active(h.doms[vm].run) {
      SafeSetRun(Cleaned(h, vm, target), vm, Running);
    }
  }

  // ---------------------------------------------------------------- where a migration can end

  /** The hosts on the way, in order. */
  datatype Stage = AtStart | AtStopped | AtCopied | AtMoved | AtCleaned | AtRestarted

  function StageHost(h: Host, vm: string, target: string, s: Stage): Host
    requires vm in h.doms && BootPath(h, vm) in h.vols
    requires s in {AtCopied, AtMoved, AtCleaned, AtRestarted} ==> target in h.pools
  {
    match s
    case AtStart => h
    case AtStopped => Stopped(h, vm)
    case AtCopied => Copied(h, vm, target)
    case AtMoved => Moved(h, vm, target)
    case AtCleaned => Cleaned(h, vm, target)
    case AtRestarted => Restarted(h, vm, target)
  }

  lemma CopyOutcome(w: World, old_: string, target: string)
    requires old_ in w.host.vols && VolumeNameOk(w.host.vols[old_].name)
    ensures var o, c, f := CopyVolume(w, old_, target), w.clock, w.faults;
      var v := w.host.vols[old_].(pool := target);
      if target !in w.host.pools || PathIn(w.host.pools[target], v.name) in w.host.vols
         || c in f || c + 1 in f || c + 2 in f || c + 3 in f || c + 4 in f then
        o.r.Err? && o.w.host == w.host && Later(w, o.w)
      else
        var copy := PathIn(w.host.pools[target], v.name);
        && o.w == World(AddVolume(w.host, copy, v), c + 6, f)
        && (if c + 5 in f then o.r.Err? else o.r == Ok(copy))
  {
  }

  lemma SwitchOutcome(w: World, xml: string, old_: string, new_: string, vm: string)
    requires NameOf(ReplaceFirst(xml, old_, new_)) == vm && vm != "" && '/' !in vm && old_ in w.host.vols
    ensures var o, c, f := SwitchVolume(w, xml, old_, new_), w.clock, w.faults;
      var moved := SetXml(w.host, vm, ReplaceFirst(xml, old_, new_));
      if c in f then o.r.Err? && o.w.host == w.host && Later(w, o.w)
      else if c + 1 in f then o.r.Err? && o.w.host == moved && Later(w, o.w)
      else o == Step(World(DropVolume(moved, old_), c + 2, f), Ok(()))
  {
    hide NameOf, ReplaceFirst;
  }

  lemma StartOutcome(w: World, vm: string)
    requires vm in w.host.doms && !Active(w.host.doms[vm].run)
    ensures var o, c, f := Start(w, vm), w.clock, w.faults;
      && Later(w, o.w)
      && (if c in f || c + 1 in f then o.r.Err? && o.w.host == w.host
          else o.r.Ok? && o.w.host == SetRun(w.host, vm, Running))
  {
  }

  /** An outcome belongs to the stage it is said to end at. */
  ghost predicate EndsAt(h: Host, vm: string, target: string, s: Stage, o: Step<()>)
    requires HasBoot(h, vm)
  {
    && (s !in {AtStart, AtStopped} ==> CanCopy(h, vm, target))
    && o.w.host == StageHost(h, vm, target, s)
    && (o.r.Ok? <==> s == AtRestarted)
  }

  /** Each stage is one effect further than the one before. */
  lemma StageSteps(h: Host, vm: string, target: string)
    requires Safe(h) && vm in h.doms && HasBoot(h, vm) && target in h.pools
    ensures var old_, copy := BootPath(h, vm), CopyPath(h, vm, target);
      var v := h.vols[old_].(pool := target);
      && old_ in Stopped(h, vm).vols && Stopped(h, vm).vols[old_] == h.vols[old_]
      && Stopped(h, vm).pools == h.pools && Stopped(h, vm).vols == h.vols
      && Copied(h, vm, target) == AddVolume(Stopped(h, vm), copy, v)
      && old_ in Copied(h, vm, target).vols
      && Moved(h, vm, target) == SetXml(Copied(h, vm, target), vm, MovedXml(h, vm, target))
      && Cleaned(h, vm, target) == DropVolume(Moved(h, vm, target), old_)
      && vm in Cleaned(h, vm, target).doms
      && Cleaned(h, vm, target).doms[vm].run == (if Active(h.doms[vm].run) then Shutoff else h.doms[vm].run)
      && Restarted(h, vm, target) ==
           (if Active(h.doms[vm].run) then SetRun(Cleaned(h, vm, target), vm, Running) else Cleaned(h, vm, target))
  {
    hide Safe, SourcePath, ReplaceFirst;
  }

  lemma RelocationCases(w: World, vm: string, run: RunState, xml: string, old_: string, target: string)
    ensures var o := Relocate(w, vm, run, xml, old_, target);
      var c := CopyVolume(w, old_, target);
      && (c.r.Err? ==> o == c.PropagateFailure<()>())
      && (c.r.Ok? ==>
        var sw := SwitchVolume(c.w, xml, old_, c.r.value);
        && (sw.r.Err? ==> o == sw)
        && (sw.r.Ok? ==> o == if Active(run) then Start(sw.w, vm) else Step(sw.w, Ok(()))))
  {
    hide CopyVolume, SwitchVolume, Start;
  }

  /** Where a migration of a stopped VM ends; d is the number of the first call that copies. */
  ghost function RelocationStage(h: Host, vm: string, target: string, d: nat, f: set<nat>): Stage
    requires HasBoot(h, vm)
  {
    if !CanCopy(h, vm, target) || d in f || d + 1 in f || d + 2 in f || d + 3 in f || d + 4 in f then AtStopped
    else if d + 5 in f || d + 6 in f then AtCopied        // the copy's path or the new description was refused
    else if d + 7 in f then AtMoved                       // the original could not be deleted
    else if Active(h.doms[vm].run) && (d + 8 in f || d + 9 in f) then AtCleaned
    else AtRestarted
  }

  /** Where MigrateDisk ends, by the numbers of the refused calls and what the host offers. */
  ghost function MigrationStage(w: World, vm: string, target: string): Stage
    requires HasBoot(w.host, vm)
  {
    var c, f, active := w.clock, w.faults, Active(w.host.doms[vm].run);
    if c in f || c + 1 in f || c + 2 in f || (active && c + 3 in f) then AtStart
    else RelocationStage(w.host, vm, target, if active then c + 4 else c + 3, f)
  }

  lemma RelocationEnds(h: Host, w: World, vm: string, target: string)
    requires Safe(h) && vm in h.doms && HasBoot(h, vm) && w.host == Stopped(h, vm)
    ensures var o := Relocate(w, vm, h.doms[vm].run, h.doms[vm].xml, BootPath(h, vm), target);
      EndsAt(h, vm, target, RelocationStage(h, vm, target, w.clock, w.faults), o) && Later(w, o.w)
  {
    hide Safe, Lists, DiskAt, FileDisks, SourcePath, PoolPath, TextOk, NameOf, ReplaceFirst, VolumeOk, VolumeNameOk;
    hide PathIn, Relocate, CopyVolume, SwitchVolume, Start, AddVolume, DropVolume, SetXml, SetRun;
    var xml, run, old_ := h.doms[vm].xml, h.doms[vm].run, BootPath(h, vm);
    BootFacts(h, vm);
    StopKeeps(h, vm);
    if target in h.pools {
      MovedText(h, vm, target);
      StageSteps(h, vm, target);
    }
    hide Stopped, Copied, Moved, Cleaned, Restarted, BootPath, MovedXml;
    RelocationCases(w, vm, run, xml, old_, target);
    CopyOutcome(w, old_, target);
    var copied := CopyVolume(w, old_, target);
    if copied.r.Ok? {
      SwitchOutcome(copied.w, xml, old_, copied.r.value, vm);
      var switched := SwitchVolume(copied.w, xml, old_, copied.r.value);
      if switched.r.Ok? && Active(run) {
        StartOutcome(switched.w, vm);
      }
    }
  }

  lemma StopKeeps(h: Host, vm: string)
    requires vm in h.doms
    ensures Stopped(h, vm).vols == h.vols && Stopped(h, vm).pools == h.pools
  {
  }

  lemma MigrationCases(w: World, vm: string, target: string)
    requires vm in w.host.doms && SourcePath(w.host.doms[vm].xml) != ""
    ensures var o := MigrateDisk(w, vm, target);
      var w3, run, xml := w.(clock := w.clock + 3), w.host.doms[vm].run, w.host.doms[vm].xml;
      var stopped := StopIfActive(w3, vm, run);
      if w.clock in w.faults || w.clock + 1 in w.faults || w.clock + 2 in w.faults
         || (Active(run) && w.clock + 3 in w.faults) then
        o.r.Err? && o.w.host == w.host && Later(w, o.w)
      else
        stopped.w == World(Stopped(w.host, vm), w.clock + (if Active(run) then 4 else 3), w.faults)
        && o == Relocate(stopped.w, vm, run, xml, SourcePath(xml), target)
  {
    hide SourcePath, Relocate;
  }

  /**
    MigrateDisk, exit by exit: the numbers of the refused calls, and whether the copy can be
    made, tell at which stage it ends.
   */
  lemma MigrationEnds(w: World, vm: string, target: string)
    requires Safe(w.host) && vm in w.host.doms && HasBoot(w.host, vm)
    ensures EndsAt(w.host, vm, target, MigrationStage(w, vm, target), MigrateDisk(w, vm, target))
    ensures Later(w, MigrateDisk(w, vm, target).w)
  {
    var h := w.host;
    hide Safe, Lists, DiskAt, FileDisks, SourcePath, PoolPath, Relocate, MigrateDisk, StopIfActive, CanCopy, Stopped;
    hide EndsAt, RelocationStage, HasBoot;
    BootFacts(h, vm);
    MigrationCases(w, vm, target);
    StagesStart(w, vm, target);
    var stopped := StopIfActive(w.(clock := w.clock + 3), vm, h.doms[vm].run);
    if stopped.w.host == Stopped(h, vm) {
      RelocationEnds(h, stopped.w, vm, target);
    }
    EndsAtStart(h, vm, target, MigrateDisk(w, vm, target));
  }

  lemma StagesStart(w: World, vm: string, target: string)
    requires HasBoot(w.host, vm)
    ensures var c, f, active := w.clock, w.faults, Active(w.host.doms[vm].run);
      MigrationStage(w, vm, target) ==
        if c in f || c + 1 in f || c + 2 in f || (active && c + 3 in f) then AtStart
        else RelocationStage(w.host, vm, target, if active then c + 4 else c + 3, f)
  {
    hide RelocationStage, SourcePath;
  }

  lemma EndsAtStart(h: Host, vm: string, target: string, o: Step<()>)
    requires HasBoot(h, vm)
    ensures o.r.Err? && o.w.host == h ==> EndsAt(h, vm, target, AtStart, o)
  {
    hide SourcePath, Stopped, Copied, Moved, Cleaned, Restarted;
  }

  // ---------------------------------------------------------------- no data is lost

  /**
    From `h` to `g` the VM keeps its disk: its boot path names a volume with the original's
    name, capacity and content, its extra disks are listed as before, and every other volume
    and domain is untouched.
   */
  ghost predicate KeepsDisk(h: Host, g: Host, vm: string)
    requires HasBoot(h, vm)
  {
    && HasBoot(g, vm) && (BootPath(g, vm) == BootPath(h, vm) || BootPath(g, vm) !in h.vols)
    && g.vols[BootPath(g, vm)].(pool := "") == h.vols[BootPath(h, vm)].(pool := "")
    && Disks(g, vm) != [] && Disks(h, vm) != [] && Disks(g, vm)[1..] == Disks(h, vm)[1..]
    && g.pools == h.pools && g.doms.Keys == h.doms.Keys
    && (forall n :: n in h.doms && n != vm ==> g.doms[n] == h.doms[n])
    && (forall p :: p in h.vols && p != BootPath(h, vm) ==> p in g.vols && g.vols[p] == h.vols[p])
  }

  lemma CopyKeepsDisk(h: Host, vm: string, target: string)
    requires Safe(h) && vm in h.doms && HasBoot(h, vm)
    ensures KeepsDisk(h, h, vm) && KeepsDisk(h, Stopped(h, vm), vm)
    ensures CanCopy(h, vm, target) ==> KeepsDisk(h, Copied(h, vm, target), vm)
  {
    hide Safe, Lists, DiskAt, FileDisks, PoolPath, PathIn;
    BootFacts(h, vm);
  }

  lemma MoveKeepsDisk(h: Host, vm: string, target: string)
    requires Safe(h) && vm in h.doms && HasBoot(h, vm) && CanCopy(h, vm, target)
    ensures KeepsDisk(h, Moved(h, vm, target), vm) && KeepsDisk(h, Cleaned(h, vm, target), vm)
    ensures KeepsDisk(h, Restarted(h, vm, target), vm)
  {
    hide Safe, Lists, DiskAt, FileDisks, PoolPath, TextOk, NameOf, ReplaceFirst, PathIn;
    BootFacts(h, vm);
    MovedText(h, vm, target);
  }

  lemma StageKeepsDisk(h: Host, vm: string, target: string, s: Stage)
    requires Safe(h) && vm in h.doms && HasBoot(h, vm)
    requires s !in {AtStart, AtStopped} ==> CanCopy(h, vm, target)
    ensures KeepsDisk(h, StageHost(h, vm, target, s), vm) && Safe(StageHost(h, vm, target, s))
  {
    hide Safe, Lists, BootPath, CopyPath, KeepsDisk, Stopped, Copied, Moved, Cleaned, Restarted;
    CopyKeepsDisk(h, vm, target);
    SafeUpToCopy(h, vm, target);
    if s !in {AtStart, AtStopped} {
      MoveKeepsDisk(h, vm, target);
      SafeFromMove(h, vm, target);
    }
  }

  /** What MigrateDisk promises, on every world and whichever calls fail. */
  lemma MigrationNeverLosesTheDisk(w: World, vm: string, target: string)
    requires Safe(w.host) && vm in w.host.doms
    ensures HasBoot(w.host, vm)
    ensures var o, h := MigrateDisk(w, vm, target), w.host;
      && Safe(o.w.host) && KeepsDisk(h, o.w.host, vm)
      && (o.r.Ok? ==>
        && CanCopy(h, vm, target)
        && BootPath(o.w.host, vm) == CopyPath(h, vm, target)
        && o.w.host.vols.Keys == h.vols.Keys - {BootPath(h, vm)} + {CopyPath(h, vm, target)}
        && |o.w.host.vols| == |h.vols|
        && o.w.host.doms[vm].run == if Active(h.doms[vm].run) then Running else h.doms[vm].run)
      && (o.r.Err? ==> o.w.host.doms[vm].run == h.doms[vm].run || o.w.host.doms[vm].run == Shutoff)
      && (NoFaults(w) ==> (o.r.Ok? <==> CanCopy(h, vm, target)))
  {
    var h := w.host;
    hide Safe, Lists, DiskAt, FileDisks, PoolPath, TextOk, NameOf, ReplaceFirst, PathIn, MigrateDisk, KeepsDisk;
    BootFacts(h, vm);
    var s := MigrationStage(w, vm, target);
    MigrationEnds(w, vm, target);
    StageKeepsDisk(h, vm, target, s);
    if s == AtRestarted {
      MovedText(h, vm, target);
      var g := Restarted(h, vm, target);
      assert BootPath(g, vm) == CopyPath(h, vm, target);
      assert g.vols.Keys == h.vols.Keys - {BootPath(h, vm)} + {CopyPath(h, vm, target)};
      assert |g.vols.Keys| == |g.vols| && |h.vols.Keys| == |h.vols|;
    }
  }

  /** The same volume, in the target pool and under that pool's path, in the place of the old one, which is gone. */
  ghost predicate DiskMoved(h: Host, g: Host, vm: string, target: string) {
    && HasBoot(h, vm) && vm in g.doms && target in h.pools
    && var path := h.pools[target] + "/" + (vm + ".qcow2");
    && path !in h.vols && BootPath(g, vm) == path
    && g.vols == h.vols[path := h.vols[BootPath(h, vm)].(pool := target)] - {BootPath(h, vm)}
  }

  lemma RestartedVolumes(h: Host, vm: string, target: string)
    requires vm in h.doms && BootPath(h, vm) in h.vols && target in h.pools
    ensures vm in Restarted(h, vm, target).doms
    ensures Restarted(h, vm, target).vols
         == h.vols[CopyPath(h, vm, target) := h.vols[BootPath(h, vm)].(pool := target)] - {BootPath(h, vm)}
  {
    hide SourcePath, ReplaceFirst, PathIn;
  }

  /** Where a migrated disk is. */
  lemma MigratedDisk(w: World, vm: string, target: string)
    requires Safe(w.host) && vm in w.host.doms && MigrateDisk(w, vm, target).r.Ok?
    ensures DiskMoved(w.host, MigrateDisk(w, vm, target).w.host, vm, target)
  {
    var h := w.host;
    hide Safe, MigrateDisk, KeepsDisk, MigrationStage, BootPath, Restarted, Stopped, Copied, Moved, Cleaned, PoolPath;
    MigrationNeverLosesTheDisk(w, vm, target);
    MigrationEnds(w, vm, target);
    BootFacts(h, vm);
    RestartedVolumes(h, vm, target);
  }

  /**
    A migration that cannot be made costs an active VM its run: with no call refused by the
    schedule, an unknown pool, or one that holds a volume of that name (as the disk's own pool
    does), is noticed only after the VM was forced off, and nothing starts it again.
   */
  lemma RefusedMigrationStopsTheVm(w: World, vm: string, target: string)
    requires Safe(w.host) && vm in w.host.doms && NoFaults(w) && Active(w.host.doms[vm].run)
    ensures HasBoot(w.host, vm)
    ensures !CanCopy(w.host, vm, target) ==>
      && MigrateDisk(w, vm, target).r.Err?
      && MigrateDisk(w, vm, target).w.host == SetRun(w.host, vm, Shutoff)
    ensures target == w.host.vols[BootPath(w.host, vm)].pool ==> !CanCopy(w.host, vm, target)
  {
    hide Safe, Lists, DiskAt, FileDisks, SourcePath, MigrateDisk, Copied, Moved, Cleaned, Restarted;
    BootFacts(w.host, vm);
    MigrationEnds(w, vm, target);
    BootInPlace(w.host, BootPath(w.host, vm));
  }

  lemma BootInPlace(h: Host, path: string)
    requires Safe(h) && path in h.vols
    ensures h.vols[path].pool in h.pools && path == PathIn(h.pools[h.vols[path].pool], h.vols[path].name)
  {
    hide TextOk, ListsOk;
    assert VolumeOk(h.pools, path, h.vols[path]);
  }
}
