/**
  VMs with a closing bracket before any quote in their names list no disk.  A host on which
  all other VMs are safe and those are silent is sound: every disk that is listed is its VM's
  own, and every operation keeps it so, on silent VMs too, exactly unless it defines a VM with
  a quote before any closing bracket in its name.
 */
module SilentVms {
  import opened Text
  import opened Outcomes
  import opened DomainDescription
  import opened DomainText
  import opened DomainRoundTrip
  import opened VolumeNames
  import opened Libvirt
  import opened Operations
  import opened Safety
  import opened DiskAddition
  import opened VmRemoval
  import opened Creation
  import opened CreationExits
  import opened WholeRuns
  import opened IdleVolumes
  import opened UncleanNames
  import opened Bystanders

  // ---------------------------------------------------------------- silent text

  ghost predicate SilentConfig(cfg: VMConfig, name: string) {
    cfg.name == name && VolumeNameOk(name + QCOW2) && TaglessConfig(cfg) && ReadBack(cfg) == []
  }

  /** Text printed for `name` from which no disk is read back. */
  ghost predicate Silent(xml: string, name: string) {
    exists cfg: VMConfig :: SilentConfig(cfg, name) && xml == DomainXml(cfg)
  }

  lemma SilentListsNothing(xml: string, name: string)
    requires Silent(xml, name)
    ensures FileDisks(xml) == [] && SourcePath(xml) == "" && VolumeNameOk(name + QCOW2)
  {
    var cfg: VMConfig :| SilentConfig(cfg, name) && xml == DomainXml(cfg);
    hide DomainXml, TaglessConfig, ReadBack, VolumeNameOk;
    ParserReadsPrinter(cfg);
  }

  lemma {:induction false} ReadListedAppend(ds: seq<DiskDevice>, d: DiskDevice, i: nat)
    requires i <= |ds| && d.path != "" && d.target != ""
    ensures ReadListed(ds + [d], i) == ReadListed(ds, i) + ReadDisk(d.path, d.target)
    decreases |ds| - i
  {
    hide ReadDisk;
    var all := ds + [d];
    if i == |ds| {
      assert all[i] == d && ReadListed(all, i + 1) == [];
    } else {
      ReadListedAppend(ds, d, i + 1);
      assert all[i] == ds[i];
    }
  }

  /** Attaching a disk that is not read back leaves the text silent. */
  lemma SilentAttach(xml: string, name: string, d: DiskDevice)
    requires Silent(xml, name) && TaglessDisk(d) && d.path != "" && d.target != "" && AsRead(d.path) == ""
    ensures Silent(Splice(xml, DiskXml(d.path, d.target)), name)
  {
    var cfg: VMConfig :| SilentConfig(cfg, name) && xml == DomainXml(cfg);
    var more := cfg.(extraDisks := cfg.extraDisks + [d]);
    SilentWith(cfg, name, d);
    hide SilentConfig, DomainXml, Splice, DiskXml, ConfigDisks, NoChar, AsRead;
    AttachAppends(cfg, d);
  }

  lemma SilentWith(cfg: VMConfig, name: string, d: DiskDevice)
    requires SilentConfig(cfg, name) && TaglessDisk(d) && d.path != "" && d.target != "" && AsRead(d.path) == ""
    ensures SilentConfig(cfg.(extraDisks := cfg.extraDisks + [d]), name)
    ensures NoChar(cfg.network.source, '<') && NoChar(cfg.network.macvtapMode, '<')
  {
    assert ReadDisk(d.path, d.target) == [];
    var more := cfg.(extraDisks := cfg.extraDisks + [d]);
    hide NoChar, VolumeNameOk, ReadListed, ReadDisk, AsRead;
    ReadListedAppend(cfg.extraDisks, d, 0);
    assert ReadBack(more) == [];
    hide ReadBack, TaglessDisk;
    forall i | 0 <= i < |more.extraDisks|
      ensures TaglessDisk(more.extraDisks[i])
    {
      assert i < |cfg.extraDisks| ==> TaglessDisk(cfg.extraDisks[i]);
    }
  }

  // ---------------------------------------------------------------- sound hosts

  /** The host without its VMs whose names hold a closing bracket before any quote. */
  function Own(h: Host): Host {
    h.(doms := map n | n in h.doms && !BracketFirst(n) :: h.doms[n])
  }

  function SilentDoms(h: Host): Domains {
    map n | n in h.doms && BracketFirst(n) :: h.doms[n]
  }

  ghost predicate Sound(h: Host) {
    Safe(Own(h)) && forall n :: n in h.doms && BracketFirst(n) ==> Silent(h.doms[n].xml, n)
  }

  lemma SplitHost(h: Host)
    ensures With(Own(h), SilentDoms(h)) == h
  {
    hide BracketFirst;
    assert Own(h).doms + SilentDoms(h) == h.doms;
  }

  lemma NotBracketFirst(h: Host, vm: string)
    requires Safe(h) && vm in h.doms
    ensures !BracketFirst(vm) && !QuoteFirst(vm)
  {
    hide Safe, BracketFirst, QuoteFirst;
    SafeNameClean(h, vm);
    ThreeKinds(vm);
  }

  /** The two parts of a host, put together. */
  lemma OwnOfWith(own: Host, silent: Domains)
    requires Safe(own) && forall n :: n in silent ==> BracketFirst(n)
    ensures Own(With(own, silent)) == own && SilentDoms(With(own, silent)) == silent
  {
    hide Safe, BracketFirst;
    forall n | n in own.doms
      ensures !BracketFirst(n)
    {
      NotBracketFirst(own, n);
    }
    assert Own(With(own, silent)).doms == own.doms;
  }

  lemma SafeIsSound(h: Host)
    requires Safe(h)
    ensures Sound(h) && Own(h) == h
  {
    hide Safe, BracketFirst, Silent;
    forall n | n in h.doms
      ensures !BracketFirst(n)
    {
      NotBracketFirst(h, n);
    }
    assert Own(h).doms == h.doms;
  }

  lemma SilentDisks(h: Host, n: string)
    requires Sound(h) && n in h.doms && BracketFirst(n)
    ensures Disks(h, n) == [] && Numbered(h, n)
  {
    hide Safe, Own, Silent, FileDisks, BracketFirst, VolumeNameOk;
    SilentListsNothing(h.doms[n].xml, n);
  }

  /** On a sound host every listed disk is its VM's own. */
  lemma SoundDisksOwn(h: Host)
    requires Sound(h)
    ensures EveryDiskOwn(h)
  {
    var own, silent := Own(h), SilentDoms(h);
    SplitHost(h);
    SilentIsApart(h);
    EveryDiskIsOwn(own);
    hide Sound, Safe, Own, SilentDoms, With, Disks, Apart, OwnDisk;
    forall vm, i | vm in h.doms && 0 <= i < |Disks(h, vm)|
      ensures OwnDisk(h, vm, i)
    {
      OwnListed(h, vm);
      OwnBesideOthers(own, silent, vm, i);
    }
  }

  lemma SilentIsApart(h: Host)
    requires Sound(h)
    ensures Apart(Own(h), SilentDoms(h)) && Safe(Own(h))
  {
    hide Safe, Silent, FileDisks, Idle, BracketFirst;
    forall n | n in SilentDoms(h)
      ensures FileDisks(SilentDoms(h)[n].xml) == []
    {
      SilentListsNothing(h.doms[n].xml, n);
    }
  }

  /** A VM that lists a disk is not silent. */
  lemma OwnListed(h: Host, vm: string)
    requires Sound(h) && vm in h.doms
    ensures Disks(h, vm) != [] ==> vm in Own(h).doms && vm !in SilentDoms(h) && Disks(Own(h), vm) == Disks(h, vm)
  {
    hide Safe, Silent, FileDisks, BracketFirst;
    if BracketFirst(vm) {
      SilentListsNothing(h.doms[vm].xml, vm);
    }
  }

  lemma SoundIdle(h: Host, p: string)
    requires Sound(h)
    ensures Idle(h, p) <==> Idle(Own(h), p)
  {
    hide Safe, Silent, FileDisks, BracketFirst;
    forall n, i | DiskAt(Lists(h), n, i, p)
      ensures DiskAt(Lists(Own(h)), n, i, p)
    {
      if BracketFirst(n) {
        SilentListsNothing(h.doms[n].xml, n);
      }
    }
    forall n, i | DiskAt(Lists(Own(h)), n, i, p)
      ensures DiskAt(Lists(h), n, i, p)
    {
    }
  }

  // ---------------------------------------------------------------- operations on the other VMs

  /** A silent domain holds no volume. */
  lemma SilentLeavesFree(h: Host, op: Op)
    requires Sound(h) && Allowed(op)
    ensures Freely(Own(h), SilentDoms(h), op)
  {
    hide Sound, Own, SilentDoms, FileDisks, Aside, NoChar;
    SilentIsApart(h);
    ApartLeavesFree(Own(h), SilentDoms(h), op);
  }

  /** An operation on a VM that is not silent: it does what it does without those that are. */
  lemma OwnStep(w: World, op: Op)
    requires Sound(w.host) && Sensible(op) && !BracketFirst(VmOf(op))
    ensures Sound(Perform(w, op).host) && KeepsIdle(w.host, Perform(w, op).host)
  {
    var h, silent := w.host, SilentDoms(w.host);
    var before := w.(host := Own(h));
    hide Safe, Perform, VmOf, Sensible, BracketFirst, Silent, KeepsIdle, Allowed, DefinesUnclean, With, Idle;
    SplitHost(h);
    assert Beside(before, silent) == w;
    SensibleIsClean(before, op);
    SilentLeavesFree(h, op);
    PerformBeside(before, op, silent);
    PerformKeepsSafe(before, op);
    PerformKeepsIdle(before, op);
    OwnOfWith(Perform(before, op).host, silent);
    SoundAgain(h, Perform(before, op).host, silent);
  }

  lemma SoundAgain(h: Host, own: Host, silent: Domains)
    requires Sound(h) && Safe(own) && silent == SilentDoms(h) && KeepsIdle(Own(h), own)
    requires Own(With(own, silent)) == own && SilentDoms(With(own, silent)) == silent
    ensures Sound(With(own, silent)) && KeepsIdle(h, With(own, silent))
  {
    var g := With(own, silent);
    hide Safe, Silent, BracketFirst, Lists, Unlisted;
    forall n | n in g.doms && BracketFirst(n)
      ensures Silent(g.doms[n].xml, n)
    {
      assert n in SilentDoms(g);
    }
    forall p | Idle(h, p)
      ensures Idle(g, p) && g.vols[p] == h.vols[p]
    {
      SoundIdle(h, p);
      SoundIdle(g, p);
    }
  }

  lemma KnownSilent(h: Host, vm: string)
    requires Sound(h)
    ensures vm in h.doms && BracketFirst(vm) ==> Silent(h.doms[vm].xml, vm)
  {
    hide Safe, BracketFirst, Silent;
  }

  // ---------------------------------------------------------------- steps that only add volumes

  /** Volumes are added in their places. */
  ghost predicate Adds(h: Host, g: Host) {
    && g.pools == h.pools
    && (forall p :: p in h.vols ==> p in g.vols && g.vols[p] == h.vols[p])
    && (forall p :: p in g.vols ==> VolumeOk(g.pools, p, g.vols[p]))
  }

  /** Nothing but a silent VM is another one, or there, or gone. */
  ghost predicate SilentChange(doms: Domains, after: Domains, vm: string) {
    && (forall n :: n != vm ==> (n in doms <==> n in after))
    && (forall n :: n in doms && n != vm ==> after[n] == doms[n])
    && (vm in after ==> Silent(after[vm].xml, vm))
  }

  /** A host with more volumes in its pools, and no other change but to a silent VM. */
  ghost predicate Grown(h: Host, g: Host, vm: string) {
    Adds(h, g) && (g.doms == h.doms || (BracketFirst(vm) && SilentChange(h.doms, g.doms, vm)))
  }

  lemma MoreVolumesSafe(h: Host, g: Host)
    requires Safe(h) && Adds(h, g) && g.doms == h.doms
    ensures Safe(g)
  {
    hide TextOk, FileDisks, VolumeOk, PoolsOk;
    assert Lists(g) == Lists(h);
    forall n, i, p | DiskAt(Lists(h), n, i, p)
      ensures p in g.vols && p in h.vols && g.vols[p].name == h.vols[p].name
    {
      ListedExist(Lists(h), h.vols, n, i, p);
    }
    ListsStayOk(Lists(h), h.vols, g.vols);
    hide ListsOk;
  }

  lemma OwnUnchanged(h: Host, g: Host, vm: string)
    requires g.doms == h.doms || (BracketFirst(vm) && SilentChange(h.doms, g.doms, vm))
    ensures Own(g).doms == Own(h).doms
  {
    hide BracketFirst, Silent;
  }

  lemma GrownIsSound(h: Host, g: Host, vm: string)
    requires Sound(h) && Grown(h, g, vm)
    ensures Sound(g) && KeepsIdle(h, g)
  {
    hide Safe, Silent, BracketFirst, FileDisks, VolumeOk;
    OwnUnchanged(h, g, vm);
    MoreVolumesSafe(Own(h), Own(g));
    assert Sound(g);
    SameDomainLists(Own(h), Own(g));
    forall p | Idle(h, p)
      ensures Idle(g, p) && g.vols[p] == h.vols[p]
    {
      SoundIdle(h, p);
      SoundIdle(g, p);
    }
  }

  lemma SoundPlaced(h: Host)
    requires Sound(h)
    ensures PoolsOk(h.pools) && forall p :: p in h.vols ==> VolumeOk(h.pools, p, h.vols[p])
  {
    hide PoolsOk, VolumeOk, TextOk, ListsOk, Silent;
  }

  // ---------------------------------------------------------------- operations on silent VMs

  /** The volume that AddDisk makes for a silent VM cannot be read back either. */
  lemma NextDiskSilent(h: Host, vm: string, pool: string)
    requires PoolsOk(h.pools) && vm in h.doms && OrDefault(pool) in h.pools
    requires Disks(h, vm) == [] && VolumeNameOk(vm + QCOW2) && BracketFirst(vm)
    ensures var d := DiskAddition.NextDisk(h, vm, pool);
      TaglessDisk(d) && d.path != "" && d.target != "" && AsRead(d.path) == ""
  {
    var end := "-" + Dec(1) + QCOW2;
    assert CleanText(end) && vm + "-" + Dec(1) + QCOW2 == vm + end && NoChar(VdTarget(0), '<');
    VolumeNameTagless(vm, QCOW2);
    hide CleanText, NoChar, BracketFirst, PathIn, AsRead, VolumeNameOk, Dec, FileDisks;
    NamedPath(h.pools[OrDefault(pool)], vm, end);
    BracketInPath(h.pools[OrDefault(pool)], vm, end);
  }

  lemma WithVolumeAdds(h: Host, vm: string, sizeGB: u64, pool: string)
    requires (forall p :: p in h.vols ==> VolumeOk(h.pools, p, h.vols[p])) && CanAdd(h, vm, sizeGB, pool)
    ensures Adds(h, WithVolume(h, vm, sizeGB, pool)) && WithVolume(h, vm, sizeGB, pool).doms == h.doms
  {
    hide Disks, PathIn, ExtraVolName;
  }

  /** A silent VM is given other silent text. */
  lemma SilentSetXml(h: Host, g: Host, vm: string, xml: string)
    requires Adds(h, g) && g.doms == h.doms && vm in h.doms && BracketFirst(vm) && Silent(xml, vm)
    ensures Grown(h, SetXml(g, vm, xml), vm)
  {
    hide VolumeOk, Silent, BracketFirst;
  }

  lemma AddedGrown(h: Host, vm: string, sizeGB: u64, pool: string)
    requires Sound(h) && vm in h.doms && BracketFirst(vm) && CanAdd(h, vm, sizeGB, pool)
    ensures Grown(h, WithVolume(h, vm, sizeGB, pool), vm) && Grown(h, WithDisk(h, vm, sizeGB, pool), vm)
  {
    hide Sound, Silent, PoolsOk, BracketFirst, Disks, Splice, DiskXml, PathIn, VdTarget, ExtraVolName, VolumeNameOk;
    hide TaglessDisk, AsRead, Adds, WithVolume, SetXml, DiskAddition.NextDisk, VolumeOk;
    SoundPlaced(h);
    KnownSilent(h, vm);
    SilentDisks(h, vm);
    NextDiskSilent(h, vm, pool);
    SilentAttach(h.doms[vm].xml, vm, DiskAddition.NextDisk(h, vm, pool));
    WithVolumeAdds(h, vm, sizeGB, pool);
    SilentSetXml(h, WithVolume(h, vm, sizeGB, pool), vm, AttachedXml(h, vm, pool));
  }

  lemma SameIsGrown(h: Host, vm: string)
    requires Sound(h)
    ensures Grown(h, h, vm)
  {
    hide Sound, VolumeOk, PoolsOk, BracketFirst, Silent;
    SoundPlaced(h);
  }

  lemma AddOnSilent(w: World, vm: string, sizeGB: u64, pool: string)
    requires Sound(w.host) && vm in w.host.doms && BracketFirst(vm)
    ensures Grown(w.host, AddDisk(w, vm, sizeGB, pool).w.host, vm)
  {
    hide Sound, Grown, AddDisk, Disks, WithVolume, WithDisk, DiskAddition.NextDisk, LeavesOrphan, BracketFirst, CanAdd;
    hide Numbered;
    SilentDisks(w.host, vm);
    SameIsGrown(w.host, vm);
    AddDiskExits(w, vm, sizeGB, pool);
    if CanAdd(w.host, vm, sizeGB, pool) {
      AddedGrown(w.host, vm, sizeGB, pool);
    }
  }

  lemma RunOnSilent(h: Host, vm: string, run: RunState)
    requires Sound(h) && vm in h.doms && BracketFirst(vm)
    ensures Grown(h, SetRun(h, vm, run), vm)
  {
    hide Sound, Silent, VolumeOk, PoolsOk, BracketFirst;
    SoundPlaced(h);
    KnownSilent(h, vm);
  }

  lemma WithoutSilent(h: Host, vm: string)
    requires Sound(h) && vm in h.doms && BracketFirst(vm)
    ensures Grown(h, Without(h, vm, {}), vm)
  {
    hide Sound, Silent, VolumeOk, PoolsOk, BracketFirst;
    SoundPlaced(h);
    assert h.vols - {} == h.vols;
  }

  lemma DeleteOnSilent(w: World, vm: string)
    requires Sound(w.host) && vm in w.host.doms && BracketFirst(vm)
    ensures Grown(w.host, Delete(w, vm, false).w.host, vm)
  {
    hide Delete, Disks, BracketFirst, Sound, Grown, Without, Thorough;
    SilentDisks(w.host, vm);
    SameIsGrown(w.host, vm);
    RunOnSilent(w.host, vm, Shutoff);
    WithoutSilent(w.host, vm);
    var gone := DeleteExits(w, vm, false);
    assert OwnPaths(w.host, vm) == {};
    assert gone == {};
  }

  lemma SilentStep(w: World, op: Op)
    requires Sound(w.host) && !op.CreateVm? && BracketFirst(VmOf(op))
    ensures Grown(w.host, Perform(w, op).host, VmOf(op))
  {
    hide Sound, Grown, AddDisk, ResizeDisk, MigrateDisk, Delete, BracketFirst, Disks;
    SameIsGrown(w.host, VmOf(op));
    var vm := VmOf(op);
    if vm in w.host.doms {
      SilentDisks(w.host, vm);
      match op
      case AddDiskTo(vm, sizeGB, pool) => AddOnSilent(w, vm, sizeGB, pool);
      case ResizeDiskOf(vm, sizeGB) => NothingToChange(w, vm, sizeGB, "");
      case MigrateDiskOf(vm, pool) => NothingToChange(w, vm, 0, pool);
      case DeleteVm(vm) => DeleteOnSilent(w, vm);
      case Power(vm, run) => RunOnSilent(w.host, vm, run);
    } else {
      match op
      case AddDiskTo(vm, sizeGB, pool) => UnknownDomain(w, vm, sizeGB, pool, false);
      case ResizeDiskOf(vm, sizeGB) => UnknownDomain(w, vm, sizeGB, "", false);
      case MigrateDiskOf(vm, pool) => UnknownDomain(w, vm, 0, pool, false);
      case DeleteVm(vm) => UnknownDomain(w, vm, 0, "", false);
      case Power(vm, run) =>
    }
  }

  // ---------------------------------------------------------------- creating VMs

  /** The volumes on the way of a create in clone mode: new ones are added in their places. */
  lemma ProgressVolumes(h: Host, cfg: VMConfig, p: Progress)
    requires !cfg.noclone && (p != Untouched ==> CanClone(h, cfg))
    requires forall p :: p in h.vols ==> VolumeOk(h.pools, p, h.vols[p])
    ensures Adds(h, ProgressHost(h, cfg, p))
  {
    hide Adds, WithClone, WithSize, WithExtra, CanClone, DomainXml, FinalConfig;
    SameAdds(h);
    if p != Untouched {
      CloneVolumes(h, cfg);
      ExtraVolumes(h, cfg);
      AddsVolumes(h, WithExtra(h, cfg), ProgressHost(h, cfg, p));
    }
  }

  lemma SameAdds(h: Host)
    requires forall p :: p in h.vols ==> VolumeOk(h.pools, p, h.vols[p])
    ensures Adds(h, h)
  {
    hide VolumeOk;
  }

  lemma AddsVolumes(h: Host, a: Host, b: Host)
    requires Adds(h, a)
    ensures b.vols == a.vols && b.pools == a.pools ==> Adds(h, b)
  {
    hide VolumeOk;
  }

  lemma CloneVolumes(h: Host, cfg: VMConfig)
    requires !cfg.noclone && CanClone(h, cfg) && forall p :: p in h.vols ==> VolumeOk(h.pools, p, h.vols[p])
    ensures Adds(h, WithClone(h, cfg)) && Adds(h, WithSize(h, cfg))
  {
    hide VolumeNameOk, PathIn, GigaBytes;
  }

  lemma ExtraVolumes(h: Host, cfg: VMConfig)
    requires !cfg.noclone && CanClone(h, cfg) && Adds(h, WithSize(h, cfg))
    ensures Adds(h, WithExtra(h, cfg))
  {
    SameDomains(h, cfg);
    hide VolumeNameOk, PathIn, WithSize, CanClone, ExtraVolName;
  }

  lemma ProgressNeedsClone(w: World, cfg: VMConfig)
    requires !cfg.noclone
    ensures CreateProgress(w, cfg) != Untouched ==> CanClone(w.host, cfg)
  {
    hide CanClone, SizeProgress;
  }

  /** A create that does not get as far as defining its domain, or whose domain is silent. */
  lemma CreateGrows(w: World, cfg: VMConfig)
    requires Sound(w.host) && CloneRequest(cfg)
    requires CreateProgress(w, cfg) in {DomainDefined, VmStarted} ==> BracketFirst(cfg.name)
    ensures Grown(w.host, Provision(w, cfg).w.host, cfg.name)
  {
    var h, g, p := w.host, Provision(w, cfg).w.host, CreateProgress(w, cfg);
    hide Provision, CreateProgress, ProgressHost, BracketFirst, Sound, VolumeOk, PoolsOk, Silent, CanCreate, NoChar;
    hide CanClone, DomainXml, FinalConfig;
    SoundPlaced(h);
    CreationEnds(w, cfg);
    DefinedAt(w, cfg);
    ProgressNeedsClone(w, cfg);
    ProgressVolumes(h, cfg, p);
    if p in {DomainDefined, VmStarted} {
      DefinedAlone(h, cfg, p);
        CreatedSilent(h, cfg);
    }
  }

  lemma DefinedAlone(h: Host, cfg: VMConfig, p: Progress)
    requires p in {DomainDefined, VmStarted}
    ensures forall n :: n != cfg.name ==> (n in h.doms <==> n in ProgressHost(h, cfg, p).doms)
    ensures forall n :: n in h.doms && n != cfg.name ==> ProgressHost(h, cfg, p).doms[n] == h.doms[n]
  {
    SameDomains(h, cfg);
    hide DomainXml, FinalConfig, WithClone, WithSize, WithExtra;
  }

  lemma CreatedSilent(h: Host, cfg: VMConfig)
    requires PoolsOk(h.pools) && CanCreate(h, cfg) && CloneRequest(cfg) && BracketFirst(cfg.name)
    ensures Silent(DomainXml(FinalConfig(h, cfg)), cfg.name)
  {
    var final := FinalConfig(h, cfg);
    FinalConfigNamed(h, cfg);
    hide DomainXml, FinalConfig, ReadBack, TaglessConfig, BracketFirst, CanCreate, VolumeNameOk, PoolsOk, NoChar;
    BracketListsNothing(h, cfg);
    FinalDisks(h, cfg);
    assert SilentConfig(final, cfg.name);
  }

  lemma FinalConfigNamed(h: Host, cfg: VMConfig)
    requires CanCreate(h, cfg) && !cfg.noclone
    ensures FinalConfig(h, cfg).name == cfg.name && VolumeNameOk(cfg.name + QCOW2)
  {
    hide VolumeNameOk, PathIn, CanExtra;
  }

  // ---------------------------------------------------------------- every operation

  /** A create gets as far as defining a domain whose name holds a quote before any closing bracket. */
  ghost predicate DefinesQuoted(w: World, op: Op) {
    op.CreateVm? && QuoteFirst(op.cfg.name) && CreateProgress(w, op.cfg) in {DomainDefined, VmStarted}
  }

  lemma DefinedNamesTagless(w: World, cfg: VMConfig)
    requires CloneRequest(cfg) && CreateProgress(w, cfg) in {DomainDefined, VmStarted}
    ensures NoChar(cfg.name, '<')
  {
    hide CreateProgress, CanExtra, CanSize, CanDefine, VolumeNameOk;
    DefinedNeedsAll(w, cfg);
    CloneNamed(w.host, cfg);
  }

  lemma PerformKeepsSound(w: World, op: Op)
    requires Sound(w.host) && Allowed(op) && !DefinesQuoted(w, op)
    ensures Sound(Perform(w, op).host) && KeepsIdle(w.host, Perform(w, op).host)
  {
    hide Sound, Grown, Perform, BracketFirst, QuoteFirst, CleanText, CreateProgress, KeepsIdle, CloneRequest, NoChar;
    var h, g := w.host, Perform(w, op).host;
    if op.CreateVm? && !CleanText(op.cfg.name) {
      if CreateProgress(w, op.cfg) in {DomainDefined, VmStarted} {
        DefinedNamesTagless(w, op.cfg);
        ThreeKinds(op.cfg.name);
      }
      CreateGrows(w, op.cfg);
      PerformCreate(w, op.cfg);
      GrownIsSound(h, g, op.cfg.name);
    } else if !op.CreateVm? && BracketFirst(VmOf(op)) {
      SilentStep(w, op);
      GrownIsSound(h, g, VmOf(op));
    } else {
      if op.CreateVm? {
        CleanKinds(op.cfg.name);
      }
      OwnStep(w, op);
    }
  }

  lemma PerformCreate(w: World, cfg: VMConfig)
    ensures Perform(w, CreateVm(cfg)) == Provision(w, cfg).w
  {
    hide Provision;
  }

  lemma CleanKinds(name: string)
    requires CleanText(name)
    ensures !BracketFirst(name) && !QuoteFirst(name)
  {
    assert NoChar(name, '<');
    hide CleanText;
    ThreeKinds(name);
  }

  // ---------------------------------------------------------------- and exactly those keep the disks apart

  /** The first disk of a domain whose name cannot stand in an attribute is never its own. */
  lemma NotItsOwn(h: Host, vm: string)
    requires PoolsOk(h.pools) && forall p :: p in h.vols ==> VolumeOk(h.pools, p, h.vols[p])
    requires vm in h.doms && Disks(h, vm) != [] && NoChar(vm, '<') && !CleanText(vm)
    ensures !OwnDisk(h, vm, 0)
  {
    hide FileDisks, CleanText, NoChar, PathIn, VdTarget;
    var d := Disks(h, vm)[0];
    assert d in FileDisks(h.doms[vm].xml);
    ParsedDisksAreClean(h.doms[vm].xml);
    if OwnDisk(h, vm, 0) {
      var v := h.vols[d.path];
      assert VolumeOk(h.pools, d.path, v);
      PathAroundName(h.pools[v.pool], vm);
      assert false;
    }
  }

  lemma QuotedListsSomething(w: World, cfg: VMConfig)
    requires Sound(w.host) && CloneRequest(cfg) && DefinesQuoted(w, CreateVm(cfg))
    ensures var g := Provision(w, cfg).w.host;
      cfg.name in g.doms && Disks(g, cfg.name) != [] && NoChar(cfg.name, '<') && !CleanText(cfg.name)
  {
    SoundPlaced(w.host);
    hide Provision, CreateProgress, ProgressHost, FileDisks, DomainXml, FinalConfig, CanCreate, PoolsOk, NoChar, Sound;
    hide ReadBack, TaglessConfig, QuoteFirst, BracketFirst, CleanText;
    CreationEnds(w, cfg);
    DefinedAt(w, cfg);
    DefinedNamesTagless(w, cfg);
    ThreeKinds(cfg.name);
    QuoteListsCut(w.host, cfg);
    FinalDisks(w.host, cfg);
    ParserReadsPrinter(FinalConfig(w.host, cfg));
  }

  lemma QuotedBreaks(w: World, cfg: VMConfig)
    requires Sound(w.host) && CloneRequest(cfg) && DefinesQuoted(w, CreateVm(cfg))
    ensures !EveryDiskOwn(Provision(w, cfg).w.host)
  {
    var g := Provision(w, cfg).w.host;
    QuotedListsSomething(w, cfg);
    SoundPlaced(w.host);
    hide Provision, CreateProgress, ProgressHost, Disks, PoolsOk, VolumeOk, Sound, OwnDisk, NoChar, CleanText;
    hide QuoteFirst;
    CreationEnds(w, cfg);
    ProgressNeedsClone(w, cfg);
    ProgressVolumes(w.host, cfg, CreateProgress(w, cfg));
    NotItsOwn(g, cfg.name);
  }

  /**
    One operation, on any VM, whichever of its calls fails: every disk that is listed stays its
    VM's own, if and only if no domain is defined whose name holds a quote before any closing
    bracket.
   */
  lemma PerformKeepsDisksOwn(w: World, op: Op)
    requires Sound(w.host) && Allowed(op)
    ensures EveryDiskOwn(Perform(w, op).host) <==> !DefinesQuoted(w, op)
  {
    hide Sound, Perform, CreateProgress, EveryDiskOwn, QuoteFirst, CloneRequest;
    if DefinesQuoted(w, op) {
      PerformCreate(w, op.cfg);
      QuotedBreaks(w, op.cfg);
    } else {
      PerformKeepsSound(w, op);
      SoundDisksOwn(Perform(w, op).host);
    }
  }
}
