/**
  Creating a VM: the two independent create programs do the same, and whichever call fails
  the host stays safe.
 */
module Creation {
  import opened Text
  import opened Outcomes
  import opened DomainDescription
  import opened DomainText
  import opened DomainRoundTrip
  import opened VolumeNames
  import opened Libvirt
  import opened Operations
  import opened Safety
  import opened DiskAddition
  import opened VmRemoval

  // ---------------------------------------------------------------- the two programs

  lemma FirstExtraDisk(vm: string)
    ensures NextTarget(["vda"]) == Some("vdb") && ExtraVolName(vm, 2) == vm + "-2.qcow2"
  {
    assert VdTarget(0) == "vda" && VdTarget(1) == "vdb";
    NextTargetNumbered(["vda"]);
    assert Dec(2) == "2";
    assert "-" + Dec(2) + QCOW2 == "-2.qcow2";
    assert vm + "-" + Dec(2) + QCOW2 == vm + ("-" + Dec(2) + QCOW2);
  }

  /**
    Manager.Create computes the extra disk's name and target, CreateVM writes them down; from
    the same world both make the same calls, get the same answers and leave the same world.
   */
  lemma CreateProgramsAgree(w: World, cfg: VMConfig)
    requires cfg.extraDisks == []
    ensures Create(w, cfg) == Provision(w, cfg)
  {
    hide CloneImage, ResizeVolume, CreateVolume, Define, Start, NextTarget, ExtraVolName;
    FirstExtraDisk(cfg.name);
    assert forall d: DiskDevice :: [] + [d] == [d];
  }

  // ---------------------------------------------------------------- the effects, one by one

  /** A create in clone mode, for any name, whose network fields the XML printer can take. */
  predicate CloneRequest(cfg: VMConfig) {
    && !cfg.noclone && cfg.extraDisks == []
    && NoChar(cfg.network.source, '<') && NoChar(cfg.network.macvtapMode, '<')
  }

  /** The same with a name that can stand in an attribute. */
  predicate CleanRequest(cfg: VMConfig) {
    CloneRequest(cfg) && CleanText(cfg.name)
  }

  /** A new volume under a conventional name, on a free path of some pool. */
  ghost predicate FreshVolume(h: Host, path: string, v: Volume) {
    && path !in h.vols && v.pool in h.pools && VolumeNameOk(v.name)
    && path == PathIn(h.pools[v.pool], v.name)
  }

  lemma CloneOutcome(w: World, cfg: VMConfig)
    ensures var o, h := CloneImage(w, cfg.diskPath, cfg.name, cfg.pool), w.host;
      && Later(w, o.w)
      && (o.w.host != h || o.r.Ok? ==>
        && cfg.diskPath in h.vols && OrDefault(cfg.pool) in h.pools
        && var image := h.vols[cfg.diskPath];
        && var v := Volume(OrDefault(cfg.pool), cfg.name + QCOW2, image.capacity, image.content);
        && var path := PathIn(h.pools[v.pool], v.name);
        && FreshVolume(h, path, v) && o.w.host == AddVolume(h, path, v)
        && (o.r.Ok? ==> o.r.value == path))
  {
  }

  lemma ResizeOutcome(w: World, cfg: VMConfig)
    ensures var o, h := ProvisionSize(w, cfg), w.host;
      && Later(w, o.w)
      && (o.w.host != h ==>
        && cfg.diskSizeGB > 0 && cfg.diskPath in h.vols
        && o.w.host == SetCapacity(h, cfg.diskPath, GigaBytes(cfg.diskSizeGB)))
  {
  }

  lemma ExtraOutcome(w: World, cfg: VMConfig)
    requires VolumeNameOk(cfg.name + QCOW2) && cfg.extraDisks == []
    ensures var o, h := ProvisionExtra(w, cfg), w.host;
      && Later(w, o.w)
      && (o.r.Ok? ==> o.r.value == cfg.(extraDisks := o.r.value.extraDisks))
      && (o.r.Ok? && cfg.extraDiskSizeGB == 0 ==> o.w.host == h && o.r.value == cfg)
      && (o.w.host != h || (o.r.Ok? && cfg.extraDiskSizeGB > 0) ==>
        && cfg.extraDiskSizeGB * GIB < U64 && OrDefault(ExtraPool(cfg)) in h.pools
        && var v := Volume(OrDefault(ExtraPool(cfg)), ExtraVolName(cfg.name, 2), cfg.extraDiskSizeGB * GIB, []);
        && var path := PathIn(h.pools[v.pool], v.name);
        && FreshVolume(h, path, v) && o.w.host == AddVolume(h, path, v)
        && (o.r.Ok? ==> o.r.value.extraDisks == [DiskDevice(path, "vdb")]))
  {
    if cfg.extraDiskSizeGB > 0 {
      FirstExtraDisk(cfg.name);
      ExtraNameOk(cfg.name, 2);
      hide ExtraVolName, NormalizeVolName, VolumeNameOk, PathIn;
      CreateVolumeOutcome(w, ExtraPool(cfg), ExtraVolName(cfg.name, 2), cfg.extraDiskSizeGB);
      hide CreateVolume;
    }
  }

  lemma BootOutcome(w: World, cfg: VMConfig)
    requires NameOf(DomainXml(cfg)) == cfg.name
    ensures var o, h := ProvisionBoot(w, cfg), w.host;
      var defined := SetXml(h, cfg.name, DomainXml(cfg));
      && Later(w, o.w)
      && (o.w.host != h || o.r.Ok? ==> cfg.name !in h.doms && cfg.name != "" && '/' !in cfg.name)
      && (o.w.host != h ==> o.w.host == defined || o.w.host == SetRun(defined, cfg.name, Running))
      && (o.r.Ok? ==> o.w.host == SetRun(defined, cfg.name, Running))
  {
    hide NameOf, DomainXml;
  }

  // ---------------------------------------------------------------- the invariant

  lemma FreshKeepsSafe(h: Host, path: string, v: Volume)
    requires Safe(h) && FreshVolume(h, path, v)
    ensures Safe(AddVolume(h, path, v)) && Lists(AddVolume(h, path, v)) == Lists(h)
    ensures path != "" && (CleanText(v.name) ==> CleanText(path))
  {
    hide Safe, Lists, CleanText, PoolPath, VolumeNameOk;
    PoolFacts(h, v.pool);
    SafeAddVolume(h, path, v);
    if CleanText(v.name) {
      PathClean(h.pools[v.pool], v.name);
      PoolPathClean(path);
    }
  }

  lemma PoolPathClean(path: string)
    ensures PoolPath(path) ==> CleanText(path)
  {
  }

  /** A freshly named path is nobody's disk. */
  lemma FreshUnlisted(h: Host, path: string)
    requires Safe(h) && path !in h.vols
    ensures Unlisted(Lists(h), path)
  {
    hide Safe, Lists, DiskAt, ListsOk;
    SafeLists(h);
    forall n, i | DiskAt(Lists(h), n, i, path)
      ensures false
    {
      ListedExist(Lists(h), h.vols, n, i, path);
    }
  }

  /** A configuration whose disks are existing volumes of its own, as the create workflow builds it. */
  ghost predicate Provisioned(h: Host, cfg: VMConfig) {
    && CleanConfig(cfg) && CleanText(cfg.name) && Plain(cfg.name) && VolumeNameOk(cfg.name + QCOW2) && cfg.name != ""
    && cfg.diskPath in h.vols && h.vols[cfg.diskPath].name == cfg.name + QCOW2
    && Unlisted(Lists(h), cfg.diskPath)
    && (cfg.extraDisks != [] ==>
        && |cfg.extraDisks| == 1 && cfg.extraDisks[0].target == "vdb" && cfg.extraDisks[0].path != ""
        && cfg.extraDisks[0].path in h.vols && h.vols[cfg.extraDisks[0].path].name == ExtraVolName(cfg.name, 2)
        && Unlisted(Lists(h), cfg.extraDisks[0].path))
  }

  lemma ConfiguredDisks(cfg: VMConfig)
    requires cfg.extraDisks == []
      || (|cfg.extraDisks| == 1 && cfg.extraDisks[0].path != "" && cfg.extraDisks[0].target != "")
    ensures ConfigDisks(cfg) == [DiskDevice(cfg.diskPath, "vda")] + cfg.extraDisks
  {
    if cfg.extraDisks != [] {
      assert Listed(cfg.extraDisks, 1) == [];
      assert cfg.extraDisks == [cfg.extraDisks[0]] + [];
    }
  }

  lemma ConfiguredListOk(vols: map<string, Volume>, cfg: VMConfig)
    requires cfg.diskPath in vols && vols[cfg.diskPath].name == cfg.name + QCOW2
    requires cfg.extraDisks == [] ||
      (|cfg.extraDisks| == 1 && cfg.extraDisks[0].target == "vdb" && cfg.extraDisks[0].path in vols
       && vols[cfg.extraDisks[0].path].name == ExtraVolName(cfg.name, 2))
    ensures var disks := [DiskDevice(cfg.diskPath, "vda")] + cfg.extraDisks;
      ListOk(vols, cfg.name, disks) && (forall i, j :: 0 <= i < j < |disks| ==> disks[i].path != disks[j].path)
  {
    assert VdTarget(0) == "vda" && VdTarget(1) == "vdb";
    assert |cfg.name + QCOW2| < |ExtraVolName(cfg.name, 2)|;
  }

  /** Defining and starting what was provisioned. */
  lemma BootKeepsSafe(h: Host, cfg: VMConfig)
    requires Safe(h) && Provisioned(h, cfg)
    ensures var g := SetXml(h, cfg.name, DomainXml(cfg));
      && Safe(g) && Safe(SetRun(g, cfg.name, Running))
      && Disks(g, cfg.name) == [DiskDevice(cfg.diskPath, "vda")] + cfg.extraDisks
      && NameOf(DomainXml(cfg)) == cfg.name
  {
    hide Safe, Lists, FileDisks, DomainXml, ConfigDisks, Printed, NameOf, ListOk, DiskAt, ExtraVolName;
    ConfiguredDisks(cfg);
    ConfiguredListOk(h.vols, cfg);
    ParserUndoesPrinter(cfg);
    PlainNoLt(cfg.name);
    NameReadBack(cfg);
    PrintedConfig(cfg);
    hide CleanConfig, CleanText, Plain;
    SafeSetXml(h, cfg.name, DomainXml(cfg));
    SafeSetRun(SetXml(h, cfg.name, DomainXml(cfg)), cfg.name, Running);
  }

  lemma PrintedConfig(cfg: VMConfig)
    requires CleanConfig(cfg) && Plain(cfg.name)
    ensures Printed(DomainXml(cfg), cfg.name)
  {
    hide DomainXml, CleanConfig, Plain;
  }

  // ---------------------------------------------------------------- every exit

  /** `g` holds everything `b` holds, unchanged, and at most the domain `vm` besides. */
  ghost predicate Spares(b: Host, g: Host, vm: string) {
    && g.pools == b.pools
    && (forall p :: p in b.vols ==> p in g.vols && g.vols[p] == b.vols[p])
    && (forall n :: n in b.doms ==> n in g.doms && g.doms[n] == b.doms[n])
    && g.doms.Keys <= b.doms.Keys + {vm}
  }

  /** `g` is `b` with the VM added, on volumes that `b` does not have. */
  ghost predicate Owns(b: Host, g: Host, vm: string) {
    Spares(b, g, vm) && vm !in b.doms && vm in g.doms && OwnPaths(g, vm) !! b.vols.Keys
  }

  /** If the VM is there at all, it is on volumes of its own. */
  ghost predicate OwnsIfAny(b: Host, g: Host, vm: string) {
    vm in g.doms && vm !in b.doms ==> Owns(b, g, vm)
  }

  /** And those volumes are all that was added. */
  ghost predicate OwnsAll(b: Host, g: Host, vm: string) {
    Owns(b, g, vm) && g.vols.Keys == b.vols.Keys + OwnPaths(g, vm)
  }

  /** The host after cloning, sizing and adding: volumes of the new VM only. */
  ghost predicate Prepared(b: Host, g: Host, own: set<string>) {
    && Safe(g) && g.pools == b.pools && g.doms == b.doms && Lists(g) == Lists(b)
    && own !! b.vols.Keys && g.vols.Keys == b.vols.Keys + own
    && (forall p :: p in b.vols ==> g.vols[p] == b.vols[p])
  }

  lemma PreparedSpares(b: Host, g: Host, own: set<string>, vm: string)
    requires Prepared(b, g, own)
    ensures Spares(b, g, vm) && OwnsIfAny(b, g, vm)
  {
    hide Safe, Lists;
  }

  lemma PreparedMore(b: Host, g: Host, own: set<string>, path: string, v: Volume)
    requires Safe(b) && Prepared(b, g, own) && FreshVolume(g, path, v)
    ensures Prepared(b, AddVolume(g, path, v), own + {path})
    ensures path !in b.vols && Unlisted(Lists(b), path) && path != "" && (CleanText(v.name) ==> CleanText(path))
  {
    hide Safe, Lists, CleanText;
    FreshKeepsSafe(g, path, v);
    FreshUnlisted(b, path);
  }

  lemma PreparedSized(b: Host, g: Host, own: set<string>, path: string, bytes: u64)
    requires Prepared(b, g, own) && path in own
    ensures Prepared(b, SetCapacity(g, path, bytes), own)
  {
    hide Safe, Lists;
    SafeSetCapacity(g, path, bytes);
  }

  /** Paths of a list of one or two disks. */
  lemma PathsOfConfigured(disks: seq<DiskDevice>)
    requires 1 <= |disks| <= 2
    ensures AllPaths(Paths(disks)) == if |disks| == 1 then {disks[0].path} else {disks[0].path, disks[1].path}
  {
    var paths := Paths(disks);
    assert paths[0] == disks[0].path;
    assert |disks| == 2 ==> paths == [disks[0].path, disks[1].path];
    assert |disks| == 1 ==> paths == [disks[0].path];
  }

  lemma BootExits(b: Host, w: World, cfg: VMConfig, own: set<string>)
    requires Safe(b) && Prepared(b, w.host, own) && Provisioned(w.host, cfg)
    requires own == AllPaths(Paths([DiskDevice(cfg.diskPath, "vda")] + cfg.extraDisks))
    ensures var o := ProvisionBoot(w, cfg);
      && Later(w, o.w) && Safe(o.w.host) && Spares(b, o.w.host, cfg.name) && OwnsIfAny(b, o.w.host, cfg.name)
      && (o.r.Ok? ==> OwnsAll(b, o.w.host, cfg.name) && o.w.host.doms[cfg.name].run == Running)
  {
    hide Safe, Lists, FileDisks, DomainXml, NameOf, ProvisionBoot, Provisioned, AllPaths, Paths;
    BootKeepsSafe(w.host, cfg);
    BootOutcome(w, cfg);
  }

  /** What the workflow knows once the clone exists. */
  ghost predicate Cloned(b: Host, g: Host, cfg: VMConfig) {
    && CloneRequest(cfg) && Prepared(b, g, {cfg.diskPath})
    && cfg.diskPath !in b.vols && cfg.diskPath in g.vols && g.vols[cfg.diskPath].name == cfg.name + QCOW2
    && VolumeNameOk(cfg.name + QCOW2) && cfg.diskPath != "" && (CleanText(cfg.name) ==> CleanText(cfg.diskPath))
  }

  /** Text that may stand in a volume name is free of slashes and brackets. */
  lemma NamePlain(name: string)
    requires VolumeNameOk(name + QCOW2)
    ensures Plain(name) && NoChar(name, '<')
  {
    var full := name + QCOW2;
    assert forall i :: 0 <= i < |name| ==> name[i] == full[i];
  }

  lemma ProvisionedBare(b: Host, g: Host, cfg: VMConfig)
    requires Safe(b) && Cloned(b, g, cfg) && cfg.name != "" && CleanText(cfg.name)
    ensures Provisioned(g, cfg)
  {
    hide Safe, Lists, VolumeNameOk, Plain, NoChar, CleanText;
    NamePlain(cfg.name);
    FreshUnlisted(b, cfg.diskPath);
  }

  lemma ProvisionedExtra(b: Host, g: Host, h: Host, cfg: VMConfig, path: string, v: Volume)
    requires Safe(b) && Cloned(b, g, cfg) && cfg.name != "" && CleanText(cfg.name)
    requires FreshVolume(g, path, v) && v.name == ExtraVolName(cfg.name, 2) && h == AddVolume(g, path, v)
    ensures Provisioned(h, cfg.(extraDisks := [DiskDevice(path, "vdb")]))
    ensures Prepared(b, h, {cfg.diskPath, path})
  {
    hide Safe, Lists, VolumeNameOk, Plain, NoChar, CleanText, ExtraVolName;
    NamePlain(cfg.name);
    FreshUnlisted(b, cfg.diskPath);
    ConventionalNameClean(cfg.name, 1);
    PreparedMore(b, g, {cfg.diskPath}, path, v);
    assert {cfg.diskPath} + {path} == {cfg.diskPath, path};
    VdbClean();
  }

  lemma VdbClean()
    ensures CleanText("vdb")
  {
  }

  lemma ExtraExits(b: Host, w: World, cfg: VMConfig)
    requires Safe(b) && Cloned(b, w.host, cfg)
    ensures var o := ProvisionExtra(w, cfg);
      && Later(w, o.w) && Safe(o.w.host) && Spares(b, o.w.host, cfg.name) && o.w.host.doms == b.doms
      && o.w.host.(doms := b.doms) == o.w.host
      && (o.r.Ok? ==>
        && o.r.value.name == cfg.name
        && Prepared(b, o.w.host, AllPaths(Paths([DiskDevice(cfg.diskPath, "vda")] + o.r.value.extraDisks)))
        && o.r.value.diskPath == cfg.diskPath
        && (CleanText(cfg.name) && cfg.name != "" ==> Provisioned(o.w.host, o.r.value)))
  {
    hide Safe, Lists, ProvisionExtra, VolumeNameOk, Provisioned, CleanText, ExtraVolName, AllPaths, Paths, PathIn;
    ExtraOutcome(w, cfg);
    var o, h := ProvisionExtra(w, cfg), w.host;
    if o.w.host == h && !(o.r.Ok? && cfg.extraDiskSizeGB > 0) {
      PreparedSpares(b, h, {cfg.diskPath}, cfg.name);
      if cfg.name != "" && CleanText(cfg.name) {
        ProvisionedBare(b, h, cfg);
      }
      PathsOfConfigured([DiskDevice(cfg.diskPath, "vda")]);
      assert [DiskDevice(cfg.diskPath, "vda")] + [] == [DiskDevice(cfg.diskPath, "vda")];
    } else {
      var v := Volume(OrDefault(ExtraPool(cfg)), ExtraVolName(cfg.name, 2), cfg.extraDiskSizeGB * GIB, []);
      var path := PathIn(h.pools[v.pool], v.name);
      PreparedMore(b, h, {cfg.diskPath}, path, v);
      PreparedSpares(b, o.w.host, {cfg.diskPath} + {path}, cfg.name);
      if cfg.name != "" && CleanText(cfg.name) {
        ProvisionedExtra(b, h, o.w.host, cfg, path, v);
      }
      PathsOfConfigured([DiskDevice(cfg.diskPath, "vda"), DiskDevice(path, "vdb")]);
      assert [DiskDevice(cfg.diskPath, "vda")] + [DiskDevice(path, "vdb")]
          == [DiskDevice(cfg.diskPath, "vda"), DiskDevice(path, "vdb")];
      assert {cfg.diskPath} + {path} == {cfg.diskPath, path};
    }
  }

  /** A domain was added whose name cannot stand in an attribute. */
  ghost predicate AddsUnclean(b: Host, g: Host, vm: string) {
    vm in g.doms && vm !in b.doms && !CleanText(vm)
  }

  lemma BootDefines(b: Host, w: World, cfg: VMConfig, own: set<string>)
    requires Safe(b) && Prepared(b, w.host, own) && NoChar(cfg.name, '<')
    ensures var o := ProvisionBoot(w, cfg);
      && Later(w, o.w) && Spares(b, o.w.host, cfg.name)
      && (!CleanText(cfg.name) ==> (Safe(o.w.host) <==> !AddsUnclean(b, o.w.host, cfg.name)))
      && Safe(o.w.host.(doms := b.doms)) && o.w.host.doms.Keys <= b.doms.Keys + {cfg.name}
      && (o.r.Ok? ==> cfg.name !in b.doms && cfg.name in o.w.host.doms && o.w.host.doms[cfg.name].run == Running)
  {
    hide Safe, Lists, FileDisks, DomainXml, NameOf, ProvisionBoot, CleanText, NoChar, SetXml, SetRun;
    NameReadBack(cfg);
    BootOutcome(w, cfg);
    BootSpares(w, cfg);
    var g := ProvisionBoot(w, cfg).w.host;
    if Safe(g) && cfg.name in g.doms {
      NamesAreClean(g, cfg.name);
    }
  }

  /** Defining and starting touches no other domain and no volume. */
  lemma BootSpares(w: World, cfg: VMConfig)
    requires NameOf(DomainXml(cfg)) == cfg.name
    ensures var h, g := w.host, ProvisionBoot(w, cfg).w.host;
      && g.(doms := h.doms) == h && Spares(h, g, cfg.name) && (g != h ==> cfg.name in g.doms)
      && (ProvisionBoot(w, cfg).r.Ok? ==> cfg.name in g.doms && g.doms[cfg.name].run == Running)
  {
    hide DomainXml, NameOf, ProvisionBoot;
    BootOutcome(w, cfg);
  }

  lemma NamesAreClean(h: Host, vm: string)
    requires Safe(h) && vm in h.doms
    ensures CleanText(vm) && VolumeNameOk(vm + QCOW2)
  {
    SafeNameClean(h, vm);
    hide Printed, ListsOk, VolumeOk, PoolsOk, CleanText;
    assert TextOk(vm, h.doms[vm].xml);
  }

  /**
    The create workflow of CreateVM, clone mode, for every name and whichever call fails: all
    that was there before is untouched, the host without the new domain is safe, and with it
    exactly if its name can stand in an attribute.  With such a name a VM that is there has
    volumes of its own, and success means that the running VM and these are all that was added.
   */
  lemma ProvisionExits(w: World, cfg: VMConfig)
    requires Safe(w.host) && CloneRequest(cfg) && cfg.name != ""
    ensures var o, h := Provision(w, cfg), w.host;
      && Later(w, o.w) && Spares(h, o.w.host, cfg.name) && Safe(o.w.host.(doms := h.doms))
      && (Safe(o.w.host) <==> !AddsUnclean(h, o.w.host, cfg.name))
      && (CleanText(cfg.name) ==> OwnsIfAny(h, o.w.host, cfg.name))
      && (o.r.Ok? ==>
        && cfg.name !in h.doms && cfg.name in o.w.host.doms && o.w.host.doms[cfg.name].run == Running
        && (CleanText(cfg.name) ==> OwnsAll(h, o.w.host, cfg.name)))
  {
    var b := w.host;
    hide Safe, Lists, CloneImage, ProvisionSize, ProvisionExtra, ProvisionBoot, VolumeNameOk, Provisioned, CleanText;
    hide AllPaths, Paths, Prepared, OwnsAll, PathIn, NoChar, Owns;
    CloneOutcome(w, cfg);
    PreparedNothing(b);
    PreparedSpares(b, b, {}, cfg.name);
    var clone := CloneImage(w, cfg.diskPath, cfg.name, cfg.pool);
    if clone.w.host == b && clone.r.Err? {
      return;
    }
    var v := Volume(OrDefault(cfg.pool), cfg.name + QCOW2, b.vols[cfg.diskPath].capacity, b.vols[cfg.diskPath].content);
    var path := PathIn(b.pools[v.pool], v.name);
    BaseName(cfg.name);
    PreparedMore(b, b, {}, path, v);
    assert {} + {path} == {path};
    PreparedSpares(b, clone.w.host, {path}, cfg.name);
    PreparedMeans(b, clone.w.host, {path});
    if clone.r.Err? {
      return;
    }
    var cfg1 := cfg.(diskPath := path);
    ResizeOutcome(clone.w, cfg1);
    PreparedSized(b, clone.w.host, {path}, path, GigaBytes(cfg.diskSizeGB));
    var sized := ProvisionSize(clone.w, cfg1);
    PreparedSpares(b, sized.w.host, {path}, cfg.name);
    PreparedMeans(b, sized.w.host, {path});
    if sized.r.Err? {
      return;
    }
    ExtraExits(b, sized.w, cfg1);
    var extra := ProvisionExtra(sized.w, cfg1);
    if extra.r.Err? {
      return;
    }
    var own := AllPaths(Paths([DiskDevice(path, "vda")] + extra.r.value.extraDisks));
    NamePlain(cfg.name);
    BootDefines(b, extra.w, extra.r.value, own);
    if CleanText(cfg.name) {
      BootExits(b, extra.w, extra.r.value, own);
    }
  }

  /** For a name that can stand in an attribute. */
  lemma CleanCreateExits(w: World, cfg: VMConfig)
    requires Safe(w.host) && CleanRequest(cfg) && cfg.name != ""
    ensures var o := Provision(w, cfg);
      && Later(w, o.w) && Safe(o.w.host)
      && Spares(w.host, o.w.host, cfg.name) && OwnsIfAny(w.host, o.w.host, cfg.name)
      && (o.r.Ok? ==> OwnsAll(w.host, o.w.host, cfg.name) && o.w.host.doms[cfg.name].run == Running)
  {
    hide Safe, Provision, CleanText, CloneRequest, Spares, OwnsIfAny, OwnsAll;
    ProvisionExits(w, cfg);
  }

  lemma PreparedNothing(b: Host)
    requires Safe(b)
    ensures Prepared(b, b, {})
  {
    hide Safe, Lists;
  }

  lemma PreparedMeans(b: Host, g: Host, own: set<string>)
    requires Prepared(b, g, own)
    ensures Safe(g) && g.doms == b.doms && g.(doms := b.doms) == g
  {
    hide Safe, Lists;
  }

  lemma BaseName(vm: string)
    ensures CleanText(vm) ==> CleanText(vm + QCOW2)
  {
    assert CleanText(QCOW2);
  }
}
