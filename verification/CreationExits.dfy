/**
  Creating a VM, exit by exit, with and without cloning: the numbers of the refused calls and
  what the host offers tell how far it comes, and what it leaves there.
 */
module CreationExits {
  import opened Text
  import opened Outcomes
  import opened DomainDescription
  import opened DomainText
  import opened DomainRoundTrip
  import opened VolumeNames
  import opened Libvirt
  import opened Operations
  import opened Safety
  import opened DiskAddition
  import opened DiskGrowth
  import opened Creation

  // ---------------------------------------------------------------- what a create needs

  function ClonePath(h: Host, cfg: VMConfig): string
    requires OrDefault(cfg.pool) in h.pools
  {
    PathIn(h.pools[OrDefault(cfg.pool)], cfg.name + QCOW2)
  }

  function ExtraPath(h: Host, cfg: VMConfig): string
    requires OrDefault(ExtraPool(cfg)) in h.pools
  {
    PathIn(h.pools[OrDefault(ExtraPool(cfg))], ExtraVolName(cfg.name, 2))
  }

  ghost predicate CanClone(h: Host, cfg: VMConfig) {
    cfg.noclone ||
    (&& cfg.diskPath in h.vols && OrDefault(cfg.pool) in h.pools
     && VolumeNameOk(cfg.name + QCOW2) && ClonePath(h, cfg) !in h.vols)
  }

  /** The volume the VM will boot from. */
  function BootDisk(h: Host, cfg: VMConfig): string {
    if cfg.noclone || OrDefault(cfg.pool) !in h.pools then cfg.diskPath else ClonePath(h, cfg)
  }

  /** The size asked for is not below that of the image, and no active domain holds the volume. */
  ghost predicate CanSize(h: Host, cfg: VMConfig) {
    cfg.diskSizeGB == 0 ||
    (&& cfg.diskPath in h.vols && GigaBytes(cfg.diskSizeGB) >= h.vols[cfg.diskPath].capacity
     && !InUse(h.doms, BootDisk(h, cfg)))
  }

  ghost predicate CanExtra(h: Host, cfg: VMConfig) {
    cfg.extraDiskSizeGB == 0 ||
    (&& cfg.extraDiskSizeGB * GIB < U64 && OrDefault(ExtraPool(cfg)) in h.pools
     && VolumeNameOk(ExtraVolName(cfg.name, 2)) && ExtraPath(h, cfg) !in h.vols)
  }

  ghost predicate CanDefine(h: Host, cfg: VMConfig) {
    cfg.name != "" && '/' !in cfg.name && cfg.name !in h.doms
  }

  ghost predicate CanCreate(h: Host, cfg: VMConfig) {
    CanClone(h, cfg) && CanSize(h, cfg) && CanExtra(h, cfg) && CanDefine(h, cfg)
  }

  // ---------------------------------------------------------------- the successive hosts

  ghost function WithClone(h: Host, cfg: VMConfig): Host {
    if cfg.noclone || !CanClone(h, cfg) then h else
    var image := h.vols[cfg.diskPath];
    AddVolume(h, ClonePath(h, cfg), Volume(OrDefault(cfg.pool), cfg.name + QCOW2, image.capacity, image.content))
  }

  ghost function WithSize(h: Host, cfg: VMConfig): Host {
    var g := WithClone(h, cfg);
    if cfg.diskSizeGB == 0 || BootDisk(h, cfg) !in g.vols then g
    else SetCapacity(g, BootDisk(h, cfg), GigaBytes(cfg.diskSizeGB))
  }

  function ExtraVolume(cfg: VMConfig): Volume
    requires cfg.extraDiskSizeGB * GIB < U64
  {
    Volume(OrDefault(ExtraPool(cfg)), ExtraVolName(cfg.name, 2), cfg.extraDiskSizeGB * GIB, [])
  }

  ghost function WithExtra(h: Host, cfg: VMConfig): Host {
    if cfg.extraDiskSizeGB == 0 || !CanExtra(h, cfg) then WithSize(h, cfg)
    else AddVolume(WithSize(h, cfg), ExtraPath(h, cfg), ExtraVolume(cfg))
  }

  /** The configuration that is defined in the end. */
  ghost function FinalConfig(h: Host, cfg: VMConfig): VMConfig {
    var booted := cfg.(diskPath := BootDisk(h, cfg));
    if cfg.extraDiskSizeGB == 0 || !CanExtra(h, cfg) then booted
    else booted.(extraDisks := [DiskDevice(ExtraPath(h, cfg), "vdb")])
  }

  ghost function Defined(h: Host, cfg: VMConfig): Host {
    SetXml(WithExtra(h, cfg), cfg.name, DomainXml(FinalConfig(h, cfg)))
  }

  ghost function Started(h: Host, cfg: VMConfig): Host {
    SetRun(Defined(h, cfg), cfg.name, Running)
  }

  // ---------------------------------------------------------------- how far a create comes

  datatype Progress = Untouched | CloneMade | DiskSized | ExtraMade | DomainDefined | VmStarted

  ghost function ProgressHost(h: Host, cfg: VMConfig, p: Progress): Host {
    match p
    case Untouched => h
    case CloneMade => WithClone(h, cfg)
    case DiskSized => WithSize(h, cfg)
    case ExtraMade => WithExtra(h, cfg)
    case DomainDefined => Defined(h, cfg)
    case VmStarted => Started(h, cfg)
  }

  // d is the number of the next call, f the refused ones.

  ghost function BootProgress(h: Host, cfg: VMConfig, d: nat, f: set<nat>): Progress {
    if !CanDefine(h, cfg) || d in f then ExtraMade
    else if d + 1 in f || d + 2 in f || d + 3 in f then DomainDefined
    else VmStarted
  }

  ghost function ExtraProgress(h: Host, cfg: VMConfig, d: nat, f: set<nat>): Progress {
    if cfg.extraDiskSizeGB == 0 then BootProgress(h, cfg, d, f)
    else if !CanExtra(h, cfg) || d in f || d + 1 in f then DiskSized
    else if d + 2 in f then ExtraMade
    else BootProgress(h, cfg, d + 3, f)
  }

  ghost function SizeProgress(h: Host, cfg: VMConfig, d: nat, f: set<nat>): Progress {
    if cfg.diskSizeGB == 0 then ExtraProgress(h, cfg, d, f)
    else if !CanSize(h, cfg) || d in f || d + 1 in f then CloneMade
    else ExtraProgress(h, cfg, d + 2, f)
  }

  ghost function CreateProgress(w: World, cfg: VMConfig): Progress {
    var h, c, f := w.host, w.clock, w.faults;
    if cfg.noclone then SizeProgress(h, cfg, c, f)
    else if !CanClone(h, cfg) || c in f || c + 1 in f || c + 2 in f || c + 3 in f then Untouched
    else if c + 4 in f then CloneMade
    else SizeProgress(h, cfg, c + 5, f)
  }

  /** An outcome is what some progress leaves. */
  ghost predicate LeftAt(h: Host, cfg: VMConfig, p: Progress, o: Step<()>) {
    o.w.host == ProgressHost(h, cfg, p) && o.r == if p == VmStarted then Ok(()) else Err(CallFailed)
  }

  // ---------------------------------------------------------------- the stages, call by call

  /** Define, release, look up, start. */
  lemma BootCalls(w: World, cfg: VMConfig)
    requires NameOf(DomainXml(cfg)) == cfg.name
    ensures var o, h, c, f := ProvisionBoot(w, cfg), w.host, w.clock, w.faults;
      && (o.r.Err? ==> o.r == Err(CallFailed))
      && (if !CanDefine(h, cfg) || c in f then o.r.Err? && o.w.host == h
          else if c + 1 in f || c + 2 in f || c + 3 in f then
            o.r.Err? && o.w.host == SetXml(h, cfg.name, DomainXml(cfg))
          else
            o.r == Ok(()) && o.w.host == SetRun(SetXml(h, cfg.name, DomainXml(cfg)), cfg.name, Running))
  {
    hide NameOf, DomainXml;
  }

  lemma BootEnds(h: Host, w: World, cfg: VMConfig)
    requires NoChar(cfg.name, '<') && w.host == WithExtra(h, cfg)
    ensures LeftAt(h, cfg, BootProgress(h, cfg, w.clock, w.faults), ProvisionBoot(w, FinalConfig(h, cfg)))
  {
    SameDomains(h, cfg);
    hide WithExtra, FinalConfig, DomainXml, NameOf, ProvisionBoot, NoChar;
    NameReadBack(FinalConfig(h, cfg));
    BootCalls(w, FinalConfig(h, cfg));
  }

  lemma SameDomains(h: Host, cfg: VMConfig)
    ensures WithClone(h, cfg).doms == h.doms && WithSize(h, cfg).doms == h.doms && WithExtra(h, cfg).doms == h.doms
    ensures WithClone(h, cfg).pools == h.pools && WithSize(h, cfg).pools == h.pools
    ensures WithExtra(h, cfg).pools == h.pools
    ensures FinalConfig(h, cfg).name == cfg.name
  {
    hide CanClone, CanExtra, GigaBytes;
  }

  lemma ExtraNameNormal(vm: string)
    ensures NormalizeVolName(ExtraVolName(vm, 2)) == ExtraVolName(vm, 2)
  {
    NormalizeKeepsExtraNames(vm, vm, 2);
  }

  /** The extra disk's place is not the clone's. */
  lemma ExtraBesideClone(h: Host, cfg: VMConfig)
    requires !cfg.noclone && CanClone(h, cfg) && cfg.extraDiskSizeGB > 0 && OrDefault(ExtraPool(cfg)) in h.pools
    ensures VolumeNameOk(ExtraVolName(cfg.name, 2)) && ExtraPath(h, cfg) != ClonePath(h, cfg)
  {
    ExtraNameOk(cfg.name, 2);
    assert |cfg.name + QCOW2| < |ExtraVolName(cfg.name, 2)|;
    hide ExtraVolName;
    if ExtraPath(h, cfg) == ClonePath(h, cfg) {
      SplitAtLast(h.pools[OrDefault(ExtraPool(cfg))], ExtraVolName(cfg.name, 2),
                  h.pools[OrDefault(cfg.pool)], cfg.name + QCOW2, '/');
    }
  }

  lemma ExtraFits(h: Host, cfg: VMConfig)
    requires CanClone(h, cfg) && cfg.extraDiskSizeGB > 0
    ensures CanExtra(h, cfg) <==>
      && cfg.extraDiskSizeGB * GIB < U64 && OrDefault(ExtraPool(cfg)) in WithSize(h, cfg).pools
      && VolumeNameOk(ExtraVolName(cfg.name, 2))
      && PathIn(WithSize(h, cfg).pools[OrDefault(ExtraPool(cfg))], ExtraVolName(cfg.name, 2)) !in WithSize(h, cfg).vols
  {
    SameDomains(h, cfg);
    if !cfg.noclone && OrDefault(ExtraPool(cfg)) in h.pools {
      ExtraBesideClone(h, cfg);
    }
    hide VolumeNameOk, PathIn, ExtraVolName, GigaBytes;
  }

  lemma ExtraHasSuffix(vm: string)
    ensures HasSuffix(ExtraVolName(vm, 2), ".qcow2") && ExtraVolName(vm, 2) != ""
  {
    var name := ExtraVolName(vm, 2);
    assert name[|name| - 6..] == ".qcow2";
  }

  /** The extra disk, call by call. */
  lemma ExtraCalls(h: Host, w: World, cfg: VMConfig)
    requires cfg.extraDisks == [] && CanClone(h, cfg) && w.host == WithSize(h, cfg) && cfg.extraDiskSizeGB > 0
    ensures var o, c, f := ProvisionExtra(w, cfg.(diskPath := BootDisk(h, cfg))), w.clock, w.faults;
      if !CanExtra(h, cfg) || c in f || c + 1 in f then o.r == Err(CallFailed) && o.w.host == w.host
      else
        && o.w == World(WithExtra(h, cfg), c + 3, f)
        && o.r == if c + 2 in f then Err(CallFailed) else Ok(FinalConfig(h, cfg))
  {
    hide VolumeNameOk, PathIn, ExtraVolName, WithSize, CanClone, BootDisk;
    SameDomains(h, cfg);
    FirstExtraDisk(cfg.name);
    ExtraNameNormal(cfg.name);
    ExtraHasSuffix(cfg.name);
    hide NormalizeVolName, HasSuffix;
    ExtraFits(h, cfg);
    CreateVolumeOutcome(w, ExtraPool(cfg), ExtraVolName(cfg.name, 2), cfg.extraDiskSizeGB);
    hide CreateVolume;
  }

  /** The extra disk and the boot that follows it. */
  function ExtraAndBoot(w: World, cfg: VMConfig): Step<()> {
    var (w, cfg) :- ProvisionExtra(w, cfg);
    ProvisionBoot(w, cfg)
  }

  lemma NoExtra(h: Host, w: World, cfg: VMConfig)
    requires cfg.extraDiskSizeGB == 0
    ensures ExtraAndBoot(w, cfg.(diskPath := BootDisk(h, cfg))) == ProvisionBoot(w, FinalConfig(h, cfg))
    ensures WithSize(h, cfg) == WithExtra(h, cfg)
  {
    hide ProvisionBoot, BootDisk, WithSize;
  }

  lemma ExtraEnds(h: Host, w: World, cfg: VMConfig)
    requires NoChar(cfg.name, '<') && cfg.extraDisks == [] && CanClone(h, cfg) && w.host == WithSize(h, cfg)
    ensures LeftAt(h, cfg, ExtraProgress(h, cfg, w.clock, w.faults),
                   ExtraAndBoot(w, cfg.(diskPath := BootDisk(h, cfg))))
  {
    var c, f := w.clock, w.faults;
    hide NoChar, ProvisionBoot, ProvisionExtra, CanClone, CanExtra, BootDisk, BootProgress, WithSize, WithExtra;
    hide FinalConfig, Defined, Started;
    if cfg.extraDiskSizeGB == 0 {
      NoExtra(h, w, cfg);
      BootEnds(h, w, cfg);
    } else {
      ExtraCalls(h, w, cfg);
      if CanExtra(h, cfg) && c !in f && c + 1 !in f && c + 2 !in f {
        BootEnds(h, World(WithExtra(h, cfg), c + 3, f), cfg);
      }
    }
  }

  /** Provisioning once the boot disk is settled. */
  function Furnished(w: World, cfg: VMConfig): Step<()> {
    var (w, _) :- ProvisionSize(w, cfg);
    ExtraAndBoot(w, cfg)
  }

  lemma ProvisionParts(w: World, cfg: VMConfig)
    ensures var disk := ProvisionDisk(w, cfg);
      Provision(w, cfg) == if disk.r.Err? then disk.PropagateFailure<()>() else Furnished(disk.w, disk.r.value)
  {
    hide ProvisionDisk, ProvisionSize, ProvisionExtra, ProvisionBoot;
  }

  lemma SizeCalls(h: Host, w: World, cfg: VMConfig)
    requires CanClone(h, cfg) && w.host == WithClone(h, cfg) && cfg.diskSizeGB > 0
    ensures var o, c, f := ProvisionSize(w, cfg.(diskPath := BootDisk(h, cfg))), w.clock, w.faults;
      if !CanSize(h, cfg) || c in f || c + 1 in f then o.r == Err(CallFailed) && o.w.host == w.host
      else o == Step(World(WithSize(h, cfg), c + 2, f), Ok(()))
  {
    hide VolumeNameOk, PathIn, GigaBytes;
  }

  lemma SizeEnds(h: Host, w: World, cfg: VMConfig)
    requires NoChar(cfg.name, '<') && cfg.extraDisks == [] && CanClone(h, cfg) && w.host == WithClone(h, cfg)
    ensures LeftAt(h, cfg, SizeProgress(h, cfg, w.clock, w.faults), Furnished(w, cfg.(diskPath := BootDisk(h, cfg))))
  {
    hide NoChar, ExtraAndBoot, CanClone, CanSize, ExtraProgress, LeftAt;
    var c, f := w.clock, w.faults;
    if cfg.diskSizeGB == 0 {
      ExtraEnds(h, w, cfg);
    } else {
      SizeCalls(h, w, cfg);
      hide ProvisionSize;
      if CanSize(h, cfg) && c !in f && c + 1 !in f {
        ExtraEnds(h, World(WithSize(h, cfg), c + 2, f), cfg);
      } else {
        SizeStops(h, cfg, w, Furnished(w, cfg.(diskPath := BootDisk(h, cfg))));
      }
    }
  }

  lemma SizeStops(h: Host, cfg: VMConfig, w: World, o: Step<()>)
    requires o.w.host == WithClone(h, cfg) && o.r == Err(CallFailed)
    ensures LeftAt(h, cfg, CloneMade, o)
  {
  }

  lemma CloneCalls(w: World, cfg: VMConfig)
    requires !cfg.noclone
    ensures var o, h, c, f := ProvisionDisk(w, cfg), w.host, w.clock, w.faults;
      if !CanClone(h, cfg) || c in f || c + 1 in f || c + 2 in f || c + 3 in f then
        o.r == Err(CallFailed) && o.w.host == h
      else
        && o.w == World(WithClone(h, cfg), c + 5, f)
        && o.r == if c + 4 in f then Err(CallFailed) else Ok(cfg.(diskPath := BootDisk(h, cfg)))
  {
  }

  /** The printer copies the name: without cloning, no volume name keeps an opening bracket out of it. */
  predicate NameFits(cfg: VMConfig) {
    cfg.extraDisks == [] && (cfg.noclone ==> NoChar(cfg.name, '<'))
  }

  /** Provisioning ends exactly where its schedule and the host say. */
  lemma CreationEnds(w: World, cfg: VMConfig)
    requires NameFits(cfg)
    ensures LeftAt(w.host, cfg, CreateProgress(w, cfg), Provision(w, cfg))
  {
    hide NoChar, Provision, ProvisionDisk, Furnished, VolumeNameOk, PathIn, SizeProgress, CanClone;
    ProvisionParts(w, cfg);
    if cfg.noclone {
      NocloneStart(w, cfg);
      SizeEnds(w.host, w, cfg);
    } else {
      CloneCalls(w, cfg);
      var disk := ProvisionDisk(w, cfg);
      if disk.r.Ok? {
        CloneNamed(w.host, cfg);
        SizeEnds(w.host, disk.w, cfg);
      }
    }
  }

  lemma CloneNamed(h: Host, cfg: VMConfig)
    requires !cfg.noclone && CanClone(h, cfg)
    ensures NoChar(cfg.name, '<')
  {
    NamePlain(cfg.name);
  }

  lemma NocloneStart(w: World, cfg: VMConfig)
    requires cfg.noclone
    ensures ProvisionDisk(w, cfg) == Step(w, Ok(cfg)) && cfg == cfg.(diskPath := BootDisk(w.host, cfg))
    ensures CanClone(w.host, cfg) && w.host == WithClone(w.host, cfg)
  {
  }

  /** The domain is there, new, from one point on. */
  lemma DefinedAt(w: World, cfg: VMConfig)
    ensures var h, g := w.host, ProgressHost(w.host, cfg, CreateProgress(w, cfg));
      && (CreateProgress(w, cfg) in {DomainDefined, VmStarted} ==>
           && CanCreate(h, cfg) && cfg.name !in h.doms && cfg.name in g.doms
           && g.doms[cfg.name].xml == DomainXml(FinalConfig(h, cfg)))
      && (CreateProgress(w, cfg) !in {DomainDefined, VmStarted} ==> g.doms == h.doms)
  {
    SameDomains(w.host, cfg);
    DefinedNeedsAll(w, cfg);
    hide DomainXml, FinalConfig, WithClone, WithSize, WithExtra, CanClone, CanSize, CanExtra, CreateProgress;
  }

  lemma DefinedNeedsAll(w: World, cfg: VMConfig)
    ensures CreateProgress(w, cfg) in {DomainDefined, VmStarted} ==> CanCreate(w.host, cfg)
  {
    if cfg.noclone {
      NocloneStart(w, cfg);
    }
    hide CanClone, CanExtra, CanDefine;
  }

  // ---------------------------------------------------------------- when it succeeds

  lemma StartedNeedsAll(w: World, cfg: VMConfig)
    ensures CreateProgress(w, cfg) == VmStarted ==> CanCreate(w.host, cfg)
    ensures NoFaults(w) && CanCreate(w.host, cfg) ==> CreateProgress(w, cfg) == VmStarted
  {
    if cfg.noclone {
      NocloneStart(w, cfg);
    }
    hide CanClone, CanExtra, CanDefine;
  }

  /** With no call refused by the schedule, a create succeeds exactly when the host offers what it needs. */
  lemma CreateSucceedsExactly(w: World, cfg: VMConfig)
    requires NameFits(cfg) && NoFaults(w)
    ensures Provision(w, cfg).r.Ok? <==> CanCreate(w.host, cfg)
  {
    hide Provision, CanCreate, CreateProgress, ProgressHost;
    CreationEnds(w, cfg);
    StartedNeedsAll(w, cfg);
  }

  // ---------------------------------------------------------------- what a success leaves

  /**
    The boot disk: a volume of the clone's pool named after the VM, or else the image itself,
    with the image's content, and its capacity unless a size was asked for.
   */
  ghost predicate BootAsAsked(h: Host, g: Host, cfg: VMConfig) {
    && cfg.diskPath in h.vols && BootDisk(h, cfg) in g.vols
    && g.vols[BootDisk(h, cfg)].pool == (if cfg.noclone then h.vols[cfg.diskPath].pool else OrDefault(cfg.pool))
    && g.vols[BootDisk(h, cfg)].name == (if cfg.noclone then h.vols[cfg.diskPath].name else cfg.name + QCOW2)
    && g.vols[BootDisk(h, cfg)].content == h.vols[cfg.diskPath].content
    && g.vols[BootDisk(h, cfg)].capacity ==
         (if cfg.diskSizeGB == 0 then h.vols[cfg.diskPath].capacity else GigaBytes(cfg.diskSizeGB))
  }

  /** The volumes that were added. */
  ghost function NewPaths(h: Host, cfg: VMConfig): set<string>
    requires CanCreate(h, cfg)
  {
    (if cfg.noclone then {} else {ClonePath(h, cfg)})
    + (if cfg.extraDiskSizeGB == 0 then {} else {ExtraPath(h, cfg)})
  }

  /** The boot disk after cloning and sizing; nothing else has changed but in place of the image itself. */
  lemma SizedMeans(h: Host, cfg: VMConfig)
    requires CanClone(h, cfg) && CanSize(h, cfg)
    ensures var g := WithSize(h, cfg);
      && g.vols.Keys == h.vols.Keys + (if cfg.noclone then {} else {ClonePath(h, cfg)})
      && (!cfg.noclone ==> ClonePath(h, cfg) !in h.vols)
      && (!cfg.noclone || cfg.diskPath in h.vols ==> BootAsAsked(h, g, cfg))
      && (forall p :: p in h.vols && (p != cfg.diskPath || !cfg.noclone) ==> g.vols[p] == h.vols[p])
  {
    hide VolumeNameOk, PathIn, GigaBytes;
  }

  lemma ExtraMeans(h: Host, cfg: VMConfig)
    requires CanClone(h, cfg) && CanExtra(h, cfg) && cfg.extraDiskSizeGB > 0
    ensures ExtraPath(h, cfg) !in WithSize(h, cfg).vols
    ensures cfg.extraDiskSizeGB * GIB < U64
    ensures WithExtra(h, cfg) == AddVolume(WithSize(h, cfg), ExtraPath(h, cfg), ExtraVolume(cfg))
  {
    SameDomains(h, cfg);
    hide WithSize, VolumeNameOk, PathIn, ExtraVolName, CanClone;
    ExtraFits(h, cfg);
  }

  /** What a successful create does to the volumes. */
  ghost predicate VolumesAsAsked(h: Host, g: Host, cfg: VMConfig)
    requires CanCreate(h, cfg)
  {
    && g.vols.Keys == h.vols.Keys + NewPaths(h, cfg) && NewPaths(h, cfg) !! h.vols.Keys
    && (!cfg.noclone || cfg.diskPath in h.vols ==> BootAsAsked(h, g, cfg))
    && (cfg.extraDiskSizeGB > 0 ==>
         cfg.extraDiskSizeGB * GIB < U64 && g.vols[ExtraPath(h, cfg)] == ExtraVolume(cfg))
    && (forall p :: p in h.vols && (p != cfg.diskPath || !cfg.noclone) ==> g.vols[p] == h.vols[p])
  }

  lemma ExtraKeepsBoot(h: Host, g: Host, cfg: VMConfig, path: string, v: Volume)
    requires path !in g.vols
    ensures BootAsAsked(h, g, cfg) ==> BootAsAsked(h, AddVolume(g, path, v), cfg)
  {
    hide BootDisk, GigaBytes;
  }

  lemma MadeMeans(h: Host, cfg: VMConfig)
    requires CanCreate(h, cfg)
    ensures VolumesAsAsked(h, WithExtra(h, cfg), cfg)
  {
    SizedMeans(h, cfg);
    if cfg.extraDiskSizeGB > 0 {
      ExtraMeans(h, cfg);
      ExtraKeepsBoot(h, WithSize(h, cfg), cfg, ExtraPath(h, cfg), ExtraVolume(cfg));
      hide WithSize, WithExtra, CanClone, CanSize, CanDefine, PathIn, ExtraVolName, BootAsAsked, ClonePath, ExtraVolume;
    } else {
      assert WithExtra(h, cfg) == WithSize(h, cfg);
      hide WithSize, WithExtra, CanSize, CanDefine, PathIn, ExtraVolName, BootAsAsked;
    }
  }

  lemma StartedMeans(h: Host, cfg: VMConfig)
    requires CanCreate(h, cfg)
    ensures var g := Started(h, cfg);
      && g.pools == h.pools && VolumesAsAsked(h, g, cfg)
      && g.doms == h.doms[cfg.name := Domain(DomainXml(FinalConfig(h, cfg)), Running)]
  {
    hide *;
    MadeMeans(h, cfg);
    StartedShape(h, cfg);
    SameVolumes(h, WithExtra(h, cfg), Started(h, cfg), cfg);
  }

  lemma StartedShape(h: Host, cfg: VMConfig)
    ensures var g := Started(h, cfg);
      && g.pools == h.pools && g.vols == WithExtra(h, cfg).vols
      && g.doms == h.doms[cfg.name := Domain(DomainXml(FinalConfig(h, cfg)), Running)]
  {
    SameDomains(h, cfg);
    hide WithExtra, DomainXml, FinalConfig;
  }

  lemma SameVolumes(h: Host, a: Host, b: Host, cfg: VMConfig)
    requires CanCreate(h, cfg) && a.vols == b.vols && VolumesAsAsked(h, a, cfg)
    ensures VolumesAsAsked(h, b, cfg)
  {
    hide NewPaths, BootDisk, ExtraPath, CanClone, CanSize, CanDefine, GigaBytes;
  }

  /**
    What a successful create has made, with and without cloning: the domain, running, with the
    final configuration's text; the boot disk with the image's content and the size asked for,
    which is that many gigabytes exactly when they are fewer than 2^34; the extra disk with its
    size, if one was asked for; and no other volume.
   */
  lemma CreatedAsAsked(w: World, cfg: VMConfig)
    requires NameFits(cfg) && Provision(w, cfg).r.Ok?
    ensures CanCreate(w.host, cfg)
    ensures var h, g := w.host, Provision(w, cfg).w.host;
      && g.pools == h.pools && VolumesAsAsked(h, g, cfg)
      && g.doms == h.doms[cfg.name := Domain(DomainXml(FinalConfig(h, cfg)), Running)]
      && (cfg.diskSizeGB > 0 ==>
           && BootAsAsked(h, g, cfg)
           && (g.vols[BootDisk(h, cfg)].capacity == cfg.diskSizeGB * GIB <==> cfg.diskSizeGB < 0x4_0000_0000))
  {
    hide *;
    SuccessIsStarted(w, cfg);
    StartedMeans(w.host, cfg);
    if cfg.diskSizeGB > 0 {
      SizedBoot(w.host, Started(w.host, cfg), cfg);
    }
  }

  lemma SuccessIsStarted(w: World, cfg: VMConfig)
    requires NameFits(cfg) && Provision(w, cfg).r.Ok?
    ensures CanCreate(w.host, cfg) && Provision(w, cfg).w.host == Started(w.host, cfg)
  {
    hide Provision, NameFits, CanCreate, CreateProgress, Started;
    CreationEnds(w, cfg);
    StartedNeedsAll(w, cfg);
  }

  lemma SizedBoot(h: Host, g: Host, cfg: VMConfig)
    requires CanCreate(h, cfg) && VolumesAsAsked(h, g, cfg) && cfg.diskSizeGB > 0
    ensures BootAsAsked(h, g, cfg)
    ensures g.vols[BootDisk(h, cfg)].capacity == cfg.diskSizeGB * GIB <==> cfg.diskSizeGB < 0x4_0000_0000
  {
    hide BootDisk, GigaBytes, CanClone, CanExtra, CanDefine, NewPaths;
    GigaBytesExact(cfg.diskSizeGB);
  }

  /** Asked for 2^34 + 20 gigabytes over an image of at most 20, a create succeeds and gives the VM 20. */
  lemma CreateWraps(w: World, cfg: VMConfig)
    requires NameFits(cfg) && NoFaults(w) && CanCreate(w.host, cfg.(diskSizeGB := 0)) && cfg.diskPath in w.host.vols
    requires cfg.diskSizeGB == 0x4_0000_0000 + 20 && w.host.vols[cfg.diskPath].capacity <= 20 * GIB
    requires !InUse(w.host.doms, BootDisk(w.host, cfg))
    ensures Provision(w, cfg).r.Ok? && BootDisk(w.host, cfg) in Provision(w, cfg).w.host.vols
    ensures Provision(w, cfg).w.host.vols[BootDisk(w.host, cfg)].capacity == 20 * GIB
  {
    assert GigaBytes(cfg.diskSizeGB) == 20 * GIB;
    hide InUse;
    assert CanCreate(w.host, cfg);
    hide Provision, CanCreate, PathIn, BootDisk, ExtraVolName;
    CreateSucceedsExactly(w, cfg);
    CreatedAsAsked(w, cfg);
  }

  // ---------------------------------------------------------------- what a failure leaves

  /** A create whose clone's place is taken is refused before anything happens. */
  lemma TakenCloneIsRefused(w: World, cfg: VMConfig)
    requires NameFits(cfg) && !cfg.noclone
    requires OrDefault(cfg.pool) in w.host.pools && ClonePath(w.host, cfg) in w.host.vols
    ensures Provision(w, cfg).r == Err(CallFailed) && Provision(w, cfg).w.host == w.host
  {
    hide Provision, PathIn, VolumeNameOk;
    CreationEnds(w, cfg);
  }

  /**
    After a create in clone mode that got as far as the clone and failed, the clone is left
    behind, and trying again for that name and pool is refused before anything happens.
   */
  lemma LeftCloneBlocksRetry(w: World, cfg: VMConfig, later: World, again: VMConfig)
    requires NameFits(cfg) && !cfg.noclone && CreateProgress(w, cfg) != Untouched
    requires later.host == Provision(w, cfg).w.host
    requires NameFits(again) && !again.noclone && again.name == cfg.name && OrDefault(again.pool) == OrDefault(cfg.pool)
    ensures CanClone(w.host, cfg) && ClonePath(w.host, cfg) in later.host.vols
    ensures Provision(later, again).r == Err(CallFailed) && Provision(later, again).w.host == later.host
  {
    CreationEnds(w, cfg);
    CloneStays(w.host, cfg, CreateProgress(w, cfg));
    hide Provision, ProgressHost, PathIn, VolumeNameOk;
    TakenCloneIsRefused(later, again);
  }

  lemma CloneStays(h: Host, cfg: VMConfig, p: Progress)
    requires !cfg.noclone && CanClone(h, cfg) && p != Untouched
    ensures ClonePath(h, cfg) in ProgressHost(h, cfg, p).vols && ProgressHost(h, cfg, p).pools == h.pools
  {
    hide VolumeNameOk, PathIn, GigaBytes, DomainXml, ExtraVolName;
  }

  // ---------------------------------------------------------------- creates do succeed

  /** A host with one pool and one image in it. */
  function SmallHost(): Host {
    Host(map["default" := "/p"], map["/p/i" := Volume("default", "i", GIB, [])], map[])
  }

  function SmallRequest(): VMConfig {
    VMConfig("v", 2, 2, "/p/i", 0, "default", NetworkConfig(Nat, "default", ""), false, 0, "", [])
  }

  lemma SmallHostIsSafe()
    ensures Safe(SmallHost())
  {
    var h := SmallHost();
    assert PathIn("/p", "i") == "/p/i";
    assert VolumeOk(h.pools, "/p/i", h.vols["/p/i"]);
    assert PoolsOk(h.pools);
    assert Lists(h) == map[];
    hide VolumeOk, PoolsOk;
  }

  /** From it a VM can be created, so safe hosts with domains can be reached. */
  lemma SomeCreateSucceeds()
    ensures var o := Provision(World(SmallHost(), 0, {}), SmallRequest());
      Safe(SmallHost()) && o.r.Ok? && Safe(o.w.host) && "v" in o.w.host.doms
  {
    var w, cfg := World(SmallHost(), 0, {}), SmallRequest();
    assert VolumeNameOk("v" + QCOW2);
    assert |PathIn("/p", "v" + QCOW2)| > |"/p/i"|;
    assert CanCreate(w.host, cfg);
    assert CleanRequest(cfg) by {
      assert CleanText("v") && NoChar("default", '<');
    }
    hide Provision, CanCreate, SmallHost, SmallRequest, Safe;
    SmallHostIsSafe();
    CreateSucceedsExactly(w, cfg);
    CleanCreateExits(w, cfg);
  }
}
