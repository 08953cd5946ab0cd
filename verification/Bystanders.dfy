/**
  Domains that no operation names, made by whatever tool and with whatever text: operations do
  the same beside them as without them, so everything proved of a host of vmtool's own VMs
  holds of any host that has other domains besides.
 */
module Bystanders {
  import opened Text
  import opened Outcomes
  import opened DomainDescription
  import opened DomainText
  import opened DomainRoundTrip
  import opened VolumeNames
  import opened Libvirt
  import opened Operations
  import opened Safety
  import opened Migration
  import opened Creation
  import opened CreationExits
  import opened WholeRuns

  type Domains = map<string, Domain>

  /** The host with other domains on it. */
  function With(h: Host, others: Domains): Host {
    h.(doms := h.doms + others)
  }

  function Beside(w: World, others: Domains): World {
    w.(host := With(w.host, others))
  }

  function Along<T>(o: Step<T>, others: Domains): Step<T> {
    Step(Beside(o.w, others), o.r)
  }

  // ---------------------------------------------------------------- call by call

  lemma SetBeside(doms: Domains, others: Domains, vm: string, d: Domain)
    requires vm !in others
    ensures (doms + others)[vm := d] == doms[vm := d] + others
  {
  }

  lemma DropBeside(doms: Domains, others: Domains, vm: string)
    requires vm !in others
    ensures (doms + others) - {vm} == (doms - {vm}) + others
  {
  }

  lemma ReadsBeside(w: World, others: Domains, vm: string)
    requires vm !in others
    ensures LookupDomain(Beside(w, others), vm) == Along(LookupDomain(w, vm), others)
    ensures GetState(Beside(w, others), vm) == Along(GetState(w, vm), others)
    ensures GetXml(Beside(w, others), vm) == Along(GetXml(w, vm), others)
  {
  }

  lemma SetRunBeside(h: Host, others: Domains, vm: string, run: RunState)
    requires vm in h.doms && vm !in others
    ensures SetRun(With(h, others), vm, run) == With(SetRun(h, vm, run), others)
  {
    SetBeside(h.doms, others, vm, h.doms[vm].(run := run));
  }

  lemma RunBeside(w: World, others: Domains, vm: string, run: RunState)
    requires vm !in others
    ensures CreateDomain(Beside(w, others), vm) == Along(CreateDomain(w, vm), others)
    ensures StopIfActive(Beside(w, others), vm, run) == Along(StopIfActive(w, vm, run), others)
  {
    if vm in w.host.doms {
      SetRunBeside(w.host, others, vm, Running);
      SetRunBeside(w.host, others, vm, Shutoff);
    }
    hide SetRun;
  }

  lemma UndefineBeside(w: World, others: Domains, vm: string)
    requires vm !in others
    ensures UndefineDomain(Beside(w, others), vm) == Along(UndefineDomain(w, vm), others)
  {
    DropBeside(w.host.doms, others, vm);
  }

  lemma SetXmlBeside(h: Host, others: Domains, vm: string, xml: string)
    requires vm !in others
    ensures SetXml(With(h, others), vm, xml) == With(SetXml(h, vm, xml), others)
  {
    SetBeside(h.doms, others, vm, Domain(xml, if vm in h.doms then h.doms[vm].run else Shutoff));
  }

  lemma DefineBeside(w: World, others: Domains, xml: string, identified: bool)
    requires NameOf(xml) !in others
    ensures DefineDomain(Beside(w, others), xml, identified) == Along(DefineDomain(w, xml, identified), others)
  {
    hide NameOf;
    SetXmlBeside(w.host, others, NameOf(xml), xml);
  }

  lemma AttachBeside(w: World, others: Domains, vm: string, fragment: string, live: bool)
    requires vm !in others
    ensures AttachDevice(Beside(w, others), vm, fragment, live) == Along(AttachDevice(w, vm, fragment, live), others)
  {
    hide Splice;
    if vm in w.host.doms {
      SetXmlBeside(w.host, others, vm, Splice(w.host.doms[vm].xml, fragment));
    }
  }

  lemma BlockResizeBeside(w: World, others: Domains, vm: string, target: string, bytes: u64)
    requires vm !in others
    ensures BlockResize(Beside(w, others), vm, target, bytes) == Along(BlockResize(w, vm, target, bytes), others)
  {
    hide TargetPath, FileDisks;
  }

  // ---------------------------------------------------------------- calls that concern volumes only

  lemma VolumeReadsBeside(w: World, others: Domains, pool: string, path: string)
    ensures LookupPool(Beside(w, others), pool) == Along(LookupPool(w, pool), others)
    ensures LookupVolume(Beside(w, others), path) == Along(LookupVolume(w, path), others)
    ensures VolumeCapacity(Beside(w, others), path) == Along(VolumeCapacity(w, path), others)
    ensures VolumeName(Beside(w, others), path) == Along(VolumeName(w, path), others)
    ensures VolumePath(Beside(w, others), path) == Along(VolumePath(w, path), others)
  {
  }

  lemma InUseBeside(doms: Domains, others: Domains, path: string)
    requires !InUse(doms, path) && !InUse(others, path)
    ensures !InUse(doms + others, path)
  {
    hide FileDisks, ListsPath;
  }

  /** Offline resizing of a volume that no active domain holds, here or beside. */
  lemma VolumeResizeBeside(w: World, others: Domains, path: string, bytes: u64)
    requires !InUse(w.host.doms, path) && !InUse(others, path)
    ensures VolumeResize(Beside(w, others), path, bytes) == Along(VolumeResize(w, path, bytes), others)
  {
    InUseBeside(w.host.doms, others, path);
    hide InUse;
  }

  lemma VolumeWritesBeside(w: World, others: Domains, path: string)
    ensures DeleteVolume(Beside(w, others), path) == Along(DeleteVolume(w, path), others)
    ensures DeleteVolumeByPath(Beside(w, others), path) == Along(DeleteVolumeByPath(w, path), others)
  {
  }

  lemma NewVolumeBeside(w: World, others: Domains, pool: string, name: string, size: u64, source: string)
    ensures CreateVolumeXml(Beside(w, others), pool, name, size) == Along(CreateVolumeXml(w, pool, name, size), others)
    ensures CreateVolumeFrom(Beside(w, others), pool, name, size, source)
         == Along(CreateVolumeFrom(w, pool, name, size, source), others)
  {
    hide VolumeNameOk, PathIn;
  }

  lemma CloneBeside(w: World, others: Domains, base: string, name: string, pool: string)
    ensures CloneImage(Beside(w, others), base, name, pool) == Along(CloneImage(w, base, name, pool), others)
  {
    hide LookupPool, LookupVolume, VolumeCapacity, VolumePath, CreateVolumeFrom, With;
    var target := OrDefault(pool);
    VolumeReadsBeside(w, others, target, base);
    var w1 := LookupVolume(w, base).w;
    VolumeReadsBeside(w1, others, target, base);
    var capacity := VolumeCapacity(w1, base);
    VolumeReadsBeside(capacity.w, others, target, base);
    var w3 := LookupPool(capacity.w, target).w;
    if capacity.r.Ok? {
      NewVolumeBeside(w3, others, target, name + QCOW2, capacity.r.value, base);
      var made := CreateVolumeFrom(w3, target, name + QCOW2, capacity.r.value, base);
      if made.r.Ok? {
        VolumeReadsBeside(made.w, others, target, made.r.value);
      }
    }
  }

  lemma CreateVolumeBeside(w: World, others: Domains, pool: string, name: string, sizeGB: u64)
    ensures CreateVolume(Beside(w, others), pool, name, sizeGB) == Along(CreateVolume(w, pool, name, sizeGB), others)
  {
    hide LookupPool, VolumePath, CreateVolumeXml, NormalizeVolName, With;
    var target := OrDefault(pool);
    VolumeReadsBeside(w, others, target, "");
    var found := LookupPool(w, target).w;
    NewVolumeBeside(found, others, target, NormalizeVolName(name), sizeGB, "");
    var made := CreateVolumeXml(found, target, NormalizeVolName(name), sizeGB);
    if made.r.Ok? {
      VolumeReadsBeside(made.w, others, target, made.r.value);
    }
  }

  lemma CopyBeside(w: World, others: Domains, old_: string, pool: string)
    ensures CopyVolume(Beside(w, others), old_, pool) == Along(CopyVolume(w, old_, pool), others)
  {
    hide LookupPool, LookupVolume, VolumeCapacity, VolumeName, VolumePath, CreateVolumeFrom, With;
    VolumeReadsBeside(w, others, pool, old_);
    var w1 := LookupVolume(w, old_).w;
    VolumeReadsBeside(w1, others, pool, old_);
    var w2 := LookupPool(w1, pool).w;
    VolumeReadsBeside(w2, others, pool, old_);
    var capacity := VolumeCapacity(w2, old_);
    VolumeReadsBeside(capacity.w, others, pool, old_);
    var name := VolumeName(capacity.w, old_);
    if capacity.r.Ok? && name.r.Ok? {
      NewVolumeBeside(name.w, others, pool, name.r.value, capacity.r.value, old_);
      var made := CreateVolumeFrom(name.w, pool, name.r.value, capacity.r.value, old_);
      if made.r.Ok? {
        VolumeReadsBeside(made.w, others, pool, made.r.value);
      }
    }
  }

  lemma {:induction false} DeleteVolumesBeside(w: World, others: Domains, paths: seq<string>)
    ensures DeleteVolumes(Beside(w, others), paths) == Along(DeleteVolumes(w, paths), others)
    decreases |paths|
  {
    if paths != [] {
      VolumeWritesBeside(w, others, paths[0]);
      var first := DeleteVolumeByPath(w, paths[0]);
      hide DeleteVolumeByPath;
      if first.r.Ok? {
        DeleteVolumesBeside(first.w, others, paths[1..]);
      }
    }
  }

  // ---------------------------------------------------------------- operation by operation

  lemma StartBeside(w: World, others: Domains, vm: string)
    requires vm !in others
    ensures Start(Beside(w, others), vm) == Along(Start(w, vm), others)
  {
    ReadsBeside(w, others, vm);
    var found := LookupDomain(w, vm);
    RunBeside(found.w, others, vm, Running);
    hide LookupDomain, CreateDomain;
  }

  lemma BootBeside(w: World, others: Domains, cfg: VMConfig)
    requires cfg.name !in others && NoChar(cfg.name, '<')
    ensures ProvisionBoot(Beside(w, others), cfg) == Along(ProvisionBoot(w, cfg), others)
  {
    hide DomainXml, NameOf, NoChar, Start, DefineDomain;
    NameReadBack(cfg);
    DefineBeside(w, others, DomainXml(cfg), false);
    var defined := Define(w, cfg);
    if defined.r.Ok? {
      StartBeside(defined.w, others, cfg.name);
    }
  }

  lemma ResizeBeside(w: World, others: Domains, path: string, bytes: u64)
    requires !InUse(w.host.doms, path) && !InUse(others, path)
    ensures ResizeVolume(Beside(w, others), path, bytes) == Along(ResizeVolume(w, path, bytes), others)
  {
    hide LookupVolume, VolumeResize, InUse;
    VolumeReadsBeside(w, others, "", path);
    LookupKeeps(w, path);
    VolumeResizeBeside(LookupVolume(w, path).w, others, path, bytes);
  }

  lemma LookupKeeps(w: World, path: string)
    ensures LookupVolume(w, path).w.host == w.host
  {
  }

  /** Where the boot disk is when provisioning goes on. */
  lemma ClonedAt(w: World, cfg: VMConfig)
    requires NameFits(cfg)
    ensures var disk := ProvisionDisk(w, cfg);
      disk.r.Ok? ==>
        && CanClone(w.host, cfg) && disk.r.value == cfg.(diskPath := BootDisk(w.host, cfg))
        && disk.w.host.doms == w.host.doms && NoChar(cfg.name, '<')
  {
    hide ProvisionDisk, WithClone, CanClone, BootDisk, NoChar;
    SameDomains(w.host, cfg);
    if cfg.noclone {
      NocloneStart(w, cfg);
    } else {
      CloneCalls(w, cfg);
      if CanClone(w.host, cfg) {
        CloneNamed(w.host, cfg);
      }
    }
  }

  lemma ProvisionBeside(w: World, others: Domains, cfg: VMConfig)
    requires NameFits(cfg) && cfg.name !in others
    requires CanClone(w.host, cfg) && cfg.diskSizeGB > 0 ==>
      !InUse(w.host.doms, BootDisk(w.host, cfg)) && !InUse(others, BootDisk(w.host, cfg))
    ensures Provision(Beside(w, others), cfg) == Along(Provision(w, cfg), others)
  {
    hide ProvisionBoot, CloneImage, CreateVolume, ResizeVolume, NoChar, With, InUse;
    CloneBeside(w, others, cfg.diskPath, cfg.name, cfg.pool);
    ClonedAt(w, cfg);
    var disk := ProvisionDisk(w, cfg);
    if disk.r.Ok? {
      var cfg1 := disk.r.value;
      if cfg.diskSizeGB > 0 {
        ResizeBeside(disk.w, others, cfg1.diskPath, GigaBytes(cfg.diskSizeGB));
      }
      var size := ProvisionSize(disk.w, cfg1);
      if size.r.Ok? {
        CreateVolumeBeside(size.w, others, ExtraPool(cfg1), cfg1.name + "-2.qcow2", cfg1.extraDiskSizeGB);
        var extra := ProvisionExtra(size.w, cfg1);
        if extra.r.Ok? {
          BootBeside(extra.w, others, extra.r.value);
        }
      }
    }
  }

  // A volume that another domain holds is not resized: the operation ends as it would on a schedule
  // with that call refused.

  /** The schedule with one more refusal. */
  function Refusing(w: World, n: nat): World {
    w.(faults := w.faults + {n})
  }

  /** What a step under that schedule comes to beside other domains. */
  function Held<T>(o: Step<T>, faults: set<nat>, others: Domains): Step<T> {
    Step(Beside(o.w.(faults := faults), others), o.r)
  }

  lemma OthersHold(doms: Domains, others: Domains, path: string)
    requires InUse(others, path)
    ensures InUse(doms + others, path)
  {
    hide FileDisks, ListsPath;
    var n :| n in others && Active(others[n].run) && ListsPath(FileDisks(others[n].xml), path);
    assert n in doms + others && (doms + others)[n] == others[n];
  }

  /** A step under the schedule with one more refusal. */
  function Refuse<T>(o: Step<T>, n: nat): Step<T> {
    Step(Refusing(o.w, n), o.r)
  }

  /** A refusal to come changes nothing before. */
  lemma ReadsRefusing(w: World, n: nat, vm: string, path: string)
    requires n != w.clock
    ensures LookupDomain(Refusing(w, n), vm) == Refuse(LookupDomain(w, vm), n)
    ensures GetState(Refusing(w, n), vm) == Refuse(GetState(w, vm), n)
    ensures GetXml(Refusing(w, n), vm) == Refuse(GetXml(w, vm), n)
    ensures LookupVolume(Refusing(w, n), path) == Refuse(LookupVolume(w, path), n)
    ensures VolumeCapacity(Refusing(w, n), path) == Refuse(VolumeCapacity(w, path), n)
  {
  }

  lemma MoreRefusing(w: World, n: nat, pool: string, name: string, capacity: u64, path: string)
    requires n != w.clock
    ensures LookupPool(Refusing(w, n), pool) == Refuse(LookupPool(w, pool), n)
    ensures CreateVolumeFrom(Refusing(w, n), pool, name, capacity, path)
         == Refuse(CreateVolumeFrom(w, pool, name, capacity, path), n)
    ensures VolumePath(Refusing(w, n), path) == Refuse(VolumePath(w, path), n)
  {
    hide VolumeNameOk, PathIn;
  }

  /** Reading the host leaves it, and the schedule; it is one call. */
  lemma ReadsKeep(w: World, vm: string, path: string)
    ensures LookupDomain(w, vm).w == w.(clock := w.clock + 1) == GetState(w, vm).w == GetXml(w, vm).w
    ensures LookupVolume(w, path).w == w.(clock := w.clock + 1) == VolumeCapacity(w, path).w
  {
  }

  lemma ResizeRefused(w: World, path: string, bytes: u64)
    requires Down(w) || InUse(w.host.doms, path)
    ensures VolumeResize(w, path, bytes) == Refused(w)
  {
    hide InUse, SetCapacity;
  }

  lemma VolumeResizeHeld(w: World, others: Domains, path: string, bytes: u64)
    requires InUse(others, path)
    ensures var o := VolumeResize(Refusing(w, w.clock), path, bytes);
      o.r.Err? && VolumeResize(Beside(w, others), path, bytes) == Held(o, w.faults, others)
  {
    OthersHold(w.host.doms, others, path);
    hide InUse, VolumeResize;
    assert Down(Refusing(w, w.clock));
    ResizeRefused(Refusing(w, w.clock), path, bytes);
    ResizeRefused(Beside(w, others), path, bytes);
  }

  lemma ResizeHeld(w: World, others: Domains, path: string, bytes: u64)
    requires InUse(others, path)
    ensures var o := ResizeVolume(Refusing(w, w.clock + 1), path, bytes);
      o.r.Err? && ResizeVolume(Beside(w, others), path, bytes) == Held(o, w.faults, others)
  {
    hide LookupVolume, VolumeResize, InUse, With;
    ReadsKeep(w, "", path);
    ReadsRefusing(w, w.clock + 1, "", path);
    VolumeReadsBeside(w, others, "", path);
    VolumeResizeHeld(LookupVolume(w, path).w, others, path, bytes);
  }

  lemma CloneRefusing(w: World, cfg: VMConfig, n: nat)
    requires !cfg.noclone && n >= w.clock + 5
    ensures ProvisionDisk(Refusing(w, n), cfg) == Refuse(ProvisionDisk(w, cfg), n)
  {
    hide LookupPool, LookupVolume, VolumeCapacity, VolumePath, CreateVolumeFrom, Refusing;
    var base, target := cfg.diskPath, OrDefault(cfg.pool);
    var volume := LookupVolume(w, base);
    var capacity := VolumeCapacity(volume.w, base);
    var pool := LookupPool(capacity.w, target);
    ClockOfClone(w, cfg);
    ReadsRefusing(w, n, "", base);
    ReadsRefusing(volume.w, n, "", base);
    MoreRefusing(capacity.w, n, target, "", 0, "");
    if capacity.r.Ok? {
      MoreRefusing(pool.w, n, target, cfg.name + QCOW2, capacity.r.value, base);
      var made := CreateVolumeFrom(pool.w, target, cfg.name + QCOW2, capacity.r.value, base);
      if made.r.Ok? {
        MoreRefusing(made.w, n, "", "", 0, made.r.value);
      }
    }
  }

  lemma ClockOfClone(w: World, cfg: VMConfig)
    ensures var volume := LookupVolume(w, cfg.diskPath); var capacity := VolumeCapacity(volume.w, cfg.diskPath);
      var pool := LookupPool(capacity.w, OrDefault(cfg.pool));
      && volume.w.clock == w.clock + 1 && capacity.w.clock == w.clock + 2 && pool.w.clock == w.clock + 3
      && (capacity.r.Ok? ==>
           CreateVolumeFrom(pool.w, OrDefault(cfg.pool), cfg.name + QCOW2, capacity.r.value, cfg.diskPath).w.clock
             == w.clock + 4)
  {
    hide VolumeNameOk, PathIn;
  }

  /** Provisioning that ends with the resize or before. */
  lemma EndsAtSize(w: World, cfg: VMConfig)
    requires !cfg.noclone && cfg.diskSizeGB > 0
    ensures var disk := ProvisionDisk(w, cfg);
      if disk.r.Err? then Provision(w, cfg) == Step(disk.w, Err(disk.r.error)) else
        && disk.r.value.diskSizeGB == cfg.diskSizeGB
        && var o := ResizeVolume(disk.w, disk.r.value.diskPath, GigaBytes(cfg.diskSizeGB));
           o.r.Err? ==> Provision(w, cfg) == o
  {
    hide CloneImage, ResizeVolume, ProvisionExtra, ProvisionBoot;
  }

  lemma ProvisionHeld(w: World, others: Domains, cfg: VMConfig)
    requires !cfg.noclone && cfg.diskSizeGB > 0
    requires CanClone(w.host, cfg) && InUse(others, BootDisk(w.host, cfg))
    ensures Provision(Beside(w, others), cfg) == Held(Provision(Refusing(w, w.clock + 6), cfg), w.faults, others)
  {
    var n, disk := w.clock + 6, ProvisionDisk(w, cfg);
    DiskBeside(w, others, cfg);
    DiskCloned(w, cfg);
    CloneRefusing(w, cfg, n);
    EndsAtSize(Beside(w, others), cfg);
    EndsAtSize(Refusing(w, n), cfg);
    hide Provision, ProvisionDisk, ResizeVolume, With, InUse, CanClone, BootDisk;
    if disk.r.Ok? {
      ResizeHeld(disk.w, others, disk.r.value.diskPath, GigaBytes(cfg.diskSizeGB));
    }
  }

  lemma DiskBeside(w: World, others: Domains, cfg: VMConfig)
    ensures ProvisionDisk(Beside(w, others), cfg) == Along(ProvisionDisk(w, cfg), others)
  {
    CloneBeside(w, others, cfg.diskPath, cfg.name, cfg.pool);
    hide CloneImage, With;
  }

  lemma DiskCloned(w: World, cfg: VMConfig)
    requires !cfg.noclone
    ensures var o := ProvisionDisk(w, cfg);
      && o.w.faults == w.faults
      && (o.r.Ok? ==> o.w.clock == w.clock + 5 && o.r.value == cfg.(diskPath := BootDisk(w.host, cfg)))
  {
    CloneCalls(w, cfg);
    hide CanClone, WithClone, BootDisk, VolumeNameOk, PathIn, AddVolume;
  }

  lemma AttachNewBeside(w: World, others: Domains, vm: string, d: DiskDevice)
    requires vm !in others
    ensures AttachNew(Beside(w, others), vm, d) == Along(AttachNew(w, vm, d), others)
  {
    hide DiskXml, AttachDevice, DeleteVolumeByPath, GetState;
    ReadsBeside(w, others, vm);
    var state := GetState(w, vm);
    if state.r.Err? {
      VolumeWritesBeside(state.w, others, d.path);
    } else {
      var fragment, live := DiskXml(d.path, d.target), Active(state.r.value);
      AttachBeside(state.w, others, vm, fragment, live);
      VolumeWritesBeside(AttachDevice(state.w, vm, fragment, live).w, others, d.path);
    }
  }

  lemma AddBeside(w: World, others: Domains, vm: string, sizeGB: u64, pool: string)
    requires vm !in others
    ensures AddDisk(Beside(w, others), vm, sizeGB, pool) == Along(AddDisk(w, vm, sizeGB, pool), others)
  {
    hide AttachNew, CreateVolume, NextTarget, ExtraVolName, FileDisks, LookupDomain, GetXml, With;
    ReadsBeside(w, others, vm);
    var found := LookupDomain(w, vm);
    if sizeGB > 0 && found.r.Ok? {
      ReadsBeside(found.w, others, vm);
      var read := GetXml(found.w, vm);
      if read.r.Ok? {
        var used := Targets(FileDisks(read.r.value));
        CreateVolumeBeside(read.w, others, pool, ExtraVolName(vm, |used| + 1), sizeGB);
        var made := CreateEmptyDisk(read.w, vm, sizeGB, pool, used);
        if made.r.Ok? {
          AttachNewBeside(made.w, others, vm, made.r.value);
        }
      }
    }
  }

  /** What ResizeDisk has read before it resizes. */
  lemma GrowReads(w: World, vm: string, sizeGB: u64)
    ensures var found := LookupDomain(w, vm); var read := GetXml(found.w, vm);
      found.r.Ok? && read.r.Ok? ==>
        var path := SourcePath(read.r.value);
        var volume := LookupVolume(read.w, path); var capacity := VolumeCapacity(volume.w, path);
        var state := GetState(capacity.w, vm);
        && state.w.host == w.host
        && (volume.r.Ok? && capacity.r.Ok? && state.r.Ok? ==>
             HasBoot(w.host, vm) && path == BootPath(w.host, vm) && state.r.value == w.host.doms[vm].run)
  {
    hide FileDisks;
  }

  lemma GrowBeside(w: World, others: Domains, vm: string, sizeGB: u64)
    requires vm !in others
    requires HasBoot(w.host, vm) && BootPath(w.host, vm) != "" && !Active(w.host.doms[vm].run) ==>
      !InUse(w.host.doms, BootPath(w.host, vm)) && !InUse(others, BootPath(w.host, vm))
    ensures ResizeDisk(Beside(w, others), vm, sizeGB) == Along(ResizeDisk(w, vm, sizeGB), others)
  {
    hide FileDisks, GigaBytes, LookupDomain, GetXml, GetState, LookupVolume, VolumeCapacity, VolumeResize, BlockResize;
    hide With, InUse, HasBoot;
    GrowReads(w, vm, sizeGB);
    ReadsBeside(w, others, vm);
    var found := LookupDomain(w, vm);
    ReadsBeside(found.w, others, vm);
    var read := GetXml(found.w, vm);
    if found.r.Ok? && read.r.Ok? {
      var path, bytes := SourcePath(read.r.value), GigaBytes(sizeGB);
      VolumeReadsBeside(read.w, others, "", path);
      var volume := LookupVolume(read.w, path);
      VolumeReadsBeside(volume.w, others, "", path);
      var capacity := VolumeCapacity(volume.w, path);
      ReadsBeside(capacity.w, others, vm);
      var state := GetState(capacity.w, vm);
      if path != "" && volume.r.Ok? && capacity.r.Ok? && state.r.Ok? && !Active(state.r.value) {
        VolumeResizeBeside(state.w, others, path, bytes);
      }
      BlockResizeBeside(state.w, others, vm, "vda", bytes);
    }
  }

  lemma GrowHeld(w: World, others: Domains, vm: string, sizeGB: u64)
    requires vm in w.host.doms && vm !in others && !Active(w.host.doms[vm].run) && InUse(others, BootPath(w.host, vm))
    ensures ResizeDisk(Beside(w, others), vm, sizeGB)
         == Held(ResizeDisk(Refusing(w, w.clock + 5), vm, sizeGB), w.faults, others)
  {
    hide FileDisks, GigaBytes, LookupDomain, GetXml, GetState, LookupVolume, VolumeCapacity, VolumeResize, BlockResize;
    hide With, InUse, HasBoot, Active;
    var n := w.clock + 5;
    GrowReads(w, vm, sizeGB);
    ReadsBeside(w, others, vm);
    ReadsRefusing(w, n, vm, "");
    ReadsKeep(w, vm, "");
    var found := LookupDomain(w, vm);
    ReadsBeside(found.w, others, vm);
    ReadsRefusing(found.w, n, vm, "");
    ReadsKeep(found.w, vm, "");
    var read := GetXml(found.w, vm);
    if found.r.Ok? && read.r.Ok? {
      var path, bytes := SourcePath(read.r.value), GigaBytes(sizeGB);
      VolumeReadsBeside(read.w, others, "", path);
      ReadsRefusing(read.w, n, vm, path);
      ReadsKeep(read.w, vm, path);
      var volume := LookupVolume(read.w, path);
      VolumeReadsBeside(volume.w, others, "", path);
      ReadsRefusing(volume.w, n, vm, path);
      ReadsKeep(volume.w, vm, path);
      var capacity := VolumeCapacity(volume.w, path);
      ReadsBeside(capacity.w, others, vm);
      ReadsRefusing(capacity.w, n, vm, path);
      ReadsKeep(capacity.w, vm, path);
      var state := GetState(capacity.w, vm);
      if volume.r.Ok? && capacity.r.Ok? && state.r.Ok? {
        VolumeResizeHeld(state.w, others, path, bytes);
      }
    }
  }

  lemma SwitchBeside(w: World, others: Domains, xml: string, old_: string, new_: string)
    requires NameOf(ReplaceFirst(xml, old_, new_)) !in others
    ensures SwitchVolume(Beside(w, others), xml, old_, new_) == Along(SwitchVolume(w, xml, old_, new_), others)
  {
    hide ReplaceFirst, NameOf, DefineDomain, DeleteVolume;
    DefineBeside(w, others, ReplaceFirst(xml, old_, new_), true);
    VolumeWritesBeside(DefineDomain(w, ReplaceFirst(xml, old_, new_), true).w, others, old_);
  }

  lemma CopyNames(h: Host, w: World, vm: string, target: string)
    requires Safe(h) && vm in h.doms && HasBoot(h, vm) && w.host == Stopped(h, vm)
    ensures var copied := CopyVolume(w, BootPath(h, vm), target);
      copied.r.Ok? ==> NameOf(ReplaceFirst(h.doms[vm].xml, BootPath(h, vm), copied.r.value)) == vm
  {
    hide Safe, SourcePath, ReplaceFirst, NameOf, CopyVolume, PathIn, VolumeNameOk, TextOk, VolumeOk, FileDisks;
    hide PoolPath;
    BootFacts(h, vm);
    StopKeeps(h, vm);
    CopyOutcome(w, BootPath(h, vm), target);
    if CopyVolume(w, BootPath(h, vm), target).r.Ok? {
      MovedText(h, vm, target);
    }
  }

  lemma RelocateBeside(w: World, others: Domains, vm: string, run: RunState, xml: string, old_: string,
                       target: string)
    requires vm !in others
    requires var copied := CopyVolume(w, old_, target).r;
      copied.Ok? ==> NameOf(ReplaceFirst(xml, old_, copied.value)) !in others
    ensures Relocate(Beside(w, others), vm, run, xml, old_, target)
         == Along(Relocate(w, vm, run, xml, old_, target), others)
  {
    hide ReplaceFirst, NameOf, CopyVolume, SwitchVolume, Start, With;
    CopyBeside(w, others, old_, target);
    var copied := CopyVolume(w, old_, target);
    if copied.r.Ok? {
      SwitchBeside(copied.w, others, xml, old_, copied.r.value);
      StartBeside(SwitchVolume(copied.w, xml, old_, copied.r.value).w, others, vm);
    }
  }

  lemma MigrateBeside(w: World, others: Domains, vm: string, target: string)
    requires Safe(w.host) && vm !in others
    ensures MigrateDisk(Beside(w, others), vm, target) == Along(MigrateDisk(w, vm, target), others)
  {
    hide Safe, SourcePath, StopIfActive, Relocate, LookupDomain, GetState, GetXml, HasBoot, Stopped, With;
    hide CopyVolume, NameOf, ReplaceFirst;
    ReadsBeside(w, others, vm);
    var found := LookupDomain(w, vm);
    ReadsBeside(found.w, others, vm);
    var state := GetState(found.w, vm);
    ReadsBeside(state.w, others, vm);
    var read := GetXml(state.w, vm);
    if found.r.Ok? && state.r.Ok? && read.r.Ok? {
      RunBeside(read.w, others, vm, state.r.value);
      ReadsMean(w, vm);
      var stopped := StopIfActive(read.w, vm, state.r.value);
      if stopped.r.Ok? {
        BootFacts(w.host, vm);
        CopyNames(w.host, stopped.w, vm, target);
        RelocateBeside(stopped.w, others, vm, state.r.value, read.r.value, BootPath(w.host, vm), target);
      }
    }
  }

  lemma ReadsMean(w: World, vm: string)
    ensures var found := LookupDomain(w, vm); var state := GetState(found.w, vm); var read := GetXml(state.w, vm);
      found.r.Ok? && state.r.Ok? && read.r.Ok? ==>
        && vm in w.host.doms && state.r.value == w.host.doms[vm].run && read.r.value == w.host.doms[vm].xml
        && var stopped := StopIfActive(read.w, vm, state.r.value);
           stopped.r.Ok? ==> stopped.w.host == Stopped(w.host, vm)
  {
  }

  lemma DeleteBeside(w: World, others: Domains, vm: string)
    requires vm !in others
    ensures Delete(Beside(w, others), vm, false) == Along(Delete(w, vm, false), others)
  {
    hide FileDisks, DeleteVolumes, LookupDomain, GetState, GetXml, StopIfActive, UndefineDomain, With;
    ReadsBeside(w, others, vm);
    var found := LookupDomain(w, vm);
    ReadsBeside(found.w, others, vm);
    var read := GetXml(found.w, vm);
    ReadsBeside(read.w, others, vm);
    var state := GetState(read.w, vm);
    if found.r.Ok? && state.r.Ok? {
      RunBeside(state.w, others, vm, state.r.value);
      var stopped := StopIfActive(state.w, vm, state.r.value);
      if stopped.r.Ok? {
        UndefineBeside(stopped.w, others, vm);
        var undefined := UndefineDomain(stopped.w, vm);
        if undefined.r.Ok? && read.r.Ok? {
          DeleteVolumesBeside(undefined.w, others, Paths(FileDisks(read.r.value)));
        }
      }
    }
  }

  // ---------------------------------------------------------------- operations, and the lists of the other domains

  function VmOf(op: Op): string {
    match op
    case CreateVm(cfg) => cfg.name
    case AddDiskTo(vm, _, _) => vm
    case ResizeDiskOf(vm, _) => vm
    case MigrateDiskOf(vm, _) => vm
    case DeleteVm(vm) => vm
    case Power(vm, _) => vm
  }

  /** No other domain that is active holds the volume that the operation resizes. */
  ghost predicate Freely(h: Host, others: Domains, op: Op) {
    match op
    case CreateVm(cfg) => CanClone(h, cfg) ==> !InUse(others, BootDisk(h, cfg))
    case ResizeDiskOf(vm, _) => HasBoot(h, vm) && BootPath(h, vm) != "" ==> !InUse(others, BootPath(h, vm))
    case _ => true
  }

  lemma CloneNotInUse(h: Host, cfg: VMConfig)
    requires Safe(h) && CloneRequest(cfg) && CanClone(h, cfg)
    ensures !InUse(h.doms, BootDisk(h, cfg))
  {
    hide Safe, Lists, PathIn, VolumeNameOk, Unlisted, InUse;
    FreshUnlisted(h, BootDisk(h, cfg));
    UnlistedNotInUse(h, BootDisk(h, cfg));
  }

  /** An operation does beside other domains what it does without them. */
  lemma PerformBeside(w: World, op: Op, others: Domains)
    requires Safe(w.host) && Allowed(op) && VmOf(op) !in others && Freely(w.host, others, op)
    ensures Perform(Beside(w, others), op) == Beside(Perform(w, op), others)
  {
    hide Safe, Provision, AddDisk, ResizeDisk, MigrateDisk, Delete, With, NoChar, InUse, BootPath, CanClone, BootDisk;
    match op
    case CreateVm(cfg) =>
      if CanClone(w.host, cfg) {
        CloneNotInUse(w.host, cfg);
      }
      ProvisionBeside(w, others, cfg);
    case AddDiskTo(vm, sizeGB, pool) => AddBeside(w, others, vm, sizeGB, pool);
    case ResizeDiskOf(vm, sizeGB) =>
      if vm in w.host.doms {
        BootInUse(w.host, vm);
      }
      GrowBeside(w, others, vm, sizeGB);
    case MigrateDiskOf(vm, pool) => MigrateBeside(w, others, vm, pool);
    case DeleteVm(vm) => DeleteBeside(w, others, vm);
    case Power(vm, run) => PowerBeside(w, others, vm, run);
  }

  lemma PowerBeside(w: World, others: Domains, vm: string, run: RunState)
    requires vm !in others
    ensures SetPower(Beside(w, others), vm, run) == Beside(SetPower(w, vm, run), others)
  {
    if vm in w.host.doms {
      SetRunBeside(w.host, others, vm, run);
    }
  }

  /** No pool can ever have a volume there. */
  ghost predicate Outside(pools: map<string, string>, path: string) {
    forall pool, name :: pool in pools ==> PathIn(pools[pool], name) != path
  }

  /** Not a disk of a VM of vmtool's, and not to become one: a volume that none lists, or no volume's place. */
  ghost predicate Aside(h: Host, path: string) {
    Unlisted(Lists(h), path) && (path in h.vols || Outside(h.pools, path))
  }

  /** The other domains' disks have nothing to do with those of vmtool's VMs. */
  ghost predicate Apart(h: Host, others: Domains) {
    forall n, i :: n in others && 0 <= i < |FileDisks(others[n].xml)| ==> Aside(h, FileDisks(others[n].xml)[i].path)
  }

  /** The other domains that are active. */
  function Holders(others: Domains): Domains {
    map n | n in others && Active(others[n].run) :: others[n]
  }

  lemma HeldIsAside(h: Host, others: Domains, path: string)
    requires Apart(h, Holders(others)) && InUse(others, path)
    ensures Aside(h, path) && path != ""
  {
    hide FileDisks, Aside;
    var n :| n in others && Active(others[n].run) && ListsPath(FileDisks(others[n].xml), path);
    ParsedDisksAreClean(others[n].xml);
    var disks := FileDisks(Holders(others)[n].xml);
    var d :| d in disks && d.path == path;
    var i :| 0 <= i < |disks| && disks[i] == d;
    assert Aside(h, disks[i].path);
  }

  /** Then they hold nothing that an operation resizes. */
  lemma ApartLeavesFree(h: Host, others: Domains, op: Op)
    requires Apart(h, Holders(others)) && Allowed(op)
    ensures Freely(h, others, op)
  {
    hide FileDisks, PathIn, VolumeNameOk, InUse, Apart, NoChar;
    match op
    case CreateVm(cfg) =>
      if CanClone(h, cfg) && InUse(others, BootDisk(h, cfg)) {
        HeldIsAside(h, others, BootDisk(h, cfg));
      }
    case ResizeDiskOf(vm, _) =>
      if HasBoot(h, vm) && BootPath(h, vm) != "" && InUse(others, BootPath(h, vm)) {
        HeldIsAside(h, others, BootPath(h, vm));
        BootIsListed(h, vm);
      }
    case _ =>
  }

  lemma BootIsListed(h: Host, vm: string)
    requires vm in h.doms && BootPath(h, vm) != ""
    ensures !Unlisted(Lists(h), BootPath(h, vm))
  {
    hide FileDisks;
    assert DiskAt(Lists(h), vm, 0, BootPath(h, vm));
  }

  lemma DisksBeside(h: Host, others: Domains, n: string)
    ensures n in others ==> n in With(h, others).doms && Disks(With(h, others), n) == FileDisks(others[n].xml)
    ensures n !in others && n in With(h, others).doms ==> n in h.doms && Disks(With(h, others), n) == Disks(h, n)
    ensures n in h.doms ==> n in With(h, others).doms
    ensures With(h, others).vols == h.vols
  {
    hide FileDisks;
  }

  lemma AsideIsNotListed(h: Host, vm: string, i: nat, p: string)
    requires Aside(h, p) && vm in h.doms && i < |Disks(h, vm)|
    ensures Disks(h, vm)[i].path != p
  {
    hide FileDisks;
    assert DiskAt(Lists(h), vm, i, Disks(h, vm)[i].path);
  }

  /** What a host says of its own VMs' disks it says with the other domains there. */
  lemma OwnBesideOthers(h: Host, others: Domains, vm: string, i: nat)
    requires Apart(h, others) && vm in h.doms && vm !in others && i < |Disks(h, vm)| && OwnDisk(h, vm, i)
    ensures vm in With(h, others).doms && i < |Disks(With(h, others), vm)| && OwnDisk(With(h, others), vm, i)
  {
    hide Disks, FileDisks, VdTarget, DiskVolName, Aside, With;
    var g, d := With(h, others), Disks(h, vm)[i];
    DisksBeside(h, others, vm);
    forall other, j | other in g.doms && 0 <= j < |Disks(g, other)| && (other != vm || j != i)
      ensures Disks(g, other)[j].path != d.path
    {
      DisksBeside(h, others, other);
      if other in others {
        AsideIsNotListed(h, vm, i, FileDisks(others[other].xml)[j].path);
      }
    }
  }
}
