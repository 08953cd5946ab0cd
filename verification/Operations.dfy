/**
  What the Manager's storage and lifecycle operations do to the world, call by call, as
  functions.  Hypervisor.dfy holds the operations as written, each proved to do exactly this.
 */
module Operations {
  import opened Text
  import opened Outcomes
  import opened DomainDescription
  import opened GuestAddress
  import opened VolumeNames
  import opened Libvirt

  /** A size in gigabytes as bytes, in 64-bit arithmetic. */
  function GigaBytes(sizeGB: u64): u64 {
    (sizeGB * GIB) % U64
  }

  function OrDefault(pool: string): string {
    if pool == "" then "default" else pool
  }

  // ---------------------------------------------------------------- volumes

  function CloneImage(w: World, basePath: string, newName: string, targetPool: string): Step<string> {
    var (w, _) :- LookupVolume(w, basePath);
    var (w, capacity) :- VolumeCapacity(w, basePath);
    var (w, _) :- LookupPool(w, OrDefault(targetPool));
    var (w, vol) :- CreateVolumeFrom(w, OrDefault(targetPool), newName + QCOW2, capacity, basePath);
    VolumePath(w, vol)
  }

  function CreateVolume(w: World, pool: string, volName: string, sizeGB: u64): Step<string> {
    if sizeGB == 0 then Step(w, Err(ZeroSize)) else
    var name := NormalizeVolName(volName);
    if name == "" then Step(w, Err(NoVolumeName)) else
    var (w, _) :- LookupPool(w, OrDefault(pool));
    var (w, vol) :- CreateVolumeXml(w, OrDefault(pool), name, sizeGB);
    VolumePath(w, vol)
  }

  function ResizeVolume(w: World, path: string, bytes: u64): Step<()> {
    var (w, _) :- LookupVolume(w, path);
    VolumeResize(w, path, bytes)
  }

  function DeleteVolumeByPath(w: World, path: string): Step<()> {
    var found := LookupVolume(w, path);
    if found.r.Err? then Step(found.w, Ok(())) else DeleteVolume(found.w, path)
  }

  function DeleteVolumes(w: World, paths: seq<string>): Step<()>
    decreases |paths|
  {
    if paths == [] then Step(w, Ok(())) else
    var (w, _) :- DeleteVolumeByPath(w, paths[0]);
    DeleteVolumes(w, paths[1..])
  }

  function CreateEmptyDisk(w: World, vm: string, sizeGB: u64, pool: string, used: seq<string>): Step<DiskDevice> {
    match NextTarget(used)
    case None => Step(w, Err(NoFreeTarget))
    case Some(target) =>
      var (w, path) :- CreateVolume(w, pool, ExtraVolName(vm, |used| + 1), sizeGB);
      Step(w, Ok(DiskDevice(path, target)))
  }

  // ---------------------------------------------------------------- domains

  function Define(w: World, cfg: VMConfig): Step<()> {
    var (w, _) :- DefineDomain(w, DomainXml(cfg), false);
    FreeDomain(w)
  }

  function Start(w: World, name: string): Step<()> {
    var (w, _) :- LookupDomain(w, name);
    CreateDomain(w, name)
  }

  /** Manager.Create: clone, resize, add a disk, define and start. */
  function Create(w: World, cfg: VMConfig): Step<()> {
    var (w, diskPath) :-
      if cfg.noclone then Step(w, Ok(cfg.diskPath)) else CloneImage(w, cfg.diskPath, cfg.name, cfg.pool);
    var cfg := cfg.(diskPath := diskPath);
    var (w, _) :-
      if cfg.diskSizeGB > 0 then ResizeVolume(w, cfg.diskPath, GigaBytes(cfg.diskSizeGB)) else Step(w, Ok(()));
    var (w, extraDisks) :-
      if cfg.extraDiskSizeGB > 0 then
        var pool := if cfg.extraDiskPool == "" then cfg.pool else cfg.extraDiskPool;
        var (w, extra) :- CreateEmptyDisk(w, cfg.name, cfg.extraDiskSizeGB, pool, ["vda"]);
        Step(w, Ok(cfg.extraDisks + [extra]))
      else Step(w, Ok(cfg.extraDisks));
    var cfg := cfg.(extraDisks := extraDisks);
    var (w, _) :- Define(w, cfg);
    Start(w, cfg.name)
  }

  // The segment of Service.CreateVM that talks to libvirt until the VM is started.

  function ProvisionDisk(w: World, cfg: VMConfig): Step<VMConfig> {
    if cfg.noclone then Step(w, Ok(cfg)) else
    var (w, cloned) :- CloneImage(w, cfg.diskPath, cfg.name, cfg.pool);
    Step(w, Ok(cfg.(diskPath := cloned)))
  }

  function ProvisionSize(w: World, cfg: VMConfig): Step<()> {
    if cfg.diskSizeGB > 0 then ResizeVolume(w, cfg.diskPath, GigaBytes(cfg.diskSizeGB)) else Step(w, Ok(()))
  }

  function ExtraPool(cfg: VMConfig): string {
    if cfg.extraDiskPool == "" then cfg.pool else cfg.extraDiskPool
  }

  function ProvisionExtra(w: World, cfg: VMConfig): Step<VMConfig> {
    if cfg.extraDiskSizeGB == 0 then Step(w, Ok(cfg)) else
    var (w, path) :- CreateVolume(w, ExtraPool(cfg), cfg.name + "-2.qcow2", cfg.extraDiskSizeGB);
    Step(w, Ok(cfg.(extraDisks := [DiskDevice(path, "vdb")])))
  }

  function ProvisionBoot(w: World, cfg: VMConfig): Step<()> {
    var (w, _) :- Define(w, cfg);
    Start(w, cfg.name)
  }

  function Provision(w: World, cfg: VMConfig): Step<()> {
    var (w, cfg) :- ProvisionDisk(w, cfg);
    var (w, _) :- ProvisionSize(w, cfg);
    var (w, cfg) :- ProvisionExtra(w, cfg);
    ProvisionBoot(w, cfg)
  }

  function Targets(disks: seq<DiskDevice>): seq<string> {
    seq(|disks|, i requires 0 <= i < |disks| => disks[i].target)
  }

  function Paths(disks: seq<DiskDevice>): seq<string> {
    seq(|disks|, i requires 0 <= i < |disks| => disks[i].path)
  }

  /** Taking the new volume back when the disk could not be attached. */
  function RollBack<T>(w: World, path: string, error: Error): Step<T> {
    Step(DeleteVolumeByPath(w, path).w, Err(error))
  }

  /** Attaching a volume that has just been created, live when the VM is active. */
  function AttachNew(w: World, name: string, disk: DiskDevice): Step<DiskDevice> {
    var state := GetState(w, name);
    if state.r.Err? then RollBack(state.w, disk.path, state.r.error) else
    var attached := AttachDevice(state.w, name, DiskXml(disk.path, disk.target), Active(state.r.value));
    if attached.r.Err? then RollBack(attached.w, disk.path, attached.r.error) else
    Step(attached.w, Ok(disk))
  }

  function AddDisk(w: World, name: string, sizeGB: u64, pool: string): Step<DiskDevice> {
    if sizeGB == 0 then Step(w, Err(ZeroSize)) else
    var (w, _) :- LookupDomain(w, name);
    var (w, xml) :- GetXml(w, name);
    var (w, disk) :- CreateEmptyDisk(w, name, sizeGB, pool, Targets(FileDisks(xml)));
    AttachNew(w, name, disk)
  }

  function ResizeDisk(w: World, name: string, sizeGB: u64): Step<()> {
    if sizeGB == 0 then Step(w, Err(ZeroSize)) else
    var (w, _) :- LookupDomain(w, name);
    var (w, xml) :- GetXml(w, name);
    var path := SourcePath(xml);
    if path == "" then Step(w, Err(NoDiskInXml)) else
    var (w, _) :- LookupVolume(w, path);
    var (w, capacity) :- VolumeCapacity(w, path);
    var bytes := GigaBytes(sizeGB);
    if bytes <= capacity then Step(w, Err(NotLarger(capacity / GIB))) else
    var (w, run) :- GetState(w, name);
    if Active(run) then BlockResize(w, name, "vda", bytes)
    else VolumeResize(w, path, bytes)
  }

  /** Making the copy of a boot disk in another pool, under the same volume name. */
  function CopyVolume(w: World, oldPath: string, targetPool: string): Step<string> {
    var (w, _) :- LookupVolume(w, oldPath);
    var (w, _) :- LookupPool(w, targetPool);
    var (w, capacity) :- VolumeCapacity(w, oldPath);
    var (w, volName) :- VolumeName(w, oldPath);
    var (w, vol) :- CreateVolumeFrom(w, targetPool, volName, capacity, oldPath);
    VolumePath(w, vol)
  }

  /** Pointing the domain at the copy, then dropping the original. */
  function SwitchVolume(w: World, xml: string, oldPath: string, newPath: string): Step<()> {
    var (w, _) :- DefineDomain(w, ReplaceFirst(xml, oldPath, newPath), true);
    DeleteVolume(w, oldPath)
  }

  function StopIfActive(w: World, name: string, run: RunState): Step<()> {
    if Active(run) then DestroyDomain(w, name) else Step(w, Ok(()))
  }

  /** Copy, switch over and restart a VM that has been stopped. */
  function Relocate(w: World, vm: string, run: RunState, xml: string, oldPath: string, targetPool: string): Step<()> {
    var (w, newPath) :- CopyVolume(w, oldPath, targetPool);
    var (w, _) :- SwitchVolume(w, xml, oldPath, newPath);
    if Active(run) then Start(w, vm) else Step(w, Ok(()))
  }

  /** Copy the boot disk to another pool, point the domain at the copy, drop the original, restart. */
  function MigrateDisk(w: World, vm: string, targetPool: string): Step<()> {
    var (w, _) :- LookupDomain(w, vm);
    var (w, run) :- GetState(w, vm);
    var (w, xml) :- GetXml(w, vm);
    var oldPath := SourcePath(xml);
    if oldPath == "" then Step(w, Err(NoDiskInXml)) else
    var (w, _) :- StopIfActive(w, vm, run);
    Relocate(w, vm, run, xml, oldPath, targetPool)
  }

  /** Force off, undefine and, unless the VM runs on the image itself, remove its volumes. */
  function Delete(w: World, name: string, noclone: bool): Step<()> {
    var (w, _) :- LookupDomain(w, name);
    var read := if noclone then Step(w, Ok("")) else GetXml(w, name);
    var paths := if read.r.Ok? then Paths(FileDisks(read.r.value)) else [];
    var (w, run) :- GetState(read.w, name);
    var (w, _) :- StopIfActive(w, name, run);
    var (w, _) :- UndefineDomain(w, name);
    if noclone || paths == [] then Step(w, Ok(())) else DeleteVolumes(w, paths)
  }

  // ---------------------------------------------------------------- looking after a running VM

  datatype VMInfo = VMInfo(name: string, state: RunState, ip: string)

  /** A guest has an address to show only while it is running. */
  function ShownIp(run: RunState, guest: Answers): string {
    if run == Running && FirstCandidate(guest).Ok? then FirstCandidate(guest).value.text else ""
  }

  /** Info; `guest` is what the guest's address sources answer if they are asked. */
  function Info(w: World, name: string, guest: Answers): Step<VMInfo> {
    var (w, _) :- LookupDomain(w, name);
    var (w, _) :- GetInfo(w, name);
    var (w, run) :- GetState(w, name);
    Step(w, Ok(VMInfo(name, run, ShownIp(run, guest))))
  }

  /** WaitForIP; `polls` is what the address sources answer until the deadline. */
  function WaitForIp(w: World, name: string, polls: seq<Answers>): Step<string> {
    var (w, _) :- LookupDomain(w, name);
    Step(w, AwaitedAddress(polls))
  }

  function Reboot(w: World, name: string): Step<()> {
    var (w, _) :- LookupDomain(w, name);
    RebootDomain(w, name)
  }

  // c is the number of the first call, f the refused ones.

  /**
    Looking at a VM changes nothing.  Info fails exactly when one of its three calls is refused,
    and shows the VM's own state, with the first candidate for its address only while it runs.
   */
  lemma InfoTells(w: World, name: string, guest: Answers)
    ensures var o, h, c, f := Info(w, name, guest), w.host, w.clock, w.faults;
      && o.w.host == h && (o.r.Ok? <==> name in h.doms && c !in f && c + 1 !in f && c + 2 !in f)
      && (o.r.Err? ==> o.r == Err(CallFailed))
      && (o.r.Ok? ==>
        && o.r.value.name == name && o.r.value.state == h.doms[name].run
        && o.r.value.ip ==
             if h.doms[name].run == Running && Candidates(guest) != [] then Candidates(guest)[0].text else "")
  {
    hide Candidates;
  }

  /** The wait ends with the address that some poll yields, or the VM is not found, or no poll yields one. */
  lemma WaitTells(w: World, name: string, polls: seq<Answers>)
    ensures var o := WaitForIp(w, name, polls);
      && o.w.host == w.host
      && o.r == if name !in w.host.doms || w.clock in w.faults then Err(CallFailed) else AwaitedAddress(polls)
  {
    hide AwaitedAddress;
  }

  /** A reboot is refused exactly when a call is, or when the VM is not active; it leaves the VM as it was. */
  lemma RebootTells(w: World, name: string)
    ensures var o, h, c, f := Reboot(w, name), w.host, w.clock, w.faults;
      && o.w.host == h && (o.r.Err? ==> o.r == Err(CallFailed))
      && (o.r.Ok? <==> name in h.doms && Active(h.doms[name].run) && c !in f && c + 1 !in f)
  {
  }
}
