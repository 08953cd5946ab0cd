/**
  The Manager as written: methods that call libvirt one call at a time and return at the
  first error.  Each is proved to do exactly what Operations says, so every theorem about
  those functions is a theorem about these methods.
 */
module Hypervisor {
  import opened Outcomes
  import opened DomainDescription
  import opened GuestAddress
  import opened VolumeNames
  import opened Libvirt
  import opened Text
  import Operations

  /** Manager: the connection, and what is behind it. */
  class Manager {
    var world: World

    constructor (w: World)
      ensures world == w
    {
      world := w;
    }

    /** One libvirt call. */
    method Call<T>(f: World -> Step<T>) returns (r: Result<T>)
      modifies this
      ensures Step(world, r) == f(old(world))
    {
      var s := f(world);
      world := s.w;
      r := s.r;
    }

    method Define(cfg: VMConfig) returns (r: Result<()>)
      modifies this
      ensures Step(world, r) == Operations.Define(old(world), cfg)
    {
      hide DefineDomain, DomainXml;
      var xml := DomainXml(cfg);
      var _ :- Call(w => DefineDomain(w, xml, false));
      var _ :- Call(w => FreeDomain(w));
      return Ok(());
    }

    method Start(name: string) returns (r: Result<()>)
      modifies this
      ensures Step(world, r) == Operations.Start(old(world), name)
    {
      var _ :- Call(w => LookupDomain(w, name));
      r := Call(w => CreateDomain(w, name));
    }

    method CloneImage(basePath: string, newName: string, pool: string) returns (r: Result<string>)
      modifies this
      ensures Step(world, r) == Operations.CloneImage(old(world), basePath, newName, pool)
    {
      var _ :- Call(w => LookupVolume(w, basePath));
      var capacity :- Call(w => VolumeCapacity(w, basePath));
      var targetPool := pool;
      if targetPool == "" {
        targetPool := "default";
      }
      var p := targetPool;
      var _ :- Call(w => LookupPool(w, p));
      var volName := newName + QCOW2;
      var vol :- Call(w => CreateVolumeFrom(w, p, volName, capacity, basePath));
      r := Call(w => VolumePath(w, vol));
    }

    method ResizeVolume(path: string, bytes: u64) returns (r: Result<()>)
      modifies this
      ensures Step(world, r) == Operations.ResizeVolume(old(world), path, bytes)
    {
      var _ :- Call(w => LookupVolume(w, path));
      r := Call(w => VolumeResize(w, path, bytes));
    }

    method DeleteVolumeByPath(path: string) returns (r: Result<()>)
      modifies this
      ensures Step(world, r) == Operations.DeleteVolumeByPath(old(world), path)
    {
      var found := Call(w => LookupVolume(w, path));
      if found.Err? {
        return Ok(());
      }
      r := Call(w => DeleteVolume(w, path));
    }

    method CreateVolume(pool: string, name: string, sizeGB: u64) returns (r: Result<string>)
      modifies this
      ensures Step(world, r) == Operations.CreateVolume(old(world), pool, name, sizeGB)
    {
      if sizeGB == 0 {
        return Err(ZeroSize);
      }
      var poolName := pool;
      if poolName == "" {
        poolName := "default";
      }
      var p, volName := poolName, NormalizeVolName(name);
      if volName == "" {
        return Err(NoVolumeName);
      }
      var _ :- Call(w => LookupPool(w, p));
      var vol :- Call(w => CreateVolumeXml(w, p, volName, sizeGB));
      r := Call(w => VolumePath(w, vol));
    }

    method CreateEmptyDisk(vm: string, sizeGB: u64, pool: string, used: seq<string>) returns (r: Result<DiskDevice>)
      modifies this
      ensures Step(world, r) == Operations.CreateEmptyDisk(old(world), vm, sizeGB, pool, used)
    {
      hide Operations.CreateVolume, ExtraVolName;
      var target := NextVirtioTarget(used);
      if target.None? {
        return Err(NoFreeTarget);
      }
      var path :- CreateVolume(pool, ExtraVolName(vm, |used| + 1), sizeGB);
      return Ok(DiskDevice(path, target.value));
    }

    method Create(config: VMConfig) returns (r: Result<()>)
      modifies this
      ensures Step(world, r) == Operations.Create(old(world), config)
    {
      hide Operations.CloneImage, Operations.ResizeVolume, Operations.CreateEmptyDisk;
      hide Operations.Define, Operations.Start;
      var cfg := config;
      if !cfg.noclone {
        var clonedPath :- CloneImage(cfg.diskPath, cfg.name, cfg.pool);
        cfg := cfg.(diskPath := clonedPath);
      }
      if cfg.diskSizeGB > 0 {
        var _ :- ResizeVolume(cfg.diskPath, Operations.GigaBytes(cfg.diskSizeGB));
      }
      if cfg.extraDiskSizeGB > 0 {
        var pool := cfg.extraDiskPool;
        if pool == "" {
          pool := cfg.pool;
        }
        var extra :- CreateEmptyDisk(cfg.name, cfg.extraDiskSizeGB, pool, ["vda"]);
        cfg := cfg.(extraDisks := cfg.extraDisks + [extra]);
      }
      var _ :- Define(cfg);
      r := Start(cfg.name);
    }

    method AddDisk(name: string, sizeGB: u64, pool: string) returns (r: Result<DiskDevice>)
      modifies this
      ensures Step(world, r) == Operations.AddDisk(old(world), name, sizeGB, pool)
    {
      hide Operations.CreateEmptyDisk, Operations.DeleteVolumeByPath, FileDisks, DiskXml, Splice;
      if sizeGB == 0 {
        return Err(ZeroSize);
      }
      var _ :- Call(w => LookupDomain(w, name));
      var xml :- Call(w => GetXml(w, name));
      var disks := ParseFileDisks(xml);
      var used: seq<string> := [];
      for i := 0 to |disks|
        invariant used == Operations.Targets(disks[..i])
      {
        used := used + [disks[i].target];
      }
      assert disks[..|disks|] == disks;
      var disk :- CreateEmptyDisk(name, sizeGB, pool, used);
      var live := false;
      var state := Call(w => GetState(w, name));
      if state.Err? {
        var _ := DeleteVolumeByPath(disk.path);
        return Err(state.error);
      }
      if state.value == Running || state.value == Paused {
        live := true;
      }
      var alive := live;
      var attached := Call(w => AttachDevice(w, name, DiskXml(disk.path, disk.target), alive));
      if attached.Err? {
        var _ := DeleteVolumeByPath(disk.path);
        return Err(attached.error);
      }
      return Ok(disk);
    }

    method ResizeDisk(name: string, sizeGB: u64) returns (r: Result<()>)
      modifies this
      ensures Step(world, r) == Operations.ResizeDisk(old(world), name, sizeGB)
    {
      hide SourcePath, FileDisks;
      if sizeGB == 0 {
        return Err(ZeroSize);
      }
      var _ :- Call(w => LookupDomain(w, name));
      var xml :- Call(w => GetXml(w, name));
      var path := SourcePath(xml);
      if path == "" {
        return Err(NoDiskInXml);
      }
      var _ :- Call(w => LookupVolume(w, path));
      var capacity :- Call(w => VolumeCapacity(w, path));
      var bytes := Operations.GigaBytes(sizeGB);
      if bytes <= capacity {
        return Err(NotLarger(capacity / GIB));
      }
      var state :- Call(w => GetState(w, name));
      if state == Running || state == Paused {
        r := Call(w => BlockResize(w, name, "vda", bytes));
        return;
      }
      r := Call(w => VolumeResize(w, path, bytes));
    }

    method MigrateDisk(vm: string, targetPool: string) returns (r: Result<()>)
      modifies this
      ensures Step(world, r) == Operations.MigrateDisk(old(world), vm, targetPool)
    {
      hide SourcePath, ReplaceFirst, NameOf, PathIn, VolumeNameOk;
      var _ :- Call(w => LookupDomain(w, vm));
      var state :- Call(w => GetState(w, vm));
      var wasRunning := state == Running || state == Paused;
      var xml :- Call(w => GetXml(w, vm));
      var oldPath := SourcePath(xml);
      if oldPath == "" {
        return Err(NoDiskInXml);
      }
      if wasRunning {
        var _ :- Call(w => DestroyDomain(w, vm));
      }
      var _ :- Call(w => LookupVolume(w, oldPath));
      var _ :- Call(w => LookupPool(w, targetPool));
      var capacity :- Call(w => VolumeCapacity(w, oldPath));
      var volName :- Call(w => VolumeName(w, oldPath));
      var vol :- Call(w => CreateVolumeFrom(w, targetPool, volName, capacity, oldPath));
      var newPath :- Call(w => VolumePath(w, vol));
      var newXml := ReplaceFirst(xml, oldPath, newPath);
      var _ :- Call(w => DefineDomain(w, newXml, true));
      var _ :- Call(w => DeleteVolume(w, oldPath));
      if wasRunning {
        var _ :- Call(w => LookupDomain(w, vm));
        var _ :- Call(w => CreateDomain(w, vm));
      }
      return Ok(());
    }

    method Delete(name: string, noclone: bool) returns (r: Result<()>)
      modifies this
      ensures Step(world, r) == Operations.Delete(old(world), name, noclone)
    {
      hide FileDisks, Operations.DeleteVolumeByPath;
      var _ :- Call(w => LookupDomain(w, name));
      var diskPaths: seq<string> := [];
      if !noclone {
        var xml := Call(w => GetXml(w, name));
        if xml.Ok? {
          var disks := ParseFileDisks(xml.value);
          for i := 0 to |disks|
            invariant diskPaths == Operations.Paths(disks[..i])
          {
            diskPaths := diskPaths + [disks[i].path];
          }
          assert disks[..|disks|] == disks;
        }
      }
      var state :- Call(w => GetState(w, name));
      if state == Running || state == Paused {
        var _ :- Call(w => DestroyDomain(w, name));
      }
      var _ :- Call(w => UndefineDomain(w, name));
      if noclone || |diskPaths| == 0 {
        return Ok(());
      }
      ghost var undefined := world;
      for i := 0 to |diskPaths|
        invariant Operations.DeleteVolumes(world, diskPaths[i..]) == Operations.DeleteVolumes(undefined, diskPaths)
      {
        assert diskPaths[i..][1..] == diskPaths[i + 1..];
        var _ :- DeleteVolumeByPath(diskPaths[i]);
      }
      return Ok(());
    }

    method Info(name: string, guest: Answers) returns (r: Result<Operations.VMInfo>)
      modifies this
      ensures Step(world, r) == Operations.Info(old(world), name, guest)
    {
      hide FirstCandidate;
      var _ :- Call(w => LookupDomain(w, name));
      var _ :- Call(w => GetInfo(w, name));
      var state :- Call(w => GetState(w, name));
      var info := Operations.VMInfo(name, state, "");
      if state == Running {
        var ip := GetIp(guest);
        if ip.Ok? {
          info := info.(ip := ip.value.text);
        }
      }
      return Ok(info);
    }

    method WaitForIp(name: string, polls: seq<Answers>) returns (r: Result<string>)
      modifies this
      ensures Step(world, r) == Operations.WaitForIp(old(world), name, polls)
    {
      var _ :- Call(w => LookupDomain(w, name));
      r := PollForIp(polls);
    }

    method Reboot(name: string) returns (r: Result<()>)
      modifies this
      ensures Step(world, r) == Operations.Reboot(old(world), name)
    {
      var _ :- Call(w => LookupDomain(w, name));
      r := Call(w => RebootDomain(w, name));
    }
  }
}
