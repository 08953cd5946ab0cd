/** Growing the boot disk: the arithmetic of sizes, and that both ways of resizing grow the disk that was checked. */
module DiskGrowth {
  import opened Outcomes
  import opened DomainDescription
  import opened Libvirt
  import opened Operations
  import opened Safety
  import opened Migration

  /** Below 2^34 gigabytes the multiplication does not wrap, and only there. */
  lemma GigaBytesExact(sizeGB: u64)
    ensures GigaBytes(sizeGB) == sizeGB * 1024 * 1024 * 1024 <==> sizeGB < 0x4_0000_0000
  {
  }

  /** From 2^34 on, sizes start over. */
  lemma GigaBytesWraps(sizeGB: u64)
    requires sizeGB + 0x4_0000_0000 < U64
    ensures GigaBytes(sizeGB + 0x4_0000_0000) == GigaBytes(sizeGB)
  {
  }

  /** Unless it wraps, a size is too small exactly when it is at most the whole gigabytes in use. */
  lemma RejectedExactly(sizeGB: u64, capacity: u64)
    requires sizeGB < 0x4_0000_0000
    ensures GigaBytes(sizeGB) <= capacity <==> sizeGB <= capacity / (1024 * 1024 * 1024)
  {
  }

  /**
    ResizeDisk, exit by exit, with c the number of its first call.  Online (through the device
    vda) and offline alike, success sets the capacity of the very volume whose capacity was
    compared, to strictly more than before; every failure leaves the host as it was, and which
    error it is the size, the capacity and the refused calls tell.
   */
  lemma ResizeDiskExits(w: World, vm: string, sizeGB: u64)
    requires Safe(w.host) && vm in w.host.doms
    ensures HasBoot(w.host, vm)
    ensures var o, h, boot := ResizeDisk(w, vm, sizeGB), w.host, BootPath(w.host, vm);
      && Later(w, o.w)
      && (o.r.Ok? ==>
        && sizeGB > 0 && GigaBytes(sizeGB) > h.vols[boot].capacity
        && o.w.host == SetCapacity(h, boot, GigaBytes(sizeGB)))
      && (o.r.Err? ==> o.w.host == h)
      && (o.r.Err? && o.r.error.NotLarger? ==>
        && GigaBytes(sizeGB) <= h.vols[boot].capacity
        && o.r.error.currentGB == h.vols[boot].capacity / GIB)
      && (NoFaults(w) ==> (o.r.Ok? <==> sizeGB > 0 && GigaBytes(sizeGB) > h.vols[boot].capacity))
    ensures var o, boot, c, f := ResizeDisk(w, vm, sizeGB), BootPath(w.host, vm), w.clock, w.faults;
      o.r == if sizeGB == 0 then Err(ZeroSize)
             else if c in f || c + 1 in f || c + 2 in f || c + 3 in f then Err(CallFailed)
             else if GigaBytes(sizeGB) <= w.host.vols[boot].capacity then
               Err(NotLarger(w.host.vols[boot].capacity / (1024 * 1024 * 1024)))
             else if c + 4 in f || c + 5 in f then Err(CallFailed)
             else Ok(())
  {
    hide Safe, FileDisks, Lists, GigaBytes, InUse;
    BootFacts(w.host, vm);
    BootInUse(w.host, vm);
  }

  /** A successful resize yields the size asked for exactly when that size is below 2^34 gigabytes. */
  lemma ResizeDiskYieldsSize(w: World, vm: string, sizeGB: u64)
    requires Safe(w.host) && vm in w.host.doms && ResizeDisk(w, vm, sizeGB).r.Ok?
    ensures var g := ResizeDisk(w, vm, sizeGB).w.host;
      && Safe(g) && HasBoot(g, vm) && HasBoot(w.host, vm) && BootPath(g, vm) == BootPath(w.host, vm)
      && g.vols[BootPath(g, vm)].capacity > w.host.vols[BootPath(w.host, vm)].capacity
      && (g.vols[BootPath(g, vm)].capacity == sizeGB * 1024 * 1024 * 1024 <==> sizeGB < 0x4_0000_0000)
  {
    hide Safe, FileDisks, Lists, ResizeDisk, SourcePath;
    ResizeDiskExits(w, vm, sizeGB);
    GigaBytesExact(sizeGB);
    SafeSetCapacity(w.host, BootPath(w.host, vm), GigaBytes(sizeGB));
  }
}
