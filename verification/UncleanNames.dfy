/**
  Names that the printer cannot take.  CreateVM refuses only the empty name, and the printer
  does not escape: exactly which new VMs list the disks they were given, what the others list
  instead, and why no operation can ever remove the volumes of those.
 */
module UncleanNames {
  import opened Text
  import opened Outcomes
  import opened DomainDescription
  import opened DomainText
  import opened DomainRoundTrip
  import opened VolumeNames
  import opened Libvirt
  import opened Operations
  import opened Safety
  import opened Migration
  import opened VmRemoval
  import opened Creation
  import opened CreationExits
  import opened WholeRuns

  // ---------------------------------------------------------------- the disks that a new VM lists

  /** The disks a VM is given by its creation. */
  ghost function CreatedDisks(h: Host, cfg: VMConfig): seq<DiskDevice>
    requires CanCreate(h, cfg)
  {
    [DiskDevice(BootDisk(h, cfg), "vda")]
    + if cfg.extraDiskSizeGB == 0 then [] else [DiskDevice(ExtraPath(h, cfg), "vdb")]
  }

  /** Nothing that is printed can open a tag; of a clone the volume's name already sees to that. */
  predicate TaglessRequest(cfg: VMConfig) {
    && cfg.extraDisks == [] && NoChar(cfg.network.source, '<') && NoChar(cfg.network.macvtapMode, '<')
    && (cfg.noclone ==> NoChar(cfg.name, '<') && NoChar(cfg.diskPath, '<'))
  }

  /** Every disk can be printed: the name of the VM stands in the paths of its new volumes. */
  predicate PrintableRequest(cfg: VMConfig) {
    && (cfg.noclone ==> cfg.diskPath != "" && CleanText(cfg.diskPath))
    && (CleanText(cfg.name) || (cfg.noclone && cfg.extraDiskSizeGB == 0))
  }

  /** The path of a volume named after a VM. */
  lemma NamedPath(dir: string, name: string, end: string)
    requires CleanText(dir) && CleanText(end) && NoChar(name, '<')
    ensures var path := PathIn(dir, name + end);
      path != "" && NoChar(path, '<') && (NoChar(path, '\'') && NoChar(path, '>') <==> CleanText(name))
  {
    AroundName(dir + "/", name, end);
    assert PathIn(dir, name + end) == dir + "/" + name + end;
  }

  lemma ExtraEnd(vm: string)
    ensures ExtraVolName(vm, 2) == vm + ("-" + Dec(2) + QCOW2) && CleanText("-" + Dec(2) + QCOW2)
  {
  }

  /** The boot disk can be printed exactly when the VM's name can, or the image's path if there is no clone. */
  lemma BootPrintable(h: Host, cfg: VMConfig)
    requires PoolsOk(h.pools) && CanClone(h, cfg) && TaglessRequest(cfg)
    ensures NoChar(cfg.name, '<') && NoChar(BootDisk(h, cfg), '<')
    ensures Printable(DiskDevice(BootDisk(h, cfg), "vda")) <==>
      if cfg.noclone then cfg.diskPath != "" && CleanText(cfg.diskPath) else CleanText(cfg.name)
  {
    assert NoChar("vda", '\'') && NoChar("vda", '>') && CleanText(QCOW2);
    if !cfg.noclone {
      VolumeNameTagless(cfg.name, QCOW2);
      hide VolumeNameOk, NoChar, CleanText, PathIn;
      NamedPath(h.pools[OrDefault(cfg.pool)], cfg.name, QCOW2);
    } else {
      AroundName("", cfg.diskPath, "");
      assert "" + cfg.diskPath + "" == cfg.diskPath;
    }
  }

  lemma ExtraPrintable(h: Host, cfg: VMConfig)
    requires PoolsOk(h.pools) && CanExtra(h, cfg) && cfg.extraDiskSizeGB > 0 && NoChar(cfg.name, '<')
    ensures NoChar(ExtraPath(h, cfg), '<')
    ensures Printable(DiskDevice(ExtraPath(h, cfg), "vdb")) <==> CleanText(cfg.name)
  {
    assert NoChar("vdb", '\'') && NoChar("vdb", '>');
    ExtraEnd(cfg.name);
    hide VolumeNameOk, NoChar, CleanText, PathIn, ExtraVolName, Dec;
    NamedPath(h.pools[OrDefault(ExtraPool(cfg))], cfg.name, "-" + Dec(2) + QCOW2);
  }

  lemma FinalDisks(h: Host, cfg: VMConfig)
    requires PoolsOk(h.pools) && CanCreate(h, cfg) && TaglessRequest(cfg)
    ensures TaglessConfig(FinalConfig(h, cfg)) && ConfigDisks(FinalConfig(h, cfg)) == CreatedDisks(h, cfg)
    ensures (forall d :: d in CreatedDisks(h, cfg) ==> Printable(d)) <==> PrintableRequest(cfg)
  {
    var disks, boot := CreatedDisks(h, cfg), DiskDevice(BootDisk(h, cfg), "vda");
    assert NoChar("vdb", '<');
    BootPrintable(h, cfg);
    assert disks[0] == boot;
    if cfg.extraDiskSizeGB > 0 {
      ExtraPrintable(h, cfg);
      assert disks[1] == DiskDevice(ExtraPath(h, cfg), "vdb");
    }
    hide CanClone, CanExtra, CanSize, CanDefine, NoChar, CleanText, BootDisk, ExtraPath, Listed, Printable;
    FinalConfigDisks(h, cfg);
  }

  lemma FinalConfigDisks(h: Host, cfg: VMConfig)
    requires CanCreate(h, cfg) && cfg.extraDisks == []
    requires cfg.extraDiskSizeGB > 0 ==> ExtraPath(h, cfg) != ""
    ensures ConfigDisks(FinalConfig(h, cfg)) == CreatedDisks(h, cfg)
  {
    hide CanClone, CanSize, CanDefine, BootDisk, ExtraPath, Listed;
    ConfiguredDisks(FinalConfig(h, cfg));
  }

  /**
    With and without cloning: the domain that a successful create leaves lists the disks it
    was given if and only if the request could be printed, and in general what is read back
    of them.
   */
  lemma CreatedDisksListedExactly(w: World, cfg: VMConfig)
    requires PoolsOk(w.host.pools) && TaglessRequest(cfg) && Provision(w, cfg).r.Ok?
    ensures CanCreate(w.host, cfg) && cfg.name in Provision(w, cfg).w.host.doms
    ensures var g := Provision(w, cfg).w.host;
      && Disks(g, cfg.name) == ReadBack(FinalConfig(w.host, cfg))
      && (Disks(g, cfg.name) == CreatedDisks(w.host, cfg) <==> PrintableRequest(cfg))
  {
    hide Provision, CanCreate, FileDisks, DomainXml, FinalConfig, CreatedDisks, ConfigDisks, ReadBack, PoolsOk;
    hide Printable, PrintableRequest, TaglessConfig, VolumesAsAsked, BootAsAsked, BootDisk;
    CreatedAsAsked(w, cfg);
    FinalDisks(w.host, cfg);
    ParserUndoesPrinterExactly(FinalConfig(w.host, cfg));
  }

  // ---------------------------------------------------------------- a closing bracket in the name

  lemma BracketInPath(dir: string, name: string, end: string)
    requires CleanText(dir) && CleanText(end) && BracketFirst(name)
    ensures AsRead(PathIn(dir, name + end)) == ""
  {
    assert PathIn(dir, name + end) == (dir + "/") + name + end;
    hide BracketFirst, QuoteFirst;
    KindAround(dir + "/", name, end);
  }

  /** None of a new VM's disks is read back. */
  lemma BracketListsNothing(h: Host, cfg: VMConfig)
    requires PoolsOk(h.pools) && CanCreate(h, cfg) && cfg.extraDisks == [] && !cfg.noclone
    requires BracketFirst(cfg.name)
    ensures ReadBack(FinalConfig(h, cfg)) == []
  {
    var final := FinalConfig(h, cfg);
    assert CleanText(QCOW2);
    ExtraEnd(cfg.name);
    hide NoChar, CleanText, PathIn, VolumeNameOk, AsRead, CanDefine, CanSize, ExtraVolName, Dec, TargetOf;
    hide BracketFirst;
    BracketInPath(h.pools[OrDefault(cfg.pool)], cfg.name, QCOW2);
    assert ReadDisk(final.diskPath, "vda") == [];
    if cfg.extraDiskSizeGB > 0 {
      BracketInPath(h.pools[OrDefault(ExtraPool(cfg))], cfg.name, "-" + Dec(2) + QCOW2);
      assert ReadListed(final.extraDisks, 1) == [];
    }
  }

  /** On a domain without listed disks no resize and no migration does anything, under any schedule. */
  lemma NothingToChange(w: World, vm: string, sizeGB: u64, pool: string)
    requires vm in w.host.doms && Disks(w.host, vm) == []
    ensures ResizeDisk(w, vm, sizeGB).r.Err? && ResizeDisk(w, vm, sizeGB).w.host == w.host
    ensures MigrateDisk(w, vm, pool).r.Err? && MigrateDisk(w, vm, pool).w.host == w.host
    ensures NoFaults(w) ==> MigrateDisk(w, vm, pool).r == Err(NoDiskInXml)
    ensures NoFaults(w) && sizeGB > 0 ==> ResizeDisk(w, vm, sizeGB).r == Err(NoDiskInXml)
  {
    hide FileDisks;
  }

  /**
    A VM whose name holds a closing bracket before any quote is created and runs, but lists no
    disk: with no call refused, its disk can be neither grown nor moved, and deleting it
    reports success and leaves the volumes it was given behind.
   */
  lemma ClosingBracketLosesTheDisks(w: World, cfg: VMConfig, later: World, sizeGB: u64, pool: string)
    requires PoolsOk(w.host.pools) && CloneRequest(cfg) && BracketFirst(cfg.name)
    requires Provision(w, cfg).r.Ok? && later.host == Provision(w, cfg).w.host && NoFaults(later) && sizeGB > 0
    ensures CanCreate(w.host, cfg)
    ensures var h, g, deleted := w.host, later.host, Delete(later, cfg.name, false);
      && cfg.name in g.doms && g.doms[cfg.name].run == Running && Disks(g, cfg.name) == []
      && ResizeDisk(later, cfg.name, sizeGB).r == Err(NoDiskInXml)
      && MigrateDisk(later, cfg.name, pool).r == Err(NoDiskInXml)
      && deleted.r.Ok? && deleted.w.host.doms == h.doms
      && deleted.w.host.vols.Keys == h.vols.Keys + NewPaths(h, cfg) && NewPaths(h, cfg) !! h.vols.Keys
      && ClonePath(h, cfg) in NewPaths(h, cfg)
  {
    hide Provision, CanCreate, FileDisks, DomainXml, FinalConfig, ReadBack, PoolsOk, NoChar, BootAsAsked, BracketFirst;
    hide CreatedDisks, PrintableRequest, Delete, ResizeDisk, MigrateDisk, ClonePath, ExtraPath;
    CreatedDisksListedExactly(w, cfg);
    CreatedAsAsked(w, cfg);
    BracketListsNothing(w.host, cfg);
    NothingToChange(later, cfg.name, sizeGB, pool);
    var gone := DeleteExits(later, cfg.name, false);
    RemovedAgain(w.host, cfg, later.host.doms[cfg.name]);
  }

  lemma RemovedAgain(h: Host, cfg: VMConfig, d: Domain)
    requires CanCreate(h, cfg)
    ensures cfg.name !in h.doms
    ensures !cfg.noclone ==> OrDefault(cfg.pool) in h.pools && ClonePath(h, cfg) in NewPaths(h, cfg)
    ensures h.doms[cfg.name := d] - {cfg.name} == h.doms
  {
    hide ClonePath, ExtraPath, VolumeNameOk, CanExtra, CanSize;
  }

  lemma BracketCanCreate(h: Host, cfg: VMConfig)
    requires h == SmallHost() && cfg == SmallRequest().(name := "a>b")
    ensures CanCreate(h, cfg)
  {
    assert VolumeNameOk("a>b" + QCOW2);
    assert |PathIn("/p", "a>b" + QCOW2)| > |"/p/i"|;
  }

  lemma BracketText()
    ensures BracketFirst("a>b") && NoChar("default", '<') && NoChar("", '<')
  {
    assert "a>b"[1] == '>' && "a>b"[..1] == "a";
    FirstAt("a>b", '>', 1);
    NotFound("a>b", '\'');
  }

  lemma PoolsOfSafe(h: Host)
    requires Safe(h)
    ensures PoolsOk(h.pools)
  {
    hide PoolsOk, VolumeOk, TextOk, ListsOk;
  }

  /** There are such VMs. */
  lemma BracketCreateSucceeds()
    ensures var cfg := SmallRequest().(name := "a>b");
      && CloneRequest(cfg) && BracketFirst(cfg.name)
      && PoolsOk(SmallHost().pools) && Provision(World(SmallHost(), 0, {}), cfg).r.Ok?
  {
    var w, cfg := World(SmallHost(), 0, {}), SmallRequest().(name := "a>b");
    BracketText();
    SmallHostIsSafe();
    hide Provision, CanCreate, SmallHost, NoChar, Safe, Printed, BracketFirst;
    BracketCanCreate(w.host, cfg);
    PoolsOfSafe(w.host);
    CreateSucceedsExactly(w, cfg);
  }

  // ---------------------------------------------------------------- a quote in the name

  lemma QuoteInPath(dir: string, name: string, end: string)
    requires CleanText(dir) && CleanText(end) && QuoteFirst(name)
    ensures AsRead(PathIn(dir, name + end)) == PathIn(dir, BeforeQuote(name))
  {
    assert PathIn(dir, name + end) == (dir + "/") + name + end;
    hide BracketFirst, QuoteFirst, BeforeQuote;
    KindAround(dir + "/", name, end);
    KindsDiffer((dir + "/") + name + end);
    assert (dir + "/") + BeforeQuote(name) == PathIn(dir, BeforeQuote(name));
  }

  lemma KindsDiffer(v: string)
    ensures !(QuoteFirst(v) && BracketFirst(v))
  {
  }

  /** The disks that a VM with a quote first in its name lists: its volumes' paths, cut off at the quote. */
  ghost function CutDisks(h: Host, cfg: VMConfig): seq<DiskDevice>
    requires CanCreate(h, cfg) && !cfg.noclone && QuoteFirst(cfg.name)
  {
    [DiskDevice(PathIn(h.pools[OrDefault(cfg.pool)], BeforeQuote(cfg.name)), "vda")]
    + if cfg.extraDiskSizeGB == 0 then []
      else [DiskDevice(PathIn(h.pools[OrDefault(ExtraPool(cfg))], BeforeQuote(cfg.name)), "vdb")]
  }

  lemma PlainTargets()
    ensures AsRead("vda") == "vda" && AsRead("vdb") == "vdb"
  {
    AsReadExactly("vda");
    AsReadExactly("vdb");
    hide AsRead;
  }

  lemma QuoteListsCut(h: Host, cfg: VMConfig)
    requires PoolsOk(h.pools) && CanCreate(h, cfg) && cfg.extraDisks == [] && !cfg.noclone && QuoteFirst(cfg.name)
    ensures ReadBack(FinalConfig(h, cfg)) == CutDisks(h, cfg)
  {
    var final := FinalConfig(h, cfg);
    assert CleanText(QCOW2);
    PlainTargets();
    ExtraEnd(cfg.name);
    hide NoChar, CleanText, VolumeNameOk, AsRead, CanDefine, CanSize, ExtraVolName, Dec, QuoteFirst, BeforeQuote;
    var cut := DiskDevice(PathIn(h.pools[OrDefault(cfg.pool)], BeforeQuote(cfg.name)), "vda");
    QuoteInPath(h.pools[OrDefault(cfg.pool)], cfg.name, QCOW2);
    assert ReadDisk(final.diskPath, "vda") == [cut];
    if cfg.extraDiskSizeGB > 0 {
      var extra := DiskDevice(PathIn(h.pools[OrDefault(ExtraPool(cfg))], BeforeQuote(cfg.name)), "vdb");
      QuoteInPath(h.pools[OrDefault(ExtraPool(cfg))], cfg.name, "-" + Dec(2) + QCOW2);
      assert ReadListed(final.extraDisks, 1) == [];
      assert final.extraDisks[0].path != "";
      assert ReadListed(final.extraDisks, 0) == [extra];
    }
  }

  /**
    A VM whose name holds a quote before any closing bracket lists, instead of its own volumes,
    whatever lies at their paths cut off at the quote; and a Delete none of whose calls fails
    removes exactly that.  So of the volumes from before it takes those that lie there.
   */
  lemma QuoteListsAndTakesOthers(w: World, cfg: VMConfig, later: World)
    requires PoolsOk(w.host.pools) && CloneRequest(cfg) && QuoteFirst(cfg.name)
    requires Provision(w, cfg).r.Ok? && later.host == Provision(w, cfg).w.host && NoFaults(later)
    ensures CanCreate(w.host, cfg)
    ensures var h, g, deleted := w.host, later.host, Delete(later, cfg.name, false);
      && cfg.name in g.doms && g.doms[cfg.name].run == Running && Disks(g, cfg.name) == CutDisks(h, cfg)
      && deleted.r.Ok? && deleted.w.host.doms == h.doms && deleted.w.host.pools == h.pools
      && (forall p :: p in h.vols ==>
           (p in deleted.w.host.vols <==> forall d :: d in CutDisks(h, cfg) ==> d.path != p))
      && (forall p :: p in h.vols && p in deleted.w.host.vols ==> deleted.w.host.vols[p] == h.vols[p])
  {
    hide Provision, CanCreate, FileDisks, DomainXml, FinalConfig, ReadBack, PoolsOk, NoChar, BootAsAsked, QuoteFirst;
    hide CreatedDisks, PrintableRequest, Delete, ClonePath, ExtraPath, CutDisks;
    CreatedDisksListedExactly(w, cfg);
    CreatedAsAsked(w, cfg);
    QuoteListsCut(w.host, cfg);
    var gone := DeleteExits(later, cfg.name, false);
    RemovedAgain(w.host, cfg, later.host.doms[cfg.name]);
    PathsOf(CutDisks(w.host, cfg));
  }

  lemma PathsOf(disks: seq<DiskDevice>)
    ensures forall p :: p in AllPaths(Paths(disks)) <==> exists d :: d in disks && d.path == p
  {
    var paths := Paths(disks);
    forall p | p in paths
      ensures exists d :: d in disks && d.path == p
    {
      var i :| 0 <= i < |paths| && paths[i] == p;
      assert disks[i] in disks;
    }
    forall d | d in disks
      ensures d.path in paths
    {
      var i :| 0 <= i < |disks| && disks[i] == d;
      assert paths[i] == d.path;
    }
  }

  /** The cut path is that of another VM's volume. */
  lemma CutIsDisk(h: Host, other: string, j: nat, cfg: VMConfig)
    requires Safe(h) && other in h.doms && j < |Disks(h, other)| && Disks(h, other)[j].path in h.vols
    requires CanCreate(h, cfg) && CloneRequest(cfg)
    requires QuoteFirst(cfg.name) && BeforeQuote(cfg.name) == DiskVolName(other, j)
    requires h.vols[Disks(h, other)[j].path].pool == OrDefault(cfg.pool)
    ensures var cut := CutDisks(h, cfg);
      cut != [] && cut[0].path == Disks(h, other)[j].path && cut[0] in cut
  {
    hide Safe, CanCreate, Disks, QuoteFirst, BeforeQuote, PathIn;
    SafeMeans(h, other, j);
    BootInPlace(h, Disks(h, other)[j].path);
  }

  /**
    In particular another VM's disk: when the name up to the quote is the name of that disk's
    volume, and the pool is the same, both list the volume; deleting the new VM removes it and
    leaves the other VM defined without its disk.
   */
  lemma QuoteSharesADisk(w: World, other: string, j: nat, cfg: VMConfig, later: World)
    requires Safe(w.host) && other in w.host.doms && j < |Disks(w.host, other)|
    requires CloneRequest(cfg) && QuoteFirst(cfg.name) && BeforeQuote(cfg.name) == DiskVolName(other, j)
    requires Disks(w.host, other)[j].path in w.host.vols
    requires w.host.vols[Disks(w.host, other)[j].path].pool == OrDefault(cfg.pool)
    requires Provision(w, cfg).r.Ok? && later.host == Provision(w, cfg).w.host && NoFaults(later)
    ensures var h, g, deleted := w.host, later.host, Delete(later, cfg.name, false);
      var path := Disks(h, other)[j].path;
      && cfg.name in g.doms && Disks(g, cfg.name) != [] && Disks(g, cfg.name)[0].path == path
      && other in g.doms && g.doms[other] == h.doms[other]
      && deleted.r.Ok? && deleted.w.host.doms == h.doms && path !in deleted.w.host.vols
  {
    hide *;
    PoolsOfSafe(w.host);
    QuoteListsAndTakesOthers(w, cfg, later);
    CutIsDisk(w.host, other, j, cfg);
    OthersUntouched(w, cfg);
  }

  lemma OthersUntouched(w: World, cfg: VMConfig)
    requires CloneRequest(cfg) && Provision(w, cfg).r.Ok?
    ensures forall n :: n in w.host.doms ==>
      n in Provision(w, cfg).w.host.doms && Provision(w, cfg).w.host.doms[n] == w.host.doms[n]
  {
    hide Provision, CanCreate, DomainXml, FinalConfig;
    CreatedAsAsked(w, cfg);
    SuccessIsNew(w, cfg);
  }

  lemma SuccessIsNew(w: World, cfg: VMConfig)
    requires NameFits(cfg) && Provision(w, cfg).r.Ok?
    ensures cfg.name !in w.host.doms
  {
    hide Provision, CanClone, CanSize, CanExtra;
    SuccessIsStarted(w, cfg);
  }

  /** A VM `web` on the small host, and a second one whose name is that of its volume, a quote, and more. */
  function Web(): VMConfig {
    SmallRequest().(name := "web")
  }

  function Quoted(): VMConfig {
    SmallRequest().(name := "web" + QCOW2 + ['\''] + " x='y")
  }

  function Empty(): World {
    World(SmallHost(), 0, {})
  }

  lemma WebText()
    ensures NoChar("web" + QCOW2, '\'') && NoChar("web" + QCOW2, '>') && CleanText("web")
  {
  }

  lemma RestText()
    ensures NoChar(['\''] + " x='y", '>') && NoChar("default", '<') && NoChar("", '<')
  {
  }

  lemma NoCharConcat(a: string, b: string, c: char)
    requires NoChar(a, c) && NoChar(b, c)
    ensures NoChar(a + b, c)
  {
  }

  lemma QuotedText()
    ensures QuoteFirst(Quoted().name) && BeforeQuote(Quoted().name) == DiskVolName(Web().name, 0)
  {
    var base, rest := "web" + QCOW2, " x='y";
    WebText();
    RestText();
    hide NoChar, Index;
    assert Quoted().name == base + ['\''] + rest && Quoted().name == base + (['\''] + rest);
    FindChar(base, '\'', rest);
    NoCharConcat(base, ['\''] + rest, '>');
    NotFound(Quoted().name, '>');
    assert Quoted().name[..|base|] == base;
  }

  lemma WebCanCreate(h: Host)
    requires h == SmallHost()
    ensures CanCreate(h, Web()) && NewPaths(h, Web()) == {PathIn("/p", "web" + QCOW2)}
  {
    assert VolumeNameOk("web" + QCOW2);
    assert |PathIn("/p", "web" + QCOW2)| > |"/p/i"|;
  }

  lemma QuotedNameOk()
    ensures VolumeNameOk(Quoted().name + QCOW2) && '/' !in Quoted().name && |Quoted().name| > |"web"|
  {
    var base, rest, full := "web" + QCOW2, ['\''] + " x='y", Quoted().name + QCOW2;
    assert VolumeNameOk(base) && VolumeNameOk(rest) && VolumeNameOk(QCOW2);
    assert full == base + rest + QCOW2;
    forall i | 0 <= i < |full|
      ensures full[i] != '/' && full[i] != '<' && full[i] != '&'
    {
    }
    assert forall i :: 0 <= i < |Quoted().name| ==> Quoted().name[i] == full[i];
  }

  lemma QuotedCanCreate(h: Host)
    requires CanCreate(SmallHost(), Web())
    requires h.pools == SmallHost().pools && h.doms.Keys == SmallHost().doms.Keys + {Web().name}
    requires h.vols.Keys == SmallHost().vols.Keys + NewPaths(SmallHost(), Web())
    ensures CanCreate(h, Quoted()) && Web().name in h.doms && h.pools.Keys == {OrDefault(Quoted().pool)}
  {
    var path := PathIn("/p", Quoted().name + QCOW2);
    WebCanCreate(SmallHost());
    QuotedNameOk();
    assert |path| > |PathIn("/p", "web" + QCOW2)| && |path| > |"/p/i"|;
    assert Quoted().name != "web";
    hide VolumeNameOk, PathIn;
  }

  lemma WebRequest()
    ensures CleanRequest(Web()) && CloneRequest(Quoted()) && NameFits(Web()) && NameFits(Quoted())
    ensures Web().name != "" && Quoted().name != ""
  {
    WebText();
    RestText();
    hide NoChar, CleanText;
  }

  /** A create that can be made, when no call fails. */
  lemma CreateWorks(w: World, cfg: VMConfig)
    requires Safe(w.host) && CleanRequest(cfg) && cfg.name != "" && w.faults == {} && CanCreate(w.host, cfg)
    ensures var o, h := Provision(w, cfg), w.host;
      && o.r.Ok? && o.w.faults == {} && Safe(o.w.host) && o.w.host.pools == h.pools
      && o.w.host.doms.Keys == h.doms.Keys + {cfg.name} && o.w.host.vols.Keys == h.vols.Keys + NewPaths(h, cfg)
  {
    hide Provision, CanCreate, Safe, CleanText, NoChar, NewPaths, BootAsAsked, DomainXml, FinalConfig;
    hide Spares, OwnsIfAny, OwnsAll, BootDisk, ExtraPath;
    CreateSucceedsExactly(w, cfg);
    CleanCreateExits(w, cfg);
    CreatedAsAsked(w, cfg);
  }

  lemma WebIsCreated()
    ensures CanCreate(SmallHost(), Web()) && Provision(Empty(), Web()).r.Ok?
    ensures var w := Provision(Empty(), Web()).w;
      && w.faults == {} && Safe(w.host) && w.host.pools == SmallHost().pools
      && w.host.doms.Keys == SmallHost().doms.Keys + {Web().name}
      && w.host.vols.Keys == SmallHost().vols.Keys + NewPaths(SmallHost(), Web())
  {
    SmallHostIsSafe();
    WebCanCreate(SmallHost());
    WebRequest();
    hide *;
    EmptyIs();
    CreateWorks(Empty(), Web());
  }

  lemma EmptyIs()
    ensures Empty().host == SmallHost() && Empty().faults == {}
  {
  }

  lemma BootIsFirst(h: Host, vm: string, pool: string)
    requires Safe(h) && vm in h.doms && h.pools.Keys == {pool}
    ensures HasBoot(h, vm) && |Disks(h, vm)| > 0 && Disks(h, vm)[0].path == BootPath(h, vm)
    ensures Disks(h, vm)[0].path in h.vols && h.vols[Disks(h, vm)[0].path].pool == pool
  {
    hide Safe, FileDisks, DiskAt, Lists, PoolPath, VolumeNameOk, PathIn;
    BootFacts(h, vm);
    BootInPlace(h, BootPath(h, vm));
  }

  lemma CreateWorksAnyhow(w: World, cfg: VMConfig)
    requires Safe(w.host) && CloneRequest(cfg) && cfg.name != "" && w.faults == {} && CanCreate(w.host, cfg)
    ensures Provision(w, cfg).r.Ok? && NoFaults(Provision(w, cfg).w)
  {
    hide Safe, Provision, CanCreate, CleanText, NoChar, AddsUnclean, Spares, OwnsAll, OwnsIfAny;
    CreateSucceedsExactly(w, cfg);
    ProvisionExits(w, cfg);
  }

  /** A create of this kind where there is but one pool, and the delete after it. */
  lemma QuoteCostsADisk(w: World, other: string, cfg: VMConfig)
    requires Safe(w.host) && w.faults == {} && other in w.host.doms && w.host.pools.Keys == {OrDefault(cfg.pool)}
    requires CloneRequest(cfg) && cfg.name != "" && CanCreate(w.host, cfg)
    requires QuoteFirst(cfg.name) && BeforeQuote(cfg.name) == DiskVolName(other, 0)
    ensures HasBoot(w.host, other) && Provision(w, cfg).r.Ok?
    ensures var deleted := Delete(Provision(w, cfg).w, cfg.name, false);
      && deleted.r.Ok? && other in deleted.w.host.doms && deleted.w.host.doms[other] == w.host.doms[other]
      && BootPath(w.host, other) !in deleted.w.host.vols
  {
    hide *;
    BootIsFirst(w.host, other, OrDefault(cfg.pool));
    CreateWorksAnyhow(w, cfg);
    QuoteSharesADisk(w, other, 0, cfg, Provision(w, cfg).w);
  }

  /**
    All of this happens: both VMs are created, and when the second one is deleted the first is
    still defined, and its boot disk is gone.
   */
  lemma QuotedNameCostsADisk()
    ensures var web := Provision(Empty(), Web());
      var quoted := Provision(web.w, Quoted());
      var deleted := Delete(quoted.w, Quoted().name, false);
      && web.r.Ok? && Safe(web.w.host) && HasBoot(web.w.host, Web().name)
      && quoted.r.Ok? && deleted.r.Ok?
      && Web().name in deleted.w.host.doms && deleted.w.host.doms[Web().name] == web.w.host.doms[Web().name]
      && BootPath(web.w.host, Web().name) !in deleted.w.host.vols
  {
    hide *;
    var w := Provision(Empty(), Web()).w;
    WebRequest();
    WebIsCreated();
    QuotedCanCreate(w.host);
    QuotedText();
    QuoteCostsADisk(w, Web().name, Quoted());
  }

  // ---------------------------------------------------------------- volumes that no operation can remove

  /** No domain can list such a path, whatever its text. */
  predicate Unlistable(path: string) {
    !(NoChar(path, '\'') && NoChar(path, '>'))
  }

  /** The volume is there, with its name, place and content. */
  ghost predicate KeepsVolume(h: Host, g: Host, p: string) {
    p in h.vols ==> p in g.vols && g.vols[p].(capacity := 0) == h.vols[p].(capacity := 0)
  }

  lemma NeverListed(xml: string, p: string)
    requires Unlistable(p)
    ensures SourcePath(xml) != p && p !in AllPaths(Paths(FileDisks(xml)))
  {
    ParsedDisksAreClean(xml);
    hide FileDisks;
    var paths := Paths(FileDisks(xml));
    if p in paths {
      var i :| 0 <= i < |paths| && paths[i] == p;
      assert FileDisks(xml)[i] in FileDisks(xml);
    }
    if FileDisks(xml) != [] {
      assert FileDisks(xml)[0] in FileDisks(xml);
    }
  }

  lemma DiskKeepsVolumes(w: World, cfg: VMConfig, p: string)
    ensures KeepsVolume(w.host, ProvisionDisk(w, cfg).w.host, p)
  {
  }

  lemma SizeKeepsVolumes(w: World, cfg: VMConfig, p: string)
    ensures KeepsVolume(w.host, ProvisionSize(w, cfg).w.host, p)
  {
  }

  lemma NewVolumeKeepsVolumes(w: World, pool: string, name: string, sizeGB: u64, p: string)
    ensures var o := CreateVolume(w, pool, name, sizeGB);
      KeepsVolume(w.host, o.w.host, p) && o.w.host.doms == w.host.doms && (o.r.Ok? ==> o.r.value !in w.host.vols)
  {
  }

  lemma BootKeepsVolumes(w: World, cfg: VMConfig, p: string)
    ensures KeepsVolume(w.host, ProvisionBoot(w, cfg).w.host, p)
  {
    hide DomainXml, NameOf;
  }

  lemma ProvisionKeepsVolumes(w: World, cfg: VMConfig, p: string)
    ensures KeepsVolume(w.host, Provision(w, cfg).w.host, p)
  {
    hide ProvisionDisk, ProvisionSize, ProvisionBoot, CreateVolume;
    var disk := ProvisionDisk(w, cfg);
    DiskKeepsVolumes(w, cfg, p);
    if disk.r.Ok? {
      var size := ProvisionSize(disk.w, disk.r.value);
      SizeKeepsVolumes(disk.w, disk.r.value, p);
      if size.r.Ok? {
        var cfg := disk.r.value;
        var extra := ProvisionExtra(size.w, cfg);
        NewVolumeKeepsVolumes(size.w, ExtraPool(cfg), cfg.name + "-2.qcow2", cfg.extraDiskSizeGB, p);
        if extra.r.Ok? {
          BootKeepsVolumes(extra.w, extra.r.value, p);
        }
      }
    }
  }

  lemma AttachKeepsVolumes(w: World, vm: string, d: DiskDevice, p: string)
    requires p != d.path
    ensures KeepsVolume(w.host, AttachNew(w, vm, d).w.host, p)
  {
    hide Splice, DiskXml;
  }

  lemma AddKeepsVolumes(w: World, vm: string, sizeGB: u64, pool: string, p: string)
    ensures KeepsVolume(w.host, AddDisk(w, vm, sizeGB, pool).w.host, p)
  {
    hide AttachNew, CreateVolume, NextTarget, ExtraVolName, FileDisks;
    if sizeGB > 0 && w.clock !in w.faults && w.clock + 1 !in w.faults && vm in w.host.doms {
      var v, used := w.(clock := w.clock + 2), Targets(Disks(w.host, vm));
      NewVolumeKeepsVolumes(v, pool, ExtraVolName(vm, |used| + 1), sizeGB, p);
      var made := CreateEmptyDisk(v, vm, sizeGB, pool, used);
      if made.r.Ok? && p in w.host.vols {
        AttachKeepsVolumes(made.w, vm, made.r.value, p);
      }
    }
  }

  lemma GrowKeepsVolumes(w: World, vm: string, sizeGB: u64, p: string)
    ensures KeepsVolume(w.host, ResizeDisk(w, vm, sizeGB).w.host, p)
  {
    hide FileDisks, TargetPath, GigaBytes;
  }

  lemma CopyKeepsVolumes(w: World, old_: string, target: string, p: string)
    ensures KeepsVolume(w.host, CopyVolume(w, old_, target).w.host, p)
  {
  }

  lemma SwitchKeepsVolumes(w: World, xml: string, old_: string, new_: string, p: string)
    requires p != old_
    ensures KeepsVolume(w.host, SwitchVolume(w, xml, old_, new_).w.host, p)
  {
    hide ReplaceFirst, NameOf;
  }

  lemma KeepsTwice(a: Host, b: Host, c: Host, p: string)
    requires KeepsVolume(a, b, p) && KeepsVolume(b, c, p)
    ensures KeepsVolume(a, c, p)
  {
  }

  lemma SameVolumesKept(h: Host, g: Host, p: string)
    requires g.vols == h.vols
    ensures KeepsVolume(h, g, p)
  {
  }

  lemma StartKeepsVolumes(w: World, vm: string)
    ensures Start(w, vm).w.host.vols == w.host.vols
  {
  }

  lemma RelocateKeepsVolumes(w: World, vm: string, run: RunState, xml: string, old_: string, target: string, p: string)
    requires p != old_
    ensures KeepsVolume(w.host, Relocate(w, vm, run, xml, old_, target).w.host, p)
  {
    hide CopyVolume, SwitchVolume, Start, KeepsVolume, Relocate;
    RelocationCases(w, vm, run, xml, old_, target);
    CopyKeepsVolumes(w, old_, target, p);
    var copied := CopyVolume(w, old_, target);
    if copied.r.Ok? {
      SwitchKeepsVolumes(copied.w, xml, old_, copied.r.value, p);
      var switched := SwitchVolume(copied.w, xml, old_, copied.r.value).w;
      KeepsTwice(w.host, copied.w.host, switched.host, p);
      StartKeepsVolumes(switched, vm);
      SameVolumesKept(switched.host, Start(switched, vm).w.host, p);
      KeepsTwice(w.host, switched.host, Start(switched, vm).w.host, p);
    }
  }

  lemma NoSourceNoMigration(w: World, vm: string, target: string)
    requires vm !in w.host.doms || SourcePath(w.host.doms[vm].xml) == ""
    ensures MigrateDisk(w, vm, target).w.host == w.host
  {
    hide SourcePath, Relocate;
  }

  lemma MigrateKeepsVolumes(w: World, vm: string, target: string, p: string)
    requires Unlistable(p)
    ensures KeepsVolume(w.host, MigrateDisk(w, vm, target).w.host, p)
  {
    hide SourcePath, Relocate, MigrateDisk, Unlistable, KeepsVolume;
    SameVolumesKept(w.host, w.host, p);
    if vm in w.host.doms && SourcePath(w.host.doms[vm].xml) != "" {
      var xml, run := w.host.doms[vm].xml, w.host.doms[vm].run;
      NeverListed(xml, p);
      MigrationCases(w, vm, target);
      var stopped := StopIfActive(w.(clock := w.clock + 3), vm, run).w;
      RelocateKeepsVolumes(stopped, vm, run, xml, SourcePath(xml), target, p);
      StopKeeps(w.host, vm);
      SameVolumesKept(w.host, stopped.host, p);
      KeepsTwice(w.host, stopped.host, MigrateDisk(w, vm, target).w.host, p);
    } else {
      NoSourceNoMigration(w, vm, target);
    }
  }

  lemma DeleteKeepsVolumes(w: World, vm: string, p: string)
    requires Unlistable(p)
    ensures KeepsVolume(w.host, Delete(w, vm, false).w.host, p)
  {
    if vm in w.host.doms {
      var gone := DeleteExits(w, vm, false);
      NeverListed(w.host.doms[vm].xml, p);
      hide Delete, FileDisks, Unlistable;
    } else {
      UnknownDomain(w, vm, 0, "", false);
    }
  }

  /**
    On every world, safe or not, with whatever domains, and under every schedule: no operation
    removes a volume whose path holds a quote or a closing bracket, because none ever reads it
    out of a domain's text.
   */
  lemma UnlistableVolumesStay(w: World, op: Op, p: string)
    requires Unlistable(p)
    ensures KeepsVolume(w.host, Perform(w, op).host, p)
  {
    hide Provision, AddDisk, ResizeDisk, MigrateDisk, Delete, Unlistable;
    match op
    case CreateVm(cfg) => ProvisionKeepsVolumes(w, cfg, p);
    case AddDiskTo(vm, sizeGB, pool) => AddKeepsVolumes(w, vm, sizeGB, pool, p);
    case ResizeDiskOf(vm, sizeGB) => GrowKeepsVolumes(w, vm, sizeGB, p);
    case MigrateDiskOf(vm, pool) => MigrateKeepsVolumes(w, vm, pool, p);
    case DeleteVm(vm) => DeleteKeepsVolumes(w, vm, p);
    case Power(vm, run) =>
  }

  /** So it stays in every run. */
  lemma {:induction false} UnlistableVolumesStayForever(w: World, ops: seq<Op>, p: string)
    requires Unlistable(p)
    ensures KeepsVolume(w.host, Run(w, ops).host, p)
    decreases |ops|
  {
    hide Perform, Unlistable;
    if ops != [] {
      UnlistableVolumesStay(w, ops[0], p);
      UnlistableVolumesStayForever(Perform(w, ops[0]), ops[1..], p);
    }
  }
}
