/**
  The invariant of the host, and that each single effect an operation can have keeps it.
 */
module Safety {
  import opened Text
  import opened Outcomes
  import opened DomainDescription
  import opened DomainText
  import opened DomainRoundTrip
  import opened VolumeNames
  import opened Libvirt

  // ---------------------------------------------------------------- domain text, seen from outside

  /** Text that domainXML prints for VM `name` from inputs that need no escaping. */
  ghost predicate Printed(xml: string, name: string) {
    exists cfg: VMConfig :: cfg.name == name && Plain(name) && CleanConfig(cfg) && xml == DomainXml(cfg)
  }

  lemma PrintedText(xml: string, name: string)
    requires Printed(xml, name)
    ensures NameOf(xml) == name && '/' !in name
    ensures FileDisks(xml) != [] && FileDisks(xml)[0].target == "vda"
  {
    var cfg: VMConfig :| cfg.name == name && Plain(name) && CleanConfig(cfg) && xml == DomainXml(cfg);
    PlainNoLt(name);
    NameReadBack(cfg);
    ParserUndoesPrinter(cfg);
    hide FileDisks, DomainXml, NameOf;
  }

  lemma MoreDisksClean(cfg: VMConfig, d: DiskDevice)
    requires CleanConfig(cfg) && CleanDisk(d)
    ensures CleanConfig(cfg.(extraDisks := cfg.extraDisks + [d]))
    ensures NoChar(cfg.network.source, '<') && NoChar(cfg.network.macvtapMode, '<')
  {
    hide CleanDisk;
  }

  lemma PrintedAttach(xml: string, name: string, d: DiskDevice)
    requires Printed(xml, name) && CleanDisk(d) && d.path != "" && d.target != ""
    ensures Printed(Splice(xml, DiskXml(d.path, d.target)), name)
    ensures FileDisks(Splice(xml, DiskXml(d.path, d.target))) == FileDisks(xml) + [d]
  {
    var cfg: VMConfig :| cfg.name == name && Plain(name) && CleanConfig(cfg) && xml == DomainXml(cfg);
    var more := cfg.(extraDisks := cfg.extraDisks + [d]);
    hide FileDisks, DomainXml, Splice, DiskXml, ConfigDisks, NoChar, Plain, CleanText;
    MoreDisksClean(cfg, d);
    hide CleanConfig;
    AttachAppends(cfg, d);
    ParserUndoesPrinter(cfg);
    ParserUndoesPrinter(more);
  }

  lemma MovedConfigClean(cfg: VMConfig, newPath: string)
    requires CleanConfig(cfg) && newPath != "" && CleanText(newPath)
    ensures CleanConfig(cfg.(diskPath := newPath))
  {
    hide CleanText, CleanDisk;
  }

  lemma FirstIsBoot(cfg: VMConfig)
    ensures ConfigDisks(cfg) != [] && ConfigDisks(cfg)[0].path == cfg.diskPath
  {
  }

  lemma PrintedMove(xml: string, name: string, newPath: string)
    requires Printed(xml, name) && FileDisks(xml) != [] && PoolPath(FileDisks(xml)[0].path)
    requires newPath != "" && CleanText(newPath)
    ensures Printed(ReplaceFirst(xml, FileDisks(xml)[0].path, newPath), name)
    ensures FileDisks(ReplaceFirst(xml, FileDisks(xml)[0].path, newPath))
         == FileDisks(xml)[0 := DiskDevice(newPath, "vda")]
  {
    var cfg: VMConfig :| cfg.name == name && Plain(name) && CleanConfig(cfg) && xml == DomainXml(cfg);
    var moved := cfg.(diskPath := newPath);
    hide FileDisks, DomainXml, ReplaceFirst, PoolPath, CleanText, CleanConfig, ConfigDisks, Plain;
    ParserUndoesPrinter(cfg);
    FirstIsBoot(cfg);
    ReplaceMovesBootDisk(cfg, newPath);
    MovedConfigClean(cfg, newPath);
    ParserUndoesPrinter(moved);
  }

  // ---------------------------------------------------------------- the invariant

  /** Pools live in absolute directories whose names need no escaping. */
  ghost predicate PoolsOk(pools: map<string, string>) {
    forall p :: p in pools ==> CleanText(pools[p]) && pools[p] != "" && pools[p][0] == '/'
  }

  /** A volume lies where its pool and name put it, whatever its name. */
  ghost predicate VolumeOk(pools: map<string, string>, path: string, v: Volume) {
    v.pool in pools && path == PathIn(pools[v.pool], v.name)
  }

  /** The disk lists of all domains. */
  type DiskLists = map<string, seq<DiskDevice>>

  function Disks(h: Host, name: string): seq<DiskDevice>
    requires name in h.doms
  {
    FileDisks(h.doms[name].xml)
  }

  function Lists(h: Host): DiskLists {
    map n | n in h.doms :: Disks(h, n)
  }

  /** Disk i of VM `name` is an existing volume named after the VM and i, attached as the i-th device. */
  ghost predicate DiskOk(vols: map<string, Volume>, name: string, i: nat, d: DiskDevice) {
    i < 26 && d.path in vols && d.target == VdTarget(i) && vols[d.path].name == DiskVolName(name, i)
  }

  ghost predicate ListOk(vols: map<string, Volume>, name: string, disks: seq<DiskDevice>) {
    0 < |disks| <= 26 && forall i :: 0 <= i < |disks| ==> DiskOk(vols, name, i, disks[i])
  }

  ghost predicate DiskAt(lists: DiskLists, name: string, i: int, path: string) {
    name in lists && 0 <= i < |lists[name]| && lists[name][i].path == path
  }

  ghost predicate Unlisted(lists: DiskLists, path: string) {
    forall n, i :: !DiskAt(lists, n, i, path)
  }

  /** No two places in the disk lists name the same volume. */
  ghost predicate Exclusive(lists: DiskLists) {
    forall m, n, i, j, p :: DiskAt(lists, m, i, p) && DiskAt(lists, n, j, p) ==> m == n && i == j
  }

  ghost predicate ListsOk(lists: DiskLists, vols: map<string, Volume>) {
    (forall n :: n in lists ==> ListOk(vols, n, lists[n])) && Exclusive(lists)
  }

  ghost predicate TextOk(name: string, xml: string) {
    Printed(xml, name) && VolumeNameOk(name + QCOW2) && name != ""
  }

  /** No dangling disk, no shared disk, consistent names, numbers and text. */
  ghost predicate Safe(h: Host) {
    && PoolsOk(h.pools)
    && (forall p :: p in h.vols ==> VolumeOk(h.pools, p, h.vols[p]))
    && (forall n :: n in h.doms ==> TextOk(n, h.doms[n].xml))
    && ListsOk(Lists(h), h.vols)
  }

  // ---------------------------------------------------------------- paths

  lemma PathClean(dir: string, name: string)
    requires CleanText(dir) && dir != "" && dir[0] == '/' && CleanText(name)
    ensures PoolPath(PathIn(dir, name)) && PathIn(dir, name) != ""
  {
    var p := PathIn(dir, name);
    assert p[1..][|dir| - 1] == '/';
  }

  lemma SafeLists(h: Host)
    requires Safe(h)
    ensures ListsOk(Lists(h), h.vols) && Lists(h).Keys == h.doms.Keys
  {
    hide TextOk, ListsOk, VolumeOk, PoolsOk, FileDisks;
  }

  lemma PoolFacts(h: Host, pool: string)
    requires Safe(h) && pool in h.pools
    ensures CleanText(h.pools[pool]) && h.pools[pool] != "" && h.pools[pool][0] == '/'
  {
    hide TextOk, ListsOk, VolumeOk;
  }

  lemma ConventionalNameClean(vm: string, i: nat)
    requires CleanText(vm)
    ensures CleanText(DiskVolName(vm, i)) && DiskVolName(vm, i) != ""
  {
    var digits := Dec(i + 1);
    assert CleanText(digits);
  }

  /** Text around a name: stop characters in it are those of the name. */
  lemma AroundName(a: string, name: string, b: string)
    requires CleanText(a) && CleanText(b) && NoChar(name, '<')
    ensures var s := a + name + b;
      && NoChar(s, '<') && (NoChar(s, '\'') && NoChar(s, '>') <==> CleanText(name))
  {
    var s := a + name + b;
    forall i | 0 <= i < |name|
      ensures s[|a| + i] == name[i]
    {
    }
  }

  lemma VolumeNameTagless(vm: string, end: string)
    requires VolumeNameOk(vm + end)
    ensures NoChar(vm, '<')
  {
    assert forall i :: 0 <= i < |vm| ==> vm[i] == (vm + end)[i];
  }

  /**
    A VM's name holds nothing the printer could not take: its boot disk is named after it, and
    the path of that volume was read back out of the text.
   */
  lemma SafeNameClean(h: Host, vm: string)
    requires Safe(h) && vm in h.doms
    ensures CleanText(vm)
  {
    hide FileDisks, Printed, CleanText, NoChar, Exclusive, PathIn;
    assert ListOk(h.vols, vm, Lists(h)[vm]);
    var d := Lists(h)[vm][0];
    assert DiskOk(h.vols, vm, 0, d);
    var v := h.vols[d.path];
    assert VolumeOk(h.pools, d.path, v) && TextOk(vm, h.doms[vm].xml);
    assert d in FileDisks(h.doms[vm].xml);
    ParsedDisksAreClean(h.doms[vm].xml);
    VolumeNameTagless(vm, QCOW2);
    PathAroundName(h.pools[v.pool], vm);
  }

  lemma PathAroundName(dir: string, vm: string)
    requires CleanText(dir) && NoChar(vm, '<')
    ensures var path := PathIn(dir, vm + QCOW2);
      NoChar(path, '\'') && NoChar(path, '>') <==> CleanText(vm)
  {
    assert CleanText(dir + "/") && CleanText(QCOW2);
    AroundName(dir + "/", vm, QCOW2);
    assert PathIn(dir, vm + QCOW2) == dir + "/" + vm + QCOW2;
  }

  /** A volume named after a VM and a number has a path that can be printed and replaced. */
  lemma ConventionalPath(h: Host, p: string, vm: string, i: nat)
    requires Safe(h) && p in h.vols && CleanText(vm) && h.vols[p].name == DiskVolName(vm, i)
    ensures PoolPath(p) && p != ""
  {
    hide TextOk, ListsOk, DiskVolName, CleanText, PoolPath;
    assert VolumeOk(h.pools, p, h.vols[p]);
    ConventionalNameClean(vm, i);
    PathClean(h.pools[h.vols[p].pool], h.vols[p].name);
  }

  /** What nobody lists no active domain holds. */
  lemma UnlistedNotInUse(h: Host, p: string)
    requires Unlisted(Lists(h), p)
    ensures !InUse(h.doms, p)
  {
    hide FileDisks;
    if InUse(h.doms, p) {
      HolderLists(h, p);
    }
  }

  lemma HolderLists(h: Host, p: string)
    requires InUse(h.doms, p)
    ensures exists n, i :: n in h.doms && Active(h.doms[n].run) && DiskAt(Lists(h), n, i, p)
  {
    hide FileDisks;
    var n :| n in h.doms && Active(h.doms[n].run) && ListsPath(FileDisks(h.doms[n].xml), p);
    var d :| d in FileDisks(h.doms[n].xml) && d.path == p;
    var i :| 0 <= i < |Disks(h, n)| && Disks(h, n)[i] == d;
    assert DiskAt(Lists(h), n, i, p);
  }

  /** A VM's disk is held exactly while that VM is active. */
  lemma OwnInUse(h: Host, vm: string, i: nat)
    requires Safe(h) && vm in h.doms && i < |Disks(h, vm)|
    ensures InUse(h.doms, Disks(h, vm)[i].path) <==> Active(h.doms[vm].run)
  {
    SafeLists(h);
    hide Safe, FileDisks;
    var d := Disks(h, vm)[i];
    assert DiskAt(Lists(h), vm, i, d.path) && d in FileDisks(h.doms[vm].xml);
    if InUse(h.doms, d.path) {
      HolderLists(h, d.path);
    }
    if Active(h.doms[vm].run) {
      assert ListsPath(FileDisks(h.doms[vm].xml), d.path);
    }
  }

  // ---------------------------------------------------------------- effects that keep the invariant

  lemma SafeSetRun(h: Host, name: string, run: RunState)
    requires Safe(h) && name in h.doms
    ensures Safe(SetRun(h, name, run))
    ensures Lists(SetRun(h, name, run)) == Lists(h)
  {
    hide TextOk, FileDisks, ListsOk;
    assert Lists(SetRun(h, name, run)) == Lists(h);
  }

  /** The lists stay in order as long as every listed volume keeps its place and name. */
  lemma ListsStayOk(lists: DiskLists, vols: map<string, Volume>, after: map<string, Volume>)
    requires ListsOk(lists, vols)
    requires forall n, i, p :: DiskAt(lists, n, i, p) ==> p in after && p in vols && after[p].name == vols[p].name
    ensures ListsOk(lists, after)
  {
    forall n | n in lists
      ensures ListOk(after, n, lists[n])
    {
      assert ListOk(vols, n, lists[n]);
      forall i | 0 <= i < |lists[n]|
        ensures DiskOk(after, n, i, lists[n][i])
      {
        assert DiskOk(vols, n, i, lists[n][i]);
        assert DiskAt(lists, n, i, lists[n][i].path);
      }
    }
  }

  lemma ListedExist(lists: DiskLists, vols: map<string, Volume>, n: string, i: int, p: string)
    requires ListsOk(lists, vols) && DiskAt(lists, n, i, p)
    ensures p in vols
  {
    assert ListOk(vols, n, lists[n]);
    assert DiskOk(vols, n, i, lists[n][i]);
  }

  /** A new volume on a free path. */
  lemma SafeAddVolume(h: Host, path: string, v: Volume)
    requires Safe(h) && path !in h.vols && VolumeOk(h.pools, path, v)
    ensures Safe(AddVolume(h, path, v)) && Lists(AddVolume(h, path, v)) == Lists(h)
  {
    hide TextOk, FileDisks, VolumeOk;
    var g := AddVolume(h, path, v);
    assert Lists(g) == Lists(h);
    forall n, i, p | DiskAt(Lists(h), n, i, p)
      ensures p in g.vols && p in h.vols && g.vols[p].name == h.vols[p].name
    {
      ListedExist(Lists(h), h.vols, n, i, p);
    }
    ListsStayOk(Lists(h), h.vols, g.vols);
    hide ListsOk;
  }

  /** Dropping a volume that no domain lists. */
  lemma SafeDropVolume(h: Host, path: string)
    requires Safe(h) && Unlisted(Lists(h), path)
    ensures Safe(DropVolume(h, path)) && Lists(DropVolume(h, path)) == Lists(h)
  {
    hide TextOk, FileDisks, VolumeOk;
    var g := DropVolume(h, path);
    assert Lists(g) == Lists(h);
    forall n, i, p | DiskAt(Lists(h), n, i, p)
      ensures p in g.vols && p in h.vols && g.vols[p].name == h.vols[p].name
    {
      ListedExist(Lists(h), h.vols, n, i, p);
    }
    ListsStayOk(Lists(h), h.vols, g.vols);
    hide ListsOk;
  }

  lemma SafeSetCapacity(h: Host, path: string, bytes: u64)
    requires Safe(h) && path in h.vols
    ensures Safe(SetCapacity(h, path, bytes)) && Lists(SetCapacity(h, path, bytes)) == Lists(h)
  {
    hide TextOk, FileDisks;
    var g := SetCapacity(h, path, bytes);
    assert Lists(g) == Lists(h);
    forall n, i, p | DiskAt(Lists(h), n, i, p)
      ensures p in g.vols && p in h.vols && g.vols[p].name == h.vols[p].name
    {
      ListedExist(Lists(h), h.vols, n, i, p);
    }
    ListsStayOk(Lists(h), h.vols, g.vols);
    hide ListsOk;
  }

  lemma ExclusiveWith(lists: DiskLists, name: string, disks: seq<DiskDevice>)
    requires Exclusive(lists)
    requires forall i, j :: 0 <= i < j < |disks| ==> disks[i].path != disks[j].path
    requires forall n, i, k :: n != name && 0 <= k < |disks| ==> !DiskAt(lists, n, i, disks[k].path)
    ensures Exclusive(lists[name := disks])
  {
    var after := lists[name := disks];
    forall m, n, i, j, p | DiskAt(after, m, i, p) && DiskAt(after, n, j, p)
      ensures m == n && i == j
    {
      assert m != name ==> DiskAt(lists, m, i, p);
      assert n != name ==> DiskAt(lists, n, j, p);
    }
  }

  /** A domain is given new text whose list names only volumes that no other domain lists. */
  lemma SafeSetXml(h: Host, name: string, xml: string)
    requires Safe(h) && TextOk(name, xml) && ListOk(h.vols, name, FileDisks(xml))
    requires forall i, j :: 0 <= i < j < |FileDisks(xml)| ==> FileDisks(xml)[i].path != FileDisks(xml)[j].path
    requires forall n, i, k :: n != name && 0 <= k < |FileDisks(xml)| ==>
      !DiskAt(Lists(h), n, i, FileDisks(xml)[k].path)
    ensures Safe(SetXml(h, name, xml))
    ensures Lists(SetXml(h, name, xml)) == Lists(h)[name := FileDisks(xml)]
  {
    hide TextOk, FileDisks, ListOk, PoolsOk, VolumeOk, Lists, DiskAt;
    ExclusiveWith(Lists(h), name, FileDisks(xml));
    hide Exclusive;
    ListsSetXml(h, name, xml);
  }

  lemma ListsSetXml(h: Host, name: string, xml: string)
    ensures Lists(SetXml(h, name, xml)) == Lists(h)[name := FileDisks(xml)]
    ensures Lists(h).Keys == h.doms.Keys
  {
    hide FileDisks;
  }
}
