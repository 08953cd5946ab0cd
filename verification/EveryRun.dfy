/**
  Whole runs of any operations under any names, on any host: exactly when every listed disk
  stays its VM's own, what becomes of volumes that nobody lists, and that a run leaves alone
  what it does not name.
 */
module EveryRun {
  import opened Outcomes
  import opened DomainDescription
  import opened DomainText
  import opened VolumeNames
  import opened Libvirt
  import opened Operations
  import opened Safety
  import opened Migration
  import opened DiskAddition
  import opened VmRemoval
  import opened Creation
  import opened CreationExits
  import opened WholeRuns
  import opened IdleVolumes
  import opened Bystanders
  import opened SilentVms

  // ---------------------------------------------------------------- every disk is its VM's own

  ghost predicate AllAllowed(ops: seq<Op>) {
    forall i :: 0 <= i < |ops| ==> Allowed(ops[i])
  }

  lemma {:induction false} StaysSound(w: World, ops: seq<Op>, k: nat)
    requires Sound(w.host) && AllAllowed(ops) && k <= |ops|
    requires forall i :: 0 <= i < k ==> !DefinesQuoted(Run(w, ops[..i]), ops[i])
    ensures Sound(Run(w, ops[..k]).host) && KeepsIdle(w.host, Run(w, ops[..k]).host)
  {
    hide Sound, Perform, Allowed, DefinesQuoted, KeepsIdle;
    if k == 0 {
      Unchanged(w.host);
    } else {
      var before := Run(w, ops[..k - 1]);
      StaysSound(w, ops, k - 1);
      RunOneMore(w, ops, k - 1);
      PerformKeepsSound(before, ops[k - 1]);
      KeepsIdleTwice(w.host, before.host, Perform(before, ops[k - 1]).host);
    }
  }

  lemma KeepsIdleTwice(a: Host, b: Host, c: Host)
    requires KeepsIdle(a, b) && KeepsIdle(b, c)
    ensures KeepsIdle(a, c)
  {
    hide Lists, Unlisted;
  }

  /**
    Storage safety over whole runs, in the host's own terms: at every point of a run of any
    operations, under any names and any schedule, every disk that a VM lists is an existing
    volume, attached and named in order, that no other disk names; if and only if no create of
    the run defines a domain whose name holds a quote before any closing bracket.
   */
  lemma EveryDiskAfterEveryRun(w: World, ops: seq<Op>)
    requires Sound(w.host) && AllAllowed(ops)
    ensures (forall k :: 0 <= k <= |ops| ==> EveryDiskOwn(Run(w, ops[..k]).host))
       <==> (forall i :: 0 <= i < |ops| ==> !DefinesQuoted(Run(w, ops[..i]), ops[i]))
  {
    hide Sound, Perform, Allowed, DefinesQuoted, Run, EveryDiskOwn;
    if i :| 0 <= i < |ops| && DefinesQuoted(Run(w, ops[..i]), ops[i]) {
      FirstQuoted(w, ops, i);
    } else {
      forall k | 0 <= k <= |ops|
        ensures EveryDiskOwn(Run(w, ops[..k]).host)
      {
        StaysSound(w, ops, k);
        SoundDisksOwn(Run(w, ops[..k]).host);
      }
    }
  }

  /** The first such create breaks it. */
  lemma {:induction false} FirstQuoted(w: World, ops: seq<Op>, i: nat)
    requires Sound(w.host) && AllAllowed(ops) && i < |ops| && DefinesQuoted(Run(w, ops[..i]), ops[i])
    ensures exists k :: 0 <= k <= |ops| && !EveryDiskOwn(Run(w, ops[..k]).host)
  {
    hide Sound, Perform, Allowed, DefinesQuoted, Run, EveryDiskOwn;
    if j :| 0 <= j < i && DefinesQuoted(Run(w, ops[..j]), ops[j]) {
      FirstQuoted(w, ops, j);
    } else {
      StaysSound(w, ops, i);
      RunOneMore(w, ops, i);
      PerformKeepsDisksOwn(Run(w, ops[..i]), ops[i]);
      assert !EveryDiskOwn(Run(w, ops[..i + 1]).host);
    }
  }

  // ---------------------------------------------------------------- volumes that nobody lists

  /** Operations under names without a quote before any closing bracket. */
  predicate Unquoted(op: Op) {
    Allowed(op) && (op.CreateVm? ==> !QuoteFirst(op.cfg.name))
  }

  lemma UnquotedIsAllowed(w: World, op: Op)
    requires Unquoted(op)
    ensures Allowed(op) && !DefinesQuoted(w, op)
  {
  }

  /**
    Over any run under such names, under every schedule: a volume that no VM lists stays in
    place, with its capacity and content, and stays unlisted; the pools stay the same.
   */
  lemma RunsKeepIdle(w: World, ops: seq<Op>)
    requires Sound(w.host) && forall i :: 0 <= i < |ops| ==> Unquoted(ops[i])
    ensures Sound(Run(w, ops).host) && KeepsIdle(w.host, Run(w, ops).host)
  {
    hide Sound, Run, Unquoted, Allowed, DefinesQuoted, KeepsIdle;
    forall i | 0 <= i < |ops|
      ensures Allowed(ops[i]) && !DefinesQuoted(Run(w, ops[..i]), ops[i])
    {
      UnquotedIsAllowed(Run(w, ops[..i]), ops[i]);
    }
    StaysSound(w, ops, |ops|);
    assert ops[..|ops|] == ops;
  }

  lemma SoundIsNumbered(h: Host, vm: string)
    requires Sound(h) && vm in h.doms
    ensures Numbered(h, vm)
  {
    hide Safe, Silent, BracketFirst, Disks, VdTarget, VolumeNameOk;
    if BracketFirst(vm) {
      SilentDisks(h, vm);
    } else {
      DomainFacts(Own(h), vm);
      SameText(h, vm);
    }
  }

  lemma SameText(h: Host, vm: string)
    requires vm in h.doms && !BracketFirst(vm)
    ensures vm in Own(h).doms && Disks(Own(h), vm) == Disks(h, vm)
  {
    hide BracketFirst, FileDisks;
  }

  lemma ListedIsThere(h: Host, n: string, i: int, p: string)
    requires EveryDiskOwn(h) && DiskAt(Lists(h), n, i, p)
    ensures p in h.vols
  {
    hide FileDisks, VdTarget, DiskVolName;
    assert OwnDisk(h, n, i);
  }

  /** What is not there, nobody lists. */
  lemma AbsentIsUnlisted(h: Host, p: string)
    requires Sound(h) && p !in h.vols
    ensures Unlisted(Lists(h), p)
  {
    SoundDisksOwn(h);
    hide Sound, EveryDiskOwn, Lists, DiskAt;
    forall n, i
      ensures !DiskAt(Lists(h), n, i, p)
    {
      if DiskAt(Lists(h), n, i, p) {
        ListedIsThere(h, n, i, p);
      }
    }
  }

  lemma OrphanIsIdle(w: World, vm: string, sizeGB: u64, pool: string)
    requires Sound(w.host) && AddLeavesOrphan(w, vm, sizeGB, pool)
    ensures var g := AddDisk(w, vm, sizeGB, pool).w.host;
      && OrDefault(pool) in w.host.pools && vm in w.host.doms
      && Sound(g) && g.pools == w.host.pools && Idle(g, NextPath(w.host, vm, pool))
  {
    var h, op := w.host, AddDiskTo(vm, sizeGB, pool);
    hide Sound, AddDisk, Lists, Disks, Unlisted, Numbered, KeepsIdle, PathIn, ExtraVolName;
    SoundIsNumbered(h, vm);
    AddDiskExits(w, vm, sizeGB, pool);
    assert Perform(w, op) == AddDisk(w, vm, sizeGB, pool).w;
    PerformKeepsSound(w, op);
    AbsentIsUnlisted(h, NextPath(h, vm, pool));
    SameDomainLists(h, AddDisk(w, vm, sizeGB, pool).w.host);
  }

  /**
    An orphan that AddDisk left stays, in every run after it, and as long as the VM of that
    name has as many disks as it had, every attempt to add one in the same pool is refused.
   */
  lemma OrphanBlocksItsDisk(w: World, vm: string, sizeGB: u64, pool: string, ops: seq<Op>, size: u64, again: string)
    requires Sound(w.host) && AddLeavesOrphan(w, vm, sizeGB, pool)
    requires forall i :: 0 <= i < |ops| ==> Unquoted(ops[i])
    ensures var later := Run(AddDisk(w, vm, sizeGB, pool).w, ops);
      && Idle(later.host, NextPath(w.host, vm, pool))
      && (vm in later.host.doms && |Disks(later.host, vm)| == |Disks(w.host, vm)|
          && OrDefault(again) == OrDefault(pool) ==>
           AddDisk(later, vm, size, again).r.Err? && AddDisk(later, vm, size, again).w.host == later.host)
  {
    var left := AddDisk(w, vm, sizeGB, pool).w;
    hide Sound, AddDisk, Lists, Disks, AddLeavesOrphan, Run, Unquoted, PathIn, ExtraVolName, Numbered;
    OrphanIsIdle(w, vm, sizeGB, pool);
    RunsKeepIdle(left, ops);
    var later := Run(left, ops);
    if vm in later.host.doms && |Disks(later.host, vm)| == |Disks(w.host, vm)| && OrDefault(again) == OrDefault(pool) {
      SoundIsNumbered(later.host, vm);
      TakenNameIsRefused(later, vm, size, again);
    }
  }

  /** A create in clone mode stopped after cloning and before the domain was defined. */
  ghost predicate CreateLeavesClone(w: World, cfg: VMConfig) {
    !cfg.noclone && CreateProgress(w, cfg) in {CloneMade, DiskSized, ExtraMade}
  }

  lemma CloneIsIdle(w: World, cfg: VMConfig)
    requires Sound(w.host) && CloneRequest(cfg) && CreateLeavesClone(w, cfg)
    ensures CanClone(w.host, cfg) && OrDefault(cfg.pool) in w.host.pools
    ensures var g := Provision(w, cfg).w.host;
      Sound(g) && g.pools == w.host.pools && Idle(g, ClonePath(w.host, cfg))
  {
    var h, g := w.host, Provision(w, cfg).w.host;
    hide Sound, Provision, Lists, Unlisted, PathIn, VolumeNameOk, CanExtra, CanSize, CanDefine, Grown, KeepsIdle;
    hide CreateProgress, ProgressHost, NoChar;
    ProgressNeedsClone(w, cfg);
    CreationEnds(w, cfg);
    DefinedAt(w, cfg);
    CloneStays(h, cfg, CreateProgress(w, cfg));
    CreateGrows(w, cfg);
    GrownIsSound(h, g, cfg.name);
    SameDomainLists(h, g);
    AbsentIsUnlisted(h, ClonePath(h, cfg));
  }

  /** Such a clone stays in every run, and every create under its name in its pool is refused before it starts. */
  lemma LeftCloneBlocksItsName(w: World, cfg: VMConfig, ops: seq<Op>, again: VMConfig)
    requires Sound(w.host) && CloneRequest(cfg) && CreateLeavesClone(w, cfg)
    requires forall i :: 0 <= i < |ops| ==> Unquoted(ops[i])
    requires NameFits(again) && !again.noclone && again.name == cfg.name && OrDefault(again.pool) == OrDefault(cfg.pool)
    ensures var later := Run(Provision(w, cfg).w, ops);
      && CanClone(w.host, cfg) && Idle(later.host, ClonePath(w.host, cfg))
      && Provision(later, again).r == Err(CallFailed) && Provision(later, again).w.host == later.host
  {
    var left := Provision(w, cfg).w;
    hide Sound, Provision, Lists, Unlisted, CreateLeavesClone, Run, Unquoted, PathIn, CloneRequest, VolumeNameOk;
    CloneIsIdle(w, cfg);
    RunsKeepIdle(left, ops);
    hide NameFits;
    TakenCloneIsRefused(Run(left, ops), again);
  }

  // ---------------------------------------------------------------- beside other domains

  lemma BesideTwice(w: World, a: Domains, b: Domains)
    ensures Beside(Beside(w, a), b) == Beside(w, a + b)
  {
    assert w.host.doms + a + b == w.host.doms + (a + b);
  }

  /** A domain whose disk is not read back is not migrated, beside others neither. */
  lemma NoMigrationBeside(w: World, others: Domains, vm: string, pool: string)
    requires vm !in others && (vm in w.host.doms ==> SourcePath(w.host.doms[vm].xml) == "")
    ensures MigrateDisk(Beside(w, others), vm, pool) == Along(MigrateDisk(w, vm, pool), others)
  {
    hide SourcePath, StopIfActive, Relocate, LookupDomain, GetState, GetXml, With;
    ReadsBeside(w, others, vm);
    var found := LookupDomain(w, vm);
    ReadsBeside(found.w, others, vm);
    var state := GetState(found.w, vm);
    ReadsBeside(state.w, others, vm);
    ReadsMean(w, vm);
  }

  lemma MigrateBesideSound(w: World, others: Domains, vm: string, pool: string)
    requires Sound(w.host) && vm !in others
    ensures MigrateDisk(Beside(w, others), vm, pool) == Along(MigrateDisk(w, vm, pool), others)
  {
    hide Safe, Silent, BracketFirst, MigrateDisk, Beside, FileDisks;
    if BracketFirst(vm) {
      if vm in w.host.doms {
        SilentListsNothing(w.host.doms[vm].xml, vm);
      }
      NoMigrationBeside(w, others, vm, pool);
    } else {
      var own, silent := w.(host := Own(w.host)), SilentDoms(w.host);
      SplitWorld(w);
      MigrateBeside(own, silent, vm, pool);
      MigrateBeside(own, silent + others, vm, pool);
      BesideTwice(own, silent, others);
      BesideTwice(MigrateDisk(own, vm, pool).w, silent, others);
    }
  }

  lemma SplitWorld(w: World)
    ensures Beside(w.(host := Own(w.host)), SilentDoms(w.host)) == w
  {
    SplitHost(w.host);
    hide Own, SilentDoms, With;
  }

  /** What nobody lists no active domain holds, and what only inactive domains list neither. */
  lemma IdleBootNotInUse(h: Host, vm: string)
    requires EveryDiskOwn(h) && HasBoot(h, vm) && BootPath(h, vm) != "" && !Active(h.doms[vm].run)
    ensures !InUse(h.doms, BootPath(h, vm))
  {
    hide FileDisks, VdTarget, DiskVolName;
    assert OwnDisk(h, vm, 0);
    if InUse(h.doms, BootPath(h, vm)) {
      HolderLists(h, BootPath(h, vm));
    }
  }

  lemma FreeOfOwn(h: Host, op: Op)
    requires Sound(h) && Allowed(op)
    ensures op.CreateVm? && CanClone(h, op.cfg) ==> !InUse(h.doms, BootDisk(h, op.cfg))
    ensures op.ResizeDiskOf? && HasBoot(h, op.vm) && BootPath(h, op.vm) != "" && !Active(h.doms[op.vm].run) ==>
      !InUse(h.doms, BootPath(h, op.vm))
  {
    SoundDisksOwn(h);
    hide Sound, EveryDiskOwn, InUse, Unlisted, Lists, PathIn, VolumeNameOk, NoChar, FileDisks;
    if op.CreateVm? && CanClone(h, op.cfg) {
      AbsentIsUnlisted(h, BootDisk(h, op.cfg));
      UnlistedNotInUse(h, BootDisk(h, op.cfg));
    }
    if op.ResizeDiskOf? && HasBoot(h, op.vm) && BootPath(h, op.vm) != "" && !Active(h.doms[op.vm].run) {
      IdleBootNotInUse(h, op.vm);
    }
  }

  lemma PerformBesideSound(w: World, op: Op, others: Domains)
    requires Sound(w.host) && Allowed(op) && VmOf(op) !in others && Freely(w.host, others, op)
    ensures Perform(Beside(w, others), op) == Beside(Perform(w, op), others)
  {
    hide Sound, Provision, AddDisk, ResizeDisk, MigrateDisk, Delete, With, NoChar, InUse, BootPath, CanClone, BootDisk;
    FreeOfOwn(w.host, op);
    match op
    case CreateVm(cfg) => ProvisionBeside(w, others, cfg);
    case AddDiskTo(vm, sizeGB, pool) => AddBeside(w, others, vm, sizeGB, pool);
    case ResizeDiskOf(vm, sizeGB) => GrowBeside(w, others, vm, sizeGB);
    case MigrateDiskOf(vm, pool) => MigrateBesideSound(w, others, vm, pool);
    case DeleteVm(vm) => DeleteBeside(w, others, vm);
    case Power(vm, run) => PowerBeside(w, others, vm, run);
  }

  /** Otherwise it does what it does without them under some schedule. */
  lemma PerformHeld(w: World, op: Op, others: Domains) returns (faults: set<nat>, own: World)
    requires Sound(w.host) && Allowed(op) && VmOf(op) !in others
    ensures own.host == Perform(w.(faults := faults), op).host
    ensures Perform(Beside(w, others), op) == Beside(own, others)
  {
    hide Sound, Provision, AddDisk, ResizeDisk, MigrateDisk, Delete, With, NoChar, InUse, BootPath, CanClone, BootDisk;
    FreeOfOwn(w.host, op);
    faults, own := w.faults, Perform(w, op);
    match op
    case CreateVm(cfg) =>
      if CanClone(w.host, cfg) && cfg.diskSizeGB > 0 && InUse(others, BootDisk(w.host, cfg)) {
        faults := w.faults + {w.clock + 6};
        own := Perform(w.(faults := faults), op).(faults := w.faults);
        ProvisionHeld(w, others, cfg);
      } else {
        ProvisionBeside(w, others, cfg);
      }
    case ResizeDiskOf(vm, sizeGB) =>
      if vm in w.host.doms && !Active(w.host.doms[vm].run) && InUse(others, BootPath(w.host, vm)) {
        faults := w.faults + {w.clock + 5};
        own := Perform(w.(faults := faults), op).(faults := w.faults);
        GrowHeld(w, others, vm, sizeGB);
      } else {
        GrowBeside(w, others, vm, sizeGB);
      }
    case _ => PerformBesideSound(w, op, others);
  }

  // ---------------------------------------------------------------- whole runs beside other domains

  /** What a sound host lists is a volume, so it lies in a pool. */
  lemma AsideUnlisted(h: Host, p: string)
    requires Sound(h) && Outside(h.pools, p)
    ensures Unlisted(Lists(h), p)
  {
    SoundPlaced(h);
    if p in h.vols {
      assert VolumeOk(h.pools, p, h.vols[p]);
    } else {
      AbsentIsUnlisted(h, p);
    }
  }

  lemma StillApart(h: Host, g: Host, others: Domains)
    requires Apart(h, others) && KeepsIdle(h, g) && Sound(g)
    ensures Apart(g, others)
  {
    hide FileDisks, Sound, Unlisted, Lists, Outside;
    forall n, i | n in others && 0 <= i < |FileDisks(others[n].xml)|
      ensures Aside(g, FileDisks(others[n].xml)[i].path)
    {
      var p := FileDisks(others[n].xml)[i].path;
      assert Aside(h, p);
      if p in h.vols {
        assert Idle(h, p);
      } else {
        AsideUnlisted(g, p);
      }
    }
  }

  /** A whole run does beside other domains what it does without them, if the active ones hold none of its disks. */
  lemma {:induction false} RunsBeside(w: World, ops: seq<Op>, others: Domains)
    requires Sound(w.host) && forall i :: 0 <= i < |ops| ==> Unquoted(ops[i]) && VmOf(ops[i]) !in others
    requires Apart(w.host, Holders(others))
    ensures Run(Beside(w, others), ops) == Beside(Run(w, ops), others)
    decreases |ops|
  {
    hide Sound, Perform, Unquoted, Allowed, DefinesQuoted, VmOf, Beside, Apart, KeepsIdle, Freely, Holders;
    if ops != [] {
      UnquotedIsAllowed(w, ops[0]);
      PerformKeepsSound(w, ops[0]);
      ApartLeavesFree(w.host, others, ops[0]);
      PerformBesideSound(w, ops[0], others);
      StillApart(w.host, Perform(w, ops[0]).host, Holders(others));
      RunsBeside(Perform(w, ops[0]), ops[1..], others);
    }
  }

  lemma StepHeld(w: World, op: Op, others: Domains) returns (own: World)
    requires Sound(w.host) && Unquoted(op) && VmOf(op) !in others
    ensures Perform(Beside(w, others), op) == Beside(own, others)
    ensures Sound(own.host) && KeepsIdle(w.host, own.host)
  {
    hide Sound, Perform, Unquoted, Allowed, DefinesQuoted, VmOf, With, KeepsIdle;
    UnquotedIsAllowed(w, op);
    var faults;
    faults, own := PerformHeld(w, op, others);
    UnquotedIsAllowed(w.(faults := faults), op);
    PerformKeepsSound(w.(faults := faults), op);
  }

  /** Whatever the others hold, a run beside them leaves what some run of vmtool's alone can leave. */
  lemma {:induction false} RunsHeld(w: World, ops: seq<Op>, others: Domains) returns (own: Host)
    requires Sound(w.host) && forall i :: 0 <= i < |ops| ==> Unquoted(ops[i]) && VmOf(ops[i]) !in others
    ensures Run(Beside(w, others), ops).host == With(own, others)
    ensures Sound(own) && KeepsIdle(w.host, own)
    decreases |ops|
  {
    hide Sound, Perform, Unquoted, VmOf, With, KeepsIdle;
    if ops == [] {
      own := w.host;
      Unchanged(w.host);
    } else {
      var next := StepHeld(w, ops[0], others);
      own := RunsHeld(next, ops[1..], others);
      KeepsIdleTwice(w.host, next.host, own);
    }
  }

  /**
    Storage safety on a shared host: beside any other domains that no operation names, over
    every run and under every schedule, those domains and the volumes that none of vmtool's VMs
    lists stay exactly as they were, and every disk of a VM of vmtool's is an existing volume
    named and attached in order that no other domain, of either kind, lists.
   */
  lemma RunsBesideOthers(w: World, ops: seq<Op>, others: Domains)
    requires Sound(w.host) && forall i :: 0 <= i < |ops| ==> Unquoted(ops[i]) && VmOf(ops[i]) !in others
    ensures var g := Run(Beside(w, others), ops).host;
      && (forall n :: n in others ==> n in g.doms && g.doms[n] == others[n])
      && (forall p :: Idle(w.host, p) ==> p in g.vols && g.vols[p] == w.host.vols[p])
      && (Apart(w.host, others) ==>
           forall vm, i :: vm in g.doms && vm !in others && 0 <= i < |Disks(g, vm)| ==> OwnDisk(g, vm, i))
  {
    hide Sound, Run, Unquoted, VmOf, Apart, OwnDisk, FileDisks, Lists, Unlisted;
    var own := RunsHeld(w, ops, others);
    var g := With(own, others);
    if Apart(w.host, others) {
      StillApart(w.host, own, others);
      SoundDisksOwn(own);
      forall vm, i | vm in g.doms && vm !in others && 0 <= i < |Disks(g, vm)|
        ensures OwnDisk(g, vm, i)
      {
        DisksBeside(own, others, vm);
        OwnBesideOthers(own, others, vm, i);
      }
    }
  }

  lemma OthersStay(w: World, ops: seq<Op>, others: Domains)
    requires Sound(w.host) && forall i :: 0 <= i < |ops| ==> Unquoted(ops[i]) && VmOf(ops[i]) !in others
    ensures var g := Run(Beside(w, others), ops).host;
      && (forall n :: n in others ==> n in g.doms && g.doms[n] == others[n])
      && (forall p :: Idle(w.host, p) ==> p in w.host.vols && p in g.vols && g.vols[p] == w.host.vols[p])
  {
    hide Sound, Run, Unquoted, VmOf, Apart, OwnDisk, FileDisks, Lists, Unlisted;
    RunsBesideOthers(w, ops, others);
  }

  /** Every disk of every domain is a volume of some pool, or lies outside all pools. */
  ghost predicate DisksPlaced(h: Host) {
    forall n, i :: n in h.doms && 0 <= i < |Disks(h, n)| ==>
      Disks(h, n)[i].path in h.vols || Outside(h.pools, Disks(h, n)[i].path)
  }

  /** Without VMs of vmtool's no volume is listed by one. */
  lemma AllIdle(h: Host, bare: Host)
    requires bare == h.(doms := map[])
    ensures forall p :: p in h.vols ==> Idle(bare, p)
    ensures DisksPlaced(h) ==> Apart(bare, h.doms)
  {
    hide FileDisks, Outside;
    assert Lists(bare) == map[];
    assert forall p :: Unlisted(Lists(bare), p);
    if DisksPlaced(h) {
      forall n, i | n in h.doms && 0 <= i < |FileDisks(h.doms[n].xml)|
        ensures Aside(bare, FileDisks(h.doms[n].xml)[i].path)
      {
        assert Disks(h, n)[i].path in h.vols || Outside(h.pools, Disks(h, n)[i].path);
      }
    }
  }

  /**
    So vmtool may start on any host whose volumes lie in its pools, whatever domains it has:
    with names of its own it leaves every domain and every volume that was there exactly as it
    was, and gives its VMs disks that nobody else has.
   */
  lemma RunsOnAnyHost(w: World, ops: seq<Op>)
    requires PoolsOk(w.host.pools) && forall p :: p in w.host.vols ==> VolumeOk(w.host.pools, p, w.host.vols[p])
    requires forall i :: 0 <= i < |ops| ==> Unquoted(ops[i]) && VmOf(ops[i]) !in w.host.doms
    ensures var h, g := w.host, Run(w, ops).host;
      && (forall n :: n in h.doms ==> n in g.doms && g.doms[n] == h.doms[n])
      && (forall p :: p in h.vols ==> p in g.vols && g.vols[p] == h.vols[p])
      && (DisksPlaced(h) ==>
           forall vm, i :: vm in g.doms && vm !in h.doms && 0 <= i < |Disks(g, vm)| ==> OwnDisk(g, vm, i))
  {
    var h := w.host;
    var bare := w.(host := h.(doms := map[]));
    assert map[] + h.doms == h.doms;
    assert Beside(bare, h.doms) == w;
    hide Safe, Sound, Run, Unquoted, VmOf, OwnDisk, FileDisks, VolumeOk, PoolsOk, Apart, Idle, Beside, Lists;
    hide DisksPlaced;
    HostWithoutDomainsIsSafe(bare.host);
    SafeIsSound(bare.host);
    AllIdle(h, bare.host);
    RunsBesideOthers(bare, ops, h.doms);
  }

  // ---------------------------------------------------------------- VMs that a run does not name

  function Drop(h: Host, vm: string): Host {
    h.(doms := h.doms - {vm})
  }

  lemma OwnDrop(h: Host, vm: string)
    ensures Own(Drop(h, vm)) == Drop(Own(h), vm)
    ensures vm !in Own(h).doms ==> Drop(Own(h), vm) == Own(h)
  {
    hide BracketFirst;
    assert Own(Drop(h, vm)).doms == Own(h).doms - {vm};
    assert vm !in Own(h).doms ==> Own(h).doms - {vm} == Own(h).doms;
  }

  lemma SoundWithout(h: Host, vm: string)
    requires Sound(h)
    ensures Sound(Drop(h, vm))
  {
    OwnDrop(h, vm);
    hide Safe, Silent, BracketFirst, Own;
    if vm in Own(h).doms {
      SafeWithout(Own(h), vm, {});
      assert Own(h).vols - {} == Own(h).vols;
    }
  }

  lemma ListedByOther(h: Host, vm: string, n: string, j: int, p: string)
    requires DiskAt(Lists(Drop(h, vm)), n, j, p)
    ensures n != vm && n in h.doms && 0 <= j < |Disks(h, n)| && Disks(h, n)[j].path == p
  {
    hide FileDisks;
  }

  /** What one VM lists, no other lists. */
  lemma NotListedElsewhere(h: Host, vm: string, i: nat, n: string, j: int, p: string)
    requires vm in h.doms && i < |Disks(h, vm)| && OwnDisk(h, vm, i) && p == Disks(h, vm)[i].path
    ensures p in h.vols && !DiskAt(Lists(Drop(h, vm)), n, j, p)
  {
    hide FileDisks, VdTarget, DiskVolName;
    if DiskAt(Lists(Drop(h, vm)), n, j, p) {
      ListedByOther(h, vm, n, j, p);
    }
  }

  lemma OwnDisksIdleWithout(h: Host, vm: string)
    requires Sound(h) && vm in h.doms
    ensures forall p :: p in OwnPaths(h, vm) ==> p in h.vols && Idle(Drop(h, vm), p)
  {
    var paths := Paths(Disks(h, vm));
    SoundDisksOwn(h);
    hide Sound, Disks, DiskAt, Lists, OwnDisk;
    forall p | p in paths
      ensures p in h.vols && Idle(Drop(h, vm), p)
    {
      var i :| 0 <= i < |paths| && paths[i] == p;
      forall n, j
        ensures p in h.vols && !DiskAt(Lists(Drop(h, vm)), n, j, p)
      {
        NotListedElsewhere(h, vm, i, n, j, p);
      }
      NotListedElsewhere(h, vm, i, vm, 0, p);
    }
  }

  lemma Rejoin(w: World, vm: string)
    requires vm in w.host.doms
    ensures Beside(w.(host := Drop(w.host, vm)), map[vm := w.host.doms[vm]]) == w
  {
    assert w.host.doms - {vm} + map[vm := w.host.doms[vm]] == w.host.doms;
  }

  /**
    A VM that a run does not name keeps its text and its run state, and the volumes it lists
    their capacity and content, whatever the run does to others.
   */
  lemma UnnamedVmStays(w: World, ops: seq<Op>, vm: string)
    requires Sound(w.host) && vm in w.host.doms
    requires forall i :: 0 <= i < |ops| ==> Unquoted(ops[i]) && VmOf(ops[i]) != vm
    ensures var h, g := w.host, Run(w, ops).host;
      && vm in g.doms && g.doms[vm] == h.doms[vm]
      && (forall p :: p in OwnPaths(h, vm) ==> p in h.vols && p in g.vols && g.vols[p] == h.vols[p])
  {
    hide *;
    Rejoin(w, vm);
    SoundWithout(w.host, vm);
    OwnDisksIdleWithout(w.host, vm);
    UnnamedBeside(w, w.(host := Drop(w.host, vm)), ops, vm);
    SameVols(w.host, vm);
  }

  lemma UnnamedBeside(w: World, rest: World, ops: seq<Op>, vm: string)
    requires Sound(rest.host) && vm in w.host.doms && Beside(rest, map[vm := w.host.doms[vm]]) == w
    requires forall i :: 0 <= i < |ops| ==> Unquoted(ops[i]) && VmOf(ops[i]) != vm
    ensures var g := Run(w, ops).host;
      && vm in g.doms && g.doms[vm] == w.host.doms[vm]
      && (forall p :: Idle(rest.host, p) ==> p in rest.host.vols && p in g.vols && g.vols[p] == rest.host.vols[p])
  {
    hide *;
    var others: Domains := map[vm := w.host.doms[vm]];
    OthersStay(rest, ops, others);
  }

  lemma SameVols(h: Host, vm: string)
    ensures Drop(h, vm).vols == h.vols
  {
  }
}
