/** What the outcome of CreateVM means for its callers. */
module CreateContract {
  import opened Text
  import opened Outcomes
  import opened DomainDescription
  import opened DomainText
  import opened DomainRoundTrip
  import opened NetworkRoundTrip
  import opened ExtraVars
  import opened PlaybookPath
  import opened VolumeNames
  import opened Libvirt
  import opened Safety
  import opened Creation
  import opened CreationExits
  import opened WholeRuns
  import opened UncleanNames
  import opened SilentVms
  import opened AppService
  import Operations

  // ---------------------------------------------------------------- the grammar of traces

  lemma {:induction false} PairsAt(stages: seq<Stage>, i: nat)
    requires i < |stages|
    ensures |Pairs(stages)| == 2 * |stages|
    ensures Pairs(stages)[2 * i] == Event(stages[i], Begun) && Pairs(stages)[2 * i + 1] == Event(stages[i], Done)
    decreases |stages|
  {
    var n := |stages| - 1;
    if n > 0 {
      PairsAt(stages[..n], if i < n then i else 0);
    }
  }

  lemma PairsLength(stages: seq<Stage>)
    ensures |Pairs(stages)| == 2 * |stages|
  {
    if stages != [] {
      PairsAt(stages, 0);
    }
  }

  /**
    Every trace, event by event: events come in pairs of a begin and, right after it, the
    conclusion of the same stage; a failure is the last event; and the one begin that may be
    left without a conclusion is a wait for the address that ends the trace.
   */
  lemma TraceGrammar(past: seq<Stage>, how: Ending, i: nat)
    requires i < |Trace(past, how)|
    ensures var t := Trace(past, how);
      && (i % 2 == 0 ==> t[i].status == Begun)
      && (i % 2 == 1 ==> t[i].status != Begun && t[i - 1] == Event(t[i].stage, Begun))
      && (t[i].status == Failed ==> i == |t| - 1)
      && (i == |t| - 1 && t[i].status == Begun ==> how == Abandoned && t[i].stage == WaitIp)
  {
    PairsLength(past);
    if i / 2 < |past| {
      PairsAt(past, i / 2);
    }
  }

  function Rank(s: Stage): nat {
    match s
    case Clone => 0
    case Resize => 1
    case ExtraDisk => 2
    case Boot => 3
    case WaitIp => 4
    case WriteInventory => 5
    case GrowDisk => 6
    case RunPlaybook => 7
    case Reboot => 8
  }

  predicate Requested(req: CreateVMInput, inventory: string, s: Stage) {
    match s
    case Clone => !req.noclone
    case Resize => req.diskSizeGB > 0
    case ExtraDisk => req.extraDiskSizeGB > 0
    case Boot => true
    case WaitIp => true
    case WriteInventory => inventory != ""
    case GrowDisk => req.diskSizeGB > 0
    case RunPlaybook => req.playbook != ""
    case Reboot => req.playbook != ""
  }

  predicate Ascending(stages: seq<Stage>) {
    forall i, j :: 0 <= i < j < |stages| ==> Rank(stages[i]) < Rank(stages[j])
  }

  ghost predicate Between(stages: seq<Stage>, lo: nat, hi: nat) {
    Ascending(stages) && forall s :: s in stages ==> lo <= Rank(s) < hi
  }

  lemma Chain(a: seq<Stage>, b: seq<Stage>, lo: nat, mid: nat, hi: nat)
    requires Between(a, lo, mid) && Between(b, mid, hi) && lo <= mid <= hi
    ensures Between(a + b, lo, hi)
    ensures forall s :: s in a + b <==> s in a || s in b
  {
    hide Rank;
    forall i, j | 0 <= i < j < |a + b|
      ensures Rank((a + b)[i]) < Rank((a + b)[j])
    {
      assert i < |a| ==> a[i] in a;
      assert j >= |a| ==> b[j - |a|] in b;
    }
  }

  lemma Single(c: bool, s: Stage)
    ensures Between(When(c, [s]), Rank(s), Rank(s) + 1)
    ensures forall t :: t in When(c, [s]) <==> c && t == s
  {
  }

  lemma Last(c: bool)
    ensures Between(When(c, [RunPlaybook, Reboot]), 7, 9)
    ensures forall s :: s in When(c, [RunPlaybook, Reboot]) <==> c && (s == RunPlaybook || s == Reboot)
  {
  }

  lemma BootPlanIsOrdered(cfg: VMConfig)
    ensures Between(BootPlan(cfg), 0, 4)
    ensures forall s :: s in BootPlan(cfg) <==>
      (s == Clone && !cfg.noclone) || (s == Resize && cfg.diskSizeGB > 0)
      || (s == ExtraDisk && cfg.extraDiskSizeGB > 0) || s == Boot
  {
    var a, b := When(!cfg.noclone, [Clone]), When(cfg.diskSizeGB > 0, [Resize]);
    var c := When(cfg.extraDiskSizeGB > 0, [ExtraDisk]);
    Single(!cfg.noclone, Clone);
    Single(cfg.diskSizeGB > 0, Resize);
    Single(cfg.extraDiskSizeGB > 0, ExtraDisk);
    Single(true, Boot);
    assert When(true, [Boot]) == [Boot];
    hide When, Between;
    Chain(a, b, 0, 1, 2);
    Chain(a + b, c, 0, 2, 3);
    Chain(a + b + c, [Boot], 0, 3, 4);
  }

  lemma SettlePlanIsOrdered(req: CreateVMInput, inventory: string)
    ensures Between(SettlePlan(req, inventory), 4, 9)
    ensures forall s :: s in SettlePlan(req, inventory) <==>
      s == WaitIp || (s == WriteInventory && inventory != "") || (s == GrowDisk && req.diskSizeGB > 0)
      || ((s == RunPlaybook || s == Reboot) && req.playbook != "")
  {
    var a, b := When(inventory != "", [WriteInventory]), When(req.diskSizeGB > 0, [GrowDisk]);
    var c := When(req.playbook != "", [RunPlaybook, Reboot]);
    assert When(true, [WaitIp]) == [WaitIp];
    hide When, Between;
    Single(inventory != "", WriteInventory);
    Single(req.diskSizeGB > 0, GrowDisk);
    Single(true, WaitIp);
    Last(req.playbook != "");
    Chain(a, b, 5, 6, 7);
    Chain(a + b, c, 5, 7, 9);
    Chain([WaitIp], a + b + c, 4, 5, 9);
  }

  /** The plan holds exactly the requested stages, each once, in the fixed order. */
  lemma PlanIsOrdered(req: CreateVMInput, inventory: string)
    ensures Ascending(Plan(req, inventory))
    ensures forall s :: s in Plan(req, inventory) <==> Requested(req, inventory, s)
  {
    hide BootPlan, SettlePlan;
    BootPlanIsOrdered(Config(req, ""));
    SettlePlanIsOrdered(req, inventory);
    Chain(BootPlan(Config(req, "")), SettlePlan(req, inventory), 0, 4, 9);
  }

  /** Begins and conclusions alternate, each conclusion that of the begin right before it; a failure is last. */
  ghost predicate Alternates(t: seq<Event>) {
    && (forall i :: 0 <= i < |t| ==> (t[i].status == Begun <==> i % 2 == 0))
    && (forall i :: 0 < i < |t| && i % 2 == 1 ==> t[i - 1].stage == t[i].stage)
    && (forall i :: 0 <= i < |t| && t[i].status == Failed ==> i == |t| - 1)
    && (|t| % 2 == 1 ==> t[|t| - 1].stage == WaitIp)
  }

  /** The stages are requested ones, in strictly increasing order from pair to pair. */
  ghost predicate InOrder(t: seq<Event>, req: CreateVMInput, inventory: string) {
    && (forall i :: 0 <= i < |t| ==> Requested(req, inventory, t[i].stage))
    && (forall i, j :: 0 <= i < j < |t| && i / 2 < j / 2 ==> Rank(t[i].stage) < Rank(t[j].stage))
  }

  /** Every requested stage below one that was begun is done. */
  ghost predicate SkipsNone(t: seq<Event>, req: CreateVMInput, inventory: string) {
    forall s, j :: 0 <= j < |t| && Requested(req, inventory, s) && Rank(s) < Rank(t[j].stage) ==> Event(s, Done) in t
  }

  /** The stage of the i-th event. */
  lemma TraceAt(past: seq<Stage>, how: Ending, plan: seq<Stage>, i: nat)
    requires Follows(past, how, plan) && i < |Trace(past, how)|
    ensures i / 2 < |plan| && Trace(past, how)[i].stage == plan[i / 2]
    ensures i / 2 < |past| ==> Trace(past, how)[i] == Event(plan[i / 2], if i % 2 == 0 then Begun else Done)
  {
    PairsLength(past);
    if i / 2 < |past| {
      PairsAt(past, i / 2);
    }
  }

  lemma EarlierIsDone(past: seq<Stage>, how: Ending, plan: seq<Stage>, k: nat, j: nat)
    requires Follows(past, how, plan) && j < |Trace(past, how)| && k < j / 2
    ensures k < |plan| && Event(plan[k], Done) in Trace(past, how)
  {
    PairsLength(past);
    TraceAt(past, how, plan, j);
    PairsAt(past, k);
    assert Trace(past, how)[2 * k + 1] == Event(past[k], Done);
  }

  lemma PlanOrder(plan: seq<Stage>, s: Stage, k: nat)
    requires Ascending(plan) && s in plan && k < |plan| && Rank(s) < Rank(plan[k])
    ensures exists m :: 0 <= m < k && plan[m] == s
  {
    hide Rank;
    var m :| 0 <= m < |plan| && plan[m] == s;
    assert m < k;
  }

  lemma TraceAlternates(past: seq<Stage>, how: Ending)
    ensures Alternates(Trace(past, how))
    ensures |Trace(past, how)| % 2 == 1 <==> how == Abandoned
  {
    var t := Trace(past, how);
    TraceLength(past, how);
    hide Trace;
    forall i | 0 <= i < |t|
      ensures t[i].status == Begun <==> i % 2 == 0
      ensures i % 2 == 1 ==> t[i - 1].stage == t[i].stage
      ensures t[i].status == Failed ==> i == |t| - 1
      ensures i == |t| - 1 && i % 2 == 0 ==> t[i].stage == WaitIp
    {
      TraceGrammar(past, how, i);
    }
  }

  lemma TraceInOrder(req: CreateVMInput, inventory: string, past: seq<Stage>, how: Ending)
    requires Follows(past, how, Plan(req, inventory))
    ensures InOrder(Trace(past, how), req, inventory)
  {
    var plan, t := Plan(req, inventory), Trace(past, how);
    PlanIsOrdered(req, inventory);
    hide Plan, Trace, Rank, Requested, Follows;
    forall i | 0 <= i < |t|
      ensures i / 2 < |plan| && t[i].stage == plan[i / 2]
    {
      TraceAt(past, how, plan, i);
    }
    forall i, j | 0 <= i < j < |t| && i / 2 < j / 2
      ensures Rank(t[i].stage) < Rank(t[j].stage)
    {
      assert Rank(plan[i / 2]) < Rank(plan[j / 2]);
    }
  }

  lemma TraceSkipsNone(req: CreateVMInput, inventory: string, past: seq<Stage>, how: Ending)
    requires Follows(past, how, Plan(req, inventory))
    ensures SkipsNone(Trace(past, how), req, inventory)
  {
    var plan, t := Plan(req, inventory), Trace(past, how);
    PlanIsOrdered(req, inventory);
    hide Plan, Trace, Rank, Requested, Follows, Ascending;
    forall s, j | 0 <= j < |t| && Requested(req, inventory, s) && Rank(s) < Rank(t[j].stage)
      ensures Event(s, Done) in t
    {
      TraceAt(past, how, plan, j);
      PlanOrder(plan, s, j / 2);
      var k :| 0 <= k < j / 2 && plan[k] == s;
      EarlierIsDone(past, how, plan, k, j);
    }
  }

  /**
    Every trace that CreateVM can emit, for any request and any schedule: begins and
    conclusions of requested stages in order, none skipped, at most the last one failed, and
    open at the end, on a wait, exactly when the wait was abandoned.
   */
  lemma EveryTraceIsProper(req: CreateVMInput, inventory: string, past: seq<Stage>, how: Ending)
    requires Follows(past, how, Plan(req, inventory))
    ensures var t := Trace(past, how);
      && Alternates(t) && InOrder(t, req, inventory) && SkipsNone(t, req, inventory)
      && (|t| % 2 == 1 <==> how == Abandoned)
  {
    hide *;
    TraceAlternates(past, how);
    TraceInOrder(req, inventory, past, how);
    TraceSkipsNone(req, inventory, past, how);
  }

  lemma TraceLength(past: seq<Stage>, how: Ending)
    ensures |Trace(past, how)| == 2 * |past| + if how == Smooth then 0 else if how == Abandoned then 1 else 2
  {
    PairsLength(past);
  }

  // ---------------------------------------------------------------- deeds

  function CountTemp(deeds: seq<Deed>): nat {
    if deeds == [] then 0 else CountTemp(deeds[..|deeds| - 1]) + if deeds[|deeds| - 1].TempInventory? then 1 else 0
  }

  function CountCleanup(deeds: seq<Deed>): nat {
    if deeds == [] then 0 else CountCleanup(deeds[..|deeds| - 1]) + if deeds[|deeds| - 1].Cleanup? then 1 else 0
  }

  lemma CountMore(deeds: seq<Deed>, d: Deed)
    ensures CountTemp(deeds + [d]) == CountTemp(deeds) + if d.TempInventory? then 1 else 0
    ensures CountCleanup(deeds + [d]) == CountCleanup(deeds) + if d.Cleanup? then 1 else 0
  {
    assert (deeds + [d])[..|deeds|] == deeds;
  }

  /** In a full list a temporary inventory is used by the next deed and removed by the one after. */
  ghost predicate WellFormed(deeds: seq<Deed>) {
    && (forall i :: 0 <= i < |deeds| && deeds[i].TempInventory? ==>
         i + 2 < |deeds| && (deeds[i + 1].Grow? || deeds[i + 1].Play?) && deeds[i + 2].Cleanup?)
    && (forall i :: 0 <= i < |deeds| && (deeds[i].Grow? || deeds[i].Play?) ==> i > 0 && deeds[i - 1].TempInventory?)
    && (forall i :: 0 <= i < |deeds| && deeds[i].Cleanup? ==> i > 1 && deeds[i - 2].TempInventory?)
  }

  lemma WellFormedConcat(a: seq<Deed>, b: seq<Deed>)
    requires WellFormed(a) && WellFormed(b)
    ensures WellFormed(a + b)
  {
    var c := a + b;
    forall i | 0 <= i < |c|
      ensures i < |a| ==> c[i] == a[i]
      ensures i >= |a| ==> c[i] == b[i - |a|]
    {
    }
  }

  lemma WellFormedWhen(c: bool, s: seq<Deed>)
    requires WellFormed(s)
    ensures WellFormed(When(c, s))
  {
  }

  lemma WellFormedSingle(d: Deed)
    requires d.ForgetMachine? || d.Inventory? || d.Restart?
    ensures WellFormed([d])
  {
  }

  lemma WellFormedTriple(d: Deed)
    requires d.Grow? || d.Play?
    ensures WellFormed([TempInventory, d, Cleanup])
  {
  }

  lemma DeedsWellFormed(req: CreateVMInput, ip: string, dir: string, inventory: string)
    ensures WellFormed(Deeds(req, ip, dir, inventory))
  {
    hide PlaybookFor, DeviceIdVars, WellFormed, When;
    var play := Play(PlaybookFor(dir, req), DeviceIdVars(req.name, req.extraVars));
    WellFormedSingle(ForgetMachine([req.name]));
    WellFormedSingle(ForgetMachine([ip]));
    WellFormedSingle(Inventory(req.name, ip));
    WellFormedSingle(Restart(req.name));
    WellFormedTriple(Grow);
    WellFormedTriple(play);
    WellFormedConcat([TempInventory, play, Cleanup], [Restart(req.name)]);
    assert [TempInventory, play, Cleanup] + [Restart(req.name)] == [TempInventory, play, Cleanup, Restart(req.name)];
    WellFormedWhen(!req.noclone, [ForgetMachine([req.name])]);
    WellFormedWhen(!req.noclone, [ForgetMachine([ip])]);
    WellFormedWhen(inventory != "", [Inventory(req.name, ip)]);
    WellFormedWhen(req.diskSizeGB > 0, [TempInventory, Grow, Cleanup]);
    WellFormedWhen(req.playbook != "", [TempInventory, play, Cleanup, Restart(req.name)]);
    var a, b := When(!req.noclone, [ForgetMachine([req.name])]), When(!req.noclone, [ForgetMachine([ip])]);
    var c := When(inventory != "", [Inventory(req.name, ip)]);
    var d := When(req.diskSizeGB > 0, [TempInventory, Grow, Cleanup]);
    WellFormedConcat(c, d);
    WellFormedConcat(c + d, PlaybookDeeds(dir, req));
    WellFormedConcat(b, c + d + PlaybookDeeds(dir, req));
    WellFormedConcat(a, b + (c + d + PlaybookDeeds(dir, req)));
  }

  lemma {:induction false} PrefixBalance(deeds: seq<Deed>, n: nat)
    requires WellFormed(deeds) && n <= |deeds|
    ensures CountTemp(deeds[..n]) == CountCleanup(deeds[..n]) +
      if n > 0 && (deeds[n - 1].TempInventory? || deeds[n - 1].Grow? || deeds[n - 1].Play?) then 1 else 0
  {
    if n > 0 {
      PrefixBalance(deeds, n - 1);
      assert deeds[..n] == deeds[..n - 1] + [deeds[n - 1]];
      CountMore(deeds[..n - 1], deeds[n - 1]);
    }
  }

  /** Wherever CreateVM stops, it has removed every temporary inventory that it made. */
  lemma NothingTemporaryStays(req: CreateVMInput, ip: string, dir: string, inventory: string, n: nat)
    requires StopsAt(Deeds(req, ip, dir, inventory), n)
    ensures var done := Carried(Deeds(req, ip, dir, inventory), n);
      CountTemp(done) == CountCleanup(done)
  {
    var deeds := Deeds(req, ip, dir, inventory);
    DeedsWellFormed(req, ip, dir, inventory);
    hide Deeds, CountTemp, CountCleanup;
    PrefixBalance(deeds, n);
    CountMore(deeds[..n], Cleanup);
    assert deeds[..n] + [] == deeds[..n];
  }

  /**
    What a complete run has done, in order: what is remembered under the VM's name and address
    is dropped, if the VM is a clone; the inventory is written, if there is one; the filesystem
    is grown, if a size was asked for; a playbook asked for is run from the path its name
    resolves to, with the caller's variables and the device id, and the VM is rebooted after it.
   */
  lemma CompleteRunDid(req: CreateVMInput, ip: string, dir: string, inventory: string, path: string, vars: Vars)
    requires req.playbook != "" ==> ResolvePlaybook(dir, req.playbook) == Ok(path)
    requires req.name != "" && vars - {"deviceid"} == req.extraVars - {"deviceid"} && "deviceid" in vars
    requires vars["deviceid"] == if "deviceid" in req.extraVars then req.extraVars["deviceid"] else req.name
    ensures Carried(Deeds(req, ip, dir, inventory), |Deeds(req, ip, dir, inventory)|) ==
      (if req.noclone then [] else [ForgetMachine([req.name]), ForgetMachine([ip])])
      + (if inventory == "" then [] else [Inventory(req.name, ip)])
      + (if req.diskSizeGB == 0 then [] else [TempInventory, Grow, Cleanup])
      + (if req.playbook == "" then [] else [TempInventory, Play(path, vars), Cleanup, Restart(req.name)])
  {
    SameVars(req, vars);
    DeedsWellFormed(req, ip, dir, inventory);
    AllCarried(Deeds(req, ip, dir, inventory));
    DeedsInOrder(req, ip, dir, inventory);
    PlayedAs(dir, req, path);
    hide *;
  }

  lemma PlayedAs(dir: string, req: CreateVMInput, path: string)
    requires req.playbook != "" ==> ResolvePlaybook(dir, req.playbook) == Ok(path)
    ensures PlaybookDeeds(dir, req) ==
      if req.playbook == "" then []
      else [TempInventory, Play(path, DeviceIdVars(req.name, req.extraVars)), Cleanup, Restart(req.name)]
  {
    hide ResolvePlaybook, DeviceIdVars;
  }

  lemma DeedsInOrder(req: CreateVMInput, ip: string, dir: string, inventory: string)
    ensures Deeds(req, ip, dir, inventory) ==
      (if req.noclone then [] else [ForgetMachine([req.name]), ForgetMachine([ip])])
      + (if inventory == "" then [] else [Inventory(req.name, ip)])
      + (if req.diskSizeGB == 0 then [] else [TempInventory, Grow, Cleanup])
      + PlaybookDeeds(dir, req)
  {
    hide PlaybookDeeds;
    FivePieces(When(!req.noclone, [ForgetMachine([req.name])]), When(!req.noclone, [ForgetMachine([ip])]),
               When(inventory != "", [Inventory(req.name, ip)]),
               When(req.diskSizeGB > 0, [TempInventory, Grow, Cleanup]), PlaybookDeeds(dir, req));
    if !req.noclone {
      assert [ForgetMachine([req.name])] + [ForgetMachine([ip])] == [ForgetMachine([req.name]), ForgetMachine([ip])];
    }
  }

  lemma FivePieces<T>(a: seq<T>, b: seq<T>, c: seq<T>, d: seq<T>, e: seq<T>)
    ensures a + (b + (c + d + e)) == (a + b) + c + d + e
  {
  }

  lemma SameVars(req: CreateVMInput, vars: Vars)
    requires req.name != "" && vars - {"deviceid"} == req.extraVars - {"deviceid"} && "deviceid" in vars
    requires vars["deviceid"] == if "deviceid" in req.extraVars then req.extraVars["deviceid"] else req.name
    ensures vars == DeviceIdVars(req.name, req.extraVars)
  {
    var want := DeviceIdVars(req.name, req.extraVars);
    forall k
      ensures k in vars <==> k in want
      ensures k in vars && k in want ==> vars[k] == want[k]
    {
      assert k != "deviceid" && k in vars ==> k in vars - {"deviceid"};
      assert k != "deviceid" && k in req.extraVars ==> k in req.extraVars - {"deviceid"};
    }
  }

  lemma AllCarried(all: seq<Deed>)
    requires WellFormed(all)
    ensures Carried(all, |all|) == all
  {
    assert all[..|all|] == all;
    if all != [] {
      assert !all[|all| - 1].TempInventory?;
    }
    assert all + [] == all;
  }

  // ---------------------------------------------------------------- libvirt

  /** What libvirt sees of CreateVM is what it sees of Manager.Create. */
  lemma CreateVmIsCreate(req: CreateVMInput, path: string, start: World)
    ensures Operations.Provision(start, Config(req, path)) == Operations.Create(start, Config(req, path))
  {
    hide Operations.Provision, Operations.Create;
    CreateProgramsAgree(start, Config(req, path));
  }

  /**
    Once the domain is defined no later exit of CreateVM takes the definition back: on its
    final host a domain that was not there before is there exactly when the schedule let
    provisioning define it, and then with the final configuration's text, started or not.
   */
  lemma DefinitionStays(req: CreateVMInput, around: Surroundings, start: World, h: Host)
    requires Attempted(req, around, start, h) && NameFits(Config(req, around.image.value))
    ensures var cfg := Config(req, around.image.value);
      var defined := CreateProgress(start, cfg) in {DomainDefined, VmStarted};
      && (defined ==> req.name in h.doms && h.doms[req.name].xml == DomainXml(FinalConfig(start.host, cfg)))
      && (req.name !in start.host.doms ==> (req.name in h.doms <==> defined))
  {
    var cfg := Config(req, around.image.value);
    CreationEnds(start, cfg);
    SameDomains(start.host, cfg);
    hide Operations.Provision, DomainXml, FinalConfig, WithClone, WithSize, WithExtra, NameFits, CreateProgress;
  }

  /** A request in clone mode, for any name, whose network fields the unescaped printer can take. */
  predicate CloneInput(req: CreateVMInput) {
    !req.noclone && NoChar(req.netSource, '<') && NoChar(req.macvtapMode, '<')
  }

  /**
    On a safe host CreateVM, wherever it stops, leaves everything that was there untouched.
    Once the schedule has let it define the domain, every listed disk is still its VM's own
    exactly unless the name holds a quote before any closing bracket, and the host is safe, the
    new VM listing its disks in order, exactly if the name can stand in an attribute.
   */
  lemma CreateVmKeepsSafe(req: CreateVMInput, around: Surroundings, start: World, h: Host)
    requires Safe(start.host) && Acceptable(req) && CloneInput(req) && Attempted(req, around, start, h)
    ensures Spares(start.host, h, req.name)
    ensures var p := CreateProgress(start, Config(req, around.image.value));
      && (Safe(h) <==> CleanText(req.name) || p !in {DomainDefined, VmStarted})
      && (EveryDiskOwn(h) <==> !QuoteFirst(req.name) || p !in {DomainDefined, VmStarted})
    ensures AppService.Provisioned(req, around, start, h) ==>
      && req.name in h.doms && h.doms[req.name].run == Running
      && (CleanText(req.name) ==> OwnsAll(start.host, h, req.name))
  {
    var cfg := Config(req, around.image.value);
    CloneConfigured(req, around.image.value);
    hide Safe, Operations.Provision, CloneRequest, Config, Spares, OwnsAll, OwnsIfAny, CloneInput, CleanText;
    hide AddsUnclean, CreateProgress, QuoteFirst, Sound, EveryDiskOwn, Perform;
    ProvisionExits(start, cfg);
    DefinesUncleanMeans(start, cfg);
    SafeIsSound(start.host);
    PerformKeepsDisksOwn(start, CreateVm(cfg));
    PerformCreate(start, cfg);
  }

  lemma CloneConfigured(req: CreateVMInput, path: string)
    requires CloneInput(req)
    ensures CloneRequest(Config(req, path)) && Config(req, path).name == req.name
  {
    assert NoChar("default", '<');
  }

  /** The interface that a network request asks for. */
  function RequestedNetwork(req: CreateVMInput): (string, string, string) {
    var source := if req.netSource == "" then "default" else req.netSource;
    match req.netType
    case "bridge" => ("bridge", source, "")
    case "direct" => ("direct", source, if req.macvtapMode == "" then "bridge" else req.macvtapMode)
    case _ => ("network", source, "")
  }

  predicate CleanNetwork(req: CreateVMInput) {
    && NoChar(req.netSource, '<') && NoChar(req.macvtapMode, '<')
    && NoChar(req.netSource, '"') && NoChar(req.macvtapMode, '"')
  }

  lemma RequestConfigured(req: CreateVMInput, path: string)
    requires CleanNetwork(req) && (req.noclone ==> NoChar(req.name, '<') && NoChar(path, '<'))
    ensures TaglessRequest(Config(req, path)) && NameFits(Config(req, path))
    ensures var n := Config(req, path).network;
      && NoChar(n.source, '"') && NoChar(n.macvtapMode, '"')
      && (KindText(n), SourceName(n), ModeName(n)) == RequestedNetwork(req)
  {
    assert NoChar("default", '<') && NoChar("default", '"');
  }

  lemma FinalConfigKeeps(h: Host, cfg: VMConfig)
    ensures var final := FinalConfig(h, cfg);
      && final.name == cfg.name && final.network == cfg.network
      && final.memory == cfg.memory && final.vcpus == cfg.vcpus
  {
    hide CanExtra, BootDisk;
  }

  /** The disks that a request asks for: the image or its clone, and perhaps an extra disk. */
  ghost predicate DisksAsked(req: CreateVMInput, path: string, pools: map<string, string>, disks: seq<DiskDevice>) {
    var pool := if req.pool == "" then "default" else req.pool;
    var extraPool := if req.extraDiskPool == "" then pool else req.extraDiskPool;
    && |disks| == (if req.extraDiskSizeGB == 0 then 1 else 2) && disks[0].target == "vda"
    && (if req.noclone then disks[0].path == path
        else pool in pools && disks[0].path == pools[pool] + "/" + (req.name + ".qcow2"))
    && (req.extraDiskSizeGB > 0 ==>
         extraPool in pools && disks[1] == DiskDevice(pools[extraPool] + "/" + (req.name + "-2.qcow2"), "vdb"))
  }

  lemma CreatedAreAsked(req: CreateVMInput, path: string, h: Host, disks: seq<DiskDevice>)
    requires CanCreate(h, Config(req, path))
    ensures DisksAsked(req, path, h.pools, disks) <==> disks == CreatedDisks(h, Config(req, path))
  {
    ExtraFileName(Config(req, path));
    hide ExtraVolName, VolumeNameOk, InUse, CanSize, CanDefine;
  }

  lemma PrintableMeans(req: CreateVMInput, path: string)
    ensures PrintableRequest(Config(req, path)) <==>
      && (req.noclone ==> path != "" && CleanText(path))
      && (CleanText(req.name) || (req.noclone && req.extraDiskSizeGB == 0))
  {
    hide CleanText;
  }

  /**
    From the request to libvirt: when the create succeeds, with or without cloning, the domain
    it leaves carries the requested name, the requested memory and processors or the defaults
    of two each, and the requested network.  The disks read from it are the boot disk on vda, in
    the requested pool, and, exactly when one was asked for, the extra disk on vdb, in its pool
    or the boot disk's: if and only if the name can stand in an attribute, and the path of an
    image that is not cloned.
   */
  lemma RequestReachesLibvirt(req: CreateVMInput, path: string, start: World)
    requires PoolsOk(start.host.pools) && CleanNetwork(req)
    requires req.noclone ==> NoChar(req.name, '<') && NoChar(path, '<')
    requires Operations.Provision(start, Config(req, path)).r.Ok?
    ensures CanCreate(start.host, Config(req, path))
    ensures var g := Operations.Provision(start, Config(req, path)).w.host;
      && req.name in g.doms
      && var xml := g.doms[req.name].xml;
      && NameOf(xml) == req.name
      && MemoryOf(xml) == Dec(if req.memory == 0 then 2 else req.memory)
      && VcpusOf(xml) == Dec(if req.vcpus == 0 then 2 else req.vcpus)
      && NetworkOf(xml) == RequestedNetwork(req)
      && (DisksAsked(req, path, start.host.pools, FileDisks(xml)) <==>
           && (req.noclone ==> path != "" && CleanText(path))
           && (CleanText(req.name) || (req.noclone && req.extraDiskSizeGB == 0)))
  {
    var cfg := Config(req, path);
    RequestConfigured(req, path);
    hide *;
    CreatedAsAsked(start, cfg);
    FinalDisks(start.host, cfg);
    CreatedDisksListedExactly(start, cfg);
    FinalConfigKeeps(start.host, cfg);
    ConfigKeeps(req, path);
    TextReadBack(FinalConfig(start.host, cfg));
    DisksAreFileDisks(Operations.Provision(start, cfg).w.host, req.name);
    CreatedAreAsked(req, path, start.host, Disks(Operations.Provision(start, cfg).w.host, req.name));
    PrintableMeans(req, path);
  }

  // ---------------------------------------------------------------- the volumes that were asked for

  /** The boot disk of a request in clone mode: where it lies, what it is called and holds, and how large it is. */
  ghost predicate BootVolumeIs(req: CreateVMInput, image: string, s: Host, h: Host) {
    var pool := if req.pool == "" then "default" else req.pool;
    var bytes := req.diskSizeGB * 1024 * 1024 * 1024;
    && pool in s.pools && image in s.vols
    && var boot := s.pools[pool] + "/" + (req.name + ".qcow2");
    && boot !in s.vols && boot in h.vols
    && h.vols[boot].pool == pool && h.vols[boot].name == req.name + ".qcow2"
    && h.vols[boot].content == s.vols[image].content
    && h.vols[boot].capacity ==
         (if req.diskSizeGB == 0 then s.vols[image].capacity else bytes % 0x1_0000_0000_0000_0000)
    && (0 < req.diskSizeGB < 0x4_0000_0000 ==> h.vols[boot].capacity == bytes)
  }

  /** The extra disk of a request, empty, in the pool asked for or else in the boot disk's. */
  ghost predicate ExtraVolumeIs(req: CreateVMInput, s: Host, h: Host) {
    var pool := if req.pool == "" then "default" else req.pool;
    var extraPool := if req.extraDiskPool == "" then pool else req.extraDiskPool;
    var bytes := req.extraDiskSizeGB * 1024 * 1024 * 1024;
    && extraPool in s.pools && bytes < 0x1_0000_0000_0000_0000
    && var extra := s.pools[extraPool] + "/" + (req.name + "-2.qcow2");
    && extra !in s.vols && extra in h.vols && h.vols[extra] == Volume(extraPool, req.name + "-2.qcow2", bytes, [])
  }

  lemma ExtraFileName(cfg: VMConfig)
    ensures ExtraVolName(cfg.name, 2) == cfg.name + "-2.qcow2"
  {
    FirstExtraDisk(cfg.name);
  }

  lemma BootVolumeAsAsked(req: CreateVMInput, image: string, s: Host, h: Host)
    requires !req.noclone && CanCreate(s, Config(req, image)) && VolumesAsAsked(s, h, Config(req, image))
    ensures BootVolumeIs(req, image, s, h)
  {
    var cfg := Config(req, image);
    assert ClonePath(s, cfg) in NewPaths(s, cfg);
    hide ExtraPath, CanExtra, CanSize, CanDefine, VolumeNameOk, InUse, ExtraVolume;
  }

  lemma ExtraVolumeAsAsked(req: CreateVMInput, image: string, s: Host, h: Host)
    requires req.extraDiskSizeGB > 0 && CanCreate(s, Config(req, image))
    requires VolumesAsAsked(s, h, Config(req, image))
    ensures ExtraVolumeIs(req, s, h)
  {
    var cfg := Config(req, image);
    ExtraFileName(cfg);
    assert ExtraPath(s, cfg) in NewPaths(s, cfg);
    hide ClonePath, CanClone, CanSize, CanDefine, VolumeNameOk, BootAsAsked, ExtraVolName;
  }

  /**
    What a successful CreateVM has made of the request's pools and sizes: the clone of the image
    in the pool asked for, or in default, with the size asked for if that is below 2^34
    gigabytes; the extra disk in its own pool, or in the clone's, with its size; no other
    volume, and none that was there is another one, but for the image where there is no clone.
   */
  lemma RequestedVolumes(req: CreateVMInput, around: Surroundings, start: World, h: Host)
    requires AppService.Provisioned(req, around, start, h) && (req.noclone ==> NoChar(req.name, '<'))
    ensures around.image.Some?
    ensures var s, image := start.host, around.image.value;
      && h.pools == s.pools
      && (!req.noclone ==> BootVolumeIs(req, image, s, h))
      && (req.extraDiskSizeGB > 0 ==> ExtraVolumeIs(req, s, h))
      && |h.vols| == |s.vols| + (if req.noclone then 0 else 1) + (if req.extraDiskSizeGB == 0 then 0 else 1)
      && (forall p :: p in s.vols ==> p in h.vols && (p != image || !req.noclone ==> h.vols[p] == s.vols[p]))
  {
    var cfg := Config(req, around.image.value);
    var s, image := start.host, around.image.value;
    RequestFits(req, image);
    hide Operations.Provision, Config, NameFits, VolumesAsAsked, CanCreate, BootVolumeIs, ExtraVolumeIs, FinalConfig;
    hide DomainXml, NoChar;
    CreatedAsAsked(start, cfg);
    if !req.noclone {
      BootVolumeAsAsked(req, image, s, h);
    }
    if req.extraDiskSizeGB > 0 {
      ExtraVolumeAsAsked(req, image, s, h);
    }
    CountVolumes(req, image, s, h);
  }

  lemma RequestFits(req: CreateVMInput, image: string)
    requires req.noclone ==> NoChar(req.name, '<')
    ensures NameFits(Config(req, image))
  {
  }

  lemma CountVolumes(req: CreateVMInput, image: string, s: Host, h: Host)
    requires CanCreate(s, Config(req, image)) && VolumesAsAsked(s, h, Config(req, image))
    ensures |h.vols| == |s.vols| + (if req.noclone then 0 else 1) + (if req.extraDiskSizeGB == 0 then 0 else 1)
    ensures forall p :: p in s.vols ==> p in h.vols && (p != image || !req.noclone ==> h.vols[p] == s.vols[p])
  {
    var cfg := Config(req, image);
    CountPaths(s, cfg);
    hide NewPaths, CanCreate, BootAsAsked, ExtraVolume;
    CountKeys(s.vols, h.vols, NewPaths(s, cfg));
  }

  lemma CountKeys<K, V>(a: map<K, V>, b: map<K, V>, more: set<K>)
    requires b.Keys == a.Keys + more && more !! a.Keys
    ensures |b| == |a| + |more|
  {
    assert |a.Keys + more| == |a.Keys| + |more|;
    assert |b| == |b.Keys| && |a| == |a.Keys|;
  }

  lemma CountPaths(h: Host, cfg: VMConfig)
    requires CanCreate(h, cfg)
    ensures |NewPaths(h, cfg)| == (if cfg.noclone then 0 else 1) + (if cfg.extraDiskSizeGB == 0 then 0 else 1)
  {
    if !cfg.noclone && cfg.extraDiskSizeGB > 0 {
      PathsDiffer(h, cfg);
    }
    hide ClonePath, ExtraPath, CanClone, CanExtra, CanSize, CanDefine;
    if cfg.noclone {
      assert NewPaths(h, cfg) == if cfg.extraDiskSizeGB == 0 then {} else {ExtraPath(h, cfg)};
    } else if cfg.extraDiskSizeGB == 0 {
      assert NewPaths(h, cfg) == {ClonePath(h, cfg)};
    } else {
      assert NewPaths(h, cfg) == {ClonePath(h, cfg), ExtraPath(h, cfg)};
      assert |{ClonePath(h, cfg), ExtraPath(h, cfg)}| == 2;
    }
  }

  lemma PathsDiffer(h: Host, cfg: VMConfig)
    requires CanCreate(h, cfg) && !cfg.noclone && cfg.extraDiskSizeGB > 0
    ensures ClonePath(h, cfg) != ExtraPath(h, cfg)
  {
    ExtraBesideClone(h, cfg);
  }

  lemma ConfigKeeps(req: CreateVMInput, path: string)
    ensures var cfg := Config(req, path);
      && cfg.name == req.name && cfg.memory == (if req.memory == 0 then 2 else req.memory)
      && cfg.vcpus == if req.vcpus == 0 then 2 else req.vcpus
  {
  }

  lemma DisksAreFileDisks(h: Host, vm: string)
    requires vm in h.doms
    ensures Disks(h, vm) == FileDisks(h.doms[vm].xml)
  {
  }

  lemma TextReadBack(cfg: VMConfig)
    requires TaglessConfig(cfg) && NoChar(cfg.network.source, '"') && NoChar(cfg.network.macvtapMode, '"')
    ensures var xml := DomainXml(cfg);
      && NameOf(xml) == cfg.name && MemoryOf(xml) == Dec(cfg.memory) && VcpusOf(xml) == Dec(cfg.vcpus)
      && NetworkOf(xml) == (KindText(cfg.network), SourceName(cfg.network), ModeName(cfg.network))
  {
    hide DomainXml, Element, Dec, Val, NetworkOf, NoChar, KindText, SourceName, ModeName;
    NameReadBack(cfg);
    SizesReadBack(cfg);
    NetworkReadBack(cfg);
  }
}
