/**
  The workflows of Service around libvirt and the guest.  CreateVM above all: the stages, the
  progress events it emits, what it does to the guest, and what its return values mean on
  every exit; then ResizeDisk and DeleteVM.
 */
module AppService {
  import opened Outcomes
  import opened DomainDescription
  import opened ExtraVars
  import opened GuestAddress
  import opened Libvirt
  import opened VolumeNames
  import opened PlaybookPath
  import Operations
  import opened Hypervisor

  // ---------------------------------------------------------------- requests

  datatype CreateVMInput = CreateVMInput(
    name: string,
    image: string,
    vcpus: u64,
    memory: u64,
    diskSizeGB: u64,
    pool: string,
    netType: string,
    netSource: string,
    macvtapMode: string,
    playbook: string,
    noclone: bool,
    extraDiskSizeGB: u64,
    extraDiskPool: string,
    extraVars: Vars)

  /** What the world outside libvirt answers: the image's path, and the address sources at each time they are asked. */
  datatype Surroundings = Surroundings(image: Option<string>, polls: seq<Answers>, guest: Answers, guestAtEnd: Answers)

  predicate Acceptable(req: CreateVMInput) {
    req.name != "" && req.image != "" && req.netType in {"", "nat", "bridge", "direct"}
  }

  /** CreateVM refuses a request without a name or an image, and one for any other network. */
  lemma AcceptableMeans(req: CreateVMInput)
    ensures !Acceptable(req) <==>
      || req.name == "" || req.image == ""
      || (req.netType != "" && req.netType != "nat" && req.netType != "bridge" && req.netType != "direct")
  {
  }

  function NetworkKind(netType: string): NetworkType {
    if netType == "bridge" then Bridge else if netType == "direct" then Direct else Nat
  }

  /** DefaultConfig, overridden by what the request gives. */
  function Config(req: CreateVMInput, diskPath: string): VMConfig {
    VMConfig(
      req.name,
      if req.vcpus > 0 then req.vcpus else 2,
      if req.memory > 0 then req.memory else 2,
      diskPath,
      req.diskSizeGB,
      if req.pool != "" then req.pool else "default",
      NetworkConfig(
        NetworkKind(req.netType),
        if req.netSource != "" then req.netSource else "default",
        req.macvtapMode),
      req.noclone,
      req.extraDiskSizeGB,
      req.extraDiskPool,
      [])
  }

  // ---------------------------------------------------------------- progress events

  datatype Stage = Clone | Resize | ExtraDisk | Boot | WaitIp | WriteInventory | GrowDisk | RunPlaybook | Reboot

  datatype Status = Begun | Done | Failed

  datatype Event = Event(stage: Stage, status: Status)

  /** How a trace ends after its completed stages: there, with a failed stage, or with a wait never concluded. */
  datatype Ending = Smooth | Broke(stage: Stage) | Abandoned

  function When<T>(c: bool, s: seq<T>): seq<T> {
    if c then s else []
  }

  /** The stages that a request asks for, in order. */
  function BootPlan(cfg: VMConfig): seq<Stage> {
    When(!cfg.noclone, [Clone]) + When(cfg.diskSizeGB > 0, [Resize])
    + When(cfg.extraDiskSizeGB > 0, [ExtraDisk]) + [Boot]
  }

  /** The stages up to the VM's start. */
  predicate BootStage(s: Stage) {
    s == Clone || s == Resize || s == ExtraDisk || s == Boot
  }

  function PreparePlan(req: CreateVMInput, inventory: string): seq<Stage> {
    When(inventory != "", [WriteInventory]) + When(req.diskSizeGB > 0, [GrowDisk])
  }

  function FurnishPlan(req: CreateVMInput, inventory: string): seq<Stage> {
    PreparePlan(req, inventory) + When(req.playbook != "", [RunPlaybook, Reboot])
  }

  function SettlePlan(req: CreateVMInput, inventory: string): seq<Stage> {
    [WaitIp] + FurnishPlan(req, inventory)
  }

  function Plan(req: CreateVMInput, inventory: string): seq<Stage> {
    BootPlan(Config(req, "")) + SettlePlan(req, inventory)
  }

  function Pairs(stages: seq<Stage>): seq<Event> {
    if stages == [] then []
    else Pairs(stages[..|stages| - 1]) + [Event(stages[|stages| - 1], Begun), Event(stages[|stages| - 1], Done)]
  }

  function Trace(past: seq<Stage>, how: Ending): seq<Event> {
    Pairs(past) + match how
      case Smooth => []
      case Broke(stage) => [Event(stage, Begun), Event(stage, Failed)]
      case Abandoned => [Event(WaitIp, Begun)]
  }

  /** The completed stages are the first ones of the plan; a failed one is the next. */
  ghost predicate Follows(past: seq<Stage>, how: Ending, plan: seq<Stage>) {
    && past <= plan
    && (how.Broke? ==> |past| < |plan| && plan[|past|] == how.stage)
    && (how.Abandoned? ==> |past| < |plan| && plan[|past|] == WaitIp)
  }

  lemma PairsMore(past: seq<Stage>, s: Stage)
    ensures Pairs(past + [s]) == Pairs(past) + [Event(s, Begun), Event(s, Done)]
  {
    assert (past + [s])[..|past|] == past;
  }

  /** The events of one stage: none unless it is asked for. */
  function StageTrace(asked: bool, s: Stage, ok: bool): seq<Event> {
    When(asked, [Event(s, Begun), Event(s, if ok then Done else Failed)])
  }

  lemma StageBroke(before: seq<Event>, past: seq<Stage>, s: Stage, rest: seq<Stage>, plan: seq<Stage>)
    requires plan == past + ([s] + rest)
    ensures before + Pairs(past) + StageTrace(true, s, false) == before + Trace(past, Broke(s))
    ensures Follows(past, Broke(s), plan)
  {
    hide Pairs;
    assert StageTrace(true, s, false) == [Event(s, Begun), Event(s, Failed)];
    hide StageTrace;
  }

  lemma StageCompleted(before: seq<Event>, past: seq<Stage>, s: Stage)
    ensures before + Pairs(past) + StageTrace(true, s, true) == before + Pairs(past + [s])
  {
    PairsMore(past, s);
    hide Pairs;
    assert StageTrace(true, s, true) == [Event(s, Begun), Event(s, Done)];
    hide StageTrace;
  }

  lemma StageSkipped(before: seq<Event>, past: seq<Stage>, s: Stage, ok: bool)
    ensures When(false, [s]) == [] && past + [] == past && before + [] == before && StageTrace(false, s, ok) == []
  {
  }

  /** One more stage after `past`, at the front of what is left of the plan. */
  lemma StageSteps(before: seq<Event>, past: seq<Stage>, asked: bool, s: Stage, ok: bool,
                   rest: seq<Stage>, plan: seq<Stage>)
    requires plan == past + (When(asked, [s]) + rest)
    ensures var after := before + Pairs(past) + StageTrace(asked, s, ok);
      if asked && !ok then after == before + Trace(past, Broke(s)) && Follows(past, Broke(s), plan)
      else after == before + Pairs(past + When(asked, [s])) && plan == past + When(asked, [s]) + rest
  {
    assert When(true, [s]) == [s];
    hide *;
    if !asked {
      StageSkipped(before + Pairs(past), past, s, ok);
    } else if ok {
      StageCompleted(before, past, s);
    } else {
      StageBroke(before, past, s, rest, plan);
    }
  }

  lemma SmoothTrace(before: seq<Event>, past: seq<Stage>)
    ensures before + Pairs(past) == before + Trace(past, Smooth)
    ensures past == [] ==> before + Pairs(past) == before
  {
  }

  lemma BootPlanParts(cfg: VMConfig)
    ensures BootPlan(cfg) == [] +
      (When(!cfg.noclone, [Clone])
       + (When(cfg.diskSizeGB > 0, [Resize]) + (When(cfg.extraDiskSizeGB > 0, [ExtraDisk]) + [Boot])))
    ensures [Boot] == When(true, [Boot]) + []
  {
  }

  // ---------------------------------------------------------------- what is done to the guest

  datatype Deed =
    | ForgetMachine(keys: seq<string>)
    | Inventory(name: string, ip: string)
    | TempInventory
    | Cleanup
    | Grow
    | Play(path: string, vars: Vars)
    | Restart(name: string)

  function PlaybookFor(dir: string, req: CreateVMInput): string {
    var r := ResolvePlaybook(dir, req.playbook);
    if r.Ok? then r.value else ""
  }

  function PlaybookDeeds(dir: string, req: CreateVMInput): seq<Deed> {
    When(req.playbook != "",
      [TempInventory, Play(PlaybookFor(dir, req), DeviceIdVars(req.name, req.extraVars)), Cleanup, Restart(req.name)])
  }

  function PrepareDeeds(req: CreateVMInput, ip: string, inventory: string): seq<Deed> {
    When(inventory != "", [Inventory(req.name, ip)]) + When(req.diskSizeGB > 0, [TempInventory, Grow, Cleanup])
  }

  function FurnishDeeds(req: CreateVMInput, ip: string, dir: string, inventory: string): seq<Deed> {
    PrepareDeeds(req, ip, inventory) + PlaybookDeeds(dir, req)
  }

  function SettleDeeds(req: CreateVMInput, ip: string, dir: string, inventory: string): seq<Deed> {
    When(!req.noclone, [ForgetMachine([ip])]) + FurnishDeeds(req, ip, dir, inventory)
  }

  /** Everything a complete run does, in order. */
  function Deeds(req: CreateVMInput, ip: string, dir: string, inventory: string): seq<Deed> {
    When(!req.noclone, [ForgetMachine([req.name])]) + SettleDeeds(req, ip, dir, inventory)
  }

  /** The first n deeds, and the removal of a temporary inventory that the next deed failed to use. */
  function Carried(deeds: seq<Deed>, n: nat): seq<Deed>
    requires n <= |deeds|
  {
    deeds[..n] + When(n > 0 && deeds[n - 1] == TempInventory, [Cleanup])
  }

  ghost predicate StopsAt(deeds: seq<Deed>, n: nat) {
    n <= |deeds| && (n > 0 ==> !deeds[n - 1].Grow? && !deeds[n - 1].Play?)
  }

  /** Nothing temporary is left to remove. */
  ghost predicate Settled(deeds: seq<Deed>) {
    StopsAt(deeds, |deeds|) && (deeds != [] ==> !deeds[|deeds| - 1].TempInventory?)
  }

  /** Part of a plan carried out after a settled part. */
  lemma DeedSteps(before: seq<Deed>, past: seq<Deed>, part: seq<Deed>, n: nat, rest: seq<Deed>, all: seq<Deed>)
    requires all == past + (part + rest) && Settled(past) && StopsAt(part, n)
    ensures StopsAt(all, |past| + n)
    ensures before + past + Carried(part, n) == before + Carried(all, |past| + n)
    ensures n == |part| && Settled(part) ==>
      Settled(past + part) && Carried(part, n) == part && all == past + part + rest
  {
    assert all[..|past| + n] == past + part[..n];
    assert n > 0 ==> all[|past| + n - 1] == part[n - 1];
    assert n == 0 && past != [] ==> all[|past| - 1] == past[|past| - 1];
    assert part[..n] + [] == part[..n];
  }

  lemma NoDeeds(before: seq<Deed>, asked: bool, ok: bool, d: Deed, all: seq<Deed>)
    ensures !ok ==> before + When(asked && ok, [d]) == before + Carried(all, 0)
    ensures ok ==> When(asked && ok, [d]) == When(asked, [d])
  {
    assert Carried(all, 0) == [];
  }

  /** Deeds through a temporary inventory, then one more. */
  lemma DeedsOf(before: seq<Deed>, part: seq<Deed>, n: nat, last: Deed)
    requires |part| == 3 && part[2] == Cleanup && StopsAt(part, n) && last.Restart?
    ensures StopsAt(part + [last], n) && Carried(part, n) == Carried(part + [last], n)
    ensures n == 3 ==> before + Carried(part, n) + When(false, [last]) == before + Carried(part + [last], 3)
    ensures n == 3 ==> before + Carried(part, n) + When(true, [last]) == before + Carried(part + [last], 4)
    ensures StopsAt(part + [last], 4)
  {
    assert (part + [last])[..n] == part[..n];
    assert (part + [last])[..4] == part[..3] + [last];
  }

  lemma {:induction false} PairsConcat(a: seq<Stage>, b: seq<Stage>)
    ensures Pairs(a + b) == Pairs(a) + Pairs(b)
  {
    if b == [] {
      assert a + b == a;
    } else {
      var n := |b| - 1;
      assert a + b == (a + b[..n]) + [b[n]] && b == b[..n] + [b[n]];
      PairsConcat(a, b[..n]);
      PairsMore(a + b[..n], b[n]);
      PairsMore(b[..n], b[n]);
    }
  }

  /** Part of a plan traced after the stages that precede it. */
  lemma TraceSteps(before: seq<Event>, past: seq<Stage>, more: seq<Stage>, how: Ending,
                   part: seq<Stage>, rest: seq<Stage>, plan: seq<Stage>)
    requires plan == past + (part + rest) && Follows(more, how, part)
    ensures before + Pairs(past) + Trace(more, how) == before + Trace(past + more, how)
    ensures Follows(past + more, how, plan)
    ensures more == part ==> plan == past + more + rest
    ensures more == part && rest == [] ==> plan == past + more
    ensures how == Smooth ==> before + Trace(past + more, how) == before + Pairs(past + more)
  {
    PairsConcat(past, more);
    hide Pairs;
    if how == Smooth {
      assert Trace(more, how) == Pairs(more) && Trace(past + more, how) == Pairs(past + more);
    }
  }

  /** Where the workflow stops without an event: the playbook's turn has come, and its name is refused. */
  ghost predicate Unresolvable(dir: string, req: CreateVMInput, past: seq<Stage>, plan: seq<Stage>) {
    past < plan && plan[|past|] == RunPlaybook && ResolvePlaybook(dir, req.playbook).Err?
  }

  lemma Unresolved(dir: string, req: CreateVMInput, past: seq<Stage>, more: seq<Stage>, plan: seq<Stage>)
    requires plan == past + (When(req.playbook != "", [RunPlaybook, Reboot]) + []) && more == []
    requires req.playbook != "" && ResolvePlaybook(dir, req.playbook).Err?
    ensures Unresolvable(dir, req, past + more, plan)
  {
    hide ResolvePlaybook;
    assert past + more == past;
  }

  lemma UnresolvedIsInvalid(dir: string, name: string)
    ensures ResolvePlaybook(dir, name).Err? ==> ResolvePlaybook(dir, name) == Err(Invalid)
  {
  }

  lemma PrepareParts(req: CreateVMInput, ip: string, inventory: string)
    ensures PreparePlan(req, inventory)
      == [] + (When(inventory != "", [WriteInventory]) + When(req.diskSizeGB > 0, [GrowDisk]))
    ensures When(req.diskSizeGB > 0, [GrowDisk]) == When(req.diskSizeGB > 0, [GrowDisk]) + []
    ensures PreparePlan(req, inventory) == PreparePlan(req, inventory) + []
    ensures var d1 := When(inventory != "", [Inventory(req.name, ip)]);
      var d2 := When(req.diskSizeGB > 0, [TempInventory, Grow, Cleanup]);
      PrepareDeeds(req, ip, inventory) == d1 + (d2 + []) && Settled(d1) && Settled(d2)
    ensures StopsAt(PrepareDeeds(req, ip, inventory), 0)
  {
  }

  lemma FurnishParts(req: CreateVMInput, ip: string, dir: string, inventory: string)
    ensures var p1, p2 := PreparePlan(req, inventory), When(req.playbook != "", [RunPlaybook, Reboot]);
      FurnishPlan(req, inventory) == [] + (p1 + p2) && p2 == p2 + []
    ensures var d1, d2 := PrepareDeeds(req, ip, inventory), PlaybookDeeds(dir, req);
      && FurnishDeeds(req, ip, dir, inventory) == [] + (d1 + d2) && d2 == d2 + []
      && Settled([]) && Settled(d1) && Settled(d2)
  {
  }

  lemma NothingYet(before: seq<Event>, written: seq<Deed>, plan: seq<Stage>, deeds: seq<Deed>)
    ensures before == before + Trace([], Smooth) && Follows([], Smooth, plan)
    ensures StopsAt(deeds, 0) && written == written + Carried(deeds, 0)
  {
  }

  lemma WaitSteps(before: seq<Event>, req: CreateVMInput, inventory: string, ok: bool)
    ensures before + [Event(WaitIp, Begun)] == before + Trace([], Abandoned)
    ensures Follows([], Abandoned, SettlePlan(req, inventory)) && Follows([], Broke(WaitIp), SettlePlan(req, inventory))
    ensures !ok ==> before + StageTrace(true, WaitIp, ok) == before + Trace([], Broke(WaitIp))
    ensures ok ==> before + StageTrace(true, WaitIp, ok) == before + Trace([WaitIp], Smooth)
    ensures before + Pairs([WaitIp]) == before + Trace([WaitIp], Smooth)
    ensures Follows([WaitIp], Smooth, SettlePlan(req, inventory))
    ensures SettlePlan(req, inventory) == [WaitIp] + (FurnishPlan(req, inventory) + [])
  {
    hide FurnishPlan;
    PairsMore([], WaitIp);
    assert [] + [WaitIp] == [WaitIp];
  }

  lemma SettleParts(written: seq<Deed>, req: CreateVMInput, ip: string, dir: string, inventory: string)
    ensures var d1, d2 := When(!req.noclone, [ForgetMachine([ip])]), FurnishDeeds(req, ip, dir, inventory);
      && SettleDeeds(req, ip, dir, inventory) == d1 + (d2 + []) && Settled(d1)
      && (req.noclone ==> written == written + d1)
      && (!req.noclone ==> written + When(true, [ForgetMachine([ip])]) == written + d1)
      && written + When(false, [ForgetMachine([ip])]) == written + Carried(SettleDeeds(req, ip, dir, inventory), 0)
      && StopsAt(SettleDeeds(req, ip, dir, inventory), 0) && |d1 + d2| == |d1| + |d2|
  {
  }

  /** Behind the wait an error is a refused call, or a playbook that cannot be resolved when its turn has come. */
  ghost predicate LateError(dir: string, req: CreateVMInput, past: seq<Stage>, how: Ending,
                            plan: seq<Stage>, err: Option<Error>)
  {
    err == Some(CallFailed) || (err == Some(Invalid) && how == Smooth && Unresolvable(dir, req, past, plan))
  }

  lemma LateErrorLater(dir: string, req: CreateVMInput, past: seq<Stage>, more: seq<Stage>, how: Ending,
                       part: seq<Stage>, plan: seq<Stage>, err: Option<Error>)
    requires plan == past + (part + []) && LateError(dir, req, more, how, part, err)
    ensures LateError(dir, req, past + more, how, plan, err)
  {
    hide Unresolvable;
    if Unresolvable(dir, req, more, part) {
      UnresolvableLater(dir, req, past, more, part, plan);
    }
  }

  lemma UnresolvableLater(dir: string, req: CreateVMInput, past: seq<Stage>, more: seq<Stage>,
                          part: seq<Stage>, plan: seq<Stage>)
    requires plan == past + (part + []) && Unresolvable(dir, req, more, part)
    ensures Unresolvable(dir, req, past + more, plan)
  {
    hide ResolvePlaybook;
  }

  /** After the wait no stage is a wait. */
  lemma LaterStages(req: CreateVMInput, inventory: string, more: seq<Stage>, how: Ending)
    requires Follows(more, how, FurnishPlan(req, inventory))
    ensures how.Broke? ==> !BootStage(how.stage) && how.stage != WaitIp
  {
  }

  /** The address sources as they were asked last: once more at the end of a complete run. */
  function LastAnswers(around: Surroundings, err: Option<Error>, how: Ending): Answers {
    if err.None? && how == Smooth then around.guestAtEnd else around.guest
  }

  lemma LastAsked(around: Surroundings, err: Option<Error>, how: Ending)
    ensures LastAnswers(around, err, how) == if err.None? && how == Smooth then around.guestAtEnd else around.guest
  {
  }

  /** What the wait for an address answers once the VM has been started, and what Info does right after it. */
  function AddressAsked(started: World, req: CreateVMInput, around: Surroundings): Result<string> {
    Operations.WaitForIp(started, req.name, around.polls).r
  }

  function StateAsked(started: World, req: CreateVMInput, around: Surroundings): Result<Operations.VMInfo> {
    Operations.Info(Operations.WaitForIp(started, req.name, around.polls).w, req.name, around.guest).r
  }

  /**
    A wait is left open exactly when the started VM's state cannot be read, and then that is the
    error and there is no info.  It fails exactly when the state can be read and there is no
    address; that is a success when neither the filesystem nor a playbook waits for one.
   */
  ghost predicate WaitContract(started: World, req: CreateVMInput, around: Surroundings,
                               info: Option<Operations.VMInfo>, err: Option<Error>, how: Ending)
  {
    var state, address := StateAsked(started, req, around), AddressAsked(started, req, around);
    && (how == Abandoned <==> state.Err?)
    && (how == Abandoned ==> info.None? && err == Some(state.error))
    && (how == Broke(WaitIp) <==> state.Ok? && address.Err?)
    && (how == Broke(WaitIp) ==>
         info.Some? && err == if req.diskSizeGB == 0 && req.playbook == "" then None else Some(address.error))
  }

  /** What Info shows of a domain. */
  ghost predicate Shows(h: Host, name: string, guest: Answers, info: Operations.VMInfo) {
    name in h.doms && info == Operations.VMInfo(name, h.doms[name].run, Operations.ShownIp(h.doms[name].run, guest))
  }

  lemma InfoKeepsHost(w: World, name: string, guest: Answers)
    ensures var o := Operations.Info(w, name, guest);
      && o.w.host == w.host && Later(w, o.w)
      && (o.r.Ok? ==> Shows(w.host, name, guest, o.r.value)) && (o.r.Err? ==> o.r == Err(CallFailed))
  {
    hide FirstCandidate;
  }

  lemma WaitOutcome(w: World, name: string, polls: seq<Answers>)
    ensures var o := Operations.WaitForIp(w, name, polls);
      o.w.host == w.host && Later(w, o.w) && (o.r.Ok? ==> AwaitedAddress(polls) == o.r)
  {
    hide AwaitedAddress;
  }

  lemma LaterStill(a: World, b: World, c: World)
    requires Later(a, b) && Later(b, c)
    ensures Later(a, c) && a.clock <= c.clock
  {
  }

  /** Libvirt has seen Provision, wherever it ended. */
  ghost predicate Attempted(req: CreateVMInput, around: Surroundings, start: World, h: Host) {
    around.image.Some? && h == Operations.Provision(start, Config(req, around.image.value)).w.host
  }

  /** And it succeeded. */
  ghost predicate Provisioned(req: CreateVMInput, around: Surroundings, start: World, h: Host) {
    Attempted(req, around, start, h) && Operations.Provision(start, Config(req, around.image.value)).r.Ok?
  }

  lemma BootSteps(before: seq<Event>, past: seq<Stage>, how: Ending,
                  req: CreateVMInput, inventory: string, path: string)
    requires Follows(past, how, BootPlan(Config(req, path))) && !how.Abandoned?
    ensures Follows(past, how, Plan(req, inventory)) && how != Broke(WaitIp)
    ensures how.Broke? ==> Boot !in past
    ensures WaitIp !in past
    ensures past == BootPlan(Config(req, path)) ==> Boot in past
    ensures before + Trace(past, Smooth) == before + Pairs(past)
    ensures Plan(req, inventory) == BootPlan(Config(req, path)) + (SettlePlan(req, inventory) + [])
  {
    hide SettlePlan, Pairs;
    assert BootPlan(Config(req, path))[|BootPlan(Config(req, path))| - 1] == Boot;
  }

  lemma CreateParts(written: seq<Deed>, req: CreateVMInput, ip: string, dir: string, inventory: string)
    ensures var d1, d2, all := When(!req.noclone, [ForgetMachine([req.name])]), SettleDeeds(req, ip, dir, inventory),
        Deeds(req, ip, dir, inventory);
      && all == d1 + (d2 + []) && Settled(d1) && StopsAt(all, |d1|) && |all| == |d1| + |d2|
      && written + d1 == written + Carried(all, |d1|)
  {
    hide SettleDeeds;
  }

  lemma LaterParts(w: World, cfg: VMConfig)
    ensures Later(w, Operations.ProvisionDisk(w, cfg).w) && Later(w, Operations.ProvisionSize(w, cfg).w)
    ensures Later(w, Operations.ProvisionBoot(w, cfg).w)
  {
    hide DomainXml, NameOf, VolumeNameOk, PathIn, Operations.GigaBytes;
  }

  lemma LaterExtra(w: World, cfg: VMConfig)
    ensures Later(w, Operations.ProvisionExtra(w, cfg).w)
  {
    hide NormalizeVolName, VolumeNameOk, PathIn;
  }

  lemma LaterProvision(w: World, cfg: VMConfig)
    ensures Later(w, Operations.Provision(w, cfg).w)
  {
    hide Operations.ProvisionDisk, Operations.ProvisionSize, Operations.ProvisionExtra, Operations.ProvisionBoot;
    LaterParts(w, cfg);
    var disk := Operations.ProvisionDisk(w, cfg);
    if disk.r.Ok? {
      LaterParts(disk.w, disk.r.value);
      var size := Operations.ProvisionSize(disk.w, disk.r.value);
      LaterExtra(size.w, disk.r.value);
      var extra := Operations.ProvisionExtra(size.w, disk.r.value);
      if extra.r.Ok? {
        LaterParts(extra.w, extra.r.value);
      }
    }
  }

  lemma AttemptedSo(req: CreateVMInput, around: Surroundings, start: World, w: World, r: Result<()>)
    requires around.image.Some? && Step(w, r) == Operations.Provision(start, Config(req, around.image.value))
    ensures Attempted(req, around, start, w.host) && (r.Ok? ==> Provisioned(req, around, start, w.host))
  {
    hide Operations.Provision, Config;
  }

  lemma SmoothFollows(past: seq<Stage>)
    ensures Follows(past, Smooth, past)
  {
  }

  // ---------------------------------------------------------------- the other workflows

  datatype ResizeResult = ResizeResult(vm: Operations.VMInfo, filesystemGrown: bool, growError: Option<Error>)

  lemma ZeroSizeRefused(w: World, name: string)
    ensures Operations.ResizeDisk(w, name, 0) == Step(w, Err(ZeroSize))
  {
  }

  lemma {:induction false} DeleteVolumesAdvances(w: World, paths: seq<string>)
    ensures Later(w, Operations.DeleteVolumes(w, paths).w)
    decreases |paths|
  {
    if paths != [] {
      DeleteVolumesAdvances(Operations.DeleteVolumeByPath(w, paths[0]).w, paths[1..]);
    }
  }

  lemma DeleteAdvances(w: World, name: string, noclone: bool)
    ensures Later(w, Operations.Delete(w, name, noclone).w)
  {
    hide FileDisks, Operations.DeleteVolumes;
    forall v: World, paths: seq<string>
      ensures Later(v, Operations.DeleteVolumes(v, paths).w)
    {
      DeleteVolumesAdvances(v, paths);
    }
  }

  // ---------------------------------------------------------------- the workflow

  class Service {
    const playbookDir: string
    const inventoryPath: string
    var events: seq<Event>
    var journal: seq<Deed>

    constructor (playbookDir: string, inventoryPath: string)
      ensures this.playbookDir == playbookDir && this.inventoryPath == inventoryPath
      ensures events == [] && journal == []
    {
      this.playbookDir := playbookDir;
      this.inventoryPath := inventoryPath;
      events := [];
      journal := [];
    }

    method Emit(stage: Stage, status: Status)
      modifies this`events
      ensures events == old(events) + [Event(stage, status)]
    {
      events := events + [Event(stage, status)];
    }

    /** A command beside libvirt, recorded when it succeeds. */
    method Command(m: Manager, deed: Deed) returns (r: Result<()>)
      modifies m, this`journal
      ensures Step(m.world, r) == RunCommand(old(m.world))
      ensures journal == old(journal) + When(r.Ok?, [deed])
    {
      r := m.Call(w => RunCommand(w));
      if r.Ok? {
        journal := journal + [deed];
      }
    }

    method CloneStage(m: Manager, cfg: VMConfig) returns (r: Result<VMConfig>)
      modifies m, this`events
      ensures Step(m.world, r) == Operations.ProvisionDisk(old(m.world), cfg)
      ensures events == old(events) + StageTrace(!cfg.noclone, Clone, r.Ok?)
      ensures r.Err? ==> !cfg.noclone
      ensures r.Ok? ==> r.value == cfg.(diskPath := r.value.diskPath)
    {
      hide Operations.CloneImage;
      if cfg.noclone {
        return Ok(cfg);
      }
      Emit(Clone, Begun);
      var cloned := m.CloneImage(cfg.diskPath, cfg.name, cfg.pool);
      if cloned.Err? {
        Emit(Clone, Failed);
        return Err(cloned.error);
      }
      Emit(Clone, Done);
      return Ok(cfg.(diskPath := cloned.value));
    }

    method ResizeStage(m: Manager, cfg: VMConfig) returns (r: Result<()>)
      modifies m, this`events
      ensures Step(m.world, r) == Operations.ProvisionSize(old(m.world), cfg)
      ensures events == old(events) + StageTrace(cfg.diskSizeGB > 0, Resize, r.Ok?)
      ensures r.Err? ==> cfg.diskSizeGB > 0
    {
      hide Operations.ResizeVolume;
      if cfg.diskSizeGB == 0 {
        return Ok(());
      }
      Emit(Resize, Begun);
      r := m.ResizeVolume(cfg.diskPath, Operations.GigaBytes(cfg.diskSizeGB));
      Emit(Resize, if r.Err? then Failed else Done);
    }

    method ExtraDiskStage(m: Manager, cfg: VMConfig) returns (r: Result<VMConfig>)
      modifies m, this`events
      ensures Step(m.world, r) == Operations.ProvisionExtra(old(m.world), cfg)
      ensures events == old(events) + StageTrace(cfg.extraDiskSizeGB > 0, ExtraDisk, r.Ok?)
      ensures r.Err? ==> cfg.extraDiskSizeGB > 0
    {
      hide Operations.CreateVolume;
      if cfg.extraDiskSizeGB == 0 {
        return Ok(cfg);
      }
      Emit(ExtraDisk, Begun);
      var pool := cfg.extraDiskPool;
      if pool == "" {
        pool := cfg.pool;
      }
      var path := m.CreateVolume(pool, cfg.name + "-2.qcow2", cfg.extraDiskSizeGB);
      if path.Err? {
        Emit(ExtraDisk, Failed);
        return Err(path.error);
      }
      Emit(ExtraDisk, Done);
      return Ok(cfg.(extraDisks := [DiskDevice(path.value, "vdb")]));
    }

    method DefineStage(m: Manager, cfg: VMConfig) returns (r: Result<()>)
      modifies m, this`events
      ensures Step(m.world, r) == Operations.ProvisionBoot(old(m.world), cfg)
      ensures events == old(events) + StageTrace(true, Boot, r.Ok?)
    {
      hide Operations.Define, Operations.Start;
      Emit(Boot, Begun);
      r := m.Define(cfg);
      if r.Err? {
        Emit(Boot, Failed);
        return;
      }
      r := m.Start(cfg.name);
      Emit(Boot, if r.Err? then Failed else Done);
    }

    /** Clone, resize, extra disk, define and start. */
    method BringUp(m: Manager, config: VMConfig) returns (r: Result<()>, ghost past: seq<Stage>, ghost how: Ending)
      modifies m, this`events
      ensures Step(m.world, r) == Operations.Provision(old(m.world), config)
      ensures events == old(events) + Trace(past, how) && Follows(past, how, BootPlan(config)) && !how.Abandoned?
      ensures r.Ok? <==> past == BootPlan(config)
      ensures r.Ok? <==> how == Smooth
    {
      hide Operations.ProvisionDisk, Operations.ProvisionSize, Operations.ProvisionExtra, Operations.ProvisionBoot;
      hide Pairs, When, Trace, StageTrace, BootPlan;
      ghost var before, plan := events, BootPlan(config);
      ghost var b, c := When(config.diskSizeGB > 0, [Resize]), When(config.extraDiskSizeGB > 0, [ExtraDisk]);
      past := [];
      BootPlanParts(config);
      SmoothTrace(before, past);
      var cloned := CloneStage(m, config);
      StageSteps(before, past, !config.noclone, Clone, cloned.Ok?, b + (c + [Boot]), plan);
      if cloned.Err? {
        return Err(cloned.error), past, Broke(Clone);
      }
      past := past + When(!config.noclone, [Clone]);
      var cfg := cloned.value;
      var resized := ResizeStage(m, cfg);
      StageSteps(before, past, config.diskSizeGB > 0, Resize, resized.Ok?, c + [Boot], plan);
      if resized.Err? {
        return Err(resized.error), past, Broke(Resize);
      }
      past := past + b;
      var extra := ExtraDiskStage(m, cfg);
      StageSteps(before, past, config.extraDiskSizeGB > 0, ExtraDisk, extra.Ok?, [Boot], plan);
      if extra.Err? {
        return Err(extra.error), past, Broke(ExtraDisk);
      }
      past := past + c;
      var booted := DefineStage(m, extra.value);
      StageSteps(before, past, true, Boot, booted.Ok?, [], plan);
      if booted.Err? {
        return booted, past, Broke(Boot);
      }
      past := past + When(true, [Boot]);
      SmoothTrace(before, past);
      return booted, past, Smooth;
    }

    method InventoryStage(m: Manager, req: CreateVMInput, ip: string) returns (r: Result<()>)
      modifies m, this`events, this`journal
      ensures m.world.host == old(m.world.host) && Later(old(m.world), m.world)
      ensures events == old(events) + StageTrace(inventoryPath != "", WriteInventory, r.Ok?)
      ensures r.Err? ==> r.error == CallFailed
      ensures r.Err? ==> inventoryPath != ""
      ensures journal == old(journal) + When(inventoryPath != "" && r.Ok?, [Inventory(req.name, ip)])
    {
      if inventoryPath == "" {
        return Ok(());
      }
      Emit(WriteInventory, Begun);
      r := Command(m, Inventory(req.name, ip));
      Emit(WriteInventory, if r.Err? then Failed else Done);
    }

    /** Runs a command against the guest through a temporary inventory, which is removed either way. */
    method ThroughInventory(m: Manager, stage: Stage, deed: Deed) returns (r: Result<()>, ghost n: nat)
      requires deed.Grow? || deed.Play?
      modifies m, this`events, this`journal
      ensures m.world.host == old(m.world.host) && Later(old(m.world), m.world)
      ensures events == old(events) + StageTrace(true, stage, r.Ok?)
      ensures r.Err? ==> r.error == CallFailed
      ensures StopsAt([TempInventory, deed, Cleanup], n) && (r.Ok? ==> n == 3)
      ensures journal == old(journal) + Carried([TempInventory, deed, Cleanup], n)
    {
      n := 0;
      Emit(stage, Begun);
      r := Command(m, TempInventory);
      if r.Err? {
        Emit(stage, Failed);
        return;
      }
      r := Command(m, deed);
      journal := journal + [Cleanup];
      if r.Err? {
        Emit(stage, Failed);
        return r, 1;
      }
      Emit(stage, Done);
      return r, 3;
    }

    method GrowStage(m: Manager, req: CreateVMInput) returns (r: Result<()>, ghost n: nat)
      modifies m, this`events, this`journal
      ensures m.world.host == old(m.world.host) && Later(old(m.world), m.world)
      ensures events == old(events) + StageTrace(req.diskSizeGB > 0, GrowDisk, r.Ok?)
      ensures r.Err? ==> r.error == CallFailed
      ensures r.Err? ==> req.diskSizeGB > 0
      ensures var deeds := When(req.diskSizeGB > 0, [TempInventory, Grow, Cleanup]);
        StopsAt(deeds, n) && journal == old(journal) + Carried(deeds, n) && (r.Ok? ==> n == |deeds|)
    {
      n := 0;
      if req.diskSizeGB == 0 {
        return Ok(()), n;
      }
      r, n := ThroughInventory(m, GrowDisk, Grow);
    }

    method RebootStage(m: Manager, req: CreateVMInput) returns (r: Result<()>)
      modifies m, this`events, this`journal
      ensures m.world.host == old(m.world.host) && Later(old(m.world), m.world)
      ensures events == old(events) + StageTrace(true, Reboot, r.Ok?)
      ensures r.Err? ==> r.error == CallFailed
      ensures journal == old(journal) + When(r.Ok?, [Restart(req.name)])
    {
      Emit(Reboot, Begun);
      r := m.Reboot(req.name);
      if r.Err? {
        Emit(Reboot, Failed);
        return;
      }
      journal := journal + [Restart(req.name)];
      Emit(Reboot, Done);
    }

    method PlaybookStages(m: Manager, req: CreateVMInput)
      returns (r: Result<()>, ghost past: seq<Stage>, ghost how: Ending, ghost n: nat)
      modifies m, this`events, this`journal
      ensures m.world.host == old(m.world.host) && Later(old(m.world), m.world)
      ensures var plan := When(req.playbook != "", [RunPlaybook, Reboot]);
        && events == old(events) + Trace(past, how) && Follows(past, how, plan) && !how.Abandoned?
        && (if r.Ok? then past == plan && how == Smooth
            else if how.Broke? then req.playbook != "" && r.error == CallFailed
            else
              req.playbook != "" && past == [] && r.error == Invalid
              && ResolvePlaybook(playbookDir, req.playbook).Err?)
      ensures var deeds := PlaybookDeeds(playbookDir, req);
        StopsAt(deeds, n) && journal == old(journal) + Carried(deeds, n) && (r.Ok? ==> n == |deeds|)
    {
      hide ResolvePlaybook, Pairs;
      past, how, n := [], Smooth, 0;
      SmoothTrace(events, []);
      if req.playbook == "" {
        return Ok(()), past, how, n;
      }
      UnresolvedIsInvalid(playbookDir, req.playbook);
      var path := ResolvePlaybook(playbookDir, req.playbook);
      if path.Err? {
        return Err(path.error), past, how, n;
      }
      r, past, how, n := PlayAndReboot(m, req, path.value);
    }

    method PlayAndReboot(m: Manager, req: CreateVMInput, path: string)
      returns (r: Result<()>, ghost past: seq<Stage>, ghost how: Ending, ghost n: nat)
      modifies m, this`events, this`journal
      ensures m.world.host == old(m.world.host) && Later(old(m.world), m.world)
      ensures events == old(events) + Trace(past, how) && Follows(past, how, [RunPlaybook, Reboot]) && !how.Abandoned?
      ensures if r.Ok? then past == [RunPlaybook, Reboot] && how == Smooth else how.Broke?
      ensures r.Err? ==> r.error == CallFailed
      ensures var play := Play(path, DeviceIdVars(req.name, req.extraVars));
        var deeds := [TempInventory, play, Cleanup, Restart(req.name)];
        StopsAt(deeds, n) && journal == old(journal) + Carried(deeds, n) && (r.Ok? ==> n == |deeds|)
    {
      hide Pairs, Trace, StageTrace, Carried, DeviceIdVars;
      ghost var before, written, plan := events, journal, [RunPlaybook, Reboot];
      ghost var play := [TempInventory, Play(path, DeviceIdVars(req.name, req.extraVars)), Cleanup];
      ghost var deeds := play + [Restart(req.name)];
      assert deeds == [TempInventory, Play(path, DeviceIdVars(req.name, req.extraVars)), Cleanup, Restart(req.name)];
      assert plan == [] + (When(true, [RunPlaybook]) + [Reboot]) && [] + When(true, [RunPlaybook]) == [RunPlaybook];
      assert plan == [RunPlaybook] + (When(true, [Reboot]) + []) && [RunPlaybook] + When(true, [Reboot]) == plan;
      hide When;
      var vars := WithDeviceId(req.name, req.extraVars);
      SmoothTrace(before, []);
      r, n := ThroughInventory(m, RunPlaybook, Play(path, vars));
      StageSteps(before, [], true, RunPlaybook, r.Ok?, [Reboot], plan);
      DeedsOf(written, play, n, Restart(req.name));
      if r.Err? {
        return r, [], Broke(RunPlaybook), n;
      }
      r := RebootStage(m, req);
      StageSteps(before, [RunPlaybook], true, Reboot, r.Ok?, [], plan);
      SmoothTrace(before, plan);
      if r.Err? {
        return r, [RunPlaybook], Broke(Reboot), 3;
      }
      return r, plan, Smooth, 4;
    }

    /** Inventory and filesystem. */
    method Prepare(m: Manager, req: CreateVMInput, ip: string)
      returns (r: Result<()>, ghost past: seq<Stage>, ghost how: Ending, ghost n: nat)
      modifies m, this`events, this`journal
      ensures m.world.host == old(m.world.host) && Later(old(m.world), m.world)
      ensures var plan := PreparePlan(req, inventoryPath);
        && events == old(events) + Trace(past, how) && Follows(past, how, plan) && !how.Abandoned?
        && (if r.Ok? then past == plan && how == Smooth else how.Broke? && r.error == CallFailed)
      ensures var deeds := PrepareDeeds(req, ip, inventoryPath);
        StopsAt(deeds, n) && journal == old(journal) + Carried(deeds, n) && (r.Ok? ==> n == |deeds|)
    {
      ghost var before, written := events, journal;
      ghost var plan, deeds := PreparePlan(req, inventoryPath), PrepareDeeds(req, ip, inventoryPath);
      ghost var plan2 := When(req.diskSizeGB > 0, [GrowDisk]);
      ghost var deeds1 := When(inventoryPath != "", [Inventory(req.name, ip)]);
      ghost var deeds2 := When(req.diskSizeGB > 0, [TempInventory, Grow, Cleanup]);
      PrepareParts(req, ip, inventoryPath);
      hide Pairs, Trace, StageTrace, Carried, PreparePlan, PrepareDeeds, When, Follows, StopsAt, Settled;
      past, how, n := [], Smooth, 0;
      SmoothTrace(before, past);

      r := InventoryStage(m, req, ip);
      StageSteps(before, past, inventoryPath != "", WriteInventory, r.Ok?, plan2, plan);
      NoDeeds(written, inventoryPath != "", r.Ok?, Inventory(req.name, ip), deeds);
      if r.Err? {
        return r, past, Broke(WriteInventory), 0;
      }
      past := past + When(inventoryPath != "", [WriteInventory]);

      r, n := GrowStage(m, req);
      StageSteps(before, past, req.diskSizeGB > 0, GrowDisk, r.Ok?, [], plan);
      DeedSteps(written, deeds1, deeds2, n, [], deeds);
      n := |deeds1| + n;
      if r.Err? {
        return r, past, Broke(GrowDisk), n;
      }
      past := past + plan2;
      SmoothTrace(before, past);
      SmoothFollows(past);
    }

    /** Inventory, filesystem, playbook and reboot: what follows once the guest has an address. */
    method Furnish(m: Manager, req: CreateVMInput, ip: string)
      returns (r: Result<()>, ghost past: seq<Stage>, ghost how: Ending, ghost n: nat)
      modifies m, this`events, this`journal
      ensures m.world.host == old(m.world.host) && Later(old(m.world), m.world)
      ensures events == old(events) + Trace(past, how) && !how.Abandoned?
      ensures Follows(past, how, FurnishPlan(req, inventoryPath))
      ensures var plan := FurnishPlan(req, inventoryPath);
        if r.Ok? then past == plan && how == Smooth
        else if how.Broke? then r.error == CallFailed
        else Unresolvable(playbookDir, req, past, plan) && r.error == Invalid
      ensures var deeds := FurnishDeeds(req, ip, playbookDir, inventoryPath);
        StopsAt(deeds, n) && journal == old(journal) + Carried(deeds, n) && (r.Ok? ==> n == |deeds|)
    {
      ghost var before, written := events, journal;
      ghost var plan, deeds := FurnishPlan(req, inventoryPath), FurnishDeeds(req, ip, playbookDir, inventoryPath);
      ghost var plan1, plan2 := PreparePlan(req, inventoryPath), When(req.playbook != "", [RunPlaybook, Reboot]);
      ghost var deeds1, deeds2 := PrepareDeeds(req, ip, inventoryPath), PlaybookDeeds(playbookDir, req);
      hide *;
      FurnishParts(req, ip, playbookDir, inventoryPath);

      SmoothTrace(before, []);
      r, past, how, n := Prepare(m, req, ip);
      TraceSteps(before, [], past, how, plan1, plan2, plan);
      DeedSteps(written, [], deeds1, n, deeds2, deeds);
      past := [] + past;
      if r.Err? {
        return;
      }

      ghost var more: seq<Stage>;
      ghost var prepared := m.world;
      r, more, how, n := PlaybookStages(m, req);
      LaterStill(old(m.world), prepared, m.world);
      TraceSteps(before, past, more, how, plan2, [], plan);
      DeedSteps(written, deeds1, deeds2, n, [], deeds);
      if r.Err? && !how.Broke? {
        Unresolved(playbookDir, req, past, more, plan);
      }
      past, n := past + more, |deeds1| + n;
    }

    /** Waiting for the address; Abandoned when the VM's state cannot be read. */
    method AwaitAddress(m: Manager, req: CreateVMInput, around: Surroundings)
      returns (info: Result<Operations.VMInfo>, ip: Result<string>, ghost how: Ending)
      modifies m, this`events
      ensures m.world.host == old(m.world.host) && Later(old(m.world), m.world)
      ensures info.Ok? ==> Shows(m.world.host, req.name, around.guest, info.value)
      ensures ip.Ok? ==> AwaitedAddress(around.polls) == ip
      ensures ip == AddressAsked(old(m.world), req, around) && info == StateAsked(old(m.world), req, around)
      ensures how == if info.Err? then Abandoned else if ip.Err? then Broke(WaitIp) else Smooth
      ensures events == old(events) + if info.Err? then [Event(WaitIp, Begun)] else StageTrace(true, WaitIp, ip.Ok?)
    {
      hide AwaitedAddress, FirstCandidate, Operations.Info, Operations.WaitForIp, Shows;
      Emit(WaitIp, Begun);
      WaitOutcome(m.world, req.name, around.polls);
      ip := m.WaitForIp(req.name, around.polls);
      InfoKeepsHost(m.world, req.name, around.guest);
      info := m.Info(req.name, around.guest);
      if info.Err? {
        return info, ip, Abandoned;
      }
      if ip.Err? {
        Emit(WaitIp, Failed);
        return info, ip, Broke(WaitIp);
      }
      Emit(WaitIp, Done);
      return info, ip, Smooth;
    }

    /** Everything after the VM has been started. */
    method Settle(m: Manager, req: CreateVMInput, around: Surroundings)
      returns (info: Option<Operations.VMInfo>, err: Option<Error>,
        ghost past: seq<Stage>, ghost how: Ending, ghost ip: string, ghost n: nat)
      modifies m, this`events, this`journal
      ensures m.world.host == old(m.world.host) && Later(old(m.world), m.world)
      ensures events == old(events) + Trace(past, how) && Follows(past, how, SettlePlan(req, inventoryPath))
      ensures var deeds := SettleDeeds(req, ip, playbookDir, inventoryPath);
        StopsAt(deeds, n) && journal == old(journal) + Carried(deeds, n)
      ensures info.Some? ==> Shows(m.world.host, req.name, LastAnswers(around, err, how), info.value)
      ensures WaitIp in past ==> AwaitedAddress(around.polls) == Ok(ip)
      ensures err.None? ==> info.Some?
      ensures err.None? && how != Broke(WaitIp) ==>
        past == SettlePlan(req, inventoryPath) && how == Smooth
        && n == |SettleDeeds(req, ip, playbookDir, inventoryPath)|
      ensures WaitContract(old(m.world), req, around, info, err, how)
      ensures how.Broke? ==> !BootStage(how.stage)
      ensures err.Some? && how != Abandoned && how != Broke(WaitIp) ==>
        LateError(playbookDir, req, past, how, SettlePlan(req, inventoryPath), err)
      ensures info.None? ==> how == Abandoned || (past == SettlePlan(req, inventoryPath) && how == Smooth)
    {
      ghost var before, written := events, journal;
      hide Pairs, Trace, StageTrace, Carried, FurnishPlan, SettlePlan, FurnishDeeds, SettleDeeds, When;
      hide StopsAt, Settled, Follows;
      hide ResolvePlaybook, Unresolvable, Operations.Info, AwaitedAddress, Shows, AddressAsked, StateAsked;
      past, how, ip, n := [], Smooth, "", 0;
      NothingYet(before, written, SettlePlan(req, inventoryPath), SettleDeeds(req, ip, playbookDir, inventoryPath));
      var shown, address;
      shown, address, how := AwaitAddress(m, req, around);
      WaitSteps(before, req, inventoryPath, address.Ok?);
      if shown.Err? {
        return None, Some(shown.error), past, how, ip, n;
      }
      if address.Err? {
        if req.diskSizeGB > 0 || req.playbook != "" {
          return Some(shown.value), Some(address.error), past, how, ip, n;
        }
        return Some(shown.value), None, past, how, ip, n;
      }
      past, ip := [WaitIp], address.value;
      ghost var forget := When(!req.noclone, [ForgetMachine([ip])]);
      ghost var plan, deeds := FurnishPlan(req, inventoryPath), FurnishDeeds(req, ip, playbookDir, inventoryPath);
      SettleParts(written, req, ip, playbookDir, inventoryPath);
      if !req.noclone {
        var forgot := Command(m, ForgetMachine([address.value]));
        if forgot.Err? {
          return Some(shown.value), Some(forgot.error), past, how, ip, n;
        }
      }
      assert journal == written + forget;
      ghost var more: seq<Stage>;
      var furnished;
      furnished, more, how, n := Furnish(m, req, address.value);
      TraceSteps(before, past, more, how, plan, [], SettlePlan(req, inventoryPath));
      DeedSteps(written, forget, deeds, n, [], SettleDeeds(req, ip, playbookDir, inventoryPath));
      if furnished.Err? && !how.Broke? {
        UnresolvableLater(playbookDir, req, past, more, plan, SettlePlan(req, inventoryPath));
      }
      past, n := past + more, |forget| + n;
      LaterStages(req, inventoryPath, more, how);
      if furnished.Err? {
        return Some(shown.value), Some(furnished.error), past, how, ip, n;
      }
      InfoKeepsHost(m.world, req.name, around.guestAtEnd);
      var final := m.Info(req.name, around.guestAtEnd);
      if final.Err? {
        return None, Some(final.error), past, how, ip, n;
      }
      return Some(final.value), None, past, how, ip, n;
    }

    /** Checking the request, finding the image, and dropping what is remembered of an older VM of that name. */
    method Begin(m: Manager, req: CreateVMInput, around: Surroundings) returns (cfg: Result<VMConfig>)
      modifies m, this`journal
      ensures m.world.host == old(m.world.host) && Later(old(m.world), m.world)
      ensures !Acceptable(req) ==> cfg == Err(Invalid) && m.world == old(m.world)
      ensures Acceptable(req) ==> m.world.clock > old(m.world).clock
      ensures cfg.Ok? ==> around.image.Some? && cfg.value == Config(req, around.image.value)
      ensures journal ==
        if cfg.Ok? then old(journal) + When(!req.noclone, [ForgetMachine([req.name])]) else old(journal)
    {
      hide Config;
      if !Acceptable(req) {
        return Err(Invalid);
      }
      var image :- m.Call(w => FindImage(w, around.image));
      if !req.noclone {
        var _ :- Command(m, ForgetMachine([req.name]));
      }
      return Ok(Config(req, image));
    }

    /**
      CreateVM.  The ghost results say how far it came: the world in which provisioning
      started, the completed stages, how the trace ends, and the number of deeds done.
     */
    method CreateVM(m: Manager, req: CreateVMInput, around: Surroundings)
      returns (info: Option<Operations.VMInfo>, err: Option<Error>,
        ghost start: World, ghost past: seq<Stage>, ghost how: Ending, ghost ip: string, ghost n: nat)
      modifies m, this`events, this`journal
      // The trace: the first stages of the plan, completed, and one of three endings.
      ensures events == old(events) + Trace(past, how) && Follows(past, how, Plan(req, inventoryPath))
      // The deeds: the first n of those planned, nothing temporary left behind.
      ensures var deeds := Deeds(req, ip, playbookDir, inventoryPath);
        StopsAt(deeds, n) && journal == old(journal) + Carried(deeds, n)
      // Libvirt: nothing, or exactly what Provision does.
      ensures Later(old(m.world), start) && start.host == old(m.world.host) && Later(start, m.world)
      ensures (how == Smooth && past == [] && err.Some? && m.world.host == start.host)
           || Attempted(req, around, start, m.world.host)
      ensures Boot in past ==> Provisioned(req, around, start, m.world.host)
      // The results.
      ensures info.Some? ==>
        Boot in past && Shows(m.world.host, req.name,
                              if err.None? && how == Smooth then around.guestAtEnd else around.guest, info.value)
      ensures WaitIp in past ==> AwaitedAddress(around.polls) == Ok(ip)
      ensures how.Broke? && BootStage(how.stage) ==>
        info.None? && around.image.Some? && err.Some?
        && Operations.Provision(start, Config(req, around.image.value)).r == Err(err.value)
      ensures err.None? ==> info.Some?
      ensures err.None? && how != Broke(WaitIp) ==>
        past == Plan(req, inventoryPath) && how == Smooth && n == |Deeds(req, ip, playbookDir, inventoryPath)|
      ensures how == Abandoned || how == Broke(WaitIp) ==> Boot in past
      ensures Boot in past ==>
        WaitContract(Operations.Provision(start, Config(req, around.image.value)).w, req, around, info, err, how)
      ensures Boot in past && err.Some? && how != Abandoned && how != Broke(WaitIp) ==>
        LateError(playbookDir, req, past, how, Plan(req, inventoryPath), err)
      ensures info.None? && Boot in past ==> how == Abandoned || (past == Plan(req, inventoryPath) && how == Smooth)
      // Refused outright, before anything is asked or done, exactly without a name, an image or a known network.
      ensures req.name == "" || req.image == "" ==> err == Some(Invalid) && m.world == old(m.world)
      ensures req.netType != "" && req.netType != "nat" && req.netType != "bridge" && req.netType != "direct" ==>
        err == Some(Invalid) && m.world == old(m.world)
      ensures
        && req.name != "" && req.image != ""
        && (req.netType == "" || req.netType == "nat" || req.netType == "bridge" || req.netType == "direct") ==>
        m.world.clock > old(m.world).clock
    {
      hide *;
      AcceptableMeans(req);
      ghost var before, written, plan := events, journal, Plan(req, inventoryPath);
      past, how, ip, n := [], Smooth, "", 0;
      NothingYet(before, written, plan, Deeds(req, ip, playbookDir, inventoryPath));
      var cfg := Begin(m, req, around);
      start := m.world;
      LaterStill(start, start, start);
      if cfg.Err? {
        return None, Some(cfg.error), start, past, how, ip, n;
      }
      ghost var path, forget := around.image.value, When(!req.noclone, [ForgetMachine([req.name])]);
      CreateParts(written, req, ip, playbookDir, inventoryPath);
      var up;
      up, past, how := BringUp(m, cfg.value);
      BootSteps(before, past, how, req, inventoryPath, path);
      LaterProvision(start, cfg.value);
      AttemptedSo(req, around, start, m.world, up);
      LaterStill(start, start, m.world);
      n := |forget|;
      if up.Err? {
        return None, Some(up.error), start, past, how, ip, n;
      }
      ghost var booted, more, k := m.world, past, n;
      info, err, more, how, ip, k := Settle(m, req, around);
      LaterStill(start, booted, m.world);
      LastAsked(around, err, how);
      CreateParts(written, req, ip, playbookDir, inventoryPath);
      TraceSteps(before, past, more, how, SettlePlan(req, inventoryPath), [], plan);
      DeedSteps(written, forget, SettleDeeds(req, ip, playbookDir, inventoryPath), k, [],
        Deeds(req, ip, playbookDir, inventoryPath));
      if LateError(playbookDir, req, more, how, SettlePlan(req, inventoryPath), err) {
        LateErrorLater(playbookDir, req, past, more, how, SettlePlan(req, inventoryPath), plan, err);
      }
      past, n := past + more, n + k;
    }

    /**
      ResizeDisk: the volume, then the filesystem if the VM runs and has an address.  An error
      means that nothing was resized, or that only the VM's state could not be read afterwards.
     */
    method ResizeDisk(m: Manager, name: string, sizeGB: u64, guest: Answers)
      returns (res: Option<ResizeResult>, err: Option<Error>)
      modifies m, this`journal
      ensures res.Some? <==> err.None?
      ensures m.world.host == Operations.ResizeDisk(old(m.world), name, sizeGB).w.host
      ensures res.Some? ==>
        Operations.ResizeDisk(old(m.world), name, sizeGB).r.Ok? && Shows(m.world.host, name, guest, res.value.vm)
      ensures Operations.ResizeDisk(old(m.world), name, sizeGB).r.Err? ==>
        err == Some(Operations.ResizeDisk(old(m.world), name, sizeGB).r.error)
      ensures err.Some? ==> journal == old(journal)
      ensures res.Some? ==>
        var r, reachable := res.value, res.value.vm.state == Running && res.value.vm.ip != "";
        && !(r.filesystemGrown && r.growError.Some?) && (r.filesystemGrown || r.growError.Some? <==> reachable)
        && (r.growError.Some? ==> r.growError == Some(CallFailed))
        && (r.filesystemGrown ==> journal == old(journal) + [TempInventory, Grow, Cleanup])
        && (r.growError.Some? ==> journal == old(journal) || journal == old(journal) + [TempInventory, Cleanup])
        && (!reachable ==> journal == old(journal))
    {
      hide Operations.ResizeDisk;
      ZeroSizeRefused(m.world, name);
      if sizeGB == 0 {
        return None, Some(ZeroSize);
      }
      var resized := m.ResizeDisk(name, sizeGB);
      if resized.Err? {
        return None, Some(resized.error);
      }
      InfoKeepsHost(m.world, name, guest);
      hide Operations.Info;
      var info := m.Info(name, guest);
      if info.Err? {
        return None, Some(info.error);
      }
      var r := ResizeResult(info.value, false, None);
      if info.value.state != Running || info.value.ip == "" {
        return Some(r), None;
      }
      var inventory := Command(m, TempInventory);
      if inventory.Err? {
        return Some(r.(growError := Some(inventory.error))), None;
      }
      var grown := Command(m, Grow);
      journal := journal + [Cleanup];
      return Some(if grown.Err? then r.(growError := Some(grown.error)) else r.(filesystemGrown := true)), None;
    }

    /**
      DeleteVM: the address is read first, because afterwards nobody knows it; what is
      remembered of the machine is dropped only after its volumes are gone.
     */
    method DeleteVM(m: Manager, name: string, noclone: bool, guest: Answers)
      returns (r: Result<()>, ghost start: World, ghost ip: string)
      modifies m, this`journal
      ensures start == Operations.Info(old(m.world), name, guest).w && start.host == old(m.world.host)
      ensures ip == var info := Operations.Info(old(m.world), name, guest).r; if info.Ok? then info.value.ip else ""
      ensures m.world.host == Operations.Delete(start, name, noclone).w.host
      ensures r.Ok? ==> Operations.Delete(start, name, noclone).r.Ok?
      ensures Operations.Delete(start, name, noclone).r.Err? ==> r == Operations.Delete(start, name, noclone).r
      ensures journal == old(journal) + When(r.Ok? && !noclone, [ForgetMachine([name, ip])])
      ensures NoFaults(old(m.world)) && Operations.Delete(start, name, noclone).r.Ok? ==> r.Ok?
    {
      var address := "";
      InfoKeepsHost(m.world, name, guest);
      hide Operations.Info, Operations.Delete;
      var info := m.Info(name, guest);
      if info.Ok? {
        address := info.value.ip;
      }
      start, ip := m.world, address;
      r := m.Delete(name, noclone);
      if r.Err? {
        return;
      }
      DeleteAdvances(start, name, noclone);
      if !noclone {
        r := Command(m, ForgetMachine([name, address]));
      }
    }
  }
}
