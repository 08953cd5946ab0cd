/**
  The part of libvirt that vmtool calls, as a state machine.  Every call may be refused: the
  world holds the numbers of the calls that fail, so a statement about all worlds is a
  statement about all fault schedules (a crash is a schedule in which every later call fails).

  What is assumed of libvirt: a refused call changes nothing; a pool turns a volume name into
  one path below its directory and refuses names that are taken, empty, hold a slash or are
  not plain XML text; a resize never shrinks; only a domain that is not active can be started
  and only an active one can be destroyed; a description that was not read back from libvirt
  carries no uuid and cannot redefine an existing domain; undefining leaves volumes alone, and
  an active domain running; a volume that an active domain lists is resized through the domain
  only; a disk attached to an active domain without the live flag is not there yet.
  Whether a description is well-formed XML is not looked at: any text with a proper name is
  accepted, also where libvirt itself would refuse it.
 */
module Libvirt {
  import opened Outcomes
  import opened DomainDescription

  type Bytes = seq<int>

  datatype RunState = Running | Paused | Shutoff | Crashed | OtherState

  predicate Active(run: RunState) {
    run == Running || run == Paused
  }

  datatype Volume = Volume(pool: string, name: string, capacity: u64, content: Bytes)

  datatype Domain = Domain(xml: string, run: RunState)

  /** Pools by name (their directory), volumes by path, domains by name. */
  datatype Host = Host(
    pools: map<string, string>,
    vols: map<string, Volume>,
    doms: map<string, Domain>)

  /** The host, the number of calls made so far, and which calls are refused. */
  datatype World = World(host: Host, clock: nat, faults: set<nat>)

  /** What a call, or a whole operation, leaves behind and returns. */
  datatype Step<+T> = Step(w: World, r: Result<T>) {
    predicate IsFailure() {
      r.Err?
    }

    function PropagateFailure<U>(): Step<U>
      requires r.Err?
    {
      Step(w, Err(r.error))
    }

    function Extract(): (World, T)
      requires r.Ok?
    {
      (w, r.value)
    }
  }

  function Refused<T>(w: World): Step<T> {
    Step(w.(clock := w.clock + 1), Err(CallFailed))
  }

  function Answered<T>(w: World, value: T): Step<T> {
    Step(w.(clock := w.clock + 1), Ok(value))
  }

  function Changed<T>(w: World, host: Host, value: T): Step<T> {
    Step(w.(host := host, clock := w.clock + 1), Ok(value))
  }

  predicate Down(w: World) {
    w.clock in w.faults
  }

  /** No call from now on is refused by the schedule. */
  ghost predicate NoFaults(w: World) {
    forall n :: n in w.faults ==> n < w.clock
  }

  /** Calls only advance the clock. */
  ghost predicate Later(w: World, after: World) {
    after.faults == w.faults && after.clock >= w.clock
  }

  // ---------------------------------------------------------------- domains

  function LookupDomain(w: World, name: string): Step<()> {
    if Down(w) || name !in w.host.doms then Refused(w) else Answered(w, ())
  }

  function GetState(w: World, name: string): Step<RunState> {
    if Down(w) || name !in w.host.doms then Refused(w) else Answered(w, w.host.doms[name].run)
  }

  function GetXml(w: World, name: string): Step<string> {
    if Down(w) || name !in w.host.doms then Refused(w) else Answered(w, w.host.doms[name].xml)
  }

  /** Reading a domain's sizes. */
  function GetInfo(w: World, name: string): Step<()> {
    LookupDomain(w, name)
  }

  /** Only an active domain can be rebooted; it is running afterwards as before. */
  function RebootDomain(w: World, name: string): Step<()> {
    if Down(w) || name !in w.host.doms || !Active(w.host.doms[name].run) then Refused(w) else Answered(w, ())
  }

  function SetRun(h: Host, name: string, run: RunState): Host
    requires name in h.doms
  {
    h.(doms := h.doms[name := h.doms[name].(run := run)])
  }

  /** Boots a defined domain. */
  function CreateDomain(w: World, name: string): Step<()> {
    if Down(w) || name !in w.host.doms || Active(w.host.doms[name].run) then Refused(w)
    else Changed(w, SetRun(w.host, name, Running), ())
  }

  function DestroyDomain(w: World, name: string): Step<()> {
    if Down(w) || name !in w.host.doms || !Active(w.host.doms[name].run) then Refused(w)
    else Changed(w, SetRun(w.host, name, Shutoff), ())
  }

  /** A domain that is active stays there, transient, until it stops. */
  function UndefineDomain(w: World, name: string): Step<()> {
    if Down(w) || name !in w.host.doms then Refused(w)
    else if Active(w.host.doms[name].run) then Answered(w, ())
    else Changed(w, w.host.(doms := w.host.doms - {name}), ())
  }

  function SetXml(h: Host, name: string, xml: string): Host {
    h.(doms := h.doms[name := Domain(xml, if name in h.doms then h.doms[name].run else Shutoff)])
  }

  /** `identified`: the text was read back from libvirt and so names the domain by its uuid. */
  function DefineDomain(w: World, xml: string, identified: bool): Step<()> {
    var name := NameOf(xml);
    if Down(w) || name == "" || '/' in name || (name in w.host.doms && !identified) then Refused(w)
    else Changed(w, SetXml(w.host, name, xml), ())
  }

  /** Releasing the handle that a definition returned. */
  function FreeDomain(w: World): Step<()> {
    if Down(w) then Refused(w) else Answered(w, ())
  }

  /**
    A live change needs an active domain.  What an active domain is described by is what it
    has, so without a live change its description stays as it is.
   */
  function AttachDevice(w: World, name: string, fragment: string, live: bool): Step<()> {
    if Down(w) || name !in w.host.doms || (live && !Active(w.host.doms[name].run)) then Refused(w)
    else if !live && Active(w.host.doms[name].run) then Answered(w, ())
    else Changed(w, SetXml(w.host, name, Splice(w.host.doms[name].xml, fragment)), ())
  }

  /** The path behind a guest device name, empty when there is none. */
  function TargetPath(disks: seq<DiskDevice>, target: string): string {
    if disks == [] then ""
    else if disks[0].target == target then disks[0].path
    else TargetPath(disks[1..], target)
  }

  function SetCapacity(h: Host, path: string, bytes: u64): Host
    requires path in h.vols
  {
    h.(vols := h.vols[path := h.vols[path].(capacity := bytes)])
  }

  /** Grows a disk through its running domain. */
  function BlockResize(w: World, name: string, target: string, bytes: u64): Step<()> {
    if Down(w) || name !in w.host.doms || !Active(w.host.doms[name].run) then Refused(w) else
    var path := TargetPath(FileDisks(w.host.doms[name].xml), target);
    if path !in w.host.vols then Refused(w)
    else Changed(w, SetCapacity(w.host, path, bytes), ())
  }

  // ---------------------------------------------------------------- beside libvirt

  /** Any other command (ansible, ssh-keygen, writing a file): it takes its place among the calls and may fail. */
  function RunCommand(w: World): Step<()> {
    if Down(w) then Refused(w) else Answered(w, ())
  }

  /** Asking for an image by name; `found` is what the pools hold. */
  function FindImage(w: World, found: Option<string>): Step<string> {
    if Down(w) || found.None? then Refused(w) else Answered(w, found.value)
  }

  // ---------------------------------------------------------------- pools and volumes

  function LookupPool(w: World, pool: string): Step<()> {
    if Down(w) || pool !in w.host.pools then Refused(w) else Answered(w, ())
  }

  function LookupVolume(w: World, path: string): Step<()> {
    if Down(w) || path !in w.host.vols then Refused(w) else Answered(w, ())
  }

  function VolumeCapacity(w: World, path: string): Step<u64> {
    if Down(w) || path !in w.host.vols then Refused(w) else Answered(w, w.host.vols[path].capacity)
  }

  function VolumeName(w: World, path: string): Step<string> {
    if Down(w) || path !in w.host.vols then Refused(w) else Answered(w, w.host.vols[path].name)
  }

  function VolumePath(w: World, path: string): Step<string> {
    if Down(w) || path !in w.host.vols then Refused(w) else Answered(w, path)
  }

  function PathIn(dir: string, name: string): string {
    dir + "/" + name
  }

  /** Names a pool takes: literal XML text without a slash. */
  predicate VolumeNameOk(name: string) {
    name != "" && forall i :: 0 <= i < |name| ==> name[i] != '/' && name[i] != '<' && name[i] != '&'
  }

  function AddVolume(h: Host, path: string, v: Volume): Host {
    h.(vols := h.vols[path := v])
  }

  function NewVolume(w: World, pool: string, name: string, capacity: int, content: Bytes): Step<string> {
    if Down(w) || pool !in w.host.pools || !VolumeNameOk(name) || !(0 <= capacity < U64) then Refused(w) else
    var path := PathIn(w.host.pools[pool], name);
    if path in w.host.vols then Refused(w)
    else Changed(w, AddVolume(w.host, path, Volume(pool, name, capacity, content)), path)
  }

  /** An empty volume of so many gigabytes. */
  function CreateVolumeXml(w: World, pool: string, name: string, sizeGB: u64): Step<string> {
    NewVolume(w, pool, name, sizeGB * GIB, [])
  }

  /** A copy of another volume. */
  function CreateVolumeFrom(w: World, pool: string, name: string, capacity: u64, source: string): Step<string> {
    if source !in w.host.vols then Refused(w)
    else NewVolume(w, pool, name, capacity, w.host.vols[source].content)
  }

  /** The volume is held by an active domain that lists it. */
  predicate InUse(doms: map<string, Domain>, path: string) {
    exists n | n in doms :: Active(doms[n].run) && ListsPath(FileDisks(doms[n].xml), path)
  }

  predicate ListsPath(disks: seq<DiskDevice>, path: string) {
    exists d :: d in disks && d.path == path
  }

  /** A volume is never shrunk, and not resized behind the back of a domain that holds it. */
  function VolumeResize(w: World, path: string, bytes: u64): Step<()> {
    if Down(w) || path !in w.host.vols || bytes < w.host.vols[path].capacity || InUse(w.host.doms, path) then
      Refused(w)
    else Changed(w, SetCapacity(w.host, path, bytes), ())
  }

  function DropVolume(h: Host, path: string): Host {
    h.(vols := h.vols - {path})
  }

  function DeleteVolume(w: World, path: string): Step<()> {
    if Down(w) || path !in w.host.vols then Refused(w)
    else Changed(w, DropVolume(w.host, path), ())
  }
}
