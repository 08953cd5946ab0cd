/** Deleting a VM: which volumes go, on which exits, and the one success that leaves volumes behind. */
module VmRemoval {
  import opened Outcomes
  import opened DomainDescription
  import opened Libvirt
  import opened Operations
  import opened Safety
  import opened Migration

  function AllPaths(paths: seq<string>): set<string> {
    set p | p in paths
  }

  /** The host without a VM and without some volumes. */
  function Without(h: Host, vm: string, gone: set<string>): Host {
    Host(h.pools, h.vols - gone, h.doms - {vm})
  }

  /**
    Some volume is passed over because looking it up is refused: each volume takes two calls,
    and the first of a pair is the lookup.
   */
  ghost predicate PassesOver(w: World, paths: seq<string>) {
    exists i :: LookupRefused(w, paths, i)
  }

  ghost predicate LookupRefused(w: World, paths: seq<string>, i: int) {
    0 <= i < |paths| && w.clock + 2 * i in w.faults
  }

  lemma PassesOverStep(w: World, after: World, paths: seq<string>)
    requires paths != [] && after.faults == w.faults && after.clock == w.clock + 2
    ensures PassesOver(w, paths) <==> w.clock in w.faults || PassesOver(after, paths[1..])
  {
    if w.clock in w.faults {
      assert LookupRefused(w, paths, 0);
    }
    forall i | LookupRefused(w, paths, i)
      ensures w.clock in w.faults || PassesOver(after, paths[1..])
    {
      assert i > 0 ==> LookupRefused(after, paths[1..], i - 1);
    }
    forall i | LookupRefused(after, paths[1..], i)
      ensures PassesOver(w, paths)
    {
      assert LookupRefused(w, paths, i + 1);
    }
  }

  /** A list that names existing volumes, each once. */
  ghost predicate Once(vols: map<string, Volume>, paths: seq<string>) {
    && (forall i :: 0 <= i < |paths| ==> paths[i] in vols)
    && (forall i, j :: 0 <= i < j < |paths| ==> paths[i] != paths[j])
  }

  lemma OnceStep(vols: map<string, Volume>, paths: seq<string>)
    requires paths != [] && Once(vols, paths)
    ensures Once(vols, paths[1..]) && Once(vols - {paths[0]}, paths[1..])
    ensures paths[0] in vols && paths[0] !in AllPaths(paths[1..])
  {
  }

  /**
    Deleting a list of volumes, whatever it names, removes listed volumes only, and all that
    are there when no call fails.  If it names existing volumes, each once, a success has
    removed all of them exactly if none was passed over.
   */
  lemma {:induction false} DeleteVolumesOutcome(w: World, paths: seq<string>)
    ensures var o, v := DeleteVolumes(w, paths), w.host.vols;
      && Later(w, o.w)
      && (exists gone :: gone <= AllPaths(paths) && o.w.host == w.host.(vols := v - gone))
      && (Once(v, paths) && o.r.Ok? ==> (o.w.host.vols == v - AllPaths(paths) <==> !PassesOver(w, paths)))
      && (NoFaults(w) ==> o.r.Ok? && o.w.host.vols == v - AllPaths(paths) && !PassesOver(w, paths))
    decreases |paths|
  {
    if paths == [] {
      assert w.host == w.host.(vols := w.host.vols - {});
    } else {
      var first := DeleteVolumeByPath(w, paths[0]);
      assert paths[0] in AllPaths(paths);
      if first.r.Err? {
        assert w.host == w.host.(vols := w.host.vols - {});
      } else {
        var v := first.w;
        hide PassesOver, Once;
        DeleteVolumesOutcome(v, paths[1..]);
        var o := DeleteVolumes(v, paths[1..]);
        var gone :| gone <= AllPaths(paths[1..]) && o.w.host == v.host.(vols := v.host.vols - gone);
        assert AllPaths(paths) == AllPaths(paths[1..]) + {paths[0]};
        assert w.host.vols - {paths[0]} - gone == w.host.vols - (gone + {paths[0]});
        assert w.host.vols - {paths[0]} - AllPaths(paths[1..]) == w.host.vols - AllPaths(paths);
        NothingPassedOver(w, paths);
        if Once(w.host.vols, paths) {
          OnceStep(w.host.vols, paths);
          if w.clock in w.faults {
            assert LookupRefused(w, paths, 0);
            assert paths[0] in o.w.host.vols;
          } else {
            PassesOverStep(w, v, paths);
          }
        }
        if paths[0] !in w.host.vols {
          assert w.host.vols - AllPaths(paths[1..]) == w.host.vols - AllPaths(paths);
        }
      }
    }
  }

  lemma NothingPassedOver(w: World, paths: seq<string>)
    ensures NoFaults(w) ==> !PassesOver(w, paths)
  {
  }

  // ---------------------------------------------------------------- where the deletion of a list stops

  /**
    The number of the call that looks volume i of the list up: a lookup that finds nothing is
    one call, one that finds its volume is followed by a deletion.
   */
  ghost function LookupCall(w: World, paths: seq<string>, i: nat): nat
    requires i <= |paths|
    decreases i, 0
  {
    if i == 0 then w.clock
    else LookupCall(w, paths, i - 1) + if Finds(w, paths, i - 1) then 2 else 1
  }

  /** The lookup is not refused, the volume was there, and no lookup before it found the same one. */
  ghost predicate Finds(w: World, paths: seq<string>, i: nat)
    requires i < |paths|
    decreases i, 1
  {
    && LookupCall(w, paths, i) !in w.faults && paths[i] in w.host.vols
    && forall j :: 0 <= j < i && paths[j] == paths[i] ==> LookupCall(w, paths, j) in w.faults
  }

  ghost predicate DeletionRefused(w: World, paths: seq<string>, i: nat)
    requires i < |paths|
  {
    Finds(w, paths, i) && LookupCall(w, paths, i) + 1 in w.faults
  }

  /** k is the first volume whose deletion is refused, or the end of the list if none is. */
  ghost predicate StopsAt(w: World, paths: seq<string>, k: nat) {
    && k <= |paths| && (k < |paths| ==> DeletionRefused(w, paths, k))
    && forall i :: 0 <= i < k ==> !DeletionRefused(w, paths, i)
  }

  /** Of the first k, those whose lookup is not refused. */
  ghost function Removed(w: World, paths: seq<string>, k: nat): set<string>
    requires k <= |paths|
  {
    set i | 0 <= i < k && LookupCall(w, paths, i) !in w.faults :: paths[i]
  }

  lemma {:induction false} CallsShift(w: World, after: World, paths: seq<string>, i: nat)
    requires i < |paths| && after.faults == w.faults
    requires after.clock == LookupCall(w, paths, 1)
    requires after.host.vols == if Finds(w, paths, 0) then w.host.vols - {paths[0]} else w.host.vols
    ensures LookupCall(w, paths, i + 1) == LookupCall(after, paths[1..], i)
    ensures i + 1 < |paths| ==> (Finds(w, paths, i + 1) <==> Finds(after, paths[1..], i))
    decreases i
  {
    forall j | 0 <= j < i
      ensures LookupCall(w, paths, j + 1) == LookupCall(after, paths[1..], j)
    {
      CallsShift(w, after, paths, j);
    }
    if i > 0 {
      CallsShift(w, after, paths, i - 1);
    }
    if i + 1 < |paths| {
      FindsShift(w, after, paths, i);
    }
  }

  lemma FindsShift(w: World, after: World, paths: seq<string>, i: nat)
    requires i + 1 < |paths| && after.faults == w.faults
    requires after.host.vols == if Finds(w, paths, 0) then w.host.vols - {paths[0]} else w.host.vols
    requires LookupCall(w, paths, i + 1) == LookupCall(after, paths[1..], i)
    requires forall j :: 0 <= j < i ==> LookupCall(w, paths, j + 1) == LookupCall(after, paths[1..], j)
    ensures Finds(w, paths, i + 1) <==> Finds(after, paths[1..], i)
  {
    var rest := paths[1..];
    assert Finds(w, paths, 0) <==> LookupCall(w, paths, 0) !in w.faults && paths[0] in w.host.vols;
    hide LookupCall;
    if Finds(w, paths, i + 1) {
      forall j | 0 <= j < i && rest[j] == rest[i]
        ensures LookupCall(after, rest, j) in after.faults
      {
        assert paths[j + 1] == paths[i + 1];
      }
    }
    if Finds(after, rest, i) {
      forall j | 0 <= j < i + 1 && paths[j] == paths[i + 1]
        ensures LookupCall(w, paths, j) in w.faults
      {
        assert rest[i] == paths[i + 1] && rest[i] in after.host.vols;
        if j > 0 {
          var m := j - 1;
          assert rest[m] == rest[i] && LookupCall(w, paths, m + 1) == LookupCall(after, rest, m);
        }
      }
    }
  }

  /**
    Deleting a list of volumes, whatever it names, on every schedule: it fails exactly when a
    deletion is refused, and ends with the first that is.  Of the volumes before that one those
    are gone whose lookup was not refused; no other volume is touched.
   */
  lemma {:induction false} DeleteVolumesStops(w: World, paths: seq<string>) returns (k: nat)
    ensures StopsAt(w, paths, k)
    ensures var o := DeleteVolumes(w, paths);
      && o.r == (if k < |paths| then Err(CallFailed) else Ok(()))
      && o.w == World(
           w.host.(vols := w.host.vols - Removed(w, paths, k)),
           LookupCall(w, paths, k) + if k < |paths| then 2 else 0,
           w.faults)
    decreases |paths|
  {
    if paths == [] {
      k := 0;
      assert w.host.vols - {} == w.host.vols;
    } else if DeletionRefused(w, paths, 0) {
      k := 0;
      assert w.host.vols - {} == w.host.vols;
    } else {
      var first := DeleteVolumeByPath(w, paths[0]);
      FirstDeleted(w, paths);
      hide DeleteVolumeByPath;
      var rest := DeleteVolumesStops(first.w, paths[1..]);
      k := rest + 1;
      StopsShift(w, first.w, paths, rest);
    }
  }

  lemma FirstDeleted(w: World, paths: seq<string>)
    requires paths != [] && !DeletionRefused(w, paths, 0)
    ensures var first := DeleteVolumeByPath(w, paths[0]);
      && first.r.Ok? && first.w.faults == w.faults && first.w.clock == LookupCall(w, paths, 1)
      && first.w.host == w.host.(vols := if Finds(w, paths, 0) then w.host.vols - {paths[0]} else w.host.vols)
  {
    assert LookupCall(w, paths, 0) == w.clock;
    assert LookupCall(w, paths, 1) == w.clock + if Finds(w, paths, 0) then 2 else 1;
  }

  lemma StopsShift(w: World, after: World, paths: seq<string>, k: nat)
    requires paths != [] && !DeletionRefused(w, paths, 0) && after.faults == w.faults
    requires after.clock == LookupCall(w, paths, 1)
    requires after.host.vols == if Finds(w, paths, 0) then w.host.vols - {paths[0]} else w.host.vols
    requires StopsAt(after, paths[1..], k)
    ensures StopsAt(w, paths, k + 1) && LookupCall(w, paths, k + 1) == LookupCall(after, paths[1..], k)
    ensures w.host.vols - Removed(w, paths, k + 1) == after.host.vols - Removed(after, paths[1..], k)
  {
    var rest := paths[1..];
    forall i | 0 <= i <= k
      ensures LookupCall(w, paths, i + 1) == LookupCall(after, rest, i)
      ensures i < |rest| ==> (DeletionRefused(w, paths, i + 1) <==> DeletionRefused(after, rest, i))
    {
      CallsShift(w, after, paths, i);
    }
    assert LookupCall(w, paths, 0) == w.clock;
    RemovedShift(w, after, paths, k);
    hide DeletionRefused;
    forall i | 0 <= i < k + 1
      ensures !DeletionRefused(w, paths, i)
    {
      if i > 0 {
        assert !DeletionRefused(after, rest, i - 1);
      }
    }
  }

  lemma RemovedShift(w: World, after: World, paths: seq<string>, k: nat)
    requires k < |paths| && after.faults == w.faults && LookupCall(w, paths, 0) == w.clock
    requires forall i :: 0 <= i <= k ==> LookupCall(w, paths, i + 1) == LookupCall(after, paths[1..], i)
    requires after.host.vols == if Finds(w, paths, 0) then w.host.vols - {paths[0]} else w.host.vols
    ensures w.host.vols - Removed(w, paths, k + 1) == after.host.vols - Removed(after, paths[1..], k)
  {
    var rest := paths[1..];
    assert Finds(w, paths, 0) <==> w.clock !in w.faults && paths[0] in w.host.vols;
    hide LookupCall, Finds;
    var zero := if w.clock !in w.faults then {paths[0]} else {};
    forall p
      ensures p in Removed(w, paths, k + 1) <==> p in zero || p in Removed(after, rest, k)
    {
      if p in Removed(w, paths, k + 1) {
        var i :| 0 <= i < k + 1 && LookupCall(w, paths, i) !in w.faults && paths[i] == p;
        if i > 0 {
          assert LookupCall(after, rest, i - 1) !in after.faults && rest[i - 1] == p;
        }
      }
      if p in Removed(after, rest, k) {
        var i :| 0 <= i < k && LookupCall(after, rest, i) !in after.faults && rest[i] == p;
        assert LookupCall(w, paths, i + 1) !in w.faults && paths[i + 1] == p;
      }
      if p in zero {
        assert LookupCall(w, paths, 0) !in w.faults && paths[0] == p;
      }
    }
    assert Removed(w, paths, k + 1) == zero + Removed(after, rest, k);
    assert w.host.vols - (zero + Removed(after, rest, k)) == w.host.vols - zero - Removed(after, rest, k);
    assert paths[0] !in w.host.vols ==> w.host.vols - {paths[0]} == w.host.vols;
    assert w.host.vols - {} == w.host.vols;
  }

  // ---------------------------------------------------------------- Delete

  /** The paths of a VM's own disks. */
  function OwnPaths(h: Host, vm: string): set<string>
    requires vm in h.doms
  {
    AllPaths(Paths(Disks(h, vm)))
  }

  lemma ListedPaths(lists: DiskLists, vols: map<string, Volume>, vm: string, paths: seq<string>)
    requires ListsOk(lists, vols) && vm in lists && paths == Paths(lists[vm])
    ensures paths != []
    ensures forall i :: 0 <= i < |paths| ==> paths[i] in vols
    ensures forall i, j :: 0 <= i < j < |paths| ==> paths[i] != paths[j]
    ensures forall n, i, p :: p in AllPaths(paths) && DiskAt(lists, n, i, p) ==> n == vm
  {
    assert ListOk(vols, vm, lists[vm]);
    forall i | 0 <= i < |paths|
      ensures DiskAt(lists, vm, i, paths[i]) && paths[i] in vols
    {
      assert DiskOk(vols, vm, i, lists[vm][i]);
    }
    hide ListOk, DiskOk;
  }

  lemma OwnDisks(h: Host, vm: string)
    requires Safe(h) && vm in h.doms
    ensures var paths := Paths(Disks(h, vm));
      && paths != [] && Once(h.vols, paths)
      && (forall n, i, p :: p in OwnPaths(h, vm) && DiskAt(Lists(h), n, i, p) ==> n == vm)
  {
    hide Safe, Disks, DiskAt, ListsOk, Paths;
    SafeLists(h);
    ListedPaths(Lists(h), h.vols, vm, Paths(Disks(h, vm)));
  }

  /** Dropping one VM's list and volumes that only it lists. */
  lemma ListsWithout(lists: DiskLists, vols: map<string, Volume>, vm: string, gone: set<string>)
    requires ListsOk(lists, vols) && vm in lists
    requires forall n, i, p :: p in gone && DiskAt(lists, n, i, p) ==> n == vm
    ensures ListsOk(lists - {vm}, vols - gone)
  {
    var rest := lists - {vm};
    forall n, i, p | DiskAt(rest, n, i, p)
      ensures DiskAt(lists, n, i, p) && p !in gone
    {
      assert DiskAt(lists, n, i, p);
    }
    forall n | n in rest
      ensures ListOk(vols - gone, n, rest[n])
    {
      assert ListOk(vols, n, lists[n]);
      forall i | 0 <= i < |rest[n]|
        ensures DiskOk(vols - gone, n, i, rest[n][i])
      {
        assert DiskOk(vols, n, i, lists[n][i]);
        assert DiskAt(rest, n, i, rest[n][i].path);
      }
    }
  }

  lemma SafeWithout(h: Host, vm: string, gone: set<string>)
    requires Safe(h) && vm in h.doms && gone <= OwnPaths(h, vm)
    ensures Safe(Without(h, vm, gone)) && Lists(Without(h, vm, gone)) == Lists(h) - {vm}
  {
    hide FileDisks, TextOk, VolumeOk, PoolsOk, DiskAt, ListsOk, OwnPaths;
    OwnDisks(h, vm);
    ListsWithout(Lists(h), h.vols, vm, gone);
    assert Lists(Without(h, vm, gone)) == Lists(h) - {vm};
  }

  /** The world in which the volumes are deleted: the domain is gone, no volume is yet. */
  function Undefined(w: World, vm: string): World
    requires vm in w.host.doms
  {
    World(Without(w.host, vm, {}), w.clock + if Active(w.host.doms[vm].run) then 5 else 4, w.faults)
  }

  lemma DeleteSteps(w: World, vm: string, noclone: bool)
    requires vm in w.host.doms
    ensures var o, h, c, f := Delete(w, vm, noclone), w.host, w.clock, w.faults;
      var active := Active(h.doms[vm].run);
      var stateCall := if noclone then c + 1 else c + 2;
      if c in f || stateCall in f || (active && stateCall + 1 in f) then
        o.r.Err? && o.w.host == h && Later(w, o.w)
      else if stateCall + (if active then 2 else 1) in f then
        o.r.Err? && o.w.host == Stopped(h, vm) && Later(w, o.w)
      else if noclone || c + 1 in f || Disks(h, vm) == [] then
        o.r.Ok? && o.w.host == Without(h, vm, {}) && Later(w, o.w)
      else
        o == DeleteVolumes(Undefined(w, vm), Paths(Disks(h, vm)))
  {
    hide FileDisks, DeleteVolumes;
    assert w.host.vols - {} == w.host.vols;
    if Active(w.host.doms[vm].run) {
      assert SetRun(w.host, vm, Shutoff).doms - {vm} == w.host.doms - {vm};
    }
  }

  /** There is nothing to remove, or the disk list was read and no volume was passed over. */
  ghost predicate Thorough(w: World, vm: string)
    requires vm in w.host.doms
  {
    OwnPaths(w.host, vm) == {} ||
    (w.clock + 1 !in w.faults && !PassesOver(Undefined(w, vm), Paths(Disks(w.host, vm))))
  }

  lemma ThoroughCases(w: World, vm: string)
    requires vm in w.host.doms
    ensures var own, paths := OwnPaths(w.host, vm), Paths(Disks(w.host, vm));
      && own == AllPaths(paths) && (Disks(w.host, vm) == [] ==> own == {})
      && (own == {} ==> Thorough(w, vm))
      && (w.clock + 1 in w.faults ==> (Thorough(w, vm) <==> own == {}))
      && (w.clock + 1 !in w.faults ==> (Thorough(w, vm) <==> own == {} || !PassesOver(Undefined(w, vm), paths)))
  {
    hide FileDisks, PassesOver, Undefined;
  }

  lemma SameRemainder<K, V>(m: map<K, V>, a: set<K>, b: set<K>)
    requires a <= b && b <= m.Keys
    ensures m - a == m - b <==> a == b
  {
    if m - a == m - b {
      forall k | k in b
        ensures k in a
      {
        assert k !in m - b;
        assert k in m;
      }
    }
  }

  /**
    The deletions of a VM's volumes ended with the first that was refused, and these are gone:
    of the volumes before it those whose lookup was not refused, none of those from it on.
   */
  ghost predicate StoppedWith(u: World, paths: seq<string>, failed: bool, gone: set<string>) {
    exists k: nat ::
      && StopsAt(u, paths, k) && (failed <==> k < |paths|) && gone == Removed(u, paths, k)
      && (Once(u.host.vols, paths) ==> AllStay(u.host.vols, paths, k, gone))
  }

  ghost predicate AllStay(vols: map<string, Volume>, paths: seq<string>, k: nat, gone: set<string>) {
    forall j :: k <= j < |paths| ==> paths[j] in vols && paths[j] !in gone
  }

  /** When each volume is named once, every one from the refused deletion on is still there. */
  lemma LaterVolumesStay(w: World, paths: seq<string>, k: nat)
    requires Once(w.host.vols, paths) && k <= |paths|
    ensures AllStay(w.host.vols, paths, k, Removed(w, paths, k))
  {
    hide LookupCall;
  }

  /** The deletion of the volumes, seen from the host before the VM was undefined. */
  lemma DeletesOwn(w: World, vm: string, paths: seq<string>) returns (gone: set<string>)
    requires vm in w.host.doms
    ensures gone <= AllPaths(paths)
    ensures var o, u := DeleteVolumes(Undefined(w, vm), paths), Undefined(w, vm);
      && Later(w, o.w) && o.w.host == Without(w.host, vm, gone)
      && StoppedWith(u, paths, o.r.Err?, gone)
      && (Once(w.host.vols, paths) && o.r.Ok? ==> (gone == AllPaths(paths) <==> !PassesOver(u, paths)))
      && (NoFaults(w) ==> o.r.Ok? && gone == AllPaths(paths) && !PassesOver(u, paths))
  {
    var u := Undefined(w, vm);
    UndefinedKeeps(w, vm);
    hide DeleteVolumes, PassesOver, Undefined, StopsAt, LookupCall;
    DeleteVolumesOutcome(u, paths);
    var k := DeleteVolumesStops(u, paths);
    gone := Removed(u, paths, k);
    if Once(u.host.vols, paths) {
      LaterVolumesStay(u, paths, k);
      SameRemainder(u.host.vols, gone, AllPaths(paths));
    }
    if NoFaults(w) {
      AllRemoved(u, paths);
    }
  }

  lemma UndefinedKeeps(w: World, vm: string)
    requires vm in w.host.doms
    ensures var u := Undefined(w, vm);
      && Later(w, u) && u.host == w.host.(doms := w.host.doms - {vm}) && (NoFaults(w) ==> NoFaults(u))
  {
    assert w.host.vols - {} == w.host.vols;
  }

  lemma {:induction false} CallsAdvance(w: World, paths: seq<string>, i: nat)
    requires i <= |paths|
    ensures LookupCall(w, paths, i) >= w.clock
    decreases i
  {
    if i > 0 {
      CallsAdvance(w, paths, i - 1);
    }
  }

  /** With no call refused, none is left out. */
  lemma AllRemoved(w: World, paths: seq<string>)
    requires NoFaults(w)
    ensures Removed(w, paths, |paths|) == AllPaths(paths)
  {
    forall i | 0 <= i < |paths|
      ensures LookupCall(w, paths, i) !in w.faults
    {
      CallsAdvance(w, paths, i);
    }
    hide LookupCall;
    forall p | p in AllPaths(paths)
      ensures p in Removed(w, paths, |paths|)
    {
      var i :| 0 <= i < |paths| && paths[i] == p;
      assert LookupCall(w, paths, i) !in w.faults;
    }
  }

  /**
    Delete, exit by exit, for any domain, whoever made it: nothing but its run state changes
    before it is undefined; after that exactly those of its volumes are gone that were looked
    up before the first deletion that was refused, and with such a deletion Delete fails.
    Without faults none is left.  If it lists existing volumes, each once, a success has removed
    all of them exactly when the deletion was thorough, and a failure leaves every volume from
    the refused deletion on.
   */
  lemma DeleteExits(w: World, vm: string, noclone: bool) returns (gone: set<string>)
    requires vm in w.host.doms
    ensures gone <= OwnPaths(w.host, vm) && (noclone || w.clock + 1 in w.faults ==> gone == {})
    ensures var o, h, u, paths := Delete(w, vm, noclone), w.host, Undefined(w, vm), Paths(Disks(w.host, vm));
      && Later(w, o.w)
      && (o.w.host == h || o.w.host == Stopped(h, vm) || o.w.host == Without(h, vm, gone))
      && (o.r.Err? && (noclone || w.clock + 1 in w.faults) ==> vm in o.w.host.doms)
      && (o.r.Ok? ==> o.w.host == Without(h, vm, gone))
      && (vm !in o.w.host.doms && !noclone && w.clock + 1 !in w.faults ==> StoppedWith(u, paths, o.r.Err?, gone))
      && (o.r.Ok? && !noclone && Once(h.vols, paths) ==> (gone == OwnPaths(h, vm) <==> Thorough(w, vm)))
      && (NoFaults(w) ==> o.r.Ok? && (!noclone ==> gone == OwnPaths(h, vm) && Thorough(w, vm)))
  {
    var h, paths := w.host, Paths(Disks(w.host, vm));
    UndefinedKeeps(w, vm);
    hide Delete, DeleteVolumes, PassesOver, Once, OwnPaths, Undefined, Thorough, LookupCall, Finds, FileDisks;
    ThoroughCases(w, vm);
    DeleteSteps(w, vm, noclone);
    gone := {};
    if !noclone && w.clock + 1 !in w.faults {
      gone := DeletesOwn(w, vm, paths);
    }
  }

  /** What Delete promises when no call fails: the VM and exactly its own volumes are gone. */
  lemma DeleteRemovesExactlyTheVm(w: World, vm: string, noclone: bool)
    requires Safe(w.host) && vm in w.host.doms && NoFaults(w)
    ensures Delete(w, vm, noclone).r.Ok?
    ensures Delete(w, vm, noclone).w.host == Without(w.host, vm, if noclone then {} else OwnPaths(w.host, vm))
    ensures Safe(Delete(w, vm, noclone).w.host)
  {
    hide Safe, Delete, Lists, OwnPaths, Thorough;
    var gone := DeleteExits(w, vm, noclone);
    SafeWithout(w.host, vm, gone);
  }

  /**
    Not every success removes the volumes: when the one call that reads the description is
    refused, Delete undefines the VM, reports success and leaves every volume behind.
   */
  lemma UnreadDescriptionLeavesVolumes(w: World, vm: string)
    requires Safe(w.host) && vm in w.host.doms && w.faults == {w.clock + 1}
    ensures Delete(w, vm, false).r.Ok? && Delete(w, vm, false).w.host == Without(w.host, vm, {})
    ensures OwnPaths(w.host, vm) != {} && OwnPaths(w.host, vm) <= Delete(w, vm, false).w.host.vols.Keys
  {
    hide Safe, Delete, FileDisks, Lists, DeleteVolumes, Disks;
    OwnDisks(w.host, vm);
    DeleteSteps(w, vm, false);
    var paths := Paths(Disks(w.host, vm));
    assert paths[0] in OwnPaths(w.host, vm);
  }
}
