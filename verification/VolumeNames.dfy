/** The names vmtool gives volumes and the guest device names it hands out. */
module VolumeNames {
  import opened Text
  import opened Outcomes

  const QCOW2 := ".qcow2"

  /** normalizeVolName. */
  function NormalizeVolName(name: string): string {
    if name == "" then "" else if HasSuffix(name, QCOW2) then name else name + QCOW2
  }

  /** extraVolName: the volume of disk n (2, 3, …) of a VM. */
  function ExtraVolName(vm: string, n: nat): string {
    vm + "-" + Dec(n) + QCOW2
  }

  /** The volume of disk i, counting the boot disk as 0. */
  function DiskVolName(vm: string, i: nat): string {
    if i == 0 then vm + QCOW2 else ExtraVolName(vm, i + 1)
  }

  lemma SplitAtLast(a: string, x: string, b: string, y: string, c: char)
    requires a + [c] + x == b + [c] + y
    requires c !in x && c !in y
    ensures a == b && x == y
  {
    var s := a + [c] + x;
    forall j | |a| < j < |s|
      ensures s[j] != c
    {
      assert s[j] == x[j - |a| - 1];
    }
    forall j | |b| < j < |s|
      ensures s[j] != c
    {
      assert s[j] == y[j - |b| - 1];
    }
    assert s[|a|] == c && s[|b|] == c;
    assert a == s[..|a|] && b == s[..|b|];
    assert x == s[|a| + 1..] && y == s[|b| + 1..];
  }

  /** A volume name tells which VM and which disk it was made for. */
  lemma ExtraVolNameInjective(v1: string, n1: nat, v2: string, n2: nat)
    requires ExtraVolName(v1, n1) == ExtraVolName(v2, n2)
    ensures v1 == v2 && n1 == n2
  {
    var s1, s2 := v1 + "-" + Dec(n1), v2 + "-" + Dec(n2);
    assert s1 == (s1 + QCOW2)[..|s1|] && s2 == (s2 + QCOW2)[..|s2|];
    SplitAtLast(v1, Dec(n1), v2, Dec(n2), '-');
    ValDec(n1);
    ValDec(n2);
  }

  /** Normalizing is idempotent, changes only names without the suffix, and never an extra disk's. */
  lemma NormalizeKeepsExtraNames(name: string, vm: string, n: nat)
    ensures NormalizeVolName(NormalizeVolName(name)) == NormalizeVolName(name)
    ensures NormalizeVolName(name) == name <==> name == "" || HasSuffix(name, QCOW2)
    ensures NormalizeVolName(ExtraVolName(vm, n)) == ExtraVolName(vm, n)
  {
    assert (name + QCOW2)[|name|..] == QCOW2;
    var s := vm + "-" + Dec(n);
    assert (s + QCOW2)[|s|..] == QCOW2;
  }

  /** Disks of one VM never share a volume name. */
  lemma DiskVolNameInjective(vm: string, i: nat, j: nat)
    requires DiskVolName(vm, i) == DiskVolName(vm, j)
    ensures i == j
  {
    assert |vm + QCOW2| < |ExtraVolName(vm, i + 1)|;
    assert |vm + QCOW2| < |ExtraVolName(vm, j + 1)|;
    if i > 0 && j > 0 {
      ExtraVolNameInjective(vm, i + 1, vm, j + 1);
    }
  }

  /** The boot disk of a VM takes the volume name of another VM's extra disk. */
  predicate BootTakesExtra(boot: string, extra: string, j: nat) {
    j > 0 && boot == extra + "-" + Dec(j + 1)
  }

  lemma BootAgainstExtra(boot: string, extra: string, j: nat)
    requires j > 0
    ensures DiskVolName(boot, 0) == DiskVolName(extra, j) <==> BootTakesExtra(boot, extra, j)
  {
    var s := extra + "-" + Dec(j + 1);
    assert (boot + QCOW2)[..|boot + QCOW2| - |QCOW2|] == boot;
    assert (s + QCOW2)[..|s + QCOW2| - |QCOW2|] == s;
  }

  /**
    Across VMs the volume names of two disks collide exactly when they are the same disk, or
    one is the boot disk of a VM named like the other's VM with its disk number behind it:
    VM web-2 and the second disk of VM web want the same volume.
   */
  lemma DiskVolNamesCollideExactly(v: string, i: nat, w: string, j: nat)
    ensures DiskVolName(v, i) == DiskVolName(w, j) <==>
      (v == w && i == j) || (i == 0 && BootTakesExtra(v, w, j)) || (j == 0 && BootTakesExtra(w, v, i))
  {
    if i == 0 && j == 0 {
      assert (v + QCOW2)[..|v + QCOW2| - |QCOW2|] == v;
      assert (w + QCOW2)[..|w + QCOW2| - |QCOW2|] == w;
    } else if i == 0 {
      BootAgainstExtra(v, w, j);
      assert v == w ==> |v| < |w + "-" + Dec(j + 1)|;
    } else if j == 0 {
      BootAgainstExtra(w, v, i);
    } else if DiskVolName(v, i) == DiskVolName(w, j) {
      ExtraVolNameInjective(v, i + 1, w, j + 1);
    }
  }

  /** The i-th virtio device name. */
  function VdTarget(i: nat): string
    requires i < 26
  {
    "vd" + [('a' as int + i) as char]
  }

  function FirstFree(used: seq<string>, i: nat): (r: Option<string>)
    requires i <= 26
    ensures r.None? <==> forall k :: i <= k < 26 ==> VdTarget(k) in used
    ensures r.Some? ==> exists k :: i <= k < 26 && r.value == VdTarget(k) && VdTarget(k) !in used
                                    && forall m :: i <= m < k ==> VdTarget(m) in used
    decreases 26 - i
  {
    if i == 26 then None
    else if VdTarget(i) !in used then Some(VdTarget(i))
    else FirstFree(used, i + 1)
  }

  /** nextVirtioTarget: the first of vda..vdz that is not in use. */
  function NextTarget(used: seq<string>): Option<string> {
    FirstFree(used, 0)
  }

  /**
    What the answer is: the first name of vda, vdb, … vdz, in the order of the letters, that is
    not in use; none exactly when all of them are.
   */
  lemma NextTargetIsFirstLetter(used: seq<string>)
    ensures NextTarget(used).None? <==> forall x: char :: 'a' <= x <= 'z' ==> "vd" + [x] in used
    ensures forall t :: NextTarget(used) == Some(t) <==>
      exists c: char :: 'a' <= c <= 'z' && t == "vd" + [c] && t !in used
                        && forall x: char :: 'a' <= x < c ==> "vd" + [x] in used
  {
    assert forall x: char :: 'a' <= x <= 'z' ==> VdTarget(x as int - 'a' as int) == "vd" + [x];
    assert forall k :: 0 <= k < 26 ==> VdTarget(k) == "vd" + [('a' as int + k) as char];
    hide VdTarget;
    var r := NextTarget(used);
    if r.Some? {
      var k :| 0 <= k < 26 && r.value == VdTarget(k) && VdTarget(k) !in used
               && forall m :: 0 <= m < k ==> VdTarget(m) in used;
      var c := ('a' as int + k) as char;
      assert r.value == "vd" + [c];
      forall x: char | 'a' <= x < c
        ensures "vd" + [x] in used
      {
        assert VdTarget(x as int - 'a' as int) in used;
      }
      forall d: char | 'a' <= d <= 'z' && "vd" + [d] !in used && forall x: char :: 'a' <= x < d ==> "vd" + [x] in used
        ensures d == c
      {
        assert !(c < d) && !(d < c);
      }
    } else {
      forall x: char | 'a' <= x <= 'z'
        ensures "vd" + [x] in used
      {
        assert VdTarget(x as int - 'a' as int) in used;
      }
    }
  }

  /**
    nextVirtioTarget as written: collect the taken names, then try the letters in order.  The
    answer is the first name of vda, vdb, … vdz that is not in use.
   */
  method NextVirtioTarget(used: seq<string>) returns (r: Option<string>)
    ensures r == NextTarget(used)
    ensures r.None? <==> forall x: char :: 'a' <= x <= 'z' ==> "vd" + [x] in used
    ensures r.Some? ==> r.value !in used
    ensures r.Some? ==> exists c: char :: 'a' <= c <= 'z' && r.value == "vd" + [c]
                                          && forall x: char :: 'a' <= x < c ==> "vd" + [x] in used
  {
    NextTargetIsFirstLetter(used);
    var taken: set<string> := {};
    for i := 0 to |used|
      invariant taken == set k | 0 <= k < i :: used[k]
    {
      taken := taken + {used[i]};
    }
    assert forall t :: t in taken <==> t in used;
    for c := 0 to 26
      invariant FirstFree(used, c) == NextTarget(used)
    {
      var t := "vd" + [('a' as int + c) as char];
      if t !in taken {
        return Some(t);
      }
    }
    return None;
  }

  /** When the disks in use are vda, vdb, … without a gap, the next target is the next letter, if any is left. */
  lemma NextTargetNumbered(used: seq<string>)
    requires |used| <= 26
    requires forall i :: 0 <= i < |used| ==> used[i] == "vd" + [('a' as int + i) as char]
    ensures NextTarget(used) == if |used| < 26 then Some("vd" + [('a' as int + |used|) as char]) else None
  {
    assert forall i :: 0 <= i < |used| ==> used[i] == VdTarget(i);
    if |used| < 26 {
      forall i | 0 <= i < |used|
        ensures VdTarget(|used|) != used[i]
      {
        assert VdTarget(i)[2] != VdTarget(|used|)[2];
      }
    }
  }
}
