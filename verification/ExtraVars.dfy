/**
  The key=value arguments handed to ansible-playbook (pkg/vmtool/ansible.go) and the parser
  of the same form on the command line (internal/cli/cli.go).
 */
module ExtraVars {
  import opened Text
  import opened Outcomes

  type Vars = map<string, string>

  /** The order of sort.Strings. */
  predicate Below(a: string, b: string) {
    b != "" && (a == "" || a[0] < b[0] || (a[0] == b[0] && Below(a[1..], b[1..])))
  }

  lemma {:induction false} BelowTotal(a: string, b: string)
    ensures Below(a, b) || a == b || Below(b, a)
    ensures !(Below(a, b) && Below(b, a)) && !Below(a, a)
  {
    if a != "" && b != "" {
      BelowTotal(a[1..], b[1..]);
      assert a == [a[0]] + a[1..] && b == [b[0]] + b[1..];
    }
    if a != "" {
      BelowTotal(a[1..], a[1..]);
    }
  }

  lemma {:induction false} BelowTransitive(a: string, b: string, c: string)
    requires Below(a, b) && Below(b, c)
    ensures Below(a, c)
  {
    if a != "" && b[0] == a[0] && c[0] == b[0] {
      BelowTransitive(a[1..], b[1..], c[1..]);
    }
  }

  /** It compares at the first place where the two differ; what ends there comes first. */
  lemma {:induction false} BelowAtDifference(a: string, b: string)
    ensures Below(a, b) <==>
      exists n :: 0 <= n <= |a| && n < |b| && a[..n] == b[..n] && (n == |a| || a[n] < b[n])
  {
    if a != "" && b != "" && a[0] == b[0] {
      var x, y := a[1..], b[1..];
      BelowAtDifference(x, y);
      assert a == [a[0]] + x && b == [a[0]] + y;
      if Below(a, b) {
        var n :| 0 <= n <= |x| && n < |y| && x[..n] == y[..n] && (n == |x| || x[n] < y[n]);
        assert a[..n + 1] == [a[0]] + x[..n] && b[..n + 1] == [a[0]] + y[..n];
      }
      if n :| 0 <= n <= |a| && n < |b| && a[..n] == b[..n] && (n == |a| || a[n] < b[n]) {
        assert n > 0;
        assert x[..n - 1] == a[..n][1..] && y[..n - 1] == b[..n][1..];
      }
    } else if b != "" && Below(a, b) {
      assert a[..0] == b[..0];
    }
  }

  predicate StrictlySorted(keys: seq<string>) {
    forall i, j :: 0 <= i < j < |keys| ==> Below(keys[i], keys[j])
  }

  function Elems(keys: seq<string>): set<string> {
    set k | k in keys
  }

  lemma NoElems(keys: seq<string>)
    ensures Elems(keys) == {} <==> keys == []
  {
    if keys != [] {
      assert keys[0] in Elems(keys);
    }
  }

  lemma MoreElems(keys: seq<string>, k: string)
    ensures Elems(keys + [k]) == Elems(keys) + {k}
  {
  }

  /** Sorted without repetition, a set of keys can be listed in one way only. */
  lemma {:induction false} OneSortedListing(a: seq<string>, b: seq<string>)
    requires StrictlySorted(a) && StrictlySorted(b) && Elems(a) == Elems(b)
    ensures a == b
    decreases |a|
  {
    if a == [] || b == [] {
      NoElems(a);
      NoElems(b);
    } else {
      assert a[0] in Elems(b) && b[0] in Elems(a);
      var i :| 0 <= i < |b| && b[i] == a[0];
      var j :| 0 <= j < |a| && a[j] == b[0];
      BelowTotal(a[0], b[0]);
      TailElems(a);
      TailElems(b);
      OneSortedListing(a[1..], b[1..]);
    }
  }

  lemma TailElems(a: seq<string>)
    requires a != [] && StrictlySorted(a)
    ensures StrictlySorted(a[1..]) && Elems(a[1..]) == Elems(a) - {a[0]}
  {
    assert a == [a[0]] + a[1..];
    forall i | 0 <= i < |a[1..]|
      ensures a[1..][i] != a[0]
    {
      BelowTotal(a[0], a[i + 1]);
    }
  }

  // ---------------------------------------------------------------- printing

  function Pair(key: string, value: string): string {
    key + "=" + value
  }

  function PairsOf(keys: seq<string>, vars: Vars): seq<string>
    requires forall k :: k in keys ==> k in vars
  {
    seq(|keys|, i requires 0 <= i < |keys| => Pair(keys[i], vars[keys[i]]))
  }

  /** One pair for every non-empty key, in strictly ascending order of keys. */
  ghost predicate ArgsFor(vars: Vars, keys: seq<string>, args: seq<string>) {
    StrictlySorted(keys) && Elems(keys) == vars.Keys - {""} && (forall k :: k in keys ==> k in vars)
    && args == PairsOf(keys, vars)
  }

  /** sort.Strings on keys that are all different. */
  method SortStrings(keys: seq<string>) returns (sorted: seq<string>)
    requires forall i, j :: 0 <= i < j < |keys| ==> keys[i] != keys[j]
    ensures StrictlySorted(sorted) && Elems(sorted) == Elems(keys)
  {
    sorted := [];
    for i := 0 to |keys|
      invariant StrictlySorted(sorted) && Elems(sorted) == Elems(keys[..i])
    {
      var key := keys[i];
      assert key !in Elems(keys[..i]);
      assert keys[..i + 1] == keys[..i] + [key];
      var p := 0;
      while p < |sorted| && Below(sorted[p], key)
        invariant 0 <= p <= |sorted|
        invariant forall j :: 0 <= j < p ==> Below(sorted[j], key)
      {
        p := p + 1;
      }
      InsertSorted(sorted, p, key);
      ghost var grown := Elems(sorted) + {key};
      sorted := sorted[..p] + [key] + sorted[p..];
      assert Elems(sorted) == grown;
    }
    assert keys[..|keys|] == keys;
  }

  lemma InsertSorted(sorted: seq<string>, p: nat, key: string)
    requires StrictlySorted(sorted) && p <= |sorted| && key !in Elems(sorted)
    requires forall j :: 0 <= j < p ==> Below(sorted[j], key)
    requires p < |sorted| ==> !Below(sorted[p], key)
    ensures StrictlySorted(sorted[..p] + [key] + sorted[p..])
    ensures Elems(sorted[..p] + [key] + sorted[p..]) == Elems(sorted) + {key}
  {
    AboveRest(sorted, p, key);
    InsertElems(sorted, p, key);
    hide Below, Elems;
    var grown := sorted[..p] + [key] + sorted[p..];
    forall i, j | 0 <= i < j < |grown|
      ensures Below(grown[i], grown[j])
    {
      assert i < p ==> grown[i] == sorted[i];
      assert i > p ==> grown[i] == sorted[i - 1];
      assert j < p ==> grown[j] == sorted[j];
      assert j > p ==> grown[j] == sorted[j - 1];
    }
  }

  lemma InsertElems(sorted: seq<string>, p: nat, key: string)
    requires p <= |sorted|
    ensures Elems(sorted[..p] + [key] + sorted[p..]) == Elems(sorted) + {key}
  {
    assert sorted == sorted[..p] + sorted[p..];
  }

  lemma AboveRest(sorted: seq<string>, p: nat, key: string)
    requires StrictlySorted(sorted) && p <= |sorted| && key !in Elems(sorted)
    requires p < |sorted| ==> !Below(sorted[p], key)
    ensures forall j :: p <= j < |sorted| ==> Below(key, sorted[j])
  {
    hide Below;
    forall j | p <= j < |sorted|
      ensures Below(key, sorted[j])
    {
      assert sorted[p] in Elems(sorted);
      BelowTotal(sorted[p], key);
      if j > p {
        BelowTransitive(key, sorted[p], sorted[j]);
      }
    }
  }

  /** extraVarArgs as written: the keys, in whatever order the map yields them, then sorted, then printed. */
  method ExtraVarArgs(vars: Vars) returns (args: seq<string>)
    ensures exists keys :: ArgsFor(vars, keys, args)
  {
    hide Below, StrictlySorted;
    var keys: seq<string> := [];
    var rest := vars.Keys;
    while rest != {}
      invariant rest <= vars.Keys
      invariant Elems(keys) == vars.Keys - rest - {""}
      invariant forall i, j :: 0 <= i < j < |keys| ==> keys[i] != keys[j]
      decreases rest
    {
      var k :| k in rest;
      rest := rest - {k};
      if k == "" {
        continue;
      }
      assert k !in Elems(keys);
      MoreElems(keys, k);
      keys := keys + [k];
    }
    var ordered := SortStrings(keys);
    assert Elems(ordered) == vars.Keys - {""};
    forall k | k in ordered
      ensures k in vars
    {
      assert k in Elems(ordered);
    }
    args := [];
    for i := 0 to |ordered|
      invariant args == PairsOf(ordered, vars)[..i]
    {
      args := args + [Pair(ordered[i], vars[ordered[i]])];
    }
    assert ArgsFor(vars, ordered, args);
  }

  /** The arguments do not depend on the order in which the map yields its keys. */
  lemma ArgsDetermined(vars: Vars, keys1: seq<string>, args1: seq<string>, keys2: seq<string>, args2: seq<string>)
    requires ArgsFor(vars, keys1, args1) && ArgsFor(vars, keys2, args2)
    ensures args1 == args2
  {
    OneSortedListing(keys1, keys2);
  }

  // ---------------------------------------------------------------- parsing

  /** Cutting a pair at its first '='. */
  function Cut(p: string): Option<(string, string)> {
    var i := Index(p, "=");
    if i == -1 then None else Some((p[..i], p[i + 1..]))
  }

  lemma CutPair(key: string, value: string)
    requires '=' !in key
    ensures Cut(Pair(key, value)) == Some((key, value))
  {
    var p := Pair(key, value);
    AtMiddle(key, "=", value);
    forall j | 0 <= j < |key|
      ensures !At(p, "=", j)
    {
      assert p[j] == key[j];
      NotAt(p, "=", j, 0);
    }
    IndexIs(p, "=", |key|);
    assert p[..|key|] == key && p[|key| + 1..] == value;
  }

  lemma CutKeyPlain(p: string)
    requires Cut(p).Some?
    ensures '=' !in Cut(p).value.0 && Pair(Cut(p).value.0, Cut(p).value.1) == p
  {
    var i := Index(p, "=");
    forall j | 0 <= j < i
      ensures p[j] != '='
    {
      assert !At(p, "=", j);
    }
  }

  /** parseExtraVars: later pairs win; a pair without '=' or without a key is refused. */
  function ParseVars(pairs: seq<string>): Result<Vars> {
    if pairs == [] then Ok(map[]) else
    var front :- ParseVars(pairs[..|pairs| - 1]);
    match Cut(pairs[|pairs| - 1])
    case None => Err(Invalid)
    case Some((key, value)) => if key == "" then Err(Invalid) else Ok(front[key := value])
  }

  lemma {:induction false} EarlyError(pairs: seq<string>, i: nat)
    requires i <= |pairs| && ParseVars(pairs[..i]).Err?
    ensures ParseVars(pairs) == Err(Invalid)
    decreases |pairs| - i
  {
    if i == |pairs| {
      assert pairs[..i] == pairs;
      ErrorIsInvalid(pairs);
    } else {
      assert pairs[..i + 1][..i] == pairs[..i];
      EarlyError(pairs, i + 1);
    }
  }

  lemma {:induction false} ErrorIsInvalid(pairs: seq<string>)
    ensures ParseVars(pairs).Err? ==> ParseVars(pairs) == Err(Invalid)
  {
    if pairs != [] {
      ErrorIsInvalid(pairs[..|pairs| - 1]);
    }
  }

  /** parseExtraVars as written: a map filled in a loop with an early error return. */
  method ParseExtraVars(pairs: seq<string>) returns (r: Result<Vars>)
    ensures r == ParseVars(pairs)
  {
    hide Cut;
    var out: Vars := map[];
    for i := 0 to |pairs|
      invariant ParseVars(pairs[..i]) == Ok(out)
    {
      assert pairs[..i + 1][..i] == pairs[..i];
      var cut := Cut(pairs[i]);
      if cut.None? || cut.value.0 == "" {
        EarlyError(pairs, i + 1);
        return Err(Invalid);
      }
      out := out[cut.value.0 := cut.value.1];
    }
    assert pairs[..|pairs|] == pairs;
    return Ok(out);
  }

  /** Whatever is accepted has keys that are not empty and hold no '='. */
  lemma {:induction false} ParsedKeys(pairs: seq<string>)
    requires ParseVars(pairs).Ok?
    ensures forall k :: k in ParseVars(pairs).value ==> k != "" && '=' !in k
  {
    if pairs != [] {
      ParsedKeys(pairs[..|pairs| - 1]);
      CutKeyPlain(pairs[|pairs| - 1]);
    }
  }

  /** Pair i gives that key that value, and no later pair has the same key. */
  ghost predicate GivenLast(pairs: seq<string>, i: int, key: string, value: string) {
    && 0 <= i < |pairs| && pairs[i] == key + "=" + value
    && forall j :: i < j < |pairs| ==> !HasPrefix(pairs[j], key + "=")
  }

  /** Some pair does. */
  ghost predicate Gives(pairs: seq<string>, key: string, value: string) {
    exists i :: GivenLast(pairs, i, key, value)
  }

  lemma CutMeans(p: string, key: string, value: string)
    requires '=' !in key
    ensures Cut(p).Some? && Cut(p).value.0 == key <==> HasPrefix(p, key + "=")
    ensures Cut(p) == Some((key, value)) <==> p == key + "=" + value
    ensures p == key + "=" + value ==> HasPrefix(p, key + "=")
    ensures Cut(p).None? <==> '=' !in p
  {
    CutPair(key, value);
    if Cut(p).Some? {
      CutKeyPlain(p);
    } else {
      forall j | 0 <= j < |p|
        ensures p[j] != '='
      {
        assert !At(p, "=", j);
        assert p[j..j + 1] == [p[j]];
      }
    }
    hide Index;
    if HasPrefix(p, key + "=") {
      assert p == key + "=" + p[|key| + 1..];
      CutPair(key, p[|key| + 1..]);
    }
  }

  /**
    What is parsed: every pair must hold an '=' that is not its first character; then a key has
    the value that the last pair for it gives, and there is no other key.
   */
  lemma {:induction false} ParsedExactly(pairs: seq<string>)
    ensures ParseVars(pairs).Ok? <==>
      forall i :: 0 <= i < |pairs| ==> '=' in pairs[i] && pairs[i][0] != '='
    ensures ParseVars(pairs).Ok? ==>
      forall key, value :: '=' !in key ==>
        (key in ParseVars(pairs).value && ParseVars(pairs).value[key] == value <==> Gives(pairs, key, value))
  {
    hide Cut;
    if pairs != [] {
      var n := |pairs| - 1;
      var front, last := pairs[..n], pairs[n];
      ParsedExactly(front);
      CutMeans(last, "", "");
      FirstIsEquals(last);
      assert forall i :: 0 <= i < n ==> front[i] == pairs[i];
      if ParseVars(pairs).Ok? {
        forall key, value | '=' !in key
          ensures key in ParseVars(pairs).value && ParseVars(pairs).value[key] == value <==> Gives(pairs, key, value)
        {
          CutMeans(last, key, value);
          hide HasPrefix;
          OneMorePair(pairs, key, value);
        }
      }
    }
  }

  lemma FirstIsEquals(p: string)
    ensures p != "" && p[0] == '=' <==> HasPrefix(p, "" + "=")
  {
    if p != "" {
      assert p[..1] == [p[0]];
    }
  }

  lemma OneMorePair(pairs: seq<string>, key: string, value: string)
    requires pairs != []
    requires pairs[|pairs| - 1] == key + "=" + value ==> HasPrefix(pairs[|pairs| - 1], key + "=")
    ensures Gives(pairs, key, value) <==>
      if HasPrefix(pairs[|pairs| - 1], key + "=") then pairs[|pairs| - 1] == key + "=" + value
      else Gives(pairs[..|pairs| - 1], key, value)
  {
    hide HasPrefix;
    var n := |pairs| - 1;
    var front, last := pairs[..n], pairs[n];
    if HasPrefix(last, key + "=") {
      if last == key + "=" + value {
        assert GivenLast(pairs, n, key, value);
      }
    } else {
      if Gives(pairs, key, value) {
        var i :| GivenLast(pairs, i, key, value);
        assert GivenLast(front, i, key, value);
      }
      if Gives(front, key, value) {
        var i :| GivenLast(front, i, key, value);
        assert forall j :: i < j < n ==> front[j] == pairs[j];
        assert GivenLast(pairs, i, key, value);
      }
    }
  }

  // ---------------------------------------------------------------- round trips

  function Chosen(keys: seq<string>, vars: Vars): Vars
    requires forall k :: k in keys ==> k in vars
  {
    map k | k in keys :: vars[k]
  }

  lemma ChosenMore(keys: seq<string>, vars: Vars, n: nat)
    requires n < |keys| && forall k :: k in keys ==> k in vars
    ensures forall k :: k in keys[..n] ==> k in vars
    ensures Chosen(keys[..n + 1], vars) == Chosen(keys[..n], vars)[keys[n] := vars[keys[n]]]
    ensures PairsOf(keys[..n + 1], vars) == PairsOf(keys[..n], vars) + [Pair(keys[n], vars[keys[n]])]
  {
    assert keys[..n + 1] == keys[..n] + [keys[n]];
  }

  lemma {:induction false} ParsePairs(keys: seq<string>, vars: Vars, n: nat)
    requires n <= |keys| && forall k :: k in keys ==> k in vars && k != "" && '=' !in k
    ensures ParseVars(PairsOf(keys[..n], vars)) == Ok(Chosen(keys[..n], vars))
  {
    if n > 0 {
      hide Cut, Chosen, Pair;
      ParsePairs(keys, vars, n - 1);
      ChosenMore(keys, vars, n - 1);
      CutPair(keys[n - 1], vars[keys[n - 1]]);
      var front := PairsOf(keys[..n - 1], vars);
      assert (front + [Pair(keys[n - 1], vars[keys[n - 1]])])[..|front|] == front;
    }
  }

  /** Printing and parsing gives the map back, without the empty key, exactly when no other key holds an '='. */
  lemma RoundTrip(vars: Vars, keys: seq<string>, args: seq<string>)
    requires ArgsFor(vars, keys, args)
    ensures ParseVars(args) == Ok(vars - {""}) <==> forall k :: k in vars && k != "" ==> '=' !in k
  {
    assert forall k :: k in keys ==> k in Elems(keys);
    if forall k :: k in vars && k != "" ==> '=' !in k {
      ParsePairs(keys, vars, |keys|);
      assert keys[..|keys|] == keys;
      assert Chosen(keys, vars) == vars - {""};
    } else if ParseVars(args) == Ok(vars - {""}) {
      ParsedKeys(args);
    }
  }

  /** What was parsed prints to arguments that parse to the same map. */
  lemma ParsePrintParse(pairs: seq<string>, keys: seq<string>, args: seq<string>)
    requires ParseVars(pairs).Ok? && ArgsFor(ParseVars(pairs).value, keys, args)
    ensures ParseVars(args) == ParseVars(pairs)
  {
    var vars := ParseVars(pairs).value;
    ParsedKeys(pairs);
    RoundTrip(vars, keys, args);
    assert vars - {""} == vars;
  }

  // ---------------------------------------------------------------- the device id

  function DeviceIdVars(vm: string, extra: Vars): Vars {
    if "deviceid" in extra || vm == "" then extra else extra["deviceid" := vm]
  }

  /** withDeviceID as written: copy, then add. */
  method WithDeviceId(vm: string, extra: Vars) returns (out: Vars)
    ensures out == DeviceIdVars(vm, extra)
  {
    out := map[];
    var rest := extra.Keys;
    while rest != {}
      invariant rest <= extra.Keys
      invariant out == map k | k in extra && k !in rest :: extra[k]
      decreases rest
    {
      var k :| k in rest;
      rest := rest - {k};
      out := out[k := extra[k]];
    }
    if "deviceid" !in out && vm != "" {
      out := out["deviceid" := vm];
    }
  }

  function DeviceId(vm: string, extra: Vars): string {
    if "deviceid" in extra then extra["deviceid"] else vm
  }

  /** Argument i is the deviceid with the given value, and no other argument is a deviceid. */
  ghost predicate IsDeviceId(keys: seq<string>, args: seq<string>, i: int, value: string) {
    && 0 <= i < |keys| == |args| && keys[i] == "deviceid" && args[i] == Pair("deviceid", value)
    && (forall j :: 0 <= j < |keys| && j != i ==> keys[j] != "deviceid")
  }

  /**
    The playbook gets exactly one deviceid argument: the caller's if there is one, else the VM's
    name; and every other variable as the caller gave it.
   */
  lemma OneDeviceId(vm: string, extra: Vars, keys: seq<string>, args: seq<string>)
    requires vm != "" && ArgsFor(DeviceIdVars(vm, extra), keys, args)
    ensures |args| == |keys|
    ensures DeviceIdVars(vm, extra) - {"deviceid"} == extra - {"deviceid"} && DeviceIdVars("", extra) == extra
    ensures exists i :: IsDeviceId(keys, args, i, DeviceId(vm, extra))
  {
    assert "deviceid" in Elems(keys);
    var i :| 0 <= i < |keys| && keys[i] == "deviceid";
    BelowTotal("deviceid", "deviceid");
    hide Below;
    assert IsDeviceId(keys, args, i, DeviceId(vm, extra));
  }
}
