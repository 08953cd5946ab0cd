/** Finding a guest's address: the agent is asked first, then ARP, then the DHCP leases. */
module GuestAddress {
  import opened Outcomes

  /** What net.ParseIP makes of an address text. */
  datatype Parsed = NotAnAddress | Loopback | Usable

  datatype Address = Address(text: string, ipv4: bool, parsed: Parsed)

  datatype Interface = Interface(name: string, addrs: seq<Address>)

  /** What each source reports; None when it refuses to answer. */
  datatype Answers = Answers(
    agent: Option<seq<Interface>>,
    arp: Option<seq<Interface>>,
    lease: Option<seq<Interface>>)

  /** getIP takes IPv4 addresses that are not loopback addresses; text that does not parse is none. */
  predicate Eligible(a: Address) {
    a.ipv4 && !a.parsed.Loopback?
  }

  function EligibleOf(addrs: seq<Address>): seq<Address> {
    if addrs == [] then []
    else (if Eligible(addrs[0]) then [addrs[0]] else []) + EligibleOf(addrs[1..])
  }

  function OnInterfaces(ifaces: seq<Interface>): seq<Address> {
    if ifaces == [] then []
    else (if ifaces[0].name == "lo" then [] else EligibleOf(ifaces[0].addrs)) + OnInterfaces(ifaces[1..])
  }

  function FromSources(sources: seq<Option<seq<Interface>>>): seq<Address> {
    if sources == [] then []
    else (if sources[0].None? then [] else OnInterfaces(sources[0].value)) + FromSources(sources[1..])
  }

  /** Everything that getIP could return, in order of preference. */
  function Candidates(a: Answers): seq<Address> {
    FromSources([a.agent, a.arp, a.lease])
  }

  /** getIP's answer: the first candidate. */
  function FirstCandidate(a: Answers): Result<Address> {
    if Candidates(a) == [] then Err(NoAddress) else Ok(Candidates(a)[0])
  }

  /** The innermost loop of getIP: the first eligible address of an interface. */
  method ScanAddresses(addrs: seq<Address>) returns (r: Option<Address>)
    ensures r == if EligibleOf(addrs) == [] then None else Some(EligibleOf(addrs)[0])
  {
    for k := 0 to |addrs|
      invariant EligibleOf(addrs[k..]) == EligibleOf(addrs)
    {
      assert addrs[k..][1..] == addrs[k + 1..];
      if Eligible(addrs[k]) {
        return Some(addrs[k]);
      }
    }
    return None;
  }

  /** The loop around it: the first eligible address on any interface but lo. */
  method ScanInterfaces(ifaces: seq<Interface>) returns (r: Option<Address>)
    ensures r == if OnInterfaces(ifaces) == [] then None else Some(OnInterfaces(ifaces)[0])
  {
    hide EligibleOf;
    for i := 0 to |ifaces|
      invariant OnInterfaces(ifaces[i..]) == OnInterfaces(ifaces)
    {
      assert ifaces[i..][1..] == ifaces[i + 1..];
      if ifaces[i].name == "lo" {
        continue;
      }
      var found := ScanAddresses(ifaces[i].addrs);
      if found.Some? {
        return found;
      }
    }
    return None;
  }

  /** getIP as written: the sources in turn, an unwilling one skipped. */
  method GetIp(a: Answers) returns (r: Result<Address>)
    ensures r == FirstCandidate(a)
  {
    hide OnInterfaces;
    var sources := [a.agent, a.arp, a.lease];
    for s := 0 to |sources|
      invariant FromSources(sources[s..]) == Candidates(a)
    {
      assert sources[s..][1..] == sources[s + 1..];
      if sources[s].None? {
        continue;
      }
      var found := ScanInterfaces(sources[s].value);
      if found.Some? {
        return Ok(found.value);
      }
    }
    return Err(NoAddress);
  }

  /** WaitForIP's answer over the polls made before the deadline. */
  function AwaitedAddress(polls: seq<Answers>): Result<string> {
    if polls == [] then Err(NoAddress) else
    var first := FirstCandidate(polls[0]);
    if first.Ok? && !first.value.parsed.NotAnAddress? then Ok(first.value.text)
    else AwaitedAddress(polls[1..])
  }

  /** WaitForIP's polling loop. */
  method PollForIp(polls: seq<Answers>) returns (r: Result<string>)
    ensures r == AwaitedAddress(polls)
  {
    hide FirstCandidate;
    for i := 0 to |polls|
      invariant AwaitedAddress(polls[i..]) == AwaitedAddress(polls)
    {
      assert polls[i..][1..] == polls[i + 1..];
      var ip := GetIp(polls[i]);
      if ip.Ok? && !ip.value.parsed.NotAnAddress? {
        return Ok(ip.value.text);
      }
    }
    return Err(NoAddress);
  }

  lemma {:induction false} EligibleOfExact(addrs: seq<Address>, a: Address)
    ensures a in EligibleOf(addrs) <==> a in addrs && Eligible(a)
  {
    if addrs != [] {
      EligibleOfExact(addrs[1..], a);
      assert addrs == [addrs[0]] + addrs[1..];
    }
  }

  lemma {:induction false} OnInterfacesExact(ifaces: seq<Interface>, a: Address)
    ensures a in OnInterfaces(ifaces) <==>
      exists i :: i in ifaces && i.name != "lo" && a in i.addrs && Eligible(a)
  {
    if ifaces != [] {
      OnInterfacesExact(ifaces[1..], a);
      EligibleOfExact(ifaces[0].addrs, a);
      assert ifaces == [ifaces[0]] + ifaces[1..];
    }
  }

  /** The first candidate of a poll is an address that can be used. */
  ghost predicate Settles(poll: Answers) {
    Candidates(poll) != [] && Candidates(poll)[0].parsed == Usable
  }

  /**
    The wait succeeds exactly when, in some poll, the first candidate parses as an address, and
    takes it from the earliest such poll.  An unparsable first candidate blocks its poll even
    when a later candidate is usable.
   */
  lemma {:induction false} AwaitSucceedsExactly(polls: seq<Answers>)
    ensures AwaitedAddress(polls).Ok? <==> exists i :: 0 <= i < |polls| && Settles(polls[i])
    ensures forall i :: 0 <= i < |polls| && Settles(polls[i]) && (forall j :: 0 <= j < i ==> !Settles(polls[j])) ==>
      AwaitedAddress(polls) == Ok(Candidates(polls[i])[0].text)
  {
    hide Candidates;
    if polls != [] {
      var rest := polls[1..];
      AwaitSucceedsExactly(rest);
      assert forall i :: 0 <= i < |rest| ==> rest[i] == polls[i + 1];
      assert Candidates(polls[0]) != [] ==> Eligible(Candidates(polls[0])[0]) by {
        CandidatesEligible(polls[0]);
      }
      forall i | 0 <= i < |polls| && Settles(polls[i]) && (forall j :: 0 <= j < i ==> !Settles(polls[j]))
        ensures AwaitedAddress(polls) == Ok(Candidates(polls[i])[0].text)
      {
        if i > 0 {
          assert !Settles(polls[0]) && rest[i - 1] == polls[i];
          assert forall j :: 0 <= j < i - 1 ==> rest[j] == polls[j + 1];
        }
      }
    }
  }

  /** A source reports an IPv4 address, not of the loopback range, on an interface other than lo. */
  ghost predicate Reports(source: Option<seq<Interface>>, x: Address) {
    && source.Some? && x.ipv4 && x.parsed != Loopback
    && exists i :: i in source.value && i.name != "lo" && x in i.addrs
  }

  ghost predicate ReportsNone(source: Option<seq<Interface>>) {
    forall x :: !Reports(source, x)
  }

  function FromSource(source: Option<seq<Interface>>): seq<Address> {
    if source.None? then [] else OnInterfaces(source.value)
  }

  lemma FromSourceExact(source: Option<seq<Interface>>)
    ensures forall x :: x in FromSource(source) <==> Reports(source, x)
    ensures FromSource(source) == [] <==> ReportsNone(source)
  {
    forall x
      ensures x in FromSource(source) <==> Reports(source, x)
    {
      if source.Some? {
        OnInterfacesExact(source.value, x);
      }
    }
    hide FromSource, Reports;
    if FromSource(source) != [] {
      assert FromSource(source)[0] in FromSource(source);
    }
  }

  lemma SourcesInOrder(a: Answers)
    ensures Candidates(a) == FromSource(a.agent) + FromSource(a.arp) + FromSource(a.lease)
  {
    hide OnInterfaces;
    var sources := [a.agent, a.arp, a.lease];
    assert sources[1..] == [a.arp, a.lease] && [a.arp, a.lease][1..] == [a.lease];
    assert FromSources([a.lease]) == FromSource(a.lease) + FromSources([a.lease][1..]) && [a.lease][1..] == [];
    assert FromSources([a.lease]) == FromSource(a.lease);
    assert FromSources([a.arp, a.lease]) == FromSource(a.arp) + FromSource(a.lease);
    assert Candidates(a) == FromSource(a.agent) + (FromSource(a.arp) + FromSource(a.lease));
  }

  /**
    The candidates are exactly the IPv4 addresses, those of the loopback range apart, that some
    source reports on an interface other than lo.
   */
  lemma CandidatesExact(a: Answers)
    ensures forall x :: x in Candidates(a) <==> Reports(a.agent, x) || Reports(a.arp, x) || Reports(a.lease, x)
  {
    SourcesInOrder(a);
    FromSourceExact(a.agent);
    FromSourceExact(a.arp);
    FromSourceExact(a.lease);
    hide Candidates, FromSource, Reports;
  }

  lemma CandidatesEligible(a: Answers)
    ensures forall x :: x in Candidates(a) ==> Eligible(x)
  {
    forall x | x in Candidates(a)
      ensures Eligible(x)
    {
      CandidatesExact(a);
    }
  }

  /**
    getIP prefers the agent's report to ARP's and ARP's to the leases': it takes an address
    from a source only when every source before it reports none, and fails only when all do.
   */
  lemma SourcePreference(a: Answers)
    ensures FirstCandidate(a).Ok? ==>
      var x := FirstCandidate(a).value;
      || Reports(a.agent, x)
      || (ReportsNone(a.agent) && Reports(a.arp, x))
      || (ReportsNone(a.agent) && ReportsNone(a.arp) && Reports(a.lease, x))
    ensures FirstCandidate(a).Err? <==> ReportsNone(a.agent) && ReportsNone(a.arp) && ReportsNone(a.lease)
  {
    SourcesInOrder(a);
    FromSourceExact(a.agent);
    FromSourceExact(a.arp);
    FromSourceExact(a.lease);
    hide Candidates, FromSource, Reports, ReportsNone;
    var p, q, r := FromSource(a.agent), FromSource(a.arp), FromSource(a.lease);
    if p != [] {
      assert (p + q + r)[0] == p[0];
    } else if q != [] {
      assert (p + q + r)[0] == q[0];
    } else if r != [] {
      assert (p + q + r)[0] == r[0];
    }
  }

  // ---------------------------------------------------------------- the first in order

  /** The k-th address of the i-th interface is one that getIP would take. */
  ghost predicate TakenAt(ifaces: seq<Interface>, i: int, k: int) {
    && 0 <= i < |ifaces| && ifaces[i].name != "lo"
    && 0 <= k < |ifaces[i].addrs| && ifaces[i].addrs[k].ipv4 && ifaces[i].addrs[k].parsed != Loopback
  }

  /** No address of that kind stands before it. */
  ghost predicate TakenFirst(ifaces: seq<Interface>, i: int, k: int) {
    TakenAt(ifaces, i, k) && forall j, m :: TakenAt(ifaces, j, m) ==> i < j || (i == j && k <= m)
  }

  lemma {:induction false} FirstEligible(addrs: seq<Address>, k: nat)
    requires k < |addrs| && Eligible(addrs[k]) && forall m :: 0 <= m < k ==> !Eligible(addrs[m])
    ensures EligibleOf(addrs) != [] && EligibleOf(addrs)[0] == addrs[k]
  {
    if k > 0 {
      FirstEligible(addrs[1..], k - 1);
    }
  }

  lemma {:induction false} FirstOnInterfaces(ifaces: seq<Interface>, i: nat, k: nat)
    requires TakenFirst(ifaces, i, k)
    ensures OnInterfaces(ifaces) != [] && OnInterfaces(ifaces)[0] == ifaces[i].addrs[k]
  {
    if i == 0 {
      forall m | 0 <= m < k
        ensures !Eligible(ifaces[0].addrs[m])
      {
        assert !TakenAt(ifaces, 0, m);
      }
      FirstEligible(ifaces[0].addrs, k);
    } else {
      var rest := ifaces[1..];
      forall j, m | TakenAt(rest, j, m)
        ensures i - 1 < j || (i - 1 == j && k <= m)
      {
        assert TakenAt(ifaces, j + 1, m);
      }
      assert TakenAt(rest, i - 1, k);
      FirstOnInterfaces(rest, i - 1, k);
      SomethingTaken(ifaces);
    }
  }

  lemma SomethingTaken(ifaces: seq<Interface>)
    requires ifaces != []
    ensures ifaces[0].name != "lo" && EligibleOf(ifaces[0].addrs) != [] ==> exists m :: TakenAt(ifaces, 0, m)
  {
    var addrs := ifaces[0].addrs;
    if ifaces[0].name != "lo" && EligibleOf(addrs) != [] {
      var x := EligibleOf(addrs)[0];
      EligibleOfExact(addrs, x);
      var m :| 0 <= m < |addrs| && addrs[m] == x;
      assert TakenAt(ifaces, 0, m);
    }
  }

  /** Of the first source that reports any, getIP takes the first address on the first interface, as reported. */
  lemma GetIpTakesTheFirst(a: Answers, s: nat, i: nat, k: nat)
    requires s < 3 && forall t :: 0 <= t < s ==> ReportsNone([a.agent, a.arp, a.lease][t])
    requires [a.agent, a.arp, a.lease][s].Some? && TakenFirst([a.agent, a.arp, a.lease][s].value, i, k)
    ensures FirstCandidate(a) == Ok([a.agent, a.arp, a.lease][s].value[i].addrs[k])
  {
    var sources := [a.agent, a.arp, a.lease];
    SourcesInOrder(a);
    FromSourceExact(a.agent);
    FromSourceExact(a.arp);
    FirstOnInterfaces(sources[s].value, i, k);
    assert s > 0 ==> ReportsNone(sources[0]);
    assert s > 1 ==> ReportsNone(sources[1]);
    hide Candidates, OnInterfaces, TakenFirst, ReportsNone, Reports;
    var p, q, r := FromSource(a.agent), FromSource(a.arp), FromSource(a.lease);
    if s == 0 {
      assert (p + q + r)[0] == p[0];
    } else if s == 1 {
      assert (p + q + r)[0] == q[0];
    } else {
      assert (p + q + r)[0] == r[0];
    }
  }
}
