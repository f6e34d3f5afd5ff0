/** The Elastic IP audit (check_elastic_ips.py): for each region it lists the addresses,
    splits them into those attached to an instance or network interface and those that are
    not, and keeps running totals over all regions. A region whose listing raises is
    skipped. The EC2 API is an oracle; the printed lines and the cost estimate are left out. */
module ElasticIps {
  import opened Wrappers

  /** One element of `Addresses`; a key absent from the record is `None`. */
  datatype Address = Address(publicIp: string, allocationId: string,
                             instanceId: Option<string>, networkInterfaceId: Option<string>)

  /** What `describe_addresses()['Addresses']` gives for a region, or that it raised. */
  datatype RegionAnswer = Addresses(addresses: seq<Address>) | Raised

  /** `'InstanceId' in addr or 'NetworkInterfaceId' in addr`. */
  predicate IsAssociated(a: Address)
  {
    a.instanceId.Some? || a.networkInterfaceId.Some?
  }

  /** `'InstanceId' not in addr and 'NetworkInterfaceId' not in addr`. */
  predicate IsUnassociated(a: Address)
  {
    a.instanceId.None? && a.networkInterfaceId.None?
  }

  /** The two tests are complements. */
  lemma {:induction false} UnassociatedIffNotAssociated(a: Address)
    ensures IsUnassociated(a) <==> !IsAssociated(a)
  {
  }

  /** The associated addresses, in their original order. */
  function Associated(addrs: seq<Address>): (r: seq<Address>)
    ensures |r| <= |addrs|
    ensures forall i :: 0 <= i < |r| ==> IsAssociated(r[i]) && r[i] in addrs
    decreases |addrs|
  {
    if addrs == [] then []
    else
      var rest := Associated(addrs[1..]);
      assert forall i :: 0 <= i < |rest| ==> rest[i] in addrs;
      if IsAssociated(addrs[0]) then [addrs[0]] + rest else rest
  }

  /** The unassociated addresses, in their original order. */
  function Unassociated(addrs: seq<Address>): (r: seq<Address>)
    ensures |r| <= |addrs|
    ensures forall i :: 0 <= i < |r| ==> IsUnassociated(r[i]) && r[i] in addrs
    decreases |addrs|
  {
    if addrs == [] then []
    else
      var rest := Unassociated(addrs[1..]);
      assert forall i :: 0 <= i < |rest| ==> rest[i] in addrs;
      if IsUnassociated(addrs[0]) then [addrs[0]] + rest else rest
  }

  /** The two lists split the addresses: every address lands in exactly one of them, so
      their lengths add up and together they hold the same addresses. */
  lemma {:induction false} Partition(addrs: seq<Address>)
    ensures |Associated(addrs)| + |Unassociated(addrs)| == |addrs|
    ensures multiset(Associated(addrs)) + multiset(Unassociated(addrs)) == multiset(addrs)
    decreases |addrs|
  {
    if addrs != [] {
      Partition(addrs[1..]);
      assert addrs == [addrs[0]] + addrs[1..];
    }
  }

  /** Filtering distributes over concatenation: each list keeps the addresses' order. */
  lemma {:induction false} AssociatedAppend(a: seq<Address>, b: seq<Address>)
    ensures Associated(a + b) == Associated(a) + Associated(b)
    ensures Unassociated(a + b) == Unassociated(a) + Unassociated(b)
    decreases |a|
  {
    if a != [] {
      AssociatedAppend(a[1..], b);
      assert (a + b)[1..] == a[1..] + b;
    } else {
      assert a + b == b;
    }
  }

  /** The addresses a region contributes: none when its listing raised. */
  function RegionAddresses(answer: RegionAnswer): seq<Address>
  {
    if answer.Addresses? then answer.addresses else []
  }

  /** The running totals after a list of regions: allocated, associated, unassociated. */
  function Totals(describe: string -> RegionAnswer, regions: seq<string>): (r: (nat, nat, nat))
    ensures r.0 == r.1 + r.2
    decreases |regions|
  {
    if regions == [] then (0, 0, 0)
    else
      var before := Totals(describe, regions[..|regions| - 1]);
      var addrs := RegionAddresses(describe(regions[|regions| - 1]));
      Partition(addrs);
      (before.0 + |addrs|, before.1 + |Associated(addrs)|, before.2 + |Unassociated(addrs)|)
  }

  /** A region that raised, or has no addresses, leaves every total as it was. */
  lemma {:induction false} SilentRegion(describe: string -> RegionAnswer, regions: seq<string>, region: string)
    requires RegionAddresses(describe(region)) == []
    ensures Totals(describe, regions + [region]) == Totals(describe, regions)
  {
    assert (regions + [region])[..|regions|] == regions;
  }

  /** The region loop, proved against `Totals`. */
  method AuditRegions(describe: string -> RegionAnswer, regions: seq<string>)
    returns (totalAllocated: nat, totalAssociated: nat, totalUnassociated: nat)
    ensures (totalAllocated, totalAssociated, totalUnassociated) == Totals(describe, regions)
    ensures totalAllocated == totalAssociated + totalUnassociated
  {
    totalAllocated, totalAssociated, totalUnassociated := 0, 0, 0;
    var i := 0;
    while i < |regions|
      invariant 0 <= i <= |regions|
      invariant (totalAllocated, totalAssociated, totalUnassociated) == Totals(describe, regions[..i])
    {
      assert regions[..i + 1][..i] == regions[..i];
      var answer := describe(regions[i]);
      if answer.Addresses? {
        var addresses := answer.addresses;
        if |addresses| > 0 {
          var associated := Associated(addresses);
          var unassociated := Unassociated(addresses);
          totalAllocated := totalAllocated + |addresses|;
          totalAssociated := totalAssociated + |associated|;
          totalUnassociated := totalUnassociated + |unassociated|;
        }
      }
      i := i + 1;
    }
    assert regions[..i] == regions;
  }
}
