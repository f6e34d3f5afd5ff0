/** The security-group maintenance script (repos/update_security_group.py): it finds the
    `beepmedia-mcp-sg` group (in us-east-1, then in three other regions), renders its
    inbound rules, revokes TCP 8000-8020 from 0.0.0.0/0, and checks that ports 22, 80 and
    443 still have a rule. The EC2 API is an oracle; the printed layout is left out. */
module SecurityGroup {
  import opened Wrappers
  import opened Text
  import Assoc

  /** One element of `IpRanges`; an absent `Description` is the empty string. */
  datatype IpRange = IpRange(cidr: string, description: string)

  /** One element of `IpPermissions`. An absent or empty source list are the same to every
      test the script makes, so both are the empty sequence. */
  datatype Rule = Rule(protocol: string, fromPort: Option<int>, toPort: Option<int>,
                       ipRanges: seq<IpRange>, ipv6Ranges: seq<string>, groupIds: seq<string>)

  datatype Group = Group(groupName: string, groupId: string, description: string, rules: seq<Rule>)

  /** The protocol column: "-1" (every protocol) is shown as "All". */
  function ProtocolText(protocol: string): (r: string)
    ensures protocol == "-1" ==> r == "All"
    ensures protocol != "-1" ==> r == protocol
  {
    if protocol == "-1" then "All" else protocol
  }

  /** `str(rule.get(key, 'All'))`. */
  function PortText(port: Option<int>): string
  {
    if port.Some? then IntToString(port.value) else "All"
  }

  /** The port column: one value when both ends are equal (both absent included), else
      `from-to`. */
  function PortRange(fromPort: Option<int>, toPort: Option<int>): string
  {
    if fromPort == toPort then PortText(fromPort) else PortText(fromPort) + "-" + PortText(toPort)
  }

  lemma {:induction false} NatTextDigits(n: nat)
    ensures forall i :: 0 <= i < |NatToString(n)| ==> '0' <= NatToString(n)[i] <= '9'
    ensures |NatToString(n)| >= 1
    decreases n
  {
    if n >= 10 {
      NatTextDigits(n / 10);
    }
  }

  /** For ports that are absent or non-negative, the column holds a dash exactly when the
      two ends differ. */
  lemma {:induction false} DashIffRange(fromPort: Option<int>, toPort: Option<int>)
    requires fromPort.Some? ==> fromPort.value >= 0
    requires toPort.Some? ==> toPort.value >= 0
    ensures '-' in PortRange(fromPort, toPort) <==> fromPort != toPort
  {
    if fromPort.Some? {
      NatTextDigits(fromPort.value);
    }
    if fromPort != toPort {
      var t := PortRange(fromPort, toPort);
      assert t[|PortText(fromPort)|] == '-';
    }
  }

  /** The source column entries: the IPv4 blocks, then the IPv6 blocks, then `sg-` before
      each referenced group id, each list in its own order. */
  function SourcesOf(rule: Rule): (r: seq<string>)
    ensures |r| == |rule.ipRanges| + |rule.ipv6Ranges| + |rule.groupIds|
    ensures forall i :: 0 <= i < |rule.ipRanges| ==> r[i] == rule.ipRanges[i].cidr
    ensures forall i :: 0 <= i < |rule.ipv6Ranges| ==> r[|rule.ipRanges| + i] == rule.ipv6Ranges[i]
    ensures forall i :: 0 <= i < |rule.groupIds| ==>
              r[|rule.ipRanges| + |rule.ipv6Ranges| + i] == "sg-" + rule.groupIds[i]
  {
    seq(|rule.ipRanges|, i requires 0 <= i < |rule.ipRanges| => rule.ipRanges[i].cidr)
    + rule.ipv6Ranges
    + seq(|rule.groupIds|, i requires 0 <= i < |rule.groupIds| => "sg-" + rule.groupIds[i])
  }

  /** The loop body's `sources.extend(...)` steps, proved against `SourcesOf`. */
  method CollectSources(rule: Rule) returns (sources: seq<string>)
    ensures sources == SourcesOf(rule)
  {
    var v4 := seq(|rule.ipRanges|, i requires 0 <= i < |rule.ipRanges| => rule.ipRanges[i].cidr);
    var groups := seq(|rule.groupIds|, i requires 0 <= i < |rule.groupIds| => "sg-" + rule.groupIds[i]);
    assert SourcesOf(rule) == v4 + rule.ipv6Ranges + groups;
    sources := [];
    if rule.ipRanges != [] {
      sources := sources + v4;
    }
    assert sources == v4;
    if rule.ipv6Ranges != [] {
      sources := sources + rule.ipv6Ranges;
    }
    assert sources == v4 + rule.ipv6Ranges;
    if rule.groupIds != [] {
      sources := sources + groups;
    }
  }

  /** Group ids already carry `sg-`, so a referenced group is shown with the prefix twice. */
  lemma {:induction false} GroupPrefixDoubled(protocol: string, groupId: string)
    requires StartsWith(groupId, "sg-")
    ensures StartsWith(SourcesOf(Rule(protocol, None, None, [], [], [groupId]))[0], "sg-sg-")
  {
    assert ("sg-" + groupId)[..6] == "sg-" + groupId[..3];
  }

  /** The source column: the entries joined by ", ", or "N/A" when there are none. */
  function SourceText(rule: Rule): string
  {
    var sources := SourcesOf(rule);
    if sources != [] then Join(sources, ", ") else "N/A"
  }

  lemma {:induction false} NoSourcesIff(rule: Rule)
    ensures SourcesOf(rule) == [] <==> rule.ipRanges == [] && rule.ipv6Ranges == [] && rule.groupIds == []
  {
  }

  /** The description column: only the first IPv4 block's description is shown. */
  function DescriptionOf(rule: Rule): (r: string)
    ensures r != "" ==> rule.ipRanges != [] && r == rule.ipRanges[0].description
    ensures rule.ipRanges != [] ==> r == rule.ipRanges[0].description
    ensures rule.ipRanges == [] ==> r == ""
  {
    if rule.ipRanges != [] && rule.ipRanges[0].description != "" then rule.ipRanges[0].description else ""
  }

  /** One printed row of `display_security_group_rules`. */
  datatype Row = Row(protocol: string, portRange: string, source: string, description: string)

  function RowOf(rule: Rule): Row
  {
    Row(ProtocolText(rule.protocol), PortRange(rule.fromPort, rule.toPort), SourceText(rule), DescriptionOf(rule))
  }

  /** The rows, one per inbound rule, in order. */
  function Rows(group: Group): (r: seq<Row>)
    ensures |r| == |group.rules| && forall i :: 0 <= i < |r| ==> r[i] == RowOf(group.rules[i])
  {
    seq(|group.rules|, i requires 0 <= i < |group.rules| => RowOf(group.rules[i]))
  }

  /** What `revoke_security_group_ingress` does: succeeds, raises a `ClientError` with its
      message, or raises something else. */
  datatype RevokeAnswer = Revoked | ClientError(message: string) | OtherError(message: string)

  /** The rule revoked: TCP over a port range from 0.0.0.0/0. */
  datatype Permission = Permission(protocol: string, fromPort: int, toPort: int, cidrs: seq<string>)

  type Revoke = (string, Permission) -> RevokeAnswer

  /** How `remove_port_range` ends. */
  datatype Removal = Removed | RuleNotFound | RemoveFailed(message: string)

  /** `remove_port_range`: true only on success; a missing rule is reported as not found, any
      other `ClientError` as an error, and other exceptions propagate. */
  function RemovePortRange(revoke: Revoke, groupId: string, start: int, end: int): (r: Result<Removal>)
    ensures var answer := revoke(groupId, Permission("tcp", start, end, ["0.0.0.0/0"]));
            && (r == Success(Removed) <==> answer.Revoked?)
            && (r == Success(RuleNotFound) <==>
                  answer.ClientError? && Contains(answer.message, "InvalidPermission.NotFound"))
            && (r.Failure? <==> answer.OtherError?)
  {
    match revoke(groupId, Permission("tcp", start, end, ["0.0.0.0/0"]))
    case Revoked => Success(Removed)
    case ClientError(message) =>
      if Contains(message, "InvalidPermission.NotFound") then Success(RuleNotFound)
      else Success(RemoveFailed(message))
    case OtherError(message) => Failure(message)
  }

  /** The boolean `remove_port_range` returns. */
  predicate Succeeded(removal: Removal)
  {
    removal == Removed
  }

  /** What `describe_security_groups` filtered by name does in a region: answers a list of
      groups, raises a `ClientError` with its message, or raises something else. */
  datatype DescribeAnswer =
    | Groups(groups: seq<Group>)
    | DescribeClientError(message: string)
    | DescribeRaised(message: string)

  /** `get_security_group` (and the same steps inlined in the region loop): the first group
      answered, `None` when the list is empty or a `ClientError` is caught, and any other
      exception propagates. */
  function GroupOf(answer: DescribeAnswer): (r: Result<Option<Group>>)
    ensures r.Failure? <==> answer.DescribeRaised?
    ensures r.Failure? ==> r.error == answer.message
    ensures r.Success? && r.value.Some? <==> answer.Groups? && answer.groups != []
    ensures r.Success? && r.value.Some? ==> r.value.value == answer.groups[0]
  {
    match answer
    case Groups(groups) => if groups != [] then Success(Some(groups[0])) else Success(None)
    case DescribeClientError(_) => Success(None)
    case DescribeRaised(message) => Failure(message)
  }

  const FallbackRegions: seq<string> := ["us-west-2", "eu-west-1", "ap-southeast-1"]

  /** The index of the first region whose answer is not "no group here": a group, or an
      exception other than `ClientError`; `|regions|` when there is none. */
  function FirstAnswered(describe: string -> DescribeAnswer, regions: seq<string>): (k: nat)
    ensures k <= |regions|
    ensures forall j :: 0 <= j < k ==> GroupOf(describe(regions[j])) == Success(None)
    ensures k < |regions| ==> GroupOf(describe(regions[k])) != Success(None)
    decreases |regions|
  {
    if regions == [] then 0
    else if GroupOf(describe(regions[0])) != Success(None) then 0
    else
      var k := FirstAnswered(describe, regions[1..]);
      assert forall j :: 0 < j < |regions| ==> regions[j] == regions[1..][j - 1];
      k + 1
  }

  /** The fallback-region loop: a `ClientError` or an empty list moves on to the next region,
      a group ends the loop, and any other exception ends the script. */
  function FirstRegion(describe: string -> DescribeAnswer, regions: seq<string>): (r: Result<Option<(string, Group)>>)
    ensures var k := FirstAnswered(describe, regions);
            && (r == Success(None) <==> k == |regions|)
            && (r.Failure? <==> k < |regions| && describe(regions[k]).DescribeRaised?)
            && (r.Failure? ==> r.error == describe(regions[k]).message)
            && (r.Success? && r.value.Some? ==>
                  k < |regions| && r.value.value.0 == regions[k]
                  && GroupOf(describe(regions[k])) == Success(Some(r.value.value.1)))
    decreases |regions|
  {
    if regions == [] then Success(None)
    else
      var answer := GroupOf(describe(regions[0]));
      if answer.Failure? then Failure(answer.error)
      else if answer.value.Some? then Success(Some((regions[0], answer.value.value)))
      else FirstRegion(describe, regions[1..])
  }

  /** The region in which the script settles and its group: us-east-1 first, then the first
      fallback region that answers one; a `ClientError` anywhere means "not here", and any
      other exception ends the script. */
  function FindGroup(describe: string -> DescribeAnswer): (r: Result<Option<(string, Group)>>)
    ensures describe("us-east-1").DescribeRaised? ==> r == Failure(describe("us-east-1").message)
    ensures GroupOf(describe("us-east-1")).Success? && GroupOf(describe("us-east-1")).value.Some? ==>
              r == Success(Some(("us-east-1", GroupOf(describe("us-east-1")).value.value)))
    ensures GroupOf(describe("us-east-1")) == Success(None) ==> r == FirstRegion(describe, FallbackRegions)
    ensures r.Success? && r.value.Some? ==>
              (r.value.value.0 == "us-east-1" || r.value.value.0 in FallbackRegions)
              && GroupOf(describe(r.value.value.0)) == Success(Some(r.value.value.1))
  {
    var east := GroupOf(describe("us-east-1"));
    if east.Failure? then Failure(east.error)
    else if east.value.Some? then Success(Some(("us-east-1", east.value.value)))
    else FirstRegion(describe, FallbackRegions)
  }

  /** No group is found exactly when every one of the four regions answers an empty list or
      a `ClientError`. */
  lemma {:induction false} NotFoundIff(describe: string -> DescribeAnswer)
    ensures FindGroup(describe) == Success(None) <==>
              forall region :: region in ["us-east-1"] + FallbackRegions ==>
                describe(region).DescribeClientError? || describe(region) == Groups([])
  {
    var regions := ["us-east-1"] + FallbackRegions;
    var k := FirstAnswered(describe, FallbackRegions);
    forall region | region in regions
      ensures GroupOf(describe(region)) == Success(None) <==>
                describe(region).DescribeClientError? || describe(region) == Groups([])
    {
    }
    if FindGroup(describe) == Success(None) {
      assert GroupOf(describe("us-east-1")) == Success(None);
      assert k == |FallbackRegions|;
      forall region | region in regions
        ensures GroupOf(describe(region)) == Success(None)
      {
        if region != "us-east-1" {
          assert region == FallbackRegions[0] || region == FallbackRegions[1] || region == FallbackRegions[2];
        }
      }
    } else if GroupOf(describe("us-east-1")) == Success(None) {
      assert k < |FallbackRegions| && FallbackRegions[k] in regions;
    }
  }

  /** A `ClientError` in us-east-1 is not fatal: the search carries on in the fallback regions. */
  lemma {:induction false} ClientErrorMovesOn(describe: string -> DescribeAnswer)
    requires describe("us-east-1").DescribeClientError?
    ensures FindGroup(describe) == FirstRegion(describe, FallbackRegions)
  {
    assert GroupOf(describe("us-east-1")) == Success(None);
  }

  /** The region loop with its `break` and its `except ClientError: continue`, proved against
      `FindGroup`. */
  method LocateGroup(describe: string -> DescribeAnswer) returns (found: Result<Option<(string, Group)>>)
    ensures found == FindGroup(describe)
  {
    var sg := GroupOf(describe("us-east-1"));
    if sg.Failure? {
      return Failure(sg.error);
    }
    if sg.value.Some? {
      return Success(Some(("us-east-1", sg.value.value)));
    }
    var i := 0;
    while i < |FallbackRegions|
      invariant 0 <= i <= |FallbackRegions|
      invariant FirstRegion(describe, FallbackRegions) == FirstRegion(describe, FallbackRegions[i..])
    {
      assert FallbackRegions[i..][1..] == FallbackRegions[i + 1..];
      var answer := describe(FallbackRegions[i]);
      match answer {
        case Groups(groups) =>
          if groups != [] {
            return Success(Some((FallbackRegions[i], groups[0])));
          }
        case DescribeClientError(_) =>
        case DescribeRaised(message) =>
          return Failure(message);
      }
      i := i + 1;
    }
    return Success(None);
  }

  /** `required_ports`, in insertion order. */
  const RequiredPorts: seq<(string, string)> := [("22", "SSH"), ("80", "HTTP"), ("443", "HTTPS")]

  /** `str(rule.get('FromPort', ''))`. */
  function PortKey(rule: Rule): string
  {
    if rule.fromPort.Some? then IntToString(rule.fromPort.value) else ""
  }

  /** The keys the check looks up, one per rule. */
  function Seen(rules: seq<Rule>): set<string>
    decreases |rules|
  {
    if rules == [] then {} else Seen(rules[..|rules| - 1]) + {PortKey(rules[|rules| - 1])}
  }

  /** The required entries whose port was not seen, in their order. */
  function Unseen(required: seq<(string, string)>, seen: set<string>): (r: seq<(string, string)>)
    ensures Assoc.Keys(r) == Assoc.Keys(required) - seen
    ensures |r| <= |required|
    decreases |required|
  {
    if required == [] then []
    else
      var rest := Unseen(required[1..], seen);
      if required[0].0 in seen then rest else [required[0]] + rest
  }

  /** `del d[k]`. */
  function Remove(m: seq<(string, string)>, k: string): (r: seq<(string, string)>)
    ensures Assoc.Keys(r) == Assoc.Keys(m) - {k}
    decreases |m|
  {
    if m == [] then []
    else if m[0].0 == k then Remove(m[1..], k)
    else [m[0]] + Remove(m[1..], k)
  }

  lemma {:induction false} RemoveUnseen(required: seq<(string, string)>, seen: set<string>, k: string)
    ensures Remove(Unseen(required, seen), k) == Unseen(required, seen + {k})
    decreases |required|
  {
    if required != [] {
      RemoveUnseen(required[1..], seen, k);
    }
  }

  /** The required-ports loop over any table of required ports: each rule's stringified
      `FromPort` is looked up and, when still present, deleted. */
  method DeleteSeen(required: seq<(string, string)>, rules: seq<Rule>)
    returns (missing: seq<(string, string)>)
    ensures missing == Unseen(required, Seen(rules))
  {
    missing := required;
    UnseenNothing(required);
    var i := 0;
    while i < |rules|
      invariant 0 <= i <= |rules|
      invariant missing == Unseen(required, Seen(rules[..i]))
    {
      assert rules[..i + 1][..i] == rules[..i];
      assert Seen(rules[..i + 1]) == Seen(rules[..i]) + {PortKey(rules[i])};
      var key := PortKey(rules[i]);
      RemoveUnseen(required, Seen(rules[..i]), key);
      if key in Assoc.Keys(missing) {
        missing := Remove(missing, key);
      } else {
        RemoveAbsent(missing, key);
      }
      i := i + 1;
    }
    assert rules[..i] == rules;
  }

  lemma {:induction false} UnseenNothing(required: seq<(string, string)>)
    ensures Unseen(required, {}) == required
    decreases |required|
  {
    if required != [] {
      UnseenNothing(required[1..]);
    }
  }

  /** The required-ports check: what is left is every required port no rule starts at. */
  method CheckRequiredPorts(rules: seq<Rule>) returns (missing: seq<(string, string)>)
    ensures missing == Unseen(RequiredPorts, Seen(rules))
    ensures Assoc.Keys(missing) == Assoc.Keys(RequiredPorts) - Seen(rules)
  {
    missing := DeleteSeen(RequiredPorts, rules);
  }

  lemma {:induction false} RemoveAbsent(m: seq<(string, string)>, k: string)
    requires k !in Assoc.Keys(m)
    ensures Remove(m, k) == m
    decreases |m|
  {
    if m != [] {
      RemoveAbsent(m[1..], k);
    }
  }

  /** Only `FromPort` counts: one rule opening every TCP port leaves all three reported. */
  lemma WideRangeNotCounted()
    ensures Unseen(RequiredPorts, Seen([Rule("tcp", Some(0), Some(65535), [], [], [])])) == RequiredPorts
  {
    var rules := [Rule("tcp", Some(0), Some(65535), [], [], [])];
    assert rules[..0] == [];
    assert Seen(rules) == {"0"};
  }
}
