/** The nftables renderer as a translation of rules to a chain program, with the packet semantics
    of that program (enforcement.py). */
module Enforcement {
  import opened Basics
  import opened Models
  import opened Ordering
  import opened Policy

  datatype Topology = Gateway | HostTopology | Mirror

  datatype Chain = Forward | Input | Output

  /** How a packet passes the machine, which is the hook a base chain hangs on. */
  datatype Path = Forwarded | Incoming | Outgoing

  /** The transport part of a rendered expression. */
  datatype L4 =
    | AnyL4
    | Dport(proto: Proto, ports: set<nat>)   // "tcp dport { ... }"
    | Meta(proto: Proto)                     // "meta l4proto tcp"
    | MetaIcmpv6                             // "meta l4proto icmpv6"

  datatype Expression = Expression(family: IpVersion, source: Network, destination: Network, l4: L4)

  datatype Line =
    | AddChain(chain: Chain, hook: Path)     // base chain with policy accept
    | Log(chain: Chain, expression: Expression, ruleId: string)
    | Drop(chain: Chain, expression: Expression)

  datatype RenderError = MirrorTopology | NoSharedFamily(ruleId: string) | PortsWithoutTransport(ruleId: string)

  // ---------------------------------------------------------------- packets

  /** A packet as the firewall sees it; the destination port is present for TCP and UDP only. */
  datatype Packet = Packet(version: IpVersion, source: nat, destination: nat, number: nat, dport: nat)

  function ProtoNumber(p: Proto): nat {
    match p case Tcp => 6 case Udp => 17 case Icmp => 1 case Ip(n) => n
  }

  predicate L4Holds(l4: L4, p: Packet) {
    match l4
    case AnyL4 => true
    case Dport(proto, ports) => p.number == ProtoNumber(proto) && p.dport in ports
    case Meta(proto) => p.number == ProtoNumber(proto)
    case MetaIcmpv6 => p.number == 58
  }

  predicate ExpressionHolds(e: Expression, p: Packet) {
    && WellFormed(e.source) && WellFormed(e.destination)
    && p.version == e.family
    && Contains(e.source, Address(p.version, p.source))
    && Contains(e.destination, Address(p.version, p.destination))
    && L4Holds(e.l4, p)
  }

  datatype Verdict = Accepted | Dropped

  /** Walk a chain: log rules fall through, the first matching drop is final, the policy accepts. */
  function Walk(lines: seq<Line>, chain: Chain, p: Packet): Verdict
  {
    if lines == [] then Accepted
    else if lines[0].Drop? && lines[0].chain == chain && ExpressionHolds(lines[0].expression, p) then Dropped
    else Walk(lines[1..], chain, p)
  }

  /** The verdict depends only on which drop lines are present, not on their order, repetition or
      the log lines between them. */
  lemma {:induction false} WalkDropsIffSomeLine(lines: seq<Line>, chain: Chain, p: Packet)
    ensures Walk(lines, chain, p) == Dropped <==>
      exists e :: Drop(chain, e) in lines && ExpressionHolds(e, p)
  {
    if lines != [] {
      WalkDropsIffSomeLine(lines[1..], chain, p);
      if lines[0].Drop? && lines[0].chain == chain && ExpressionHolds(lines[0].expression, p) {
        assert lines[0] == Drop(chain, lines[0].expression);
      }
    }
  }

  // ---------------------------------------------------------------- rendering

  function Chains(t: Topology): seq<Chain> {
    match t case Gateway => [Forward] case HostTopology => [Input, Output] case Mirror => []
  }

  function HookOf(c: Chain): Path {
    match c case Forward => Forwarded case Input => Incoming case Output => Outgoing
  }

  function Base(c: Chain): Line { AddChain(c, HookOf(c)) }

  predicate NetworkLeq(a: Network, b: Network) {
    a.base < b.base || (a.base == b.base && a.prefixLen <= b.prefixLen)
  }

  predicate Candidate(r: PolicyRule) {
    r.enabled && r.enforcement == DropCandidate
  }

  predicate Unrenderable(r: PolicyRule) {
    SharedVersions(r) == [] || PortsNeedTransport(r)
  }

  /** The transport part for a rule in one family: a port test needs TCP or UDP, an empty port set
      renders like no port constraint at all. */
  function L4Of(r: PolicyRule, family: IpVersion): L4 {
    if r.match_.destinationPorts.Some? && r.match_.destinationPorts.value != {} then
      if r.match_.protocol.Only? then Dport(r.match_.protocol.proto, r.match_.destinationPorts.value) else AnyL4
    else if r.match_.protocol.AnyProto? then AnyL4
    else if r.match_.protocol.proto == Icmp && family == V6 then MetaIcmpv6
    else Meta(r.match_.protocol.proto)
  }

  /** The expressions a rule stands for: every pair of a source and a destination block of one family. */
  predicate Stands(r: PolicyRule, e: Expression) {
    && e.source in r.match_.sourceCidrs && e.destination in r.match_.destinationCidrs
    && e.source.version == e.family && e.destination.version == e.family
    && e.l4 == L4Of(r, e.family)
  }

  predicate PortsNeedTransport(r: PolicyRule) {
    && r.match_.destinationPorts.Some? && r.match_.destinationPorts.value != {}
    && r.match_.protocol != Only(Tcp) && r.match_.protocol != Only(Udp)
  }

  /** The set of a rule's expressions. */
  function ExpressionSet(r: PolicyRule): set<Expression> {
    set s, d | s in r.match_.sourceCidrs && d in r.match_.destinationCidrs && s.version == d.version
      :: Expression(s.version, s, d, L4Of(r, s.version))
  }

  lemma StandsIsMember(r: PolicyRule)
    ensures forall e :: e in ExpressionSet(r) <==> Stands(r, e)
  {
    forall e | Stands(r, e) ensures e in ExpressionSet(r) {
      assert e == Expression(e.source.version, e.source, e.destination, L4Of(r, e.source.version));
    }
  }

  /** The texts of a rule's expressions, by which they are ordered, tell them apart. */
  ghost predicate TellsApart(text: Expression -> string, r: PolicyRule) {
    forall a, b :: a in ExpressionSet(r) && b in ExpressionSet(r) && text(a) == text(b) ==> a == b
  }

  /** A rule that can be rendered has such texts. */
  ghost predicate Legible(text: Expression -> string, r: PolicyRule) { Unrenderable(r) || TellsApart(text, r) }

  function ByText(text: Expression -> string): (Expression, Expression) -> bool {
    (a, b) => StringLeq(text(a), text(b))
  }

  lemma TextOrder(text: Expression -> string)
    ensures TotalPreorder(ByText(text))
    ensures forall a, b :: Tied(ByText(text), a, b) ==> text(a) == text(b)
  {
    forall a, b ensures ByText(text)(a, b) || ByText(text)(b, a) {
      StringLeqTotal(text(a), text(b));
    }
    forall a, b | Tied(ByText(text), a, b) ensures text(a) == text(b) {
      StringLeqTotal(text(a), text(b));
    }
    forall a, b, c | ByText(text)(a, b) && ByText(text)(b, c) ensures ByText(text)(a, c) {
      StringLeqTransitive(text(a), text(b), text(c));
    }
  }

  // ---------------------------------------------------------------- the rendered lines

  function ChainLines(chains: seq<Chain>): seq<Line> {
    if chains == [] then [] else ChainLines(chains[..|chains| - 1]) + [Base(chains[|chains| - 1])]
  }

  /** A log line and a drop line for each chain. */
  function ExpressionLines(chains: seq<Chain>, e: Expression, id: string): seq<Line> {
    if chains == [] then [] else
      var c := chains[|chains| - 1];
      ExpressionLines(chains[..|chains| - 1], e, id) + [Log(c, e, id)] + [Drop(c, e)]
  }

  function RuleLines(chains: seq<Chain>, es: seq<Expression>, id: string): seq<Line> {
    if es == [] then [] else
      RuleLines(chains, es[..|es| - 1], id) + ExpressionLines(chains, es[|es| - 1], id)
  }

  ghost function Expressions(text: Expression -> string, r: PolicyRule): seq<Expression> {
    TextOrder(text);
    Listed(ByText(text), ExpressionSet(r))
  }

  /** The lines of the candidates among the rules, in their order. */
  ghost function PolicyLines(text: Expression -> string, chains: seq<Chain>, rules: seq<PolicyRule>): seq<Line> {
    if rules == [] then [] else
      var r := rules[|rules| - 1];
      PolicyLines(text, chains, rules[..|rules| - 1]) + CandidateLines(text, chains, r)
  }

  ghost function CandidateLines(text: Expression -> string, chains: seq<Chain>, r: PolicyRule): seq<Line> {
    if Candidate(r) then RuleLines(chains, Expressions(text, r), r.id) else []
  }

  /** The whole output: chains, then rules by id, each rule's expressions in the order of their text. */
  ghost function Rendered(text: Expression -> string, topology: Topology, rules: seq<PolicyRule>): seq<Line> {
    ChainLines(Chains(topology)) + PolicyLines(text, Chains(topology), ById(rules))
  }

  lemma {:induction false} ChainLinesMembers(chains: seq<Chain>)
    ensures forall l :: l in ChainLines(chains) <==> l.AddChain? && l.chain in chains && l.hook == HookOf(l.chain)
  {
    if chains != [] {
      ChainLinesMembers(chains[..|chains| - 1]);
      assert chains == chains[..|chains| - 1] + [chains[|chains| - 1]];
    }
  }

  lemma {:induction false} ExpressionLinesMembers(chains: seq<Chain>, e: Expression, id: string)
    ensures forall l :: l in ExpressionLines(chains, e, id) <==>
      !l.AddChain? && l.chain in chains && l.expression == e && (l.Log? ==> l.ruleId == id)
  {
    if chains != [] {
      ExpressionLinesMembers(chains[..|chains| - 1], e, id);
      assert chains == chains[..|chains| - 1] + [chains[|chains| - 1]];
    }
  }

  lemma {:induction false} RuleLinesMembers(chains: seq<Chain>, es: seq<Expression>, id: string)
    ensures forall l :: l in RuleLines(chains, es, id) <==>
      !l.AddChain? && l.chain in chains && l.expression in es && (l.Log? ==> l.ruleId == id)
  {
    if es != [] {
      RuleLinesMembers(chains, es[..|es| - 1], id);
      ExpressionLinesMembers(chains, es[|es| - 1], id);
      assert es == es[..|es| - 1] + [es[|es| - 1]];
    }
  }

  /** Some candidate rule stands for `e`. */
  predicate Renders(rules: seq<PolicyRule>, e: Expression) {
    exists r :: r in rules && Candidate(r) && Stands(r, e)
  }

  /** Some candidate rule with this id stands for `e`. */
  predicate Names(rules: seq<PolicyRule>, e: Expression, id: string) {
    exists r :: r in rules && Candidate(r) && Stands(r, e) && r.id == id
  }

  lemma {:induction false} PolicyLinesMembers(text: Expression -> string, chains: seq<Chain>, rules: seq<PolicyRule>)
    ensures forall l :: l in PolicyLines(text, chains, rules) ==> !l.AddChain? && l.chain in chains
    ensures forall l :: l in PolicyLines(text, chains, rules) ==> Renders(rules, l.expression)
    ensures forall c, e :: c in chains && Renders(rules, e) ==> Drop(c, e) in PolicyLines(text, chains, rules)
    ensures forall c, e, id :: Log(c, e, id) in PolicyLines(text, chains, rules) <==> c in chains && Names(rules, e, id)
  {
    if rules != [] {
      var n := |rules| - 1;
      PolicyLinesMembers(text, chains, rules[..n]);
      var es := Expressions(text, rules[n]);
      RuleLinesMembers(chains, es, rules[n].id);
      StandsIsMember(rules[n]);
      TextOrder(text);
      RendersStep(rules, n);
      assert rules[..n + 1] == rules;
    }
  }

  lemma RendersStep(sorted: seq<PolicyRule>, i: nat)
    requires i < |sorted|
    ensures forall e :: Renders(sorted[..i + 1], e) <==>
      Renders(sorted[..i], e) || (Candidate(sorted[i]) && Stands(sorted[i], e))
    ensures forall e, id :: Names(sorted[..i + 1], e, id) <==>
      Names(sorted[..i], e, id) || (Candidate(sorted[i]) && Stands(sorted[i], e) && sorted[i].id == id)
  {
    assert sorted[..i + 1] == sorted[..i] + [sorted[i]];
    assert sorted[i] in sorted[..i + 1];
  }

  /** What the output contains: exactly the drop lines of the candidates' expressions, the log lines that
      name those rules, and the topology's chains. */
  lemma RenderedMembers(text: Expression -> string, topology: Topology, rules: seq<PolicyRule>)
    ensures var lines := Rendered(text, topology, rules);
      && (forall c, e :: Drop(c, e) in lines <==> c in Chains(topology) && Renders(rules, e))
      && (forall c, e, id :: Log(c, e, id) in lines <==> c in Chains(topology) && Names(rules, e, id))
      && (forall c, path :: AddChain(c, path) in lines <==> c in Chains(topology) && path == HookOf(c))
  {
    ChainLinesMembers(Chains(topology));
    PolicyLinesMembers(text, Chains(topology), ById(rules));
    ByIdSameRules(rules);
    assert forall e :: Renders(ById(rules), e) <==> Renders(rules, e);
    assert forall e, id :: Names(ById(rules), e, id) <==> Names(rules, e, id);
  }

  // ---------------------------------------------------------------- the renderer

  method FamilyExpressions(r: PolicyRule, family: IpVersion, sources: seq<Network>, destinations: seq<Network>)
      returns (result: Result<seq<Expression>, RenderError>)
    requires sources != [] && destinations != []
    ensures result.Err? <==> PortsNeedTransport(r)
    ensures result.Ok? ==> forall e :: e in result.value <==>
      e.family == family && e.source in sources && e.destination in destinations && e.l4 == L4Of(r, family)
  {
    var expressions: seq<Expression> := [];
    var ports := r.match_.destinationPorts;
    var portMatch := ports.Some? && ports.value != {};
    for i := 0 to |sources|
      invariant forall e :: e in expressions <==>
        e.family == family && e.l4 == L4Of(r, family) && e.source in sources[..i] && e.destination in destinations
      invariant i > 0 ==> !PortsNeedTransport(r)
    {
      for j := 0 to |destinations|
        invariant forall e :: e in expressions <==>
          e.family == family && e.l4 == L4Of(r, family) &&
          ((e.source in sources[..i] && e.destination in destinations)
           || (e.source == sources[i] && e.destination in destinations[..j]))
        invariant j > 0 ==> !PortsNeedTransport(r)
      {
        var l4: L4;
        if portMatch {
          if r.match_.protocol != Only(Tcp) && r.match_.protocol != Only(Udp) {
            return Err(PortsWithoutTransport(r.id));
          }
          l4 := Dport(r.match_.protocol.proto, ports.value);
        } else if r.match_.protocol.AnyProto? {
          l4 := AnyL4;
        } else if r.match_.protocol.proto == Icmp {
          l4 := if family == V6 then MetaIcmpv6 else Meta(Icmp);
        } else {
          l4 := Meta(r.match_.protocol.proto);
        }
        expressions := expressions + [Expression(family, sources[i], destinations[j], l4)];
      }
    }
    return Ok(expressions);
  }

  method RuleExpressions(text: Expression -> string, r: PolicyRule)
      returns (result: Result<seq<Expression>, RenderError>)
    requires Legible(text, r)
    ensures result.Err? <==> Unrenderable(r)
    ensures result.Ok? ==> result.value == Expressions(text, r)
  {
    var versions := SharedVersions(r);
    if versions == [] {
      return Err(NoSharedFamily(r.id));
    }
    var expressions: seq<Expression> := [];
    for k := 0 to |versions|
      invariant forall e :: e in expressions <==> Stands(r, e) && e.family in versions[..k]
      invariant k > 0 ==> !Unrenderable(r)
    {
      var family := versions[k];
      var sources := StableSort(NetworkLeq, OfVersion(family, r.match_.sourceCidrs));
      var destinations := StableSort(NetworkLeq, OfVersion(family, r.match_.destinationCidrs));
      NetworkOrder();
      SortKeepsMembers(NetworkLeq, OfVersion(family, r.match_.sourceCidrs));
      SortKeepsMembers(NetworkLeq, OfVersion(family, r.match_.destinationCidrs));
      NonEmptyOfVersion(family, r.match_.sourceCidrs);
      NonEmptyOfVersion(family, r.match_.destinationCidrs);
      var more := FamilyExpressions(r, family, sources, destinations);
      if more.Err? {
        return Err(more.error);
      }
      assert forall e :: e in more.value <==> Stands(r, e) && e.family == family;
      expressions := expressions + more.value;
    }
    SharedByStanding(r);
    var unique := Deduplicate(expressions);
    StandsIsMember(r);
    TextOrder(text);
    SortLists(ByText(text), unique, ExpressionSet(r));
    ListsUnique(ByText(text), StableSort(ByText(text), unique), Expressions(text, r), ExpressionSet(r));
    return Ok(StableSort(ByText(text), unique));
  }

  method Deduplicate(s: seq<Expression>) returns (r: seq<Expression>)
    ensures Distinct(r) && forall e :: e in r <==> e in s
  {
    r := [];
    for i := 0 to |s|
      invariant Distinct(r) && forall e :: e in r <==> e in s[..i]
    {
      if s[i] !in r {
        r := r + [s[i]];
      }
    }
  }

  lemma NetworkOrder()
    ensures TotalPreorder(NetworkLeq)
  {
  }

  lemma SortKeepsMembers<T(!new)>(le: (T, T) -> bool, s: seq<T>)
    requires TotalPreorder(le)
    ensures forall x :: x in StableSort(le, s) <==> x in s
  {
    StableSortPermutes(le, s);
    forall x ensures x in StableSort(le, s) <==> x in s {
      assert x in StableSort(le, s) <==> x in multiset(StableSort(le, s));
      assert x in s <==> x in multiset(s);
    }
  }

  lemma NonEmptyOfVersion(v: IpVersion, cidrs: seq<Network>)
    requires HasVersion(v, cidrs)
    ensures OfVersion(v, cidrs) != []
  {
    var n :| n in cidrs && n.version == v;
    assert n in OfVersion(v, cidrs);
  }

  lemma SharedByStanding(r: PolicyRule)
    ensures forall e :: Stands(r, e) ==> e.family in SharedVersions(r)
  {
    forall e | Stands(r, e) ensures e.family in SharedVersions(r) {
      assert HasVersion(e.family, r.match_.sourceCidrs) && HasVersion(e.family, r.match_.destinationCidrs);
    }
  }

  method RenderNftables(text: Expression -> string, topology: Topology, rules: seq<PolicyRule>)
      returns (result: Result<seq<Line>, RenderError>)
    requires forall r :: r in rules && Candidate(r) ==> Legible(text, r)
    ensures result.Err? <==> topology == Mirror || exists r :: r in rules && Candidate(r) && Unrenderable(r)
    ensures result.Ok? ==> result.value == Rendered(text, topology, rules)
  {
    if topology == Mirror {
      return Err(MirrorTopology);
    }
    var chains := Chains(topology);
    var sorted := ById(rules);
    ByIdSameRules(rules);
    var lines := AddChains(chains);
    result := AppendPolicies(text, lines, chains, sorted);
  }

  method AddChains(chains: seq<Chain>) returns (lines: seq<Line>)
    ensures lines == ChainLines(chains)
  {
    lines := [];
    for i := 0 to |chains|
      invariant lines == ChainLines(chains[..i])
    {
      assert chains[..i + 1][..i] == chains[..i];
      lines := lines + [Base(chains[i])];
    }
    assert chains[..|chains|] == chains;
  }

  lemma Regroup<T>(a: seq<T>, b: seq<T>, c: seq<T>)
    ensures a + b + c == a + (b + c)
  {
  }

  method AppendPolicies(text: Expression -> string, before: seq<Line>, chains: seq<Chain>, sorted: seq<PolicyRule>)
      returns (result: Result<seq<Line>, RenderError>)
    requires forall r :: r in sorted && Candidate(r) ==> Legible(text, r)
    ensures result.Err? <==> exists r :: r in sorted && Candidate(r) && Unrenderable(r)
    ensures result.Ok? ==> result.value == before + PolicyLines(text, chains, sorted)
  {
    var lines := before;
    for i := 0 to |sorted|
      invariant lines == before + PolicyLines(text, chains, sorted[..i])
      invariant forall r :: r in sorted[..i] && Candidate(r) ==> !Unrenderable(r)
    {
      assert sorted[..i + 1][..i] == sorted[..i];
      var more := AppendPolicy(text, lines, chains, sorted[i]);
      if more.Err? {
        return Err(more.error);
      }
      Regroup(before, PolicyLines(text, chains, sorted[..i]), CandidateLines(text, chains, sorted[i]));
      lines := more.value;
    }
    assert sorted[..|sorted|] == sorted;
    return Ok(lines);
  }

  method AppendPolicy(text: Expression -> string, before: seq<Line>, chains: seq<Chain>, rule: PolicyRule)
      returns (result: Result<seq<Line>, RenderError>)
    requires Candidate(rule) ==> Legible(text, rule)
    ensures result.Err? <==> Candidate(rule) && Unrenderable(rule)
    ensures result.Ok? ==> result.value == before + CandidateLines(text, chains, rule)
  {
    if !Candidate(rule) {
      NothingAfter(before);
      return Ok(before);
    }
    var expressions := RuleExpressions(text, rule);
    if expressions.Err? {
      return Err(expressions.error);
    }
    var lines := AppendRule(before, chains, rule, expressions.value);
    return Ok(lines);
  }

  /** The log and drop lines of one rule, for each expression and chain. */
  method AppendRule(before: seq<Line>, chains: seq<Chain>, rule: PolicyRule, expressions: seq<Expression>)
      returns (lines: seq<Line>)
    ensures lines == before + RuleLines(chains, expressions, rule.id)
  {
    lines := before;
    for i := 0 to |expressions|
      invariant lines == before + RuleLines(chains, expressions[..i], rule.id)
    {
      assert expressions[..i + 1][..i] == expressions[..i];
      ghost var start := lines;
      for j := 0 to |chains|
        invariant lines == start + ExpressionLines(chains[..j], expressions[i], rule.id)
      {
        assert chains[..j + 1][..j] == chains[..j];
        lines := lines + [Log(chains[j], expressions[i], rule.id)] + [Drop(chains[j], expressions[i])];
      }
      assert chains[..|chains|] == chains;
    }
    assert expressions[..|expressions|] == expressions;
  }

  // ---------------------------------------------------------------- parity with the detector

  /** What config loading guarantees of a rule: non-empty ports on TCP or UDP only, a shared
      family, and one of the four protocol names. */
  predicate Validated(r: PolicyRule) {
    && RuleWellFormed(r)
    && SharedVersions(r) != []
    && (r.match_.destinationPorts.Some? ==>
          r.match_.destinationPorts.value != {} && r.match_.protocol in {Only(Tcp), Only(Udp)})
    && r.match_.protocol in {AnyProto, Only(Tcp), Only(Udp), Only(Icmp)}
  }

  /** The protocol name the decoder gives a protocol number. */
  function ProtocolName(v: IpVersion, number: nat): Proto {
    if number == 6 then Tcp else if number == 17 then Udp
    else if number == (if v == V4 then 1 else 58) then Icmp else Ip(number)
  }

  /** `o` is a complete observation of `p`: every field a rule can constrain is known. */
  predicate Describes(p: Packet, o: Observation) {
    && o.outcome == Complete
    && o.ipVersion == Some(p.version)
    && o.source == Some(Address(p.version, p.source))
    && o.destination == Some(Address(p.version, p.destination))
    && o.protocol == Some(ProtocolName(p.version, p.number))
    && {IP_VERSION, SOURCE, DESTINATION, PROTOCOL} <= o.fields
    && (p.number in {6, 17} ==> DESTINATION_PORT in o.fields && o.destinationPort == Some(p.dport))
    && (p.number !in {6, 17} ==> DESTINATION_PORT !in o.fields)
  }

  lemma L4Parity(r: PolicyRule, p: Packet, o: Observation)
    requires Validated(r) && Describes(p, o)
    ensures L4Holds(L4Of(r, p.version), p) <==>
      && RequiredFields(r) <= o.fields
      && (r.match_.protocol.Only? ==> o.protocol == Some(r.match_.protocol.proto))
      && (r.match_.destinationPorts.Some? ==>
            o.destinationPort.Some? && o.destinationPort.value in r.match_.destinationPorts.value)
  {
  }

  /** One rule: some rendered expression matches the packet iff the detector's rule matches its
      observation. */
  lemma RuleParity(r: PolicyRule, p: Packet, o: Observation)
    requires Validated(r) && r.enabled && Describes(p, o)
    ensures RuleMatches(r, o) <==>
      exists e :: Stands(r, e) && ExpressionHolds(e, p)
  {
    L4Parity(r, p, o);
    if RuleMatches(r, o) {
      var s :| s in r.match_.sourceCidrs && Contains(s, o.source.value);
      var d :| d in r.match_.destinationCidrs && Contains(d, o.destination.value);
      var e := Expression(p.version, s, d, L4Of(r, p.version));
      assert Stands(r, e) && ExpressionHolds(e, p);
    }
  }

  /** Detector and renderer agree: a rendered chain drops a packet exactly when the detector, run
      on the compiled policy and a complete observation of that packet, reports an enabled rule
      marked for dropping; and validated policies always render outside mirror topology. */
  lemma RendererEqualsDetector(text: Expression -> string, topology: Topology, rules: seq<PolicyRule>,
      lines: seq<Line>, chain: Chain, p: Packet, o: Observation)
    requires forall r :: r in rules ==> Validated(r)
    requires chain in Chains(topology) && Describes(p, o) && lines == Rendered(text, topology, rules)
    ensures forall r :: r in rules && Candidate(r) ==> !Unrenderable(r)
    ensures forall q :: q in CompileRules(ById(rules)) ==> PredicateWellFormed(q)
    ensures Walk(lines, chain, p) == Dropped <==>
      exists r :: r in RulesOf(Holding(CompileRules(ById(rules)), o)) && r.enforcement == DropCandidate
  {
    assert RulesWellFormed(rules);
    DetectorIsExact(rules, o);
    RenderedMembers(text, topology, rules);
    WalkDropsIffSomeLine(lines, chain, p);
    if Walk(lines, chain, p) == Dropped {
      var e :| Drop(chain, e) in lines && ExpressionHolds(e, p);
      var r :| r in rules && Candidate(r) && Stands(r, e);
      RuleParity(r, p, o);
    }
    if r :| r in rules && RuleMatches(r, o) && r.enforcement == DropCandidate {
      RuleParity(r, p, o);
      var e :| Stands(r, e) && ExpressionHolds(e, p);
      assert Renders(rules, e);
      assert Drop(chain, e) in lines;
    }
  }
}
