/** Rule compilation, the detector, and the overlap check (policy.py). */
module Policy {
  import opened Basics
  import opened Models
  import opened Ordering

  // ---------------------------------------------------------------- CIDR arithmetic

  function Pow2(n: nat): (r: nat)
    ensures r >= 1
  {
    if n == 0 then 1 else 2 * Pow2(n - 1)
  }

  function Width(v: IpVersion): nat {
    match v case V4 => 32 case V6 => 128
  }

  /** Number of addresses in the block. */
  function BlockSize(n: Network): (r: nat)
    requires n.prefixLen <= Width(n.version)
    ensures r >= 1
  {
    Pow2(Width(n.version) - n.prefixLen)
  }

  /** Host bits of the base are zero and the block lies inside the address space. */
  predicate WellFormed(n: Network) {
    && n.prefixLen <= Width(n.version)
    && n.base % BlockSize(n) == 0
    && n.base + BlockSize(n) <= Pow2(Width(n.version))
  }

  type Cidr = n: Network | WellFormed(n) witness Network(V4, 0, 32)

  /** Clearing the host bits of the address yields the base. */
  predicate Contains(n: Cidr, a: Address) {
    a.version == n.version && a.value - a.value % BlockSize(n) == n.base
  }

  function Lowest(n: Cidr): Address {
    Address(n.version, n.base)
  }

  function Highest(n: Cidr): Address {
    Address(n.version, n.base + BlockSize(n) - 1)
  }

  /** Four end-point tests, as ipaddress computes it. */
  predicate Overlaps(a: Cidr, b: Cidr) {
    Contains(b, Lowest(a)) || Contains(b, Highest(a)) || Contains(a, Lowest(b)) || Contains(a, Highest(b))
  }

  lemma MulAtLeast(s: nat, n: int)
    requires n >= 1
    ensures s * n >= s
  {
    assert s * n == s * (n - 1) + s;
    assert s * (n - 1) >= 0;
  }

  lemma DivisionUnique(s: nat, k: int, d: nat, q: int, r: nat)
    requires s * k + d == s * q + r && d < s && r < s
    ensures k == q && d == r
  {
    assert s * (q - k) == s * q - s * k;
    assert s * (k - q) == s * k - s * q;
    if q > k {
      MulAtLeast(s, q - k);
    } else if k > q {
      MulAtLeast(s, k - q);
    }
  }

  lemma ModOfBlock(s: nat, k: nat, d: nat)
    requires d < s
    ensures (s * k + d) % s == d
  {
    var v := s * k + d;
    DivisionUnique(s, k, d, v / s, v % s);
  }

  lemma SameBlock(s: nat, base: nat, v: nat)
    requires s >= 1 && base % s == 0
    ensures v - v % s == base <==> base <= v < base + s
  {
    if base <= v < base + s {
      var k := base / s;
      assert base == s * k;
      ModOfBlock(s, k, v - base);
    }
  }

  /** A prefix match is an interval: the arithmetic behind masks (section 3.1 of RFC 4632). */
  lemma ContainsIsInterval(n: Cidr, a: Address)
    ensures Contains(n, a) <==> a.version == n.version && n.base <= a.value < n.base + BlockSize(n)
  {
    SameBlock(BlockSize(n), n.base, a.value);
  }

  /** The four end-point tests find every common address and report none that is not there. */
  lemma OverlapsMeansSharedAddress(a: Cidr, b: Cidr)
    ensures Overlaps(a, b) <==> exists x :: Contains(a, x) && Contains(b, x)
  {
    ContainsIsInterval(a, Lowest(a));
    ContainsIsInterval(a, Highest(a));
    ContainsIsInterval(b, Lowest(a));
    ContainsIsInterval(b, Highest(a));
    ContainsIsInterval(a, Lowest(b));
    ContainsIsInterval(a, Highest(b));
    ContainsIsInterval(b, Lowest(b));
    ContainsIsInterval(b, Highest(b));
    if exists x :: Contains(a, x) && Contains(b, x) {
      var x :| Contains(a, x) && Contains(b, x);
      ContainsIsInterval(a, x);
      ContainsIsInterval(b, x);
      if a.base <= b.base {
        assert Contains(a, Lowest(b));
      } else {
        assert Contains(b, Lowest(a));
      }
    }
  }

  // ---------------------------------------------------------------- rules

  predicate RuleWellFormed(r: PolicyRule) {
    && (forall n :: n in r.match_.sourceCidrs ==> WellFormed(n))
    && (forall n :: n in r.match_.destinationCidrs ==> WellFormed(n))
  }

  predicate RulesWellFormed(rules: seq<PolicyRule>) {
    forall r :: r in rules ==> RuleWellFormed(r)
  }

  ghost predicate UniqueIds(rules: seq<PolicyRule>) {
    forall i, j :: 0 <= i < j < |rules| ==> rules[i].id != rules[j].id
  }

  /** An address lies in one of the blocks. */
  predicate InAny(cidrs: seq<Network>, a: Address)
    requires forall n :: n in cidrs ==> WellFormed(n)
  {
    exists n :: n in cidrs && Contains(n, a)
  }

  function RequiredFields(r: PolicyRule): set<Field> {
    {IP_VERSION, SOURCE, DESTINATION}
    + (if r.match_.protocol.AnyProto? then {} else {PROTOCOL})
    + (if r.match_.destinationPorts.None? then {} else {DESTINATION_PORT})
  }

  /** What a rule says about an observation, independently of compilation: both addresses are
      known, of the observation's own IP version and in the rule's blocks, every constrained
      field is present, and the protocol and port agree. */
  predicate RuleMatches(r: PolicyRule, o: Observation)
    requires RuleWellFormed(r)
  {
    && r.enabled
    && o.source.Some? && o.destination.Some? && o.ipVersion.Some?
    && o.source.value.version == o.ipVersion.value && o.destination.value.version == o.ipVersion.value
    && IP_VERSION in o.fields && SOURCE in o.fields && DESTINATION in o.fields
    && (r.match_.protocol.Only? ==> PROTOCOL in o.fields)
    && (r.match_.destinationPorts.Some? ==> DESTINATION_PORT in o.fields)
    && InAny(r.match_.sourceCidrs, o.source.value)
    && InAny(r.match_.destinationCidrs, o.destination.value)
    && (r.match_.protocol.Only? ==> o.protocol == Some(r.match_.protocol.proto))
    && (r.match_.destinationPorts.Some? ==>
          o.destinationPort.Some? && o.destinationPort.value in r.match_.destinationPorts.value)
  }

  predicate IdLeq(a: PolicyRule, b: PolicyRule) {
    StringLeq(a.id, b.id)
  }

  lemma IdOrder()
    ensures TotalPreorder(IdLeq)
  {
    forall x: PolicyRule, y: PolicyRule ensures IdLeq(x, y) || IdLeq(y, x) {
      StringLeqTotal(x.id, y.id);
    }
    forall x: PolicyRule, y: PolicyRule, z: PolicyRule | IdLeq(x, y) && IdLeq(y, z) ensures IdLeq(x, z) {
      StringLeqTransitive(x.id, y.id, z.id);
    }
  }

  function ById(rules: seq<PolicyRule>): seq<PolicyRule> {
    StableSort(IdLeq, rules)
  }

  lemma ByIdSameRules(rules: seq<PolicyRule>)
    ensures multiset(ById(rules)) == multiset(rules)
    ensures forall r :: r in ById(rules) <==> r in rules
    ensures Sorted(IdLeq, ById(rules))
  {
    IdOrder();
    StableSortPermutes(IdLeq, rules);
    forall r ensures r in ById(rules) <==> r in rules {
      assert r in ById(rules) <==> r in multiset(ById(rules));
      assert r in rules <==> r in multiset(rules);
    }
  }

  lemma SortKeepsUnique(rules: seq<PolicyRule>)
    requires UniqueIds(rules)
    ensures UniqueIds(ById(rules))
  {
    ByIdSameRules(rules);
    var s := ById(rules);
    forall i, j | 0 <= i < j < |s| ensures s[i].id != s[j].id {
      if s[i].id == s[j].id {
        assert s[i] in rules && s[j] in rules;
        var a :| 0 <= a < |rules| && rules[a] == s[i];
        var b :| 0 <= b < |rules| && rules[b] == s[j];
        assert a == b;
        assert s[i] == s[j];
        TwiceInSeq(s, i, j);
        OnceInSeq(rules, a);
      }
    }
  }

  lemma TwiceInSeq<T>(s: seq<T>, i: nat, j: nat)
    requires i < j < |s| && s[i] == s[j]
    ensures multiset(s)[s[i]] >= 2
  {
    assert s == s[..j] + [s[j]] + s[j + 1..];
    assert s[i] in s[..j];
    assert multiset(s) == multiset(s[..j]) + multiset{s[j]} + multiset(s[j + 1..]);
  }

  lemma OnceInSeq(rules: seq<PolicyRule>, a: nat)
    requires UniqueIds(rules) && a < |rules|
    ensures multiset(rules)[rules[a]] == 1
  {
    var x := rules[a];
    assert rules == rules[..a] + [x] + rules[a + 1..];
    assert x !in rules[..a] && x !in rules[a + 1..];
    assert multiset(rules) == multiset(rules[..a]) + multiset{x} + multiset(rules[a + 1..]);
  }

  /** The enabled rules matching `o`, in the order of `rules`. */
  function Matching(rules: seq<PolicyRule>, o: Observation): (m: seq<PolicyRule>)
    requires RulesWellFormed(rules)
    ensures forall r :: r in m <==> r in rules && RuleMatches(r, o)
  {
    if rules == [] then [] else
      (if RuleMatches(rules[0], o) then [rules[0]] else []) + Matching(rules[1..], o)
  }

  lemma {:induction false} MatchingAppend(a: seq<PolicyRule>, b: seq<PolicyRule>, o: Observation)
    requires RulesWellFormed(a) && RulesWellFormed(b)
    ensures Matching(a + b, o) == Matching(a, o) + Matching(b, o)
  {
    if a == [] {
      assert a + b == b;
    } else {
      assert (a + b)[1..] == a[1..] + b;
      MatchingAppend(a[1..], b, o);
    }
  }

  /** Every matching rule comes from a later place of the rules after the first. */
  lemma MatchingComesFrom(rules: seq<PolicyRule>, o: Observation, j: nat) returns (k: nat)
    requires RulesWellFormed(rules) && rules != [] && j < |Matching(rules[1..], o)|
    ensures 1 <= k < |rules| && rules[k] == Matching(rules[1..], o)[j]
  {
    assert Matching(rules[1..], o)[j] in rules[1..];
    var i :| 0 <= i < |rules[1..]| && rules[1..][i] == Matching(rules[1..], o)[j];
    k := i + 1;
  }

  lemma {:induction false} MatchingSorted(rules: seq<PolicyRule>, o: Observation)
    requires RulesWellFormed(rules) && Sorted(IdLeq, rules)
    ensures Sorted(IdLeq, Matching(rules, o))
  {
    if rules != [] {
      MatchingSorted(rules[1..], o);
      var rest := Matching(rules[1..], o);
      forall j | 0 <= j < |rest| ensures IdLeq(rules[0], rest[j]) {
        var k := MatchingComesFrom(rules, o, j);
      }
    }
  }

  lemma {:induction false} MatchingUnique(rules: seq<PolicyRule>, o: Observation)
    requires RulesWellFormed(rules) && UniqueIds(rules)
    ensures UniqueIds(Matching(rules, o))
  {
    if rules != [] {
      assert UniqueIds(rules[1..]);
      MatchingUnique(rules[1..], o);
      var rest := Matching(rules[1..], o);
      forall j | 0 <= j < |rest| ensures rest[j].id != rules[0].id {
        var k := MatchingComesFrom(rules, o, j);
      }
    }
  }

  lemma MatchingKeepsOrder(rules: seq<PolicyRule>, o: Observation)
    requires RulesWellFormed(rules)
    ensures Sorted(IdLeq, rules) ==> Sorted(IdLeq, Matching(rules, o))
    ensures UniqueIds(rules) ==> UniqueIds(Matching(rules, o))
  {
    if Sorted(IdLeq, rules) {
      MatchingSorted(rules, o);
    }
    if UniqueIds(rules) {
      MatchingUnique(rules, o);
    }
  }

  // ---------------------------------------------------------------- compilation

  datatype Predicate = Predicate(rule: PolicyRule, ipVersion: IpVersion, sources: seq<Network>,
    destinations: seq<Network>)

  datatype CompiledPolicy = CompiledPolicy(revision: string, predicates: seq<Predicate>)

  function OfVersion(v: IpVersion, cidrs: seq<Network>): (r: seq<Network>)
    ensures forall n :: n in r <==> n in cidrs && n.version == v
  {
    Filter((n: Network) => n.version == v, cidrs)
  }

  predicate HasVersion(v: IpVersion, cidrs: seq<Network>) {
    exists n :: n in cidrs && n.version == v
  }

  /** The IP families shared by sources and destinations, in ascending order. */
  function SharedVersions(r: PolicyRule): (vs: seq<IpVersion>)
    ensures forall v :: v in vs <==> HasVersion(v, r.match_.sourceCidrs) && HasVersion(v, r.match_.destinationCidrs)
    ensures Distinct(vs)
  {
    (if HasVersion(V4, r.match_.sourceCidrs) && HasVersion(V4, r.match_.destinationCidrs) then [V4] else [])
    + (if HasVersion(V6, r.match_.sourceCidrs) && HasVersion(V6, r.match_.destinationCidrs) then [V6] else [])
  }

  function CompileRule(r: PolicyRule, v: IpVersion): Predicate {
    Predicate(r, v, OfVersion(v, r.match_.sourceCidrs), OfVersion(v, r.match_.destinationCidrs))
  }

  function CompileVersions(r: PolicyRule, vs: seq<IpVersion>): seq<Predicate> {
    if vs == [] then [] else CompileVersions(r, vs[..|vs| - 1]) + [CompileRule(r, vs[|vs| - 1])]
  }

  function CompileRules(sorted: seq<PolicyRule>): seq<Predicate> {
    if sorted == [] then [] else
      var last := sorted[|sorted| - 1];
      CompileRules(sorted[..|sorted| - 1]) + (if last.enabled then CompileVersions(last, SharedVersions(last)) else [])
  }

  method CompilePolicy(rules: seq<PolicyRule>, revision: string) returns (policy: CompiledPolicy)
    ensures policy == CompiledPolicy(revision, CompileRules(ById(rules)))
  {
    var predicates := [];
    var sorted := ById(rules);
    for i := 0 to |sorted|
      invariant predicates == CompileRules(sorted[..i])
    {
      assert sorted[..i + 1][..i] == sorted[..i];
      if sorted[i].enabled {
        var compiled := CompileFamilies(sorted[i]);
        predicates := predicates + compiled;
      }
    }
    assert sorted[..|sorted|] == sorted;
    policy := CompiledPolicy(revision, predicates);
  }

  /** One predicate for each IP family the rule's sources and destinations share. */
  method CompileFamilies(rule: PolicyRule) returns (predicates: seq<Predicate>)
    ensures predicates == CompileVersions(rule, SharedVersions(rule))
  {
    predicates := [];
    var versions := SharedVersions(rule);
    for j := 0 to |versions|
      invariant predicates == CompileVersions(rule, versions[..j])
    {
      assert versions[..j + 1][..j] == versions[..j];
      predicates := predicates + [CompileRule(rule, versions[j])];
    }
    assert versions[..|versions|] == versions;
  }

  // ---------------------------------------------------------------- the detector

  predicate PredicateWellFormed(p: Predicate) {
    && (forall n :: n in p.sources ==> WellFormed(n))
    && (forall n :: n in p.destinations ==> WellFormed(n))
  }

  predicate PredicateHolds(p: Predicate, o: Observation)
    requires PredicateWellFormed(p)
  {
    && o.source.Some? && o.destination.Some?
    && o.ipVersion == Some(p.ipVersion)
    && RequiredFields(p.rule) <= o.fields
    && InAny(p.sources, o.source.value)
    && InAny(p.destinations, o.destination.value)
    && (p.rule.match_.protocol.Only? ==> o.protocol == Some(p.rule.match_.protocol.proto))
    && (p.rule.match_.destinationPorts.Some? ==>
          o.destinationPort.Some? && o.destinationPort.value in p.rule.match_.destinationPorts.value)
  }

  function Holding(ps: seq<Predicate>, o: Observation): seq<Predicate>
    requires forall p :: p in ps ==> PredicateWellFormed(p)
  {
    if ps == [] then [] else
      Holding(ps[..|ps| - 1], o) + (if PredicateHolds(ps[|ps| - 1], o) then [ps[|ps| - 1]] else [])
  }

  method EvaluatePolicy(policy: CompiledPolicy, o: Observation) returns (matches: seq<Predicate>)
    requires forall p :: p in policy.predicates ==> PredicateWellFormed(p)
    ensures matches == Holding(policy.predicates, o)
  {
    matches := [];
    if o.source.None? || o.destination.None? {
      NothingWithoutEndpoints(policy.predicates, o);
      return;
    }
    var ps := policy.predicates;
    var i := 0;
    while i < |ps|
      invariant i <= |ps|
      invariant matches == Holding(ps[..i], o)
    {
      var p := ps[i];
      assert PredicateWellFormed(p);
      assert ps[..i + 1][..i] == ps[..i];
      i := i + 1;
      if o.ipVersion != Some(p.ipVersion) { continue; }
      if !(RequiredFields(p.rule) <= o.fields) { continue; }
      if !InAny(p.sources, o.source.value) { continue; }
      if !InAny(p.destinations, o.destination.value) { continue; }
      if p.rule.match_.protocol.Only? && o.protocol != Some(p.rule.match_.protocol.proto) { continue; }
      var ports := p.rule.match_.destinationPorts;
      if ports.Some? && !(o.destinationPort.Some? && o.destinationPort.value in ports.value) { continue; }
      matches := matches + [p];
    }
    assert ps[..i] == ps;
  }

  lemma {:induction false} NothingWithoutEndpoints(ps: seq<Predicate>, o: Observation)
    requires forall p :: p in ps ==> PredicateWellFormed(p)
    requires o.source.None? || o.destination.None?
    ensures Holding(ps, o) == []
  {
    if ps != [] {
      NothingWithoutEndpoints(ps[..|ps| - 1], o);
    }
  }

  function RulesOf(ps: seq<Predicate>): seq<PolicyRule> {
    if ps == [] then [] else RulesOf(ps[..|ps| - 1]) + [ps[|ps| - 1].rule]
  }

  lemma {:induction false} HoldingAppend(a: seq<Predicate>, b: seq<Predicate>, o: Observation)
    requires forall p :: p in a + b ==> PredicateWellFormed(p)
    ensures forall p :: p in a ==> p in a + b
    ensures forall p :: p in b ==> p in a + b
    ensures Holding(a + b, o) == Holding(a, o) + Holding(b, o)
    ensures RulesOf(Holding(a + b, o)) == RulesOf(Holding(a, o)) + RulesOf(Holding(b, o))
  {
    if b == [] {
      assert a + b == a;
    } else {
      assert (a + b)[..|a + b| - 1] == a + b[..|b| - 1];
      HoldingAppend(a, b[..|b| - 1], o);
    }
    RulesOfAppend(Holding(a, o), Holding(b, o));
  }

  lemma {:induction false} RulesOfAppend(a: seq<Predicate>, b: seq<Predicate>)
    ensures RulesOf(a + b) == RulesOf(a) + RulesOf(b)
  {
    if b == [] {
      assert a + b == a;
    } else {
      assert (a + b)[..|a + b| - 1] == a + b[..|b| - 1];
      RulesOfAppend(a, b[..|b| - 1]);
    }
  }

  lemma InAnyOfVersion(v: IpVersion, cidrs: seq<Network>, a: Address)
    requires forall n :: n in cidrs ==> WellFormed(n)
    ensures InAny(OfVersion(v, cidrs), a) <==> a.version == v && InAny(cidrs, a)
    ensures InAny(cidrs, a) ==> HasVersion(a.version, cidrs)
  {
    if InAny(OfVersion(v, cidrs), a) {
      var n :| n in OfVersion(v, cidrs) && Contains(n, a);
      assert n in cidrs && Contains(n, a);
    }
    if InAny(cidrs, a) {
      var n :| n in cidrs && Contains(n, a);
      if a.version == v {
        assert n in OfVersion(v, cidrs) && Contains(n, a);
      }
    }
  }

  /** One compiled predicate says what the whole rule says about observations of its family. */
  lemma CompiledMeansRule(r: PolicyRule, v: IpVersion, o: Observation)
    requires RuleWellFormed(r) && r.enabled
    ensures PredicateWellFormed(CompileRule(r, v))
    ensures PredicateHolds(CompileRule(r, v), o) <==> o.ipVersion == Some(v) && RuleMatches(r, o)
  {
    if o.source.Some? && o.destination.Some? {
      InAnyOfVersion(v, r.match_.sourceCidrs, o.source.value);
      InAnyOfVersion(v, r.match_.destinationCidrs, o.destination.value);
    }
  }

  lemma HoldingSnoc(ps: seq<Predicate>, p: Predicate, o: Observation)
    requires (forall q :: q in ps ==> PredicateWellFormed(q)) && PredicateWellFormed(p)
    ensures forall q :: q in ps + [p] ==> PredicateWellFormed(q)
    ensures RulesOf(Holding(ps + [p], o)) == RulesOf(Holding(ps, o)) + (if PredicateHolds(p, o) then [p.rule] else [])
  {
    assert (ps + [p])[..|ps|] == ps;
    if PredicateHolds(p, o) {
      assert (Holding(ps, o) + [p])[..|Holding(ps, o)|] == Holding(ps, o);
    } else {
      assert Holding(ps, o) + [] == Holding(ps, o);
    }
  }

  lemma {:induction false} VersionsHold(r: PolicyRule, vs: seq<IpVersion>, o: Observation)
    requires RuleWellFormed(r) && r.enabled && Distinct(vs)
    ensures forall p :: p in CompileVersions(r, vs) ==> PredicateWellFormed(p)
    ensures RulesOf(Holding(CompileVersions(r, vs), o))
         == if o.ipVersion.Some? && o.ipVersion.value in vs && RuleMatches(r, o) then [r] else []
  {
    if vs != [] {
      var front, v := vs[..|vs| - 1], vs[|vs| - 1];
      assert vs == front + [v] && v !in front;
      VersionsHold(r, front, o);
      CompiledMeansRule(r, v, o);
      HoldingSnoc(CompileVersions(r, front), CompileRule(r, v), o);
    }
  }

  lemma {:induction false} CompiledWellFormed(sorted: seq<PolicyRule>)
    requires RulesWellFormed(sorted)
    ensures forall p :: p in CompileRules(sorted) ==> PredicateWellFormed(p)
  {
    if sorted != [] {
      var last := sorted[|sorted| - 1];
      CompiledWellFormed(sorted[..|sorted| - 1]);
      if last.enabled {
        var anything: Observation :| true;
        VersionsHold(last, SharedVersions(last), anything);
      }
    }
  }

  lemma MatchedFamilyIsShared(r: PolicyRule, o: Observation)
    requires RuleWellFormed(r)
    ensures RuleMatches(r, o) ==> o.ipVersion.Some? && o.ipVersion.value in SharedVersions(r)
  {
    if RuleMatches(r, o) {
      InAnyOfVersion(V4, r.match_.sourceCidrs, o.source.value);
      InAnyOfVersion(V4, r.match_.destinationCidrs, o.destination.value);
    }
  }

  lemma MatchingOne(r: PolicyRule, o: Observation)
    requires RuleWellFormed(r)
    ensures RulesWellFormed([r]) && Matching([r], o) == if RuleMatches(r, o) then [r] else []
  {
  }

  lemma {:induction false} CompiledHold(sorted: seq<PolicyRule>, o: Observation)
    requires RulesWellFormed(sorted)
    ensures forall p :: p in CompileRules(sorted) ==> PredicateWellFormed(p)
    ensures RulesOf(Holding(CompileRules(sorted), o)) == Matching(sorted, o)
  {
    CompiledWellFormed(sorted);
    if sorted != [] {
      var front, last := sorted[..|sorted| - 1], sorted[|sorted| - 1];
      CompiledHold(front, o);
      assert sorted == front + [last];
      MatchingAppend(front, [last], o);
      if last.enabled {
        var vs := SharedVersions(last);
        VersionsHold(last, vs, o);
        HoldingAppend(CompileRules(front), CompileVersions(last, vs), o);
        MatchedFamilyIsShared(last, o);
      } else {
        assert CompileRules(sorted) == CompileRules(front);
      }
      MatchingOne(last, o);
    }
  }

  /** The detector on a compiled policy returns precisely the enabled matching rules, once each,
      in id order. */
  lemma DetectorIsExact(rules: seq<PolicyRule>, o: Observation)
    requires RulesWellFormed(rules)
    ensures RulesWellFormed(ById(rules))
    ensures forall p :: p in CompileRules(ById(rules)) ==> PredicateWellFormed(p)
    ensures var found := RulesOf(Holding(CompileRules(ById(rules)), o));
      && found == Matching(ById(rules), o)
      && (forall r :: r in found <==> r in rules && RuleMatches(r, o))
      && Sorted(IdLeq, found)
      && (UniqueIds(rules) ==> UniqueIds(found))
  {
    ByIdSameRules(rules);
    CompiledHold(ById(rules), o);
    MatchingKeepsOrder(ById(rules), o);
    if UniqueIds(rules) {
      SortKeepsUnique(rules);
    }
  }

  // ---------------------------------------------------------------- overlap check

  predicate PortsIntersect(a: Option<set<nat>>, b: Option<set<nat>>) {
    a.None? || b.None? || a.value * b.value != {}
  }

  predicate NetworksOverlap(a: seq<Network>, b: seq<Network>)
    requires forall n :: n in a ==> WellFormed(n)
    requires forall n :: n in b ==> WellFormed(n)
  {
    exists m, n :: m in a && n in b && m.version == n.version && Overlaps(m, n)
  }

  predicate ProtocolsAgree(a: RuleProto, b: RuleProto) {
    a == b || a.AnyProto? || b.AnyProto?
  }

  /** The pairwise test of the overlap check. */
  predicate Reported(a: PolicyRule, b: PolicyRule)
    requires RuleWellFormed(a) && RuleWellFormed(b)
  {
    && NetworksOverlap(a.match_.sourceCidrs, b.match_.sourceCidrs)
    && NetworksOverlap(a.match_.destinationCidrs, b.match_.destinationCidrs)
    && ProtocolsAgree(a.match_.protocol, b.match_.protocol)
    && PortsIntersect(a.match_.destinationPorts, b.match_.destinationPorts)
  }

  function OrderedPair(a: string, b: string): (string, string) {
    if StringLeq(a, b) then (a, b) else (b, a)
  }

  method AnyOverlap(left: seq<Network>, right: seq<Network>) returns (found: bool)
    requires forall n :: n in left ==> WellFormed(n)
    requires forall n :: n in right ==> WellFormed(n)
    ensures found <==> NetworksOverlap(left, right)
  {
    for i := 0 to |left|
      invariant forall m, n :: m in left[..i] && n in right && m.version == n.version ==> !Overlaps(m, n)
    {
      for j := 0 to |right|
        invariant forall n :: n in right[..j] && left[i].version == n.version ==> !Overlaps(left[i], n)
      {
        if left[i].version != right[j].version { continue; }
        if Overlaps(left[i], right[j]) {
          return true;
        }
      }
    }
    return false;
  }

  function EnabledOf(rules: seq<PolicyRule>): (r: seq<PolicyRule>)
    ensures forall x :: x in r ==> x in rules && x.enabled
  {
    if rules == [] then [] else
      var last := rules[|rules| - 1];
      EnabledOf(rules[..|rules| - 1]) + (if last.enabled then [last] else [])
  }

  /** Rules number `i` and `j` are reported, as the pair `p` of their ids. */
  predicate ReportedAt(rules: seq<PolicyRule>, i: nat, j: nat, p: (string, string))
    requires RulesWellFormed(rules)
  {
    i < j < |rules| && Reported(rules[i], rules[j]) && p == OrderedPair(rules[i].id, rules[j].id)
  }

  /** Rule number `i` is the earlier one of a reported pair with the ids `p`. */
  predicate ReportedFrom(rules: seq<PolicyRule>, i: nat, p: (string, string))
    requires RulesWellFormed(rules)
  {
    exists j :: i < j < |rules| && ReportedAt(rules, i, j, p)
  }

  /** Some rule before number `n` is the earlier one. */
  predicate ReportedBelow(rules: seq<PolicyRule>, n: nat, p: (string, string))
    requires RulesWellFormed(rules)
  {
    n > 0 && (ReportedBelow(rules, n - 1, p) || ReportedFrom(rules, n - 1, p))
  }

  lemma {:induction false} ReportedBelowMeans(rules: seq<PolicyRule>, n: nat, p: (string, string))
    requires RulesWellFormed(rules)
    ensures ReportedBelow(rules, n, p) <==> exists i: nat :: i < n && ReportedFrom(rules, i, p)
  {
    if n > 0 {
      ReportedBelowMeans(rules, n - 1, p);
    }
  }

  /** The pair of ids `p` is among those the check reports. */
  predicate Listing(rules: seq<PolicyRule>, p: (string, string))
    requires RulesWellFormed(rules)
  {
    ReportedBelow(EnabledOf(rules), |EnabledOf(rules)|, p)
  }

  predicate PairLeq(p: (string, string), q: (string, string)) {
    if p.0 == q.0 then StringLeq(p.1, q.1) else StringLeq(p.0, q.0)
  }

  lemma PairOrder()
    ensures TotalPreorder(PairLeq)
  {
    forall p, q ensures PairLeq(p, q) || PairLeq(q, p) {
      StringLeqTotal(p.0, q.0);
      StringLeqTotal(p.1, q.1);
    }
    forall p, q, r | PairLeq(p, q) && PairLeq(q, r) ensures PairLeq(p, r) {
      if p.0 == q.0 == r.0 {
        StringLeqTransitive(p.1, q.1, r.1);
      } else if p.0 != q.0 && q.0 != r.0 {
        StringLeqTotal(p.0, q.0);
        StringLeqTransitive(p.0, q.0, r.0);
      }
    }
  }

  /** Ids of the pairs of enabled rules that the pairwise test reports, sorted, each pair once. */
  method FindOverlaps(rules: seq<PolicyRule>) returns (pairs: seq<(string, string)>)
    requires RulesWellFormed(rules)
    ensures forall p :: p in pairs <==> Listing(rules, p)
    ensures Sorted(PairLeq, pairs) && Distinct(pairs)
  {
    var enabled := EnabledOf(rules);
    var found: set<(string, string)> := {};
    for i := 0 to |enabled|
      invariant forall p :: p in found <==> ReportedBelow(enabled, i, p)
    {
      var row := OverlapsOf(enabled, i);
      found := found + row;
    }
    pairs := SortPairs(found);
  }

  method SortPairs(found: set<(string, string)>) returns (pairs: seq<(string, string)>)
    ensures Lists(PairLeq, pairs, found)
  {
    var rest, all: seq<(string, string)> := found, [];
    while rest != {}
      invariant Distinct(all) && rest <= found && forall p :: p in all <==> p in found - rest
      decreases |rest|
    {
      var p :| p in rest;
      assert p !in all;
      all, rest := all + [p], rest - {p};
    }
    PairOrder();
    SortLists(PairLeq, all, found);
    pairs := StableSort(PairLeq, all);
  }

  /** The pairs in which rule `i` is the earlier one. */
  method OverlapsOf(enabled: seq<PolicyRule>, i: nat) returns (row: set<(string, string)>)
    requires RulesWellFormed(enabled) && i < |enabled|
    ensures forall p :: p in row <==> ReportedFrom(enabled, i, p)
  {
    var left := enabled[i];
    assert RuleWellFormed(left);
    row := {};
    for j := i + 1 to |enabled|
      invariant forall p :: p in row <==> exists b :: i < b < j && ReportedAt(enabled, i, b, p)
    {
      var right := enabled[j];
      assert RuleWellFormed(right);
      var sources := AnyOverlap(left.match_.sourceCidrs, right.match_.sourceCidrs);
      var destinations := AnyOverlap(left.match_.destinationCidrs, right.match_.destinationCidrs);
      if sources && destinations
        && ProtocolsAgree(left.match_.protocol, right.match_.protocol)
        && PortsIntersect(left.match_.destinationPorts, right.match_.destinationPorts)
      {
        row := row + {OrderedPair(left.id, right.id)};
        assert ReportedAt(enabled, i, j, OrderedPair(left.id, right.id));
      }
    }
  }

  lemma {:induction false} EnabledPrefix(rules: seq<PolicyRule>, n: nat)
    requires n <= |rules|
    ensures Prefix(EnabledOf(rules[..n]), EnabledOf(rules))
  {
    if n == |rules| {
      assert rules[..n] == rules;
    } else {
      assert rules[..|rules| - 1][..n] == rules[..n];
      EnabledPrefix(rules[..|rules| - 1], n);
    }
  }

  lemma EnabledStep(rules: seq<PolicyRule>, n: nat)
    requires n < |rules|
    ensures EnabledOf(rules[..n + 1]) == EnabledOf(rules[..n]) + (if rules[n].enabled then [rules[n]] else [])
  {
    assert rules[..n + 1][..n] == rules[..n];
  }

  /** The place of rule `i` among the enabled rules: the number of enabled rules before it. */
  function Place(rules: seq<PolicyRule>, i: nat): nat
    requires i <= |rules|
  {
    |EnabledOf(rules[..i])|
  }

  lemma EnabledAt(rules: seq<PolicyRule>, i: nat)
    requires i < |rules| && rules[i].enabled
    ensures Place(rules, i) < |EnabledOf(rules)| && EnabledOf(rules)[Place(rules, i)] == rules[i]
  {
    EnabledStep(rules, i);
    EnabledPrefix(rules, i + 1);
    assert EnabledOf(rules)[Place(rules, i)] == EnabledOf(rules[..i + 1])[Place(rules, i)];
  }

  lemma PlacesIncrease(rules: seq<PolicyRule>, i: nat, j: nat)
    requires i < j <= |rules| && rules[i].enabled
    ensures Place(rules, i) < Place(rules, j)
  {
    EnabledStep(rules, i);
    EnabledPrefix(rules[..j], i + 1);
    assert rules[..j][..i + 1] == rules[..i + 1];
  }

  predicate SharedBlock(v: IpVersion, a: seq<Network>, b: seq<Network>)
    requires forall n :: n in a ==> WellFormed(n)
    requires forall n :: n in b ==> WellFormed(n)
  {
    exists m, n :: m in a && n in b && m.version == v && n.version == v && Overlaps(m, n)
  }

  lemma SharedBlockWitness(v: IpVersion, a: seq<Network>, b: seq<Network>) returns (x: Address)
    requires forall n :: n in a ==> WellFormed(n)
    requires forall n :: n in b ==> WellFormed(n)
    requires SharedBlock(v, a, b)
    ensures x.version == v && InAny(a, x) && InAny(b, x)
  {
    var m, n :| m in a && n in b && m.version == v && n.version == v && Overlaps(m, n);
    OverlapsMeansSharedAddress(m, n);
    x :| Contains(m, x) && Contains(n, x);
  }

  lemma InBothSharesBlock(a: seq<Network>, b: seq<Network>, x: Address)
    requires forall n :: n in a ==> WellFormed(n)
    requires forall n :: n in b ==> WellFormed(n)
    requires InAny(a, x) && InAny(b, x)
    ensures SharedBlock(x.version, a, b)
  {
    var m :| m in a && Contains(m, x);
    var n :| n in b && Contains(n, x);
    OverlapsMeansSharedAddress(m, n);
  }

  ghost predicate SomeObservationMatchesBoth(a: PolicyRule, b: PolicyRule)
    requires RuleWellFormed(a) && RuleWellFormed(b)
  {
    exists o :: RuleMatches(a, o) && RuleMatches(b, o)
  }

  /** Sources and destinations overlap within one and the same IP family. */
  predicate OverlapInOneFamily(a: PolicyRule, b: PolicyRule)
    requires RuleWellFormed(a) && RuleWellFormed(b)
  {
    exists v ::
      && SharedBlock(v, a.match_.sourceCidrs, b.match_.sourceCidrs)
      && SharedBlock(v, a.match_.destinationCidrs, b.match_.destinationCidrs)
  }

  predicate PortsNonEmpty(r: PolicyRule) {
    r.match_.destinationPorts.Some? ==> r.match_.destinationPorts.value != {}
  }

  /** The overlap check misses nothing: two enabled rules that can match one observation are
      reported. */
  lemma OverlapComplete(a: PolicyRule, b: PolicyRule, o: Observation)
    requires RuleWellFormed(a) && RuleWellFormed(b)
    requires RuleMatches(a, o) && RuleMatches(b, o)
    ensures Reported(a, b) && OverlapInOneFamily(a, b)
  {
    InBothSharesBlock(a.match_.sourceCidrs, b.match_.sourceCidrs, o.source.value);
    InBothSharesBlock(a.match_.destinationCidrs, b.match_.destinationCidrs, o.destination.value);
    if a.match_.destinationPorts.Some? && b.match_.destinationPorts.Some? {
      assert o.destinationPort.value in a.match_.destinationPorts.value * b.match_.destinationPorts.value;
    }
  }

  function AllFields(): set<Field> {
    {IP_VERSION, SOURCE, DESTINATION, PROTOCOL, SOURCE_PORT, DESTINATION_PORT, TCP_FLAGS, ICMP}
  }

  function Witness(v: IpVersion, s: Address, d: Address, p: Proto, port: nat): Observation {
    Observation(0, None, "", "", "", None, Unknown, 0, Some(v), Some(s), Some(d), Some(p), Some(0), Some(port),
                None, None, None, AllFields(), Complete, None, false)
  }

  lemma CommonPort(a: PolicyRule, b: PolicyRule) returns (port: nat)
    requires PortsNonEmpty(a) && PortsNonEmpty(b)
    requires PortsIntersect(a.match_.destinationPorts, b.match_.destinationPorts)
    ensures a.match_.destinationPorts.Some? ==> port in a.match_.destinationPorts.value
    ensures b.match_.destinationPorts.Some? ==> port in b.match_.destinationPorts.value
  {
    var p, q := a.match_.destinationPorts, b.match_.destinationPorts;
    if p.Some? && q.Some? {
      port :| port in p.value * q.value;
    } else if p.Some? {
      port :| port in p.value;
    } else if q.Some? {
      port :| port in q.value;
    } else {
      port := 0;
    }
  }

  lemma WitnessMatches(r: PolicyRule, v: IpVersion, s: Address, d: Address, p: Proto, port: nat)
    requires RuleWellFormed(r) && r.enabled
    requires s.version == v && d.version == v
    requires InAny(r.match_.sourceCidrs, s) && InAny(r.match_.destinationCidrs, d)
    requires r.match_.protocol.Only? ==> p == r.match_.protocol.proto
    requires r.match_.destinationPorts.Some? ==> port in r.match_.destinationPorts.value
    ensures RuleMatches(r, Witness(v, s, d, p, port))
  {
  }

  lemma OneFamilyWitness(a: PolicyRule, b: PolicyRule) returns (o: Observation)
    requires RuleWellFormed(a) && RuleWellFormed(b)
    requires a.enabled && b.enabled && PortsNonEmpty(a) && PortsNonEmpty(b)
    requires Reported(a, b) && OverlapInOneFamily(a, b)
    ensures RuleMatches(a, o) && RuleMatches(b, o)
  {
    var v :|
      && SharedBlock(v, a.match_.sourceCidrs, b.match_.sourceCidrs)
      && SharedBlock(v, a.match_.destinationCidrs, b.match_.destinationCidrs);
    var s := SharedBlockWitness(v, a.match_.sourceCidrs, b.match_.sourceCidrs);
    var d := SharedBlockWitness(v, a.match_.destinationCidrs, b.match_.destinationCidrs);
    var port := CommonPort(a, b);
    var p := if a.match_.protocol.Only? then a.match_.protocol.proto
             else if b.match_.protocol.Only? then b.match_.protocol.proto else Tcp;
    o := Witness(v, s, d, p, port);
    WitnessMatches(a, v, s, d, p, port);
    WitnessMatches(b, v, s, d, p, port);
  }

  /** Exactly when a reported pair is a real overlap: iff the blocks overlap within one family.
      (For rules of a single family that is every reported pair, see `SingleFamilyExact`.) */
  lemma ReportedExactly(a: PolicyRule, b: PolicyRule)
    requires RuleWellFormed(a) && RuleWellFormed(b)
    requires a.enabled && b.enabled && PortsNonEmpty(a) && PortsNonEmpty(b)
    ensures SomeObservationMatchesBoth(a, b) <==> Reported(a, b) && OverlapInOneFamily(a, b)
  {
    if SomeObservationMatchesBoth(a, b) {
      var o :| RuleMatches(a, o) && RuleMatches(b, o);
      OverlapComplete(a, b, o);
    }
    if Reported(a, b) && OverlapInOneFamily(a, b) {
      var o := OneFamilyWitness(a, b);
    }
  }

  /** No pair of rules (at any two positions) that can fire on one observation goes unreported. */
  lemma FindOverlapsComplete(rules: seq<PolicyRule>, i: nat, j: nat, o: Observation)
    requires RulesWellFormed(rules)
    requires i < j < |rules| && RuleMatches(rules[i], o) && RuleMatches(rules[j], o)
    ensures Listing(rules, OrderedPair(rules[i].id, rules[j].id))
  {
    OverlapComplete(rules[i], rules[j], o);
    ReportedIsListed(rules, i, j);
  }

  lemma ReportedIsListed(rules: seq<PolicyRule>, i: nat, j: nat)
    requires RulesWellFormed(rules)
    requires i < j < |rules| && rules[i].enabled && rules[j].enabled && Reported(rules[i], rules[j])
    ensures Listing(rules, OrderedPair(rules[i].id, rules[j].id))
  {
    EnabledAt(rules, i);
    EnabledAt(rules, j);
    PlacesIncrease(rules, i, j);
    assert ReportedAt(EnabledOf(rules), Place(rules, i), Place(rules, j), OrderedPair(rules[i].id, rules[j].id));
    assert ReportedFrom(EnabledOf(rules), Place(rules, i), OrderedPair(rules[i].id, rules[j].id));
    ReportedBelowMeans(EnabledOf(rules), |EnabledOf(rules)|, OrderedPair(rules[i].id, rules[j].id));
  }

  predicate SingleFamily(r: PolicyRule, v: IpVersion) {
    && (forall n :: n in r.match_.sourceCidrs ==> n.version == v)
    && (forall n :: n in r.match_.destinationCidrs ==> n.version == v)
  }

  lemma SingleFamilyExact(a: PolicyRule, b: PolicyRule, v: IpVersion)
    requires RuleWellFormed(a) && RuleWellFormed(b)
    requires a.enabled && b.enabled && PortsNonEmpty(a) && PortsNonEmpty(b)
    requires SingleFamily(a, v)
    ensures Reported(a, b) <==> SomeObservationMatchesBoth(a, b)
  {
    ReportedExactly(a, b);
    if Reported(a, b) {
      assert SharedBlock(v, a.match_.sourceCidrs, b.match_.sourceCidrs);
      assert SharedBlock(v, a.match_.destinationCidrs, b.match_.destinationCidrs);
    }
  }

  /** A reported pair comes from two rules of the list that the pairwise test reports. */
  lemma {:induction false} ListingFrom(rules: seq<PolicyRule>, p: (string, string))
      returns (a: PolicyRule, b: PolicyRule)
    requires RulesWellFormed(rules) && Listing(rules, p)
    ensures a in rules && b in rules && a.enabled && b.enabled && Reported(a, b) && p == OrderedPair(a.id, b.id)
  {
    var enabled := EnabledOf(rules);
    ReportedBelowMeans(enabled, |enabled|, p);
    var i: nat :| i < |enabled| && ReportedFrom(enabled, i, p);
    var j :| i < j < |enabled| && ReportedAt(enabled, i, j, p);
    a, b := enabled[i], enabled[j];
  }

  /** Rules as validated for the check: each of one IP family, without empty port sets. */
  ghost predicate Plain(r: PolicyRule) {
    PortsNonEmpty(r) && exists v :: SingleFamily(r, v)
  }

  /** For rules of a single family each and unique ids: the check reports two different ids iff they
      are the ids of two rules that can fire on one observation. */
  lemma FindOverlapsExact(rules: seq<PolicyRule>, i: nat, j: nat)
    requires RulesWellFormed(rules) && UniqueIds(rules) && i < j < |rules|
    requires forall r :: r in rules ==> Plain(r)
    ensures Listing(rules, OrderedPair(rules[i].id, rules[j].id)) <==> SomeObservationMatchesBoth(rules[i], rules[j])
  {
    var a, b := rules[i], rules[j];
    var p := OrderedPair(a.id, b.id);
    if Listing(rules, p) {
      var x, y := ListingFrom(rules, p);
      SameIds(rules, i, j, x, y);
      assert Plain(x);
      var v :| SingleFamily(x, v);
      SingleFamilyExact(x, y, v);
    }
    if SomeObservationMatchesBoth(a, b) {
      var o :| RuleMatches(a, o) && RuleMatches(b, o);
      FindOverlapsComplete(rules, i, j, o);
    }
  }

  /** With unique ids a pair of ids names its two rules. */
  lemma SameIds(rules: seq<PolicyRule>, i: nat, j: nat, x: PolicyRule, y: PolicyRule)
    requires UniqueIds(rules) && i < j < |rules| && x in rules && y in rules
    requires OrderedPair(x.id, y.id) == OrderedPair(rules[i].id, rules[j].id)
    ensures (x == rules[i] && y == rules[j]) || (x == rules[j] && y == rules[i])
  {
    StringLeqTotal(x.id, y.id);
    StringLeqTotal(rules[i].id, rules[j].id);
    var k :| 0 <= k < |rules| && rules[k] == x;
    var l :| 0 <= l < |rules| && rules[l] == y;
  }

  lemma ReportedSymmetric(a: PolicyRule, b: PolicyRule)
    requires RuleWellFormed(a) && RuleWellFormed(b)
    ensures Reported(a, b) <==> Reported(b, a)
  {
  }

  /** With unique ids the list of overlaps holds the ids of two rules exactly when both are enabled
      and the pairwise test reports them. */
  lemma ListingExactly(rules: seq<PolicyRule>, i: nat, j: nat)
    requires RulesWellFormed(rules) && UniqueIds(rules) && i < j < |rules|
    ensures Listing(rules, OrderedPair(rules[i].id, rules[j].id))
      <==> rules[i].enabled && rules[j].enabled && Reported(rules[i], rules[j])
  {
    var p := OrderedPair(rules[i].id, rules[j].id);
    if Listing(rules, p) {
      var x, y := ListingFrom(rules, p);
      SameIds(rules, i, j, x, y);
      ReportedSymmetric(x, y);
    }
    if rules[i].enabled && rules[j].enabled && Reported(rules[i], rules[j]) {
      ReportedIsListed(rules, i, j);
    }
  }

  /** Which listed pairs no observation can match: those whose blocks share no whole address family. */
  lemma OverReportsExactly(rules: seq<PolicyRule>, i: nat, j: nat)
    requires RulesWellFormed(rules) && UniqueIds(rules) && i < j < |rules|
    requires PortsNonEmpty(rules[i]) && PortsNonEmpty(rules[j])
    requires Listing(rules, OrderedPair(rules[i].id, rules[j].id))
    ensures SomeObservationMatchesBoth(rules[i], rules[j]) <==> OverlapInOneFamily(rules[i], rules[j])
  {
    ListingExactly(rules, i, j);
    ReportedExactly(rules[i], rules[j]);
  }

  function Host(v: IpVersion, value: nat): (n: Network)
    ensures value < Pow2(Width(v)) ==> WellFormed(n)
  {
    Network(v, value, Width(v))
  }

  lemma HostWellFormed(v: IpVersion, value: nat)
    requires value <= 32
    ensures WellFormed(Host(v, value))
  {
    Pow2Grows(Width(v));
  }

  lemma HostPairHolds(four: nat, six: nat, a: Address)
    requires four <= 32 && six <= 32
    ensures WellFormed(Host(V4, four)) && WellFormed(Host(V6, six))
    ensures InAny([Host(V4, four), Host(V6, six)], a) <==> a == Address(V4, four) || a == Address(V6, six)
  {
    HostWellFormed(V4, four);
    HostWellFormed(V6, six);
    var f, s := Host(V4, four), Host(V6, six);
    ContainsIsInterval(f, a);
    ContainsIsInterval(s, a);
    assert [f, s][0] == f && [f, s][1] == s;
  }

  function Mixed(id: string, source4: nat, source6: nat, destination4: nat, destination6: nat): PolicyRule {
    PolicyRule(id, "", true,
               PolicyMatch([Host(V4, source4), Host(V6, source6)],
                           [Host(V4, destination4), Host(V6, destination6)], AnyProto, None),
               0, NoEnforcement)
  }

  lemma MixedWellFormed(id: string, source4: nat, source6: nat, destination4: nat, destination6: nat)
    requires source4 <= 32 && source6 <= 32 && destination4 <= 32 && destination6 <= 32
    ensures RuleWellFormed(Mixed(id, source4, source6, destination4, destination6))
  {
    HostWellFormed(V4, source4);
    HostWellFormed(V6, source6);
    HostWellFormed(V4, destination4);
    HostWellFormed(V6, destination6);
  }

  lemma MixedReported(a: PolicyRule, b: PolicyRule, s4: nat, t4: nat, s6: nat, d4: nat, d6: nat, e6: nat)
    requires s4 <= 32 && t4 <= 32 && s6 <= 32 && d4 <= 32 && d6 <= 32 && e6 <= 32 && s4 != t4 && d6 != e6
    requires a == Mixed(a.id, s4, s6, d4, d6) && b == Mixed(b.id, t4, s6, d4, e6)
    ensures RuleWellFormed(a) && RuleWellFormed(b) && Reported(a, b) && !SomeObservationMatchesBoth(a, b)
  {
    MixedWellFormed(a.id, s4, s6, d4, d6);
    MixedWellFormed(b.id, t4, s6, d4, e6);
    HostPairHolds(s4, s6, Address(V6, s6));
    HostPairHolds(t4, s6, Address(V6, s6));
    InBothSharesBlock(a.match_.sourceCidrs, b.match_.sourceCidrs, Address(V6, s6));
    HostPairHolds(d4, d6, Address(V4, d4));
    HostPairHolds(d4, e6, Address(V4, d4));
    InBothSharesBlock(a.match_.destinationCidrs, b.match_.destinationCidrs, Address(V4, d4));
    forall o | RuleMatches(a, o) ensures !RuleMatches(b, o) {
      HostPairHolds(s4, s6, o.source.value);
      HostPairHolds(d4, d6, o.destination.value);
      if RuleMatches(b, o) {
        HostPairHolds(t4, s6, o.source.value);
        HostPairHolds(d4, e6, o.destination.value);
      }
    }
  }

  /** With mixed families the check over-reports: of two rules with different ids that share only an
      IPv6 source and only an IPv4 destination, the list names both, though no observation is matched
      by both. */
  lemma MixedFamiliesOverReport(id: string, other: string, s4: nat, t4: nat, s6: nat, d4: nat, d6: nat, e6: nat)
    requires id != other
    requires s4 <= 32 && t4 <= 32 && s6 <= 32 && d4 <= 32 && d6 <= 32 && e6 <= 32
    requires s4 != t4 && d6 != e6
    ensures var rules := [Mixed(id, s4, s6, d4, d6), Mixed(other, t4, s6, d4, e6)];
      && RulesWellFormed(rules) && UniqueIds(rules)
      && Listing(rules, OrderedPair(id, other))
      && !SomeObservationMatchesBoth(rules[0], rules[1])
  {
    var a, b := Mixed(id, s4, s6, d4, d6), Mixed(other, t4, s6, d4, e6);
    MixedReported(a, b, s4, t4, s6, d4, d6, e6);
    ListingExactly([a, b], 0, 1);
  }

  lemma {:induction false} Pow2Grows(n: nat)
    ensures Pow2(n) > n
  {
    if n > 0 {
      Pow2Grows(n - 1);
    }
  }
}
