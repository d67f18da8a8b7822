/** Where the rendered lines stand: which packets a topology's chains see, and the shape of the text. */
module EnforcementPlacement {
  import opened Models
  import opened Ordering
  import opened Policy
  import opened Enforcement

  // ---------------------------------------------------------------- the packet's path

  /** Some base chain on the packet's path drops it. */
  ghost predicate Filtered(lines: seq<Line>, path: Path, p: Packet) {
    exists c :: AddChain(c, path) in lines && Walk(lines, c, p) == Dropped
  }

  /** A gateway filters what it forwards; a host what it receives and what it sends. */
  predicate Guards(topology: Topology, path: Path) {
    match topology
    case Gateway => path == Forwarded
    case HostTopology => path == Incoming || path == Outgoing
    case Mirror => false
  }

  /** A gateway has the forward chain and nothing else, a host the input and the output chain with the
      same drop lines and nothing else. */
  lemma LinesByTopology(text: Expression -> string, topology: Topology, rules: seq<PolicyRule>)
    ensures var lines := Rendered(text, topology, rules);
      && (topology == Gateway ==>
            && (forall l :: l in lines ==> l.chain == Forward)
            && (forall c, path :: AddChain(c, path) in lines <==> c == Forward && path == Forwarded)
            && (forall e :: Drop(Forward, e) in lines <==> Renders(rules, e)))
      && (topology == HostTopology ==>
            && (forall l :: l in lines ==> l.chain != Forward)
            && (forall c, path :: AddChain(c, path) in lines <==>
                  (c == Input && path == Incoming) || (c == Output && path == Outgoing))
            && (forall e :: Drop(Input, e) in lines <==> Renders(rules, e))
            && (forall e :: Drop(Output, e) in lines <==> Renders(rules, e)))
      && (topology == Mirror ==> lines == [])
  {
    ChainLinesMembers(Chains(topology));
    PolicyLinesMembers(text, Chains(topology), ById(rules));
    RenderedMembers(text, topology, rules);
    if topology == Mirror {
      NothingWithoutChains(text, ById(rules));
    }
  }

  lemma {:induction false} NothingWithoutChains(text: Expression -> string, rules: seq<PolicyRule>)
    ensures PolicyLines(text, [], rules) == []
  {
    if rules != [] {
      NothingWithoutChains(text, rules[..|rules| - 1]);
      NoRuleLines(Expressions(text, rules[|rules| - 1]), rules[|rules| - 1].id);
    }
  }

  lemma {:induction false} NoRuleLines(es: seq<Expression>, id: string)
    ensures RuleLines([], es, id) == []
  {
    if es != [] {
      NoRuleLines(es[..|es| - 1], id);
    }
  }

  lemma FilteredOnPath(text: Expression -> string, topology: Topology, rules: seq<PolicyRule>, lines: seq<Line>,
      path: Path, p: Packet, drops: bool)
    requires lines == Rendered(text, topology, rules)
    requires forall c :: c in Chains(topology) ==> (Walk(lines, c, p) == Dropped <==> drops)
    ensures Filtered(lines, path, p) <==> Guards(topology, path) && drops
  {
    LinesByTopology(text, topology, rules);
    var c := if path == Forwarded then Forward else if path == Incoming then Input else Output;
    assert Guards(topology, path) <==> AddChain(c, path) in lines;
  }

  /** A packet is dropped on its way exactly when the topology guards that way and the detector, given a
      complete observation of the packet, reports an enabled rule marked for dropping. */
  lemma FilteredExactly(text: Expression -> string, topology: Topology, rules: seq<PolicyRule>, lines: seq<Line>,
      path: Path, p: Packet, o: Observation)
    requires forall r :: r in rules ==> Validated(r)
    requires Describes(p, o) && lines == Rendered(text, topology, rules)
    ensures forall q :: q in CompileRules(ById(rules)) ==> PredicateWellFormed(q)
    ensures Filtered(lines, path, p) <==>
      && Guards(topology, path)
      && exists r :: r in RulesOf(Holding(CompileRules(ById(rules)), o)) && r.enforcement == DropCandidate
  {
    assert RulesWellFormed(rules);
    DetectorIsExact(rules, o);
    var found := RulesOf(Holding(CompileRules(ById(rules)), o));
    var drops := exists r :: r in found && r.enforcement == DropCandidate;
    forall c | c in Chains(topology) ensures Walk(lines, c, p) == Dropped <==> drops {
      RendererEqualsDetector(text, topology, rules, lines, c, p, o);
    }
    FilteredOnPath(text, topology, rules, lines, path, p, drops);
  }

  // ---------------------------------------------------------------- the shape of the text

  /** Log lines and drop lines alternate: each drop has its log right before it. */
  predicate Paired(s: seq<Line>) {
    |s| % 2 == 0 &&
    forall k :: 0 <= k < |s| / 2 ==> s[2 * k].Log? && s[2 * k + 1] == Drop(s[2 * k].chain, s[2 * k].expression)
  }

  lemma PairedMore(a: seq<Line>, b: seq<Line>)
    requires Paired(a) && Paired(b)
    ensures Paired(a + b)
  {
    var s := a + b;
    forall k | 0 <= k < |s| / 2 ensures s[2 * k].Log? && s[2 * k + 1] == Drop(s[2 * k].chain, s[2 * k].expression) {
      if 2 * k >= |a| {
        var i := k - |a| / 2;
        assert s[2 * k] == b[2 * i] && s[2 * k + 1] == b[2 * i + 1];
      }
    }
  }

  lemma {:induction false} ExpressionPaired(chains: seq<Chain>, e: Expression, id: string)
    ensures Paired(ExpressionLines(chains, e, id))
  {
    if chains != [] {
      var front, c := chains[..|chains| - 1], chains[|chains| - 1];
      ExpressionPaired(front, e, id);
      PairedMore(ExpressionLines(front, e, id), [Log(c, e, id), Drop(c, e)]);
      assert ExpressionLines(chains, e, id) == ExpressionLines(front, e, id) + [Log(c, e, id), Drop(c, e)];
    }
  }

  lemma {:induction false} RulePaired(chains: seq<Chain>, es: seq<Expression>, id: string)
    ensures Paired(RuleLines(chains, es, id))
  {
    if es != [] {
      RulePaired(chains, es[..|es| - 1], id);
      ExpressionPaired(chains, es[|es| - 1], id);
      PairedMore(RuleLines(chains, es[..|es| - 1], id), ExpressionLines(chains, es[|es| - 1], id));
    }
  }

  /** Rules come in the order of their ids. */
  predicate IdsAscend(s: seq<Line>) {
    forall i, j :: 0 <= i < j < |s| && s[i].Log? && s[j].Log? ==> StringLeq(s[i].ruleId, s[j].ruleId)
  }

  lemma {:induction false} PolicyShape(text: Expression -> string, chains: seq<Chain>, rules: seq<PolicyRule>)
    requires Sorted(IdLeq, rules)
    ensures Paired(PolicyLines(text, chains, rules)) && IdsAscend(PolicyLines(text, chains, rules))
  {
    if rules != [] {
      var front, r := rules[..|rules| - 1], rules[|rules| - 1];
      PolicyShape(text, chains, front);
      var before, more := PolicyLines(text, chains, front), CandidateLines(text, chains, r);
      var es := Expressions(text, r);
      RulePaired(chains, es, r.id);
      PairedMore(before, more);
      RuleLinesMembers(chains, es, r.id);
      PolicyLinesMembers(text, chains, front);
      forall l | l in before && l.Log? ensures StringLeq(l.ruleId, r.id) {
        assert Log(l.chain, l.expression, l.ruleId) in before;
        assert Names(front, l.expression, l.ruleId);
        var q :| q in front && q.id == l.ruleId;
        var k :| 0 <= k < |front| && rules[k] == q;
        assert IdLeq(rules[k], rules[|rules| - 1]);
      }
      StringLeqTotal(r.id, r.id);
      AscendMore(before, more, r.id);
    }
  }

  lemma AscendMore(a: seq<Line>, b: seq<Line>, id: string)
    requires IdsAscend(a) && (forall l :: l in a && l.Log? ==> StringLeq(l.ruleId, id)) && StringLeq(id, id)
    requires forall l :: l in b && l.Log? ==> l.ruleId == id
    ensures IdsAscend(a + b)
  {
    var s := a + b;
    forall i, j | 0 <= i < j < |s| && s[i].Log? && s[j].Log? ensures StringLeq(s[i].ruleId, s[j].ruleId) {
      if j >= |a| {
        assert s[j] == b[j - |a|] && s[j] in b;
        assert if i < |a| then s[i] in a else s[i] in b;
      }
    }
  }

  lemma HeadKeepsAscent(head: seq<Line>, body: seq<Line>)
    requires (forall l :: l in head ==> l.AddChain?) && IdsAscend(body)
    ensures IdsAscend(head + body)
  {
    var s := head + body;
    assert forall k :: 0 <= k < |head| ==> s[k] == head[k] && head[k] in head;
    forall i, j | 0 <= i < j < |s| && s[i].Log? && s[j].Log? ensures StringLeq(s[i].ruleId, s[j].ruleId) {
      assert s[i] == body[i - |head|] && s[j] == body[j - |head|];
    }
  }

  /** The first `n` lines add chains; behind them log and drop lines alternate, and rules are in the
      order of their ids. */
  ghost predicate Shaped(lines: seq<Line>, n: nat) {
    && n <= |lines| && (forall i :: 0 <= i < |lines| ==> (lines[i].AddChain? <==> i < n))
    && Paired(lines[n..]) && IdsAscend(lines)
  }

  lemma JoinedShape(head: seq<Line>, body: seq<Line>)
    requires (forall l :: l in head ==> l.AddChain?) && (forall l :: l in body ==> !l.AddChain?)
    requires Paired(body) && IdsAscend(body)
    ensures Shaped(head + body, |head|)
  {
    var lines, n := head + body, |head|;
    forall i | 0 <= i < |lines| ensures lines[i].AddChain? <==> i < n {
      assert if i < n then lines[i] in head else lines[i] in body;
    }
    assert lines[n..] == body;
    HeadKeepsAscent(head, body);
  }

  /** The whole text: the topology's chains first, then for each expression and chain a log line with
      its drop line right behind it, rules in the order of their ids. */
  lemma TextShape(text: Expression -> string, topology: Topology, rules: seq<PolicyRule>)
    ensures Shaped(Rendered(text, topology, rules),
                   match topology case Gateway => 1 case HostTopology => 2 case Mirror => 0)
  {
    var chains := Chains(topology);
    IdOrder();
    StableSortPermutes(IdLeq, rules);
    ChainLinesMembers(chains);
    PolicyLinesMembers(text, chains, ById(rules));
    PolicyShape(text, chains, ById(rules));
    ChainLinesLength(chains);
    JoinedShape(ChainLines(chains), PolicyLines(text, chains, ById(rules)));
  }

  lemma {:induction false} ChainLinesLength(chains: seq<Chain>)
    ensures |ChainLines(chains)| == |chains|
  {
    if chains != [] {
      ChainLinesLength(chains[..|chains| - 1]);
    }
  }
}
