/** The renderer's output does not depend on the order in which rules and blocks are written down. */
module EnforcementOrder {
  import opened Models
  import opened Ordering
  import opened Policy
  import opened Enforcement

  /** The same rule with its blocks listed in another order, or repeatedly. */
  ghost predicate SameRule(r: PolicyRule, q: PolicyRule) {
    var sources, destinations := q.match_.sourceCidrs, q.match_.destinationCidrs;
    && q == r.(match_ := r.match_.(sourceCidrs := sources, destinationCidrs := destinations))
    && (forall n :: n in r.match_.sourceCidrs <==> n in sources)
    && (forall n :: n in r.match_.destinationCidrs <==> n in destinations)
  }

  ghost predicate Relisted(a: seq<PolicyRule>, b: seq<PolicyRule>) {
    |a| == |b| && forall i :: 0 <= i < |a| ==> SameRule(a[i], b[i])
  }

  lemma SameExpressions(text: Expression -> string, r: PolicyRule, q: PolicyRule)
    requires SameRule(r, q)
    ensures Expressions(text, r) == Expressions(text, q)
  {
    StandsIsMember(r);
    StandsIsMember(q);
    assert forall e :: Stands(r, e) <==> Stands(q, e);
    assert ExpressionSet(r) == ExpressionSet(q);
  }

  lemma {:induction false} InsertRelisted(a: seq<PolicyRule>, b: seq<PolicyRule>, x: PolicyRule, y: PolicyRule)
    requires Relisted(a, b) && SameRule(x, y)
    ensures Relisted(Insert(IdLeq, a, x), Insert(IdLeq, b, y))
  {
    if a != [] && !IdLeq(a[|a| - 1], x) {
      InsertRelisted(a[..|a| - 1], b[..|b| - 1], x, y);
    }
  }

  lemma {:induction false} SortRelisted(a: seq<PolicyRule>, b: seq<PolicyRule>)
    requires Relisted(a, b)
    ensures Relisted(ById(a), ById(b))
  {
    if a != [] {
      SortRelisted(a[..|a| - 1], b[..|b| - 1]);
      InsertRelisted(ById(a[..|a| - 1]), ById(b[..|b| - 1]), a[|a| - 1], b[|b| - 1]);
    }
  }

  lemma {:induction false} LinesRelisted(text: Expression -> string, chains: seq<Chain>, a: seq<PolicyRule>,
      b: seq<PolicyRule>)
    requires Relisted(a, b)
    ensures PolicyLines(text, chains, a) == PolicyLines(text, chains, b)
  {
    if a != [] {
      LinesRelisted(text, chains, a[..|a| - 1], b[..|b| - 1]);
      SameExpressions(text, a[|a| - 1], b[|b| - 1]);
    }
  }

  /** Rules with unique ids have one order by id. */
  lemma SortPermuted(a: seq<PolicyRule>, b: seq<PolicyRule>)
    requires UniqueIds(a) && multiset(a) == multiset(b)
    ensures ById(a) == ById(b)
  {
    IdOrder();
    ByIdSameRules(a);
    ByIdSameRules(b);
    forall x, y | x in multiset(ById(a)) && y in multiset(ById(a)) && Tied(IdLeq, x, y) ensures x == y {
      StringLeqTotal(x.id, y.id);
      assert x in multiset(a) && y in multiset(a);
      var i :| 0 <= i < |a| && a[i] == x;
      var j :| 0 <= j < |a| && a[j] == y;
    }
    SortedUnique(IdLeq, ById(a), ById(b));
  }

  /** Rules permuted in any way, and each rule's blocks listed in any way: the very same lines in the
      very same order. */
  lemma RenderingIsDeterministic(text: Expression -> string, topology: Topology,
      rules: seq<PolicyRule>, permuted: seq<PolicyRule>, relisted: seq<PolicyRule>)
    requires UniqueIds(rules) && multiset(rules) == multiset(permuted) && Relisted(permuted, relisted)
    ensures Rendered(text, topology, rules) == Rendered(text, topology, relisted)
  {
    SortPermuted(rules, permuted);
    SortRelisted(permuted, relisted);
    LinesRelisted(text, Chains(topology), ById(permuted), ById(relisted));
  }

  /** Within the lines of one rule, no expression repeats and their texts ascend. */
  lemma ExpressionsAscend(text: Expression -> string, r: PolicyRule)
    ensures var es := Expressions(text, r);
      && (forall e :: e in es <==> Stands(r, e))
      && (forall i, j :: 0 <= i < j < |es| ==> es[i] != es[j] && StringLeq(text(es[i]), text(es[j])))
  {
    TextOrder(text);
    StandsIsMember(r);
    var es := Expressions(text, r);
    forall i, j | 0 <= i < j < |es| ensures StringLeq(text(es[i]), text(es[j])) {
      assert ByText(text)(es[i], es[j]);
    }
  }
}
