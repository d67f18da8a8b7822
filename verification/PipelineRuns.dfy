/** Runs of the pipeline put together from shorter ones. */
module PipelineRuns {
  import opened Pipeline

  lemma Extend(s: State, steps: seq<Step>, step: Step)
    requires s.capacity >= 1 && Runs(s, steps) && Enabled(End(s, steps), step)
    ensures Runs(s, steps + [step]) && End(s, steps + [step]) == Next(End(s, steps), step)
  {
    var all := steps + [step];
    assert all != [] && all[..|all| - 1] == steps && all[|all| - 1] == step;
  }

  lemma LastStep(s: State, steps: seq<Step>) returns (front: seq<Step>, step: Step, before: State)
    requires s.capacity >= 1 && steps != [] && Runs(s, steps)
    ensures steps == front + [step] && |front| < |steps|
    ensures Runs(s, front) && before == End(s, front) && Enabled(before, step) && End(s, steps) == Next(before, step)
  {
    front, step := steps[..|steps| - 1], steps[|steps| - 1];
    before := End(s, front);
  }

  lemma {:induction false} EndAppend(s: State, a: seq<Step>, b: seq<Step>, t: State)
    requires s.capacity >= 1 && Runs(s, a) && t == End(s, a) && Runs(t, b)
    ensures Runs(s, a + b) && End(s, a + b) == End(t, b)
    decreases |b|
  {
    if b == [] {
      assert a + b == a;
    } else {
      var front, step, before := LastStep(t, b);
      EndAppend(s, a, front, t);
      assert a + b == (a + front) + [step];
      Extend(s, a + front, step);
    }
  }

  lemma OneStep(s: State, x: Step, a: State)
    requires s.capacity >= 1 && Enabled(s, x) && a == Next(s, x)
    ensures Runs(s, [x]) && End(s, [x]) == a
  {
    assert Runs(s, []);
    Extend(s, [], x);
    assert [] + [x] == [x];
  }

  /** Three runs one after the other. */
  lemma Chained(s: State, x: seq<Step>, a: State, y: seq<Step>, b: State, z: seq<Step>, c: State, all: seq<Step>)
    requires s.capacity >= 1 && Runs(s, x) && End(s, x) == a
    requires Runs(a, y) && End(a, y) == b
    requires Runs(b, z) && End(b, z) == c && all == x + y + z
    ensures Runs(s, all) && End(s, all) == c
  {
    EndAppend(s, x, y, a);
    EndAppend(s, x + y, z, b);
  }

  lemma ThreeSteps(s: State, x: Step, a: State, y: Step, b: State, z: Step, c: State)
    requires s.capacity >= 1 && a.capacity >= 1 && b.capacity >= 1
    requires Enabled(s, x) && a == Next(s, x)
    requires Enabled(a, y) && b == Next(a, y)
    requires Enabled(b, z) && c == Next(b, z)
    ensures Runs(s, [x, y, z]) && End(s, [x, y, z]) == c
  {
    OneStep(s, x, a);
    OneStep(a, y, b);
    OneStep(b, z, c);
    Chained(s, [x], a, [y], b, [z], c, [x, y, z]);
  }
}
