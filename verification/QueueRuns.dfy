/** Running a schedule piece by piece. */
module QueueRuns {
  import opened QueueMachine

  lemma {:induction false} RunAppend(s: State, a: seq<Action>, b: seq<Action>)
    ensures Run(s, a + b) == Run(Run(s, a), b)
    decreases a
  {
    hide Step;
    if a == [] {
      assert a + b == b;
    } else {
      assert (a + b)[1..] == a[1..] + b;
      RunAppend(Step(s, a[0]), a[1..], b);
    }
  }

  lemma OneStep(s: State, a: Action)
    ensures Run(s, [a]) == Step(s, a)
  {
    hide Step;
    assert [a][1..] == [];
    assert Run(Step(s, a), []) == Step(s, a);
  }

  lemma RunSnoc(s: State, actions: seq<Action>, a: Action)
    ensures Run(s, actions + [a]) == Step(Run(s, actions), a)
  {
    hide Step, Run;
    RunAppend(s, actions, [a]);
    OneStep(Run(s, actions), a);
  }

  lemma TwoSteps(s: State, a: Action, b: Action)
    ensures Run(s, [a, b]) == Step(Step(s, a), b)
  {
    hide Step, Run;
    assert [a, b] == [a] + [b];
    RunSnoc(s, [a], b);
    OneStep(s, a);
  }
}
