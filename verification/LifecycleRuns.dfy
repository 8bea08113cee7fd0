/** Composing runs of the lifecycle machine. */
module LifecycleRuns {
  import opened Lifecycle

  /** Some run leads from one state to the other. */
  ghost predicate Runs(s: State, s': State) {
    exists actions :: IsRun(s, actions) && After(s, actions) == s'
  }

  lemma {:induction false} RunsJoin(s: State, first: seq<Action>, second: seq<Action>)
    requires IsRun(s, first) && IsRun(After(s, first), second)
    ensures IsRun(s, first + second) && After(s, first + second) == After(After(s, first), second)
    decreases |first|
  {
    if first == [] {
      assert first + second == second;
    } else {
      RunsJoin(Apply(s, first[0]), first[1..], second);
      assert (first + second)[1..] == first[1..] + second;
    }
  }

  lemma RunsNowhere(s: State)
    ensures Runs(s, s)
  {
    assert IsRun(s, []) && After(s, []) == s;
  }

  lemma RunsStep(s: State, action: Action)
    requires Enabled(s, action)
    ensures Runs(s, Apply(s, action))
  {
    var s' := Apply(s, action);
    assert [action][1..] == [];
    assert IsRun(s', []) && After(s', []) == s';
    assert IsRun(s, [action]) && After(s, [action]) == s';
  }

  lemma RunsOn(s: State, s1: State, s2: State)
    requires Runs(s, s1) && Runs(s1, s2)
    ensures Runs(s, s2)
  {
    var first :| IsRun(s, first) && After(s, first) == s1;
    var second :| IsRun(s1, second) && After(s1, second) == s2;
    RunsJoin(s, first, second);
  }

  lemma ReachesOn(s: State, s': State)
    requires Reachable(s) && Runs(s, s')
    ensures Reachable(s')
  {
    assert Runs(INITIAL, s);
    RunsOn(INITIAL, s, s');
  }
}
