/**
 * What one platform call answers, what deploying one action yields, and the
 * per-action loop every deploy_to_* routine runs: actions are deployed in
 * order and the first failure ends the whole run (sys.exit(1)); nothing
 * after it is attempted.
 */
module Deployment {
  import opened Basics
  import opened WorkflowModel

  /** The outcome of one SDK or CLI call: it returned, it raised a not-found error, or it raised anything else. */
  datatype Call = Succeeded | Missing | Raised

  datatype Kind = Created | Updated | Unchanged

  /** The final Lambda memory (MB) and timeout (s) an action is configured with (Lambda steps only). */
  datatype Settings = Settings(memory: int, timeout: int)

  datatype Step =
    | Done(unit: string, kind: Kind, config: Option<Settings>)
    | Failed(unit: string, fault: Fault)

  /** A platform routine either returns (all its actions done) or stops the process. */
  datatype Run = Finished(steps: seq<Step>) | Aborted(steps: seq<Step>, fault: Fault)

  /**
   * The steps taken for `actions`: the steps of a prefix of the actions, in
   * order, every one but the last successful; fewer than all actions are
   * attempted only when the last attempted one failed.
   */
  function Attempted(actions: seq<Action>, step: Action -> Step): (r: seq<Step>)
    ensures |r| <= |actions|
    ensures forall i :: 0 <= i < |r| ==> r[i] == step(actions[i])
    ensures forall i :: 0 <= i < |r| - 1 ==> r[i].Done?
    ensures |r| < |actions| ==> |r| > 0 && r[|r| - 1].Failed?
    decreases |actions|
  {
    if actions == [] then []
    else if step(actions[0]).Failed? then [step(actions[0])]
    else
      var rest := Attempted(actions[1..], step);
      assert forall i :: 0 < i < |actions| ==> actions[i] == actions[1..][i - 1];
      [step(actions[0])] + rest
  }

  /**
   * When the first k actions succeed, Attempted runs through all of them and
   * stops right after action k if that one fails.
   */
  lemma {:induction false} AttemptedUpTo(actions: seq<Action>, step: Action -> Step, k: nat)
    requires k <= |actions|
    requires forall j :: 0 <= j < k ==> step(actions[j]).Done?
    ensures k == |actions| ==> |Attempted(actions, step)| == |actions|
    ensures k < |actions| && step(actions[k]).Failed? ==> |Attempted(actions, step)| == k + 1
    decreases k
  {
    if k > 0 {
      assert forall j :: 0 <= j < k - 1 ==> actions[1..][j] == actions[j + 1];
      AttemptedUpTo(actions[1..], step, k - 1);
    }
  }

  /** The run that the steps of Attempted make up: aborted with its last step's fault when that step failed. */
  function Outcome(actions: seq<Action>, step: Action -> Step): (r: Run)
    ensures r.steps == Attempted(actions, step)
    ensures r.Aborted? ==> |r.steps| > 0 && r.steps[|r.steps| - 1].Failed? && r.fault == r.steps[|r.steps| - 1].fault
    ensures r.Finished? ==> forall i :: 0 <= i < |r.steps| ==> r.steps[i].Done?
  {
    var steps := Attempted(actions, step);
    if |steps| > 0 && steps[|steps| - 1].Failed? then Aborted(steps, steps[|steps| - 1].fault) else Finished(steps)
  }

  /**
   * A run finishes exactly when every action's step succeeds, and then it
   * holds one step per action, in order.
   */
  lemma {:induction false} OutcomeFinishedIff(actions: seq<Action>, step: Action -> Step)
    ensures Outcome(actions, step).Finished? <==> forall i :: 0 <= i < |actions| ==> step(actions[i]).Done?
    ensures Outcome(actions, step).Finished? ==> |Outcome(actions, step).steps| == |actions|
    decreases |actions|
  {
    if actions != [] && step(actions[0]).Done? {
      var rest := actions[1..];
      OutcomeFinishedIff(rest, step);
      assert forall i :: 0 < i < |actions| ==> actions[i] == rest[i - 1];
    }
  }

  /**
   * The per-action loop of a deploy_to_* routine. It finishes exactly when
   * every action's step succeeds (OutcomeFinishedIff); otherwise it stops at
   * the first failing action, having attempted exactly the actions before it.
   */
  method DeployEach(actions: seq<Action>, step: Action -> Step) returns (run: Run)
    ensures run == Outcome(actions, step)
    ensures run.steps == Attempted(actions, step)
    ensures run.Aborted? ==> |run.steps| >= 1 && run.steps[|run.steps| - 1].Failed? && run.fault == run.steps[|run.steps| - 1].fault
  {
    var done: seq<Step> := [];
    for i := 0 to |actions|
      invariant |done| == i
      invariant forall j :: 0 <= j < i ==> done[j] == step(actions[j]) && done[j].Done?
    {
      var s := step(actions[i]);
      if s.Failed? {
        AttemptedUpTo(actions, step, i);
        assert Attempted(actions, step) == done + [s];
        return Aborted(done + [s], s.fault);
      }
      done := done + [s];
    }
    AttemptedUpTo(actions, step, |actions|);
    assert Attempted(actions, step) == done;
    return Finished(done);
  }
}
