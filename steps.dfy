/**
 `GenerationStep`: a step's configuration and the two transition criteria
 synthesized for it when the caller supplies none.
 */
module Steps {
  import opened Common
  import opened Experiments
  import opened Criteria
  import Text

  /** The model-selection token of a step (`Models.SOBOL`, `Models.GPEI`); it is compared, never run. */
  datatype ModelToken = Sobol | Gpei

  /** A step as its caller configures it. */
  datatype GenerationStep = GenerationStep(
    model: ModelToken,
    numTrials: int,                   // -1: no cap
    maxParallelism: Option<int>,
    minTrialsObserved: int,
    enforceNumTrials: bool,
    completionCriteria: seq<Criterion>)

  /** `GenerationStep(model=..., num_trials=...)` with every other argument left at its default. */
  function NewStep(model: ModelToken, numTrials: int): GenerationStep
  {
    GenerationStep(model, numTrials, None, 0, true, [])
  }

  /** The pair of criteria a step at position `index` gets by default. */
  function DefaultCriteria(index: nat, numTrials: int, enforce: bool, minTrialsObserved: int): (r: seq<Criterion>)
    ensures |r| == 2
    ensures r[0].MaxTrials? && r[0].threshold == numTrials && r[0].enforce == enforce && r[0].onlyInStatus.None?
    ensures r[1].MinimumTrialsInStatus? && r[1].status == Completed && r[1].threshold == minTrialsObserved
    ensures forall c :: c in r ==> c.transitionTo == Some(Text.StepName(index + 1))
  {
    var target := Some(Text.StepName(index + 1));
    [MaxTrials(numTrials, enforce, None, target), MinimumTrialsInStatus(Completed, minTrialsObserved, target)]
  }

  /** `step.transition_criteria` once the step sits at position `index` of a strategy. */
  function TransitionCriteria(step: GenerationStep, index: nat): seq<Criterion>
  {
    if step.completionCriteria != [] then step.completionCriteria
    else DefaultCriteria(index, step.numTrials, step.enforceNumTrials, step.minTrialsObserved)
  }

  /** Every criterion of the list is met on the given evidence. */
  predicate AllMet(criteria: seq<Criterion>, statuses: map<int, TrialStatus>, data: seq<DataRow>,
                   trialsFromNode: Option<set<int>>)
  {
    forall i :: 0 <= i < |criteria| ==> IsMet(criteria[i], statuses, data, trialsFromNode).met
  }

  /** The default target names the following step and no other. */
  lemma DefaultTargetIsNextStep(index: nat, numTrials: int, enforce: bool, minTrialsObserved: int, j: nat)
    ensures var r := DefaultCriteria(index, numTrials, enforce, minTrialsObserved);
            r[0].transitionTo == r[1].transitionTo
            && (r[0].transitionTo == Some(Text.StepName(j)) <==> j == index + 1)
  {
    if Text.StepName(j) == Text.StepName(index + 1) {
      Text.StepNameInjective(j, index + 1);
    }
  }

  /**
   The meaning of the default pair: a step is done when its trial count
   reaches `num_trials` (unless the cap is soft or unlimited) and at least
   `min_trials_observed` of its trials are completed.
   */
  lemma DefaultStepReadiness(step: GenerationStep, index: nat, statuses: map<int, TrialStatus>,
                             data: seq<DataRow>, fromNode: set<int>)
    requires step.completionCriteria == []
    ensures AllMet(TransitionCriteria(step, index), statuses, data, Some(fromNode)) <==>
              (!step.enforceNumTrials || step.numTrials == -1 || |fromNode| >= step.numTrials)
              && |InStatus(statuses, fromNode, Completed)| >= step.minTrialsObserved
  {
  }
}
