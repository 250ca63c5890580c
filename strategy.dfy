/**
 `GenerationStrategy`: an ordered list of steps, a cursor to the current
 step, and the experiment it generates trials for. Generation appends a
 CANDIDATE trial attributed to the current step; the advance check ANDs
 every criterion of the current step, evaluated on that step's own trials,
 and on success moves the cursor one step on. A cursor equal to the number
 of steps is the terminal state: every step is done.
 */
module Strategy {
  import opened Common
  import opened Experiments
  import opened Criteria
  import opened Steps

  /** How many of `criteria` count trials (and so warn when given no trial set). */
  function CountingCriteria(criteria: seq<Criterion>): nat
  {
    if criteria == [] then 0
    else CountingCriteria(criteria[..|criteria| - 1]) + (if CountsTrials(criteria[|criteria| - 1]) then 1 else 0)
  }

  /**
   Evaluates every criterion, without stopping at the first unmet one, so
   that each criterion's warning is produced; returns the conjunction and
   the warnings in criterion order.
   */
  method EvaluateAll(criteria: seq<Criterion>, statuses: map<int, TrialStatus>, data: seq<DataRow>,
                     trialsFromNode: Option<set<int>>) returns (allMet: bool, warnings: seq<string>)
    ensures allMet <==> AllMet(criteria, statuses, data, trialsFromNode)
    ensures trialsFromNode.Some? ==> warnings == []
    ensures trialsFromNode.None? ==> |warnings| == CountingCriteria(criteria)
    ensures forall k :: 0 <= k < |warnings| ==> warnings[k] == FallbackWarning
  {
    allMet := true;
    warnings := [];
    var i := 0;
    while i < |criteria|
      invariant 0 <= i <= |criteria|
      invariant allMet <==> forall j :: 0 <= j < i ==> IsMet(criteria[j], statuses, data, trialsFromNode).met
      invariant trialsFromNode.Some? ==> warnings == []
      invariant trialsFromNode.None? ==> |warnings| == CountingCriteria(criteria[..i])
      invariant forall k :: 0 <= k < |warnings| ==> warnings[k] == FallbackWarning
    {
      var verdict := IsMet(criteria[i], statuses, data, trialsFromNode);
      allMet := allMet && verdict.met;
      if verdict.warning.Some? {
        warnings := warnings + [verdict.warning.value];
      }
      assert criteria[..i + 1][..i] == criteria[..i];
      i := i + 1;
    }
    assert criteria[..i] == criteria;
  }

  class GenerationStrategy {
    const name: string
    const steps: seq<GenerationStep>
    const experiment: Experiment
    var curr: nat

    /**
     The cursor is a step position or the terminal position just past the last
     step: the constructor establishes it and `MaybeMoveToNextStep` keeps it.
     */
    ghost predicate Valid()
      reads this
    {
      curr <= |steps|
    }

    constructor (name: string, steps: seq<GenerationStep>, experiment: Experiment)
      ensures Valid()
      ensures this.name == name && this.steps == steps && this.experiment == experiment
      ensures curr == 0
    {
      this.name := name;
      this.steps := steps;
      this.experiment := experiment;
      curr := 0;
    }

    /** The strategy has moved past its last step. */
    predicate IsDone()
      reads this
    {
      curr >= |steps|
    }

    /** `_steps[i].trials_from_node`. */
    function StepTrials(i: nat): set<int>
      reads this, experiment
    {
      TrialsFromNode(experiment.trials, i)
    }

    /** `_steps[i].transition_criteria`. */
    function StepCriteria(i: nat): seq<Criterion>
      requires i < |steps|
      reads this
    {
      TransitionCriteria(steps[i], i)
    }

    /** The current step is done: every one of its criteria holds on its own trials. */
    function ReadyToMove(): bool
      reads this, experiment
    {
      !IsDone() &&
      AllMet(StepCriteria(curr), StatusMap(experiment.trials), experiment.data, Some(StepTrials(curr)))
    }

    /**
     `gs.gen()` followed by `experiment.new_trial(...)`: a CANDIDATE trial
     attributed to the current step; a completed strategy generates nothing.
     */
    method Gen() returns (index: Option<nat>)
      modifies experiment
      ensures !IsDone() ==>
                index == Some(|old(experiment.trials)|)
                && experiment.trials == old(experiment.trials) + [Trial(Candidate, Some(curr))]
      ensures IsDone() ==> index.None? && experiment.trials == old(experiment.trials)
      ensures experiment.data == old(experiment.data)
      // only the current step gains a trial
      ensures !IsDone() ==> StepTrials(curr) == old(StepTrials(curr)) + {|old(experiment.trials)|}
      ensures forall j: nat :: j != curr ==> StepTrials(j) == old(StepTrials(j))
    {
      if curr < |steps| {
        ghost var before := experiment.trials;
        var i := experiment.NewTrial(Some(curr));
        index := Some(i);
        forall j: nat
          ensures TrialsFromNode(experiment.trials, j) == TrialsFromNode(before, j) + (if j == curr then {|before|} else {})
        {
          NewTrialAttribution(before, Candidate, curr, j);
        }
      } else {
        index := None;
      }
    }

    /** `_maybe_move_to_next_step()`: advance when the current step is done. */
    method MaybeMoveToNextStep() returns (moved: bool)
      requires Valid()
      modifies this
      ensures Valid()
      ensures moved == old(ReadyToMove())
      ensures curr == if moved then old(curr) + 1 else old(curr)
    {
      if curr >= |steps| {
        return false;
      }
      var allMet, warnings := EvaluateAll(StepCriteria(curr), StatusMap(experiment.trials), experiment.data,
                                          Some(StepTrials(curr)));
      assert warnings == [];
      moved := allMet;
      if moved {
        curr := curr + 1;
      }
    }
  }
}
