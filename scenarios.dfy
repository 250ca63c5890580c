/**
 The behaviour the transition-criterion tests check, replayed step by step
 against the model: each method builds the same strategy and experiment,
 generates and marks trials in the same loops, and returns the values the
 tests assert on; the postconditions are those assertions.
 */
module Scenarios {
  import opened Common
  import opened Experiments
  import opened Criteria
  import opened Steps
  import opened Strategy
  import Text

  /** The number of experiment trials in status `Completed` when exactly the first `k` are. */
  lemma CompletedPrefix(trials: seq<Trial>, k: nat)
    requires k <= |trials|
    requires forall j :: 0 <= j < k ==> trials[j].status == Completed
    requires forall j :: k <= j < |trials| ==> trials[j].status != Completed
    ensures |InStatus(StatusMap(trials), StatusMap(trials).Keys, Completed)| == k
  {
    assert InStatus(StatusMap(trials), StatusMap(trials).Keys, Completed) == StatusMap(trials[..k]).Keys;
    StatusMapSize(trials[..k]);
  }

  /** Calls `gs.Gen()` `n` times on a strategy sitting at its first step. */
  method GenerateTrials(gs: GenerationStrategy, n: nat)
    requires gs.curr == 0 && |gs.steps| > 0
    requires forall j :: 0 <= j < |gs.experiment.trials| ==> gs.experiment.trials[j] == Trial(Candidate, Some(0))
    modifies gs.experiment
    ensures |gs.experiment.trials| == |old(gs.experiment.trials)| + n
    ensures forall j :: 0 <= j < |gs.experiment.trials| ==> gs.experiment.trials[j] == Trial(Candidate, Some(0))
    ensures gs.experiment.data == old(gs.experiment.data)
  {
    var i := 0;
    while i < n
      invariant 0 <= i <= n
      invariant |gs.experiment.trials| == |old(gs.experiment.trials)| + i
      invariant forall j :: 0 <= j < |gs.experiment.trials| ==> gs.experiment.trials[j] == Trial(Candidate, Some(0))
      invariant gs.experiment.data == old(gs.experiment.data)
    {
      var _ := gs.Gen();
      i := i + 1;
    }
  }

  /** Six rows of metric `m1`, one per trial, with the given means. */
  function PreferenceData(m0: int, m1: int, m2: int, m3: int, m4: int, m5: int): seq<DataRow>
  {
    [DataRow(0, "0_0", "m1", m0), DataRow(1, "1_0", "m1", m1), DataRow(2, "2_0", "m1", m2),
     DataRow(3, "3_0", "m1", m3), DataRow(4, "4_0", "m1", m4), DataRow(5, "5_0", "m1", m5)]
  }

  /**
   A first step gated only by `MinimumPreferenceOccurances("m1", 3)`: without
   data the strategy stays; with three "no" and three "yes" it moves on to
   the GPEI step.
   */
  method MinimumPreferenceCriterionScenario() returns (movedWithoutData: bool, movedWithData: bool,
                                                          currentModel: ModelToken)
    ensures !movedWithoutData
    ensures movedWithData
    ensures currentModel == Gpei
  {
    var criterion := MinimumPreferenceOccurances("m1", 3, None);
    var experiment := new Experiment();
    var gs := new GenerationStrategy("SOBOL::default",
      [GenerationStep(Sobol, -1, None, 0, true, [criterion]), GenerationStep(Gpei, -1, Some(1), 0, true, [])],
      experiment);
    assert gs.StepCriteria(0) == [criterion];
    assert !IsMet(criterion, StatusMap(experiment.trials), experiment.data, Some(gs.StepTrials(0))).met;
    assert gs.StepCriteria(0)[0] == criterion;
    assert !gs.ReadyToMove();
    movedWithoutData := gs.MaybeMoveToNextStep();
    assert !movedWithoutData;

    var data := PreferenceData(0, 0, 0, 1, 1, 1);
    experiment.AttachData(data);
    assert YesCount(data, "m1") == 3 && NoCount(data, "m1") == 3;
    movedWithData := gs.MaybeMoveToNextStep();
    currentModel := gs.steps[gs.curr].model;
  }

  /** Default criteria synthesized for a three-step strategy from each step's own parameters. */
  method DefaultStepCriterionScenario() returns (c0: seq<Criterion>, c1: seq<Criterion>, c2: seq<Criterion>)
    ensures c0 == [MaxTrials(3, true, None, Some("GenerationStep_1")),
                   MinimumTrialsInStatus(Completed, 0, Some("GenerationStep_1"))]
    ensures c1 == [MaxTrials(4, false, None, Some("GenerationStep_2")),
                   MinimumTrialsInStatus(Completed, 2, Some("GenerationStep_2"))]
    ensures c2 == [MaxTrials(-1, true, None, Some("GenerationStep_3")),
                   MinimumTrialsInStatus(Completed, 0, Some("GenerationStep_3"))]
  {
    var experiment := new Experiment();
    var gs := new GenerationStrategy("SOBOL+GPEI::default",
      [NewStep(Sobol, 3), GenerationStep(Gpei, 4, Some(1), 2, false, []), GenerationStep(Gpei, -1, Some(1), 0, true, [])],
      experiment);
    assert Text.StepName(1) == "GenerationStep_1" by { assert Text.DigitChar(1) == '1'; }
    assert Text.StepName(2) == "GenerationStep_2" by { assert Text.DigitChar(2) == '2'; }
    assert Text.StepName(3) == "GenerationStep_3" by { assert Text.DigitChar(3) == '3'; }
    c0 := gs.StepCriteria(0);
    c1 := gs.StepCriteria(1);
    c2 := gs.StepCriteria(2);
  }

  /**
   Four trials generated at step 0 all belong to step 0; MinimumTrialsInStatus(COMPLETED, 2)
   fails while none is completed and holds once the first two are.
   */
  method MinimumTrialsInStatusScenario() returns (node0: nat, node1: nat, metBefore: bool, metAfter: bool)
    ensures node0 == 4 && node1 == 0
    ensures !metBefore
    ensures metAfter
  {
    var experiment := new Experiment();
    var gs := new GenerationStrategy("SOBOL::default",
      [GenerationStep(Sobol, 4, None, 2, true, []), GenerationStep(Sobol, -1, Some(1), 0, true, [])],
      experiment);
    GenerateTrials(gs, 4);
    AllFromOneStep(experiment.trials, 0);
    node0 := |gs.StepTrials(0)|;
    node1 := |gs.StepTrials(1)|;

    var criterion := gs.StepCriteria(0)[1];
    CompletedPrefix(experiment.trials, 0);
    metBefore := IsMet(criterion, StatusMap(experiment.trials), experiment.data, Some(gs.StepTrials(0))).met;

    // mark_running().mark_completed() on the trials up to index 1
    for idx := 0 to 2
      invariant |experiment.trials| == 4
      invariant forall j :: 0 <= j < 4 ==> experiment.trials[j].generationStep == Some(0)
      invariant forall j :: 0 <= j < idx ==> experiment.trials[j].status == Completed
      invariant forall j :: idx <= j < 4 ==> experiment.trials[j].status == Candidate
    {
      experiment.UpdateStatus(idx, Running);
      experiment.UpdateStatus(idx, Completed);
    }
    AllFromOneStep(experiment.trials, 0);
    CompletedPrefix(experiment.trials, 2);
    metAfter := IsMet(criterion, StatusMap(experiment.trials), experiment.data, Some(gs.StepTrials(0))).met;
  }

  /**
   MaxTrials with a soft cap holds at once; the enforced cap of 4 fails with no
   trials and holds after four; the unlimited cap (-1) holds.
   */
  method MaxTrialsScenario() returns (softMet: bool, emptyMet: bool, fullMet: bool, uncappedMet: bool)
    ensures softMet
    ensures !emptyMet
    ensures fullMet
    ensures uncappedMet
  {
    var experiment := new Experiment();
    var gs := new GenerationStrategy("SOBOL::default",
      [GenerationStep(Sobol, 4, None, 0, true, []), GenerationStep(Sobol, 4, None, 0, false, []),
       GenerationStep(Sobol, -1, Some(1), 0, true, [])],
      experiment);
    softMet := IsMet(gs.StepCriteria(1)[0], StatusMap(experiment.trials), experiment.data, Some(gs.StepTrials(1))).met;
    AllFromOneStep(experiment.trials, 0);
    emptyMet := IsMet(gs.StepCriteria(0)[0], StatusMap(experiment.trials), experiment.data, Some(gs.StepTrials(0))).met;
    GenerateTrials(gs, 4);
    AllFromOneStep(experiment.trials, 0);
    fullMet := IsMet(gs.StepCriteria(0)[0], StatusMap(experiment.trials), experiment.data, Some(gs.StepTrials(0))).met;
    uncappedMet := IsMet(gs.StepCriteria(2)[0], StatusMap(experiment.trials), experiment.data, Some(gs.StepTrials(2))).met;
  }

  /** MaxTrials(5, only_in_status=RUNNING) over trials {2, 3} of an empty experiment fails. */
  method MaxTrialsStatusArgScenario() returns (met: bool)
    ensures !met
  {
    var experiment := new Experiment();
    var criterion := MaxTrials(5, true, Some(Running), None);
    assert InStatus(StatusMap(experiment.trials), {2, 3}, Running) == {};
    met := IsMet(criterion, StatusMap(experiment.trials), experiment.data, Some({2, 3})).met;
  }

  /**
   Without a trial set, MaxTrials and MinimumTrialsInStatus count the whole
   experiment and warn: MaxTrials(2) fails on no trials and holds on three;
   with only_in_status=COMPLETED it holds once two are completed;
   MinimumTrialsInStatus(COMPLETED, 3) holds once all three are.
   */
  method TrialsFromNodeNoneScenario() returns (maxBefore: bool, maxWarning: Option<string>, maxAfter: bool,
                                               statusBefore: bool, statusAfter: bool,
                                               minBefore: bool, minWarning: Option<string>, minAfter: bool)
    ensures !maxBefore && maxWarning == Some(FallbackWarning) && maxAfter
    ensures !statusBefore && statusAfter
    ensures !minBefore && minWarning == Some(FallbackWarning) && minAfter
  {
    var experiment := new Experiment();
    var gs := new GenerationStrategy("SOBOL::default", [GenerationStep(Sobol, 4, None, 2, true, [])], experiment);
    var maxWithStatus := MaxTrials(2, true, Some(Completed), None);
    var maxCriterion := MaxTrials(2, true, None, None);

    var verdict := IsMet(maxCriterion, StatusMap(experiment.trials), experiment.data, None);
    StatusMapSize(experiment.trials);
    maxBefore, maxWarning := verdict.met, verdict.warning;
    GenerateTrials(gs, 3);
    StatusMapSize(experiment.trials);
    maxAfter := IsMet(maxCriterion, StatusMap(experiment.trials), experiment.data, None).met;

    CompletedPrefix(experiment.trials, 0);
    statusBefore := IsMet(maxWithStatus, StatusMap(experiment.trials), experiment.data, None).met;
    // trial._status = COMPLETED on the trials up to index 1
    for idx := 0 to 2
      invariant |experiment.trials| == 3
      invariant forall j :: 0 <= j < idx ==> experiment.trials[j].status == Completed
      invariant forall j :: idx <= j < 3 ==> experiment.trials[j].status == Candidate
    {
      experiment.UpdateStatus(idx, Completed);
    }
    CompletedPrefix(experiment.trials, 2);
    statusAfter := IsMet(maxWithStatus, StatusMap(experiment.trials), experiment.data, None).met;

    var minCriterion := MinimumTrialsInStatus(Completed, 3, None);
    verdict := IsMet(minCriterion, StatusMap(experiment.trials), experiment.data, None);
    minBefore, minWarning := verdict.met, verdict.warning;
    // every trial._status = COMPLETED
    for idx := 0 to 3
      invariant |experiment.trials| == 3
      invariant forall j :: 0 <= j < 3 ==>
                  experiment.trials[j].status == if j < 2 || j < idx then Completed else Candidate
    {
      experiment.UpdateStatus(idx, Completed);
    }
    CompletedPrefix(experiment.trials, 3);
    minAfter := IsMet(minCriterion, StatusMap(experiment.trials), experiment.data, None).met;
  }

  /**
   A step of four trials with two to observe, followed by a last step: four
   generated trials with one completed do not move the cursor; a second
   completed trial does.
   */
  method AdvanceAfterObservedTrialsScenario() returns (movedAtOne: bool, cursorAtOne: nat,
                                                        movedAtTwo: bool, cursorAtTwo: nat)
    ensures !movedAtOne && cursorAtOne == 0
    ensures movedAtTwo && cursorAtTwo == 1
  {
    var experiment := new Experiment();
    var gs := new GenerationStrategy("SOBOL::default",
      [GenerationStep(Sobol, 4, None, 2, true, []), GenerationStep(Sobol, -1, Some(1), 0, true, [])],
      experiment);
    GenerateTrials(gs, 4);

    experiment.UpdateStatus(0, Completed);
    AllFromOneStep(experiment.trials, 0);
    CompletedPrefix(experiment.trials, 1);
    DefaultStepReadiness(gs.steps[0], 0, StatusMap(experiment.trials), experiment.data, gs.StepTrials(0));
    movedAtOne := gs.MaybeMoveToNextStep();
    cursorAtOne := gs.curr;

    experiment.UpdateStatus(1, Completed);
    AllFromOneStep(experiment.trials, 0);
    CompletedPrefix(experiment.trials, 2);
    DefaultStepReadiness(gs.steps[0], 0, StatusMap(experiment.trials), experiment.data, gs.StepTrials(0));
    movedAtTwo := gs.MaybeMoveToNextStep();
    cursorAtTwo := gs.curr;
  }
}
