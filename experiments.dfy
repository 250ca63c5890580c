/**
 The experiment collaborator as the transition engine sees it: an ordered
 list of trials (a trial's index is its position), each with a status and
 the index of the generation step that produced it, and a snapshot of the
 metric data that `fetch_data` would return.
 */
module Experiments {
  import opened Common

  /** Trial lifecycle states; this core only reads them. */
  datatype TrialStatus =
    | Candidate | Staged | Failed | Completed | Running | Abandoned | Dispatched | EarlyStopped

  /** A trial: its status and the step that generated it (None for a trial made by another actor). */
  datatype Trial = Trial(status: TrialStatus, generationStep: Option<nat>)

  /** One row of fetched metric data; the mean is kept as an integer sign carrier, the sem is left out. */
  datatype DataRow = DataRow(trialIndex: int, armName: string, metricName: string, mean: int)

  /** The index-to-status view of a trial list. */
  function StatusMap(trials: seq<Trial>): map<int, TrialStatus>
  {
    map i | 0 <= i < |trials| :: trials[i].status
  }

  /** The indices of the trials that step `step` generated (`GenerationStep.trials_from_node`). */
  function TrialsFromNode(trials: seq<Trial>, step: nat): set<int>
  {
    set i | 0 <= i < |trials| && trials[i].generationStep == Some(step)
  }

  /** The status view has one key per trial. */
  lemma {:induction false} StatusMapSize(trials: seq<Trial>)
    ensures |StatusMap(trials).Keys| == |trials|
  {
    if trials != [] {
      var init := trials[..|trials| - 1];
      StatusMapSize(init);
      assert StatusMap(trials).Keys == StatusMap(init).Keys + {|init|};
    }
  }

  /** When every trial came from step `k`, step `k`'s trials are all the experiment's trials. */
  lemma AllFromOneStep(trials: seq<Trial>, k: nat)
    requires forall i :: 0 <= i < |trials| ==> trials[i].generationStep == Some(k)
    ensures TrialsFromNode(trials, k) == StatusMap(trials).Keys
    ensures |TrialsFromNode(trials, k)| == |trials|
    ensures forall j :: j != k ==> TrialsFromNode(trials, j) == {}
  {
    StatusMapSize(trials);
  }

  /** Appending a trial generated by step `k` adds its index to step `k` and to no other step. */
  lemma NewTrialAttribution(trials: seq<Trial>, status: TrialStatus, k: nat, j: nat)
    ensures TrialsFromNode(trials + [Trial(status, Some(k))], j)
         == TrialsFromNode(trials, j) + (if j == k then {|trials|} else {})
  {
  }

  /** A status change leaves every step's attribution as it was. */
  lemma StatusUpdateKeepsAttribution(trials: seq<Trial>, index: nat, status: TrialStatus, j: nat)
    requires index < |trials|
    ensures TrialsFromNode(trials[index := trials[index].(status := status)], j) == TrialsFromNode(trials, j)
  {
  }

  /** The mutable experiment: trials are appended by generation and their statuses change from outside. */
  class Experiment {
    var trials: seq<Trial>
    var data: seq<DataRow>

    constructor ()
      ensures trials == [] && data == []
    {
      trials := [];
      data := [];
    }

    /** `experiment.new_trial(generator_run)`: a new CANDIDATE trial at the next index. */
    method NewTrial(generationStep: Option<nat>) returns (index: nat)
      modifies this
      ensures index == |old(trials)|
      ensures trials == old(trials) + [Trial(Candidate, generationStep)]
      ensures data == old(data)
    {
      index := |trials|;
      trials := trials + [Trial(Candidate, generationStep)];
    }

    /** An external status change (`mark_running`, `mark_completed`, a write to `_status`). */
    method UpdateStatus(index: nat, status: TrialStatus)
      requires index < |trials|
      modifies this
      ensures trials == old(trials)[index := old(trials)[index].(status := status)]
      ensures data == old(data)
    {
      trials := trials[index := trials[index].(status := status)];
    }

    /** New metric data becomes visible to `fetch_data`. */
    method AttachData(rows: seq<DataRow>)
      modifies this
      ensures data == rows && trials == old(trials)
    {
      data := rows;
    }
  }
}
