# Step-transition engine of a generation strategy

This project is a Dafny model of the part of Ax's generation strategy that decides
when to advance from one generation step to the next. It also proves properties of
that model.

- **Transition criteria.** There are three kinds: `MaxTrials`, `MinimumTrialsInStatus` and
  `MinimumPreferenceOccurances`. Each has an `is_met` check over the experiment's trials.
  The trials in scope are the ones the step generated (`trials_from_node`). When no trial
  set is given, the scope is every trial of the experiment and a fixed warning is logged.
- **`GenerationStep`.** When a step is given no criteria of its own, it gets a default pair:
  `MaxTrials(num_trials, enforce_num_trials)` and `MinimumTrialsInStatus(COMPLETED, min_trials_observed)`.
  Both name the following step, `"GenerationStep_<index + 1>"`, as their target.
- **`GenerationStrategy`.** It holds the steps and a cursor to the current step.
  Generation appends a CANDIDATE trial attributed to the current step.
  `_maybe_move_to_next_step` evaluates every criterion of the current step on that step's
  own trials. If all of them hold, it moves the cursor one step on.

Ax's implementation modules `ax/modelbridge/transition_criterion.py` and
`ax/modelbridge/generation_strategy.py` are not modelled line by line. The behaviour
modelled is what the test suite `ax/modelbridge/tests/test_transition_criterion.py`
asserts, and, where the tests leave it open, the choices listed below. Module
`Scenarios` replays every test of that suite except `test_repr`: the same strategies,
the same generation and status-marking loops, and the test assertions as
postconditions. One further scenario drives the cursor advance over the set-up of
`test_minimum_trials_in_status`.

Modules:

- `Common` holds `Option`.
- `Text` holds decimal rendering and step names.
- `Experiments` holds trial statuses, trials, data rows and the `Experiment` class. In that
  class, `trials` is a sequence whose positions are the trial indices, and `data` is the
  fetched metric rows.
- `Criteria` holds the criteria, `IsMet` and `Repr`.
- `Steps` holds `GenerationStep`, the default criteria and readiness.
- `Strategy` holds the `GenerationStrategy` class.
- `Scenarios` holds the tests, replayed.

Modelling choices:

- **Counting `MaxTrials`.** Without `only_in_status`, `MaxTrials` counts the whole scope,
  as `len(trials_from_node)` does. With `only_in_status`, it counts only the scope's trials
  that the experiment has in that status. So the indices `{2, 3}` checked against an empty
  experiment (test line 271) count as zero matching trials and are not an error.
- **When the warning is produced.** The fallback warning
  `"trials_from_node is None, will check threshold on experiment level"` is produced by
  both counting criteria whenever no trial set is given, with or without the overrides.
  `MinimumPreferenceOccurances` ignores the trial set and never warns. The warning is part
  of the returned `Verdict`; nothing is written to a log.
- **Preference means.** A mean is an integer. "yes" means the mean is positive and "no"
  means it is zero or negative. The criterion is met only when rows of its metric exist
  and both counts reach the threshold.
- **Explicit criteria.** Criteria given explicitly to a step (`completion_criteria`) replace
  the default pair.
- **Advancing.** The cursor moves one step on. The default targets are proved to name
  exactly that step. A cursor equal to the number of steps is the terminal state. In that
  state generation yields nothing and the advance check returns false.

## Model

| member | source | states |
|---|---|---|
| `Text.StepName` | ax/modelbridge/tests/test_transition_criterion.py:111-133 | The identifier of the step at position `i` is `"GenerationStep_"` followed by the decimal digits of `i`. It is longer than the prefix and begins with it; `Text.StepNameInjective` proves it names one position only. |
| `Steps.NewStep` | ax/modelbridge/tests/test_transition_criterion.py:90-93 | Definition, no contract of its own: a step built from a model and `num_trials` alone has `enforce_num_trials` true, `min_trials_observed` 0, no `max_parallelism` and no explicit criteria. `Scenarios.DefaultStepCriterionScenario` shows these defaults give `MaxTrials(3, enforce=True)` and `MinimumTrialsInStatus(COMPLETED, 0)`. |
| `Steps.TransitionCriteria` | ax/modelbridge/tests/test_transition_criterion.py:36-40 | Definition, no contract of its own: a step's `transition_criteria` are its explicit `completion_criteria` when it has any, and otherwise the default pair of `Steps.DefaultCriteria`. `Steps.DefaultStepReadiness` states what the default pair requires, and `Scenarios.MinimumPreferenceCriterionScenario` covers the explicit case. |
| `Experiments.TrialsFromNode` | ax/modelbridge/tests/test_transition_criterion.py:170-174 | Definition, no contract of its own: a step's `trials_from_node` is the set of indices of the experiment's trials that the step generated. `Experiments.NewTrialAttribution`, `Experiments.StatusUpdateKeepsAttribution` and `Experiments.AllFromOneStep` carry its properties. |
| `Strategy.GenerationStrategy.constructor` | ax/modelbridge/tests/test_transition_criterion.py:33-48 | A strategy over the given steps, attached to the given experiment, with its cursor on the first step. It establishes `Valid()`: the cursor is never past the terminal position. |
| `Scenarios.GenerateTrials` | ax/modelbridge/tests/test_transition_criterion.py:166-167 | `n` rounds of `experiment.new_trial(gs.gen(...))` on a strategy at its first step. The experiment gains exactly `n` trials, all CANDIDATE and all attributed to step 0. The data is unchanged. |
| `Criteria.IsMet` | ax/modelbridge/tests/test_transition_criterion.py:195-332 | The warning is logged exactly when a counting criterion gets no trial set. MaxTrials is met when not enforced or when the threshold is -1; otherwise it is met iff the count of the scope, or of the scope's trials in `only_in_status`, reaches the threshold. MinimumTrialsInStatus is met iff the scope's trials in the status reach the threshold. MinimumPreferenceOccurances is met iff its metric has rows and both the yes and the no counts reach the threshold, which needs at least twice the threshold in rows. |
| `Criteria.ExperimentLevelFallback` | ax/modelbridge/tests/test_transition_criterion.py:295-332 | Passing no trial set gives the same verdict as passing every trial of the experiment. Only the absent set produces the warning. |
| `Criteria.StatusFilterOnlyStrengthens` | ax/modelbridge/tests/test_transition_criterion.py:262-271 | A MaxTrials criterion restricted to one status that is met stays met without the restriction. The status filter never counts more trials. |
| `Criteria.MetIsMonotone` | ax/modelbridge/tests/test_transition_criterion.py:241-251 | A met counting criterion stays met when the scope grows and no trial leaves the status it counts (`only_in_status` for MaxTrials, `status` for MinimumTrialsInStatus). Trials in other statuses may change; an unfiltered MaxTrials allows any status change. |
| `Criteria.MarkTrialAddsOne` | ax/modelbridge/tests/test_transition_criterion.py:184-193 | Moving one trial of the scope into a status raises that status's count by exactly one. |
| `Criteria.PreferencePartition` | ax/modelbridge/tests/test_transition_criterion.py:57-74 | Every row of the metric counts as exactly one of yes and no. |
| `Criteria.PreferenceCountsAppend` | ax/modelbridge/tests/test_transition_criterion.py:57-74 | The row, yes and no counts of concatenated data are the sums of the counts of the parts. |
| `Criteria.MorePreferenceDataKeepsMet` | ax/modelbridge/tests/test_transition_criterion.py:68-74 | A met preference criterion stays met when more data arrives. |
| `Criteria.Repr` | ax/modelbridge/tests/test_transition_criterion.py:334-368 | The representation begins with the criterion's class name and an opening parenthesis. |
| `Criteria.ReprDistinguishesKinds` | ax/modelbridge/tests/test_transition_criterion.py:334-368 | Criteria of different kinds never have the same representation. |
| `Text.NatToStringInjective` | ax/modelbridge/tests/test_transition_criterion.py:110-133 | Different step indices are rendered as different decimal strings. |
| `Text.IntToStringInjective` | ax/modelbridge/tests/test_transition_criterion.py:344-368 | Different thresholds, including negative ones, are rendered differently. |
| `Text.StepNameInjective` | ax/modelbridge/tests/test_transition_criterion.py:110-133 | A name `"GenerationStep_<i>"` identifies exactly one step position. |
| `Steps.DefaultCriteria` | ax/modelbridge/tests/test_transition_criterion.py:110-142 | The default list has exactly two criteria: MaxTrials with `num_trials` and `enforce_num_trials` and no status filter, then MinimumTrialsInStatus(COMPLETED, `min_trials_observed`). Both target `"GenerationStep_<index + 1>"`. |
| `Steps.DefaultTargetIsNextStep` | ax/modelbridge/tests/test_transition_criterion.py:110-133 | The two defaults share one target. That target names step `index + 1` and no other step. |
| `Steps.DefaultStepReadiness` | ax/modelbridge/tests/test_transition_criterion.py:144-193 | A step with default criteria is ready iff its trial count reaches `num_trials` and at least `min_trials_observed` of its trials are completed. The count requirement does not apply when the cap is soft or -1. |
| `Experiments.NewTrialAttribution` | ax/modelbridge/tests/test_transition_criterion.py:165-174 | A new trial generated by step k is added to step k's `trials_from_node` and to no other step's. |
| `Experiments.StatusUpdateKeepsAttribution` | ax/modelbridge/tests/test_transition_criterion.py:184-188 | A status change leaves every step's `trials_from_node` as it was. |
| `Experiments.AllFromOneStep` | ax/modelbridge/tests/test_transition_criterion.py:169-174 | When one step generated every trial, that step's set is the whole experiment and its size is the number of trials; every other step's set is empty. |
| `Experiments.StatusMapSize` | ax/modelbridge/tests/test_transition_criterion.py:306-308 | The experiment-level scope has one index per trial. |
| `Experiments.Experiment.NewTrial` | ax/modelbridge/tests/test_transition_criterion.py:166-167 | Appends a CANDIDATE trial with the given originating step at the next index. The data is unchanged. |
| `Experiments.Experiment.UpdateStatus` | ax/modelbridge/tests/test_transition_criterion.py:185-188 | Changes only the status of the given trial. |
| `Experiments.Experiment.AttachData` | ax/modelbridge/tests/test_transition_criterion.py:57-68 | The fetched data becomes exactly the given rows. The trials are unchanged. |
| `Strategy.EvaluateAll` | ax/modelbridge/tests/test_transition_criterion.py:50-74 | Evaluates every criterion without stopping early. The result is true iff all criteria are met. It warns once per counting criterion when no trial set is given and never when one is. |
| `Strategy.GenerationStrategy.Gen` | ax/modelbridge/tests/test_transition_criterion.py:165-174 | Appends one CANDIDATE trial attributed to the current step. Only the current step's `trials_from_node` grows. A completed strategy generates nothing. |
| `Strategy.GenerationStrategy.MaybeMoveToNextStep` | ax/modelbridge/tests/test_transition_criterion.py:50-75 | Returns true iff every criterion of the current step holds on that step's trials. The cursor moves one step on exactly then and otherwise stays. |
| `Scenarios.MinimumPreferenceCriterionScenario` | ax/modelbridge/tests/test_transition_criterion.py:29-75 | Without data the strategy does not move. With three 0-means and three 1-means at threshold 3 it moves, and the current model is GPEI. |
| `Scenarios.DefaultStepCriterionScenario` | ax/modelbridge/tests/test_transition_criterion.py:77-142 | The three steps get exactly the criterion lists the test expects. |
| `Scenarios.MinimumTrialsInStatusScenario` | ax/modelbridge/tests/test_transition_criterion.py:144-193 | Four generated trials give 4 trials for step 0 and 0 for step 1. MinimumTrialsInStatus(COMPLETED, 2) fails with no completed trials and holds after two are completed. |
| `Scenarios.MaxTrialsScenario` | ax/modelbridge/tests/test_transition_criterion.py:195-260 | The soft cap is met. The enforced cap of 4 fails with no trials and holds after four. The -1 cap is met. |
| `Scenarios.MaxTrialsStatusArgScenario` | ax/modelbridge/tests/test_transition_criterion.py:262-271 | MaxTrials(5, RUNNING) over `{2, 3}` is not met. |
| `Scenarios.TrialsFromNodeNoneScenario` | ax/modelbridge/tests/test_transition_criterion.py:273-332 | With no trial set, each check warns and counts the whole experiment. MaxTrials(2) fails, then holds after three trials. With COMPLETED it holds once two are completed. MinimumTrialsInStatus(COMPLETED, 3) fails, then holds once all three are completed. |
| `Scenarios.AdvanceAfterObservedTrialsScenario` | ax/modelbridge/tests/test_transition_criterion.py:147-188 | Reuses that test's strategy, generation loop and marking loop: step 0 takes 4 trials and needs 2 observed. Beyond what that test asserts, it calls the advance twice: with one trial completed the cursor stays at 0; with two completed it moves to 1. |

## Left out

- Candidate generation by a model (`gs.gen` with `Models.SOBOL` or `Models.GPEI`). A model is only a token here, and generation only appends a CANDIDATE trial attributed to the current step. Any advance check that the real generation call performs first is not modelled.
- The `raise_data_required_error` path of `_maybe_move_to_next_step`. The tests never exercise it, so the advance has no such parameter and always returns false when not ready.
- `max_parallelism`. It is stored in a step and never consulted.
- Floating-point means and the `sem` column of the fetched data. A mean is an integer whose sign is the preference.
- The logging machinery. The warning is returned as a value.
- The trial-status state machine. Status changes are external writes through `UpdateStatus`, and transitions such as `mark_running` are not validated.
- Experiment fixtures such as `get_experiment` and `get_branin_experiment`. Every scenario starts from an empty experiment.
- Attaching an experiment to a strategy after construction. Here the experiment is a constructor argument.
- Rejection of invalid configurations at construction: thresholds below -1, and criteria of one step that name different targets. The cursor always moves to the next position.
- Criteria.Repr: strings are quoted without Python's escaping, so `Repr` is proved injective only across criterion kinds. The exact strings of test lines 344-368 are what `Repr` builds, but no lemma states them: equality with character literals of that length is beyond the verifier's resource limit.
