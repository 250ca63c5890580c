/**
 The three transition criteria, their `is_met` check and their `__repr__`.
 A criterion is evaluated against the experiment's index-to-status map, the
 experiment's fetched metric rows and an optional set of trial indices
 (`trials_from_node`); an absent set widens the scope to every trial of the
 experiment and logs a fixed warning, which is returned here as part of the
 verdict instead of being written to a log.
 */
module Criteria {
  import opened Common
  import opened Experiments
  import Text

  /** The warning logged when `is_met` falls back to the whole experiment. */
  const FallbackWarning := "trials_from_node is None, will check threshold on experiment level"

  /** The closed set of criteria; every field is immutable and equality is by value. */
  datatype Criterion =
    | MaxTrials(threshold: int, enforce: bool, onlyInStatus: Option<TrialStatus>, transitionTo: Option<string>)
    | MinimumTrialsInStatus(status: TrialStatus, threshold: int, transitionTo: Option<string>)
    | MinimumPreferenceOccurances(metricName: string, threshold: int, transitionTo: Option<string>)

  /** What `is_met` returns, together with the warning it logs, if any. */
  datatype Verdict = Verdict(met: bool, warning: Option<string>)

  /** Criteria that count trials and therefore consult `trials_from_node`. */
  predicate CountsTrials(c: Criterion)
  {
    c.MaxTrials? || c.MinimumTrialsInStatus?
  }

  /** The trials under consideration: the given set, or every trial of the experiment. */
  function Scope(statuses: map<int, TrialStatus>, trialsFromNode: Option<set<int>>): set<int>
  {
    match trialsFromNode
    case None => statuses.Keys
    case Some(ts) => ts
  }

  /** The trials of `trials` that the experiment knows and that are in `status`. */
  function InStatus(statuses: map<int, TrialStatus>, trials: set<int>, status: TrialStatus): set<int>
  {
    set t | t in trials && t in statuses && statuses[t] == status
  }

  /** The number `MaxTrials` compares with its threshold. */
  function MaxTrialsCount(statuses: map<int, TrialStatus>, scope: set<int>, onlyInStatus: Option<TrialStatus>): nat
  {
    match onlyInStatus
    case None => |scope|
    case Some(s) => |InStatus(statuses, scope, s)|
  }

  /** Rows of metric `metricName` in `data`. */
  function MetricRowCount(data: seq<DataRow>, metricName: string): nat
  {
    if data == [] then 0
    else (if data[0].metricName == metricName then 1 else 0) + MetricRowCount(data[1..], metricName)
  }

  /** Rows of metric `metricName` whose mean says "yes" (positive). */
  function YesCount(data: seq<DataRow>, metricName: string): nat
  {
    if data == [] then 0
    else (if data[0].metricName == metricName && data[0].mean > 0 then 1 else 0) + YesCount(data[1..], metricName)
  }

  /** Rows of metric `metricName` whose mean says "no" (zero or negative). */
  function NoCount(data: seq<DataRow>, metricName: string): nat
  {
    if data == [] then 0
    else (if data[0].metricName == metricName && data[0].mean <= 0 then 1 else 0) + NoCount(data[1..], metricName)
  }

  /** Every row of the metric is either a "yes" or a "no", never both. */
  lemma {:induction false} PreferencePartition(data: seq<DataRow>, metricName: string)
    ensures YesCount(data, metricName) + NoCount(data, metricName) == MetricRowCount(data, metricName)
  {
    if data != [] {
      PreferencePartition(data[1..], metricName);
    }
  }

  /** The counts of a concatenation of fetched data are the sums of the counts. */
  lemma {:induction false} PreferenceCountsAppend(d: seq<DataRow>, e: seq<DataRow>, metricName: string)
    ensures MetricRowCount(d + e, metricName) == MetricRowCount(d, metricName) + MetricRowCount(e, metricName)
    ensures YesCount(d + e, metricName) == YesCount(d, metricName) + YesCount(e, metricName)
    ensures NoCount(d + e, metricName) == NoCount(d, metricName) + NoCount(e, metricName)
  {
    if d != [] {
      assert (d + e)[1..] == d[1..] + e;
      PreferenceCountsAppend(d[1..], e, metricName);
    } else {
      assert d + e == e;
    }
  }

  /** `is_met` of each criterion. */
  function IsMet(c: Criterion, statuses: map<int, TrialStatus>, data: seq<DataRow>,
                 trialsFromNode: Option<set<int>>): (r: Verdict)
    // the fallback warning is logged exactly when a counting criterion gets no trial set
    ensures r.warning == (if trialsFromNode.None? && CountsTrials(c) then Some(FallbackWarning) else None)
    // MaxTrials: a soft cap and an unlimited cap never block
    ensures c.MaxTrials? && (!c.enforce || c.threshold == -1) ==> r.met
    ensures c.MaxTrials? && c.enforce && c.threshold != -1 ==>
              (r.met <==> MaxTrialsCount(statuses, Scope(statuses, trialsFromNode), c.onlyInStatus) >= c.threshold)
    // MinimumTrialsInStatus: enough trials of the scope are in the status
    ensures c.MinimumTrialsInStatus? ==>
              (r.met <==> |InStatus(statuses, Scope(statuses, trialsFromNode), c.status)| >= c.threshold)
    // MinimumPreferenceOccurances: data present, and both classes reach the threshold
    ensures c.MinimumPreferenceOccurances? ==>
              (r.met <==> MetricRowCount(data, c.metricName) > 0
                          && YesCount(data, c.metricName) >= c.threshold
                          && NoCount(data, c.metricName) >= c.threshold)
    ensures c.MinimumPreferenceOccurances? && r.met ==> MetricRowCount(data, c.metricName) >= 2 * c.threshold
  {
    var scope := Scope(statuses, trialsFromNode);
    var warning := if trialsFromNode.None? then Some(FallbackWarning) else None;
    match c
    case MaxTrials(threshold, enforce, onlyInStatus, _) =>
      Verdict(!enforce || threshold == -1 || MaxTrialsCount(statuses, scope, onlyInStatus) >= threshold, warning)
    case MinimumTrialsInStatus(status, threshold, _) =>
      Verdict(|InStatus(statuses, scope, status)| >= threshold, warning)
    case MinimumPreferenceOccurances(metricName, threshold, _) =>
      PreferencePartition(data, metricName);
      var yes, no := YesCount(data, metricName), NoCount(data, metricName);
      Verdict(MetricRowCount(data, metricName) > 0 && yes >= threshold && no >= threshold, None)
  }

  /** An absent trial set is the same check as passing every trial of the experiment, plus the warning. */
  lemma ExperimentLevelFallback(c: Criterion, statuses: map<int, TrialStatus>, data: seq<DataRow>)
    ensures IsMet(c, statuses, data, None).met == IsMet(c, statuses, data, Some(statuses.Keys)).met
    ensures IsMet(c, statuses, data, Some(statuses.Keys)).warning == None
    ensures CountsTrials(c) ==> IsMet(c, statuses, data, None).warning == Some(FallbackWarning)
  {
  }

  lemma {:induction false} SubsetCardinality(a: set<int>, b: set<int>)
    requires a <= b
    ensures |a| <= |b|
  {
    assert b == a + (b - a);
  }

  /** Counting only the trials in one status never counts more than the whole scope. */
  lemma StatusFilterOnlyStrengthens(c: Criterion, statuses: map<int, TrialStatus>, data: seq<DataRow>,
                                    trialsFromNode: Option<set<int>>)
    requires c.MaxTrials? && c.onlyInStatus.Some?
    ensures IsMet(c, statuses, data, trialsFromNode).met ==>
              IsMet(c.(onlyInStatus := None), statuses, data, trialsFromNode).met
  {
    var scope := Scope(statuses, trialsFromNode);
    SubsetCardinality(InStatus(statuses, scope, c.onlyInStatus.value), scope);
  }

  /**
   A counting criterion that is met stays met when the scope grows and no
   trial leaves the status the criterion counts (the kind of change generation
   and the trial lifecycle make while a step collects trials). Trials in other
   statuses may change freely.
   */
  lemma MetIsMonotone(c: Criterion, statuses: map<int, TrialStatus>, statuses': map<int, TrialStatus>,
                      data: seq<DataRow>, scope: set<int>, scope': set<int>)
    requires CountsTrials(c)
    requires scope <= scope'
    requires forall t :: t in statuses ==> t in statuses'
    requires forall t :: t in statuses && ((c.MaxTrials? && c.onlyInStatus.Some? && statuses[t] == c.onlyInStatus.value)
                                           || (c.MinimumTrialsInStatus? && statuses[t] == c.status))
                         ==> statuses'[t] == statuses[t]
    ensures IsMet(c, statuses, data, Some(scope)).met ==> IsMet(c, statuses', data, Some(scope')).met
  {
    if c.MinimumTrialsInStatus? {
      assert forall t :: t in InStatus(statuses, scope, c.status) ==> t in InStatus(statuses', scope', c.status);
      SubsetCardinality(InStatus(statuses, scope, c.status), InStatus(statuses', scope', c.status));
    } else if c.onlyInStatus.Some? {
      var s := c.onlyInStatus.value;
      assert forall t :: t in InStatus(statuses, scope, s) ==> t in InStatus(statuses', scope', s);
      SubsetCardinality(InStatus(statuses, scope, s), InStatus(statuses', scope', s));
    } else {
      SubsetCardinality(scope, scope');
    }
  }

  /** Moving one trial of the scope into `status` raises that status's count by exactly one. */
  lemma MarkTrialAddsOne(statuses: map<int, TrialStatus>, scope: set<int>, t: int, status: TrialStatus)
    requires t in scope && t in statuses && statuses[t] != status
    ensures |InStatus(statuses[t := status], scope, status)| == |InStatus(statuses, scope, status)| + 1
  {
    assert InStatus(statuses[t := status], scope, status) == InStatus(statuses, scope, status) + {t};
  }

  /** More fetched data never withdraws a met preference criterion. */
  lemma MorePreferenceDataKeepsMet(c: Criterion, statuses: map<int, TrialStatus>, data: seq<DataRow>,
                                   more: seq<DataRow>, trialsFromNode: Option<set<int>>)
    requires c.MinimumPreferenceOccurances?
    ensures IsMet(c, statuses, data, trialsFromNode).met ==> IsMet(c, statuses, data + more, trialsFromNode).met
  {
    PreferenceCountsAppend(data, more, c.metricName);
  }

  // ---------------------------------------------------------------- __repr__

  function StatusName(s: TrialStatus): string
  {
    match s
    case Candidate => "CANDIDATE"
    case Staged => "STAGED"
    case Failed => "FAILED"
    case Completed => "COMPLETED"
    case Running => "RUNNING"
    case Abandoned => "ABANDONED"
    case Dispatched => "DISPATCHED"
    case EarlyStopped => "EARLY_STOPPED"
  }

  function BoolRepr(b: bool): string
  {
    if b then "True" else "False"
  }

  function OptionalStatusRepr(s: Option<TrialStatus>): string
  {
    match s
    case None => "None"
    case Some(st) => "TrialStatus." + StatusName(st)
  }

  function OptionalStringRepr(s: Option<string>): string
  {
    match s
    case None => "None"
    case Some(x) => "'" + x + "'"
  }

  /** The class name a criterion's representation starts with. */
  function KindName(c: Criterion): string
  {
    match c
    case MaxTrials(_, _, _, _) => "MaxTrials"
    case MinimumTrialsInStatus(_, _, _) => "MinimumTrialsInStatus"
    case MinimumPreferenceOccurances(_, _, _) => "MinimumPreferenceOccurances"
  }

  /** The fields of a criterion as `name=value`, in declaration order. */
  function FieldsRepr(c: Criterion): string
  {
    match c
    case MaxTrials(threshold, enforce, onlyInStatus, transitionTo) =>
      "threshold=" + Text.IntToString(threshold) + ", enforce=" + BoolRepr(enforce)
      + ", only_in_status=" + OptionalStatusRepr(onlyInStatus)
      + ", transition_to=" + OptionalStringRepr(transitionTo)
    case MinimumTrialsInStatus(status, threshold, transitionTo) =>
      "status=" + OptionalStatusRepr(Some(status)) + ", threshold=" + Text.IntToString(threshold)
      + ", transition_to=" + OptionalStringRepr(transitionTo)
    case MinimumPreferenceOccurances(metricName, threshold, transitionTo) =>
      "metric_name=" + OptionalStringRepr(Some(metricName)) + ", threshold=" + Text.IntToString(threshold)
      + ", transition_to=" + OptionalStringRepr(transitionTo)
  }

  /** `str(criterion)`: the class name, then the fields in parentheses. */
  function Repr(c: Criterion): (s: string)
    ensures |s| > |KindName(c)| && s[..|KindName(c)| + 1] == KindName(c) + "("
  {
    KindName(c) + "(" + FieldsRepr(c) + ")"
  }

  /** Criteria of different kinds never share a representation. */
  lemma ReprDistinguishesKinds(c: Criterion, d: Criterion)
    requires KindName(c) != KindName(d)
    ensures Repr(c) != Repr(d)
  {
    KindChars(c);
    KindChars(d);
  }

  /** The second and eighth characters of a representation tell the three kinds apart. */
  lemma KindChars(c: Criterion)
    ensures |Repr(c)| > 7
    ensures Repr(c)[1] == (if c.MaxTrials? then 'a' else 'i')
    ensures Repr(c)[7] == (if c.MaxTrials? then 'l' else if c.MinimumTrialsInStatus? then 'T' else 'P')
  {
    var k := KindName(c);
    var r := Repr(c);
    assert r[..|k| + 1] == k + "(";
    assert r[1] == r[..|k| + 1][1] && r[7] == r[..|k| + 1][7];
  }
}
