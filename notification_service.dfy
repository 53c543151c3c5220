/**
 * The decisions of the notification service: whether an alert is sent, what a batch
 * reports, and the colour band of a signal strength. Building and sending the e-mail
 * are outside the model; their combined outcome is a parameter: `Ok(b)` when sending
 * returned `b`, `Err` when building or sending raised.
 */
module Notifications {
  import opened Wrappers
  import opened Seqs
  import opened NotificationModels
  import opened Screener

  predicate IsEnabled(config: NotificationConfig) {
    IsValid(config)
  }

  /** `send_alert`: nothing is sent when disabled or when the result does not match. */
  function SendAlert(config: NotificationConfig, result: ScreeningResult, sent: Result<bool, string>): (ok: bool)
    ensures ok <==> IsEnabled(config) && result.matches && sent == Ok(true)
    ensures !IsEnabled(config) || !result.matches ==> !ok
  {
    if !IsEnabled(config) then false
    else if !result.matches then false
    else match sent
      case Ok(b) => b
      case Err(_) => false
  }

  function Matching(results: seq<ScreeningResult>): seq<ScreeningResult> {
    Filter(results, IsMatch())
  }

  /**
   * `send_batch_alerts` as written: one match goes through `send_alert`, several go
   * out as one summary e-mail, but that summary path never asks whether
   * notifications are enabled.
   */
  function SendBatchAlertsAsWritten(config: NotificationConfig, results: seq<ScreeningResult>,
                                    sentOne: Result<bool, string>, sentSummary: Result<bool, string>): nat
  {
    if results == [] then 0
    else
      var matches := Matching(results);
      if matches == [] then 0
      else if |matches| == 1 then (if SendAlert(config, matches[0], sentOne) then 1 else 0)
      else if sentSummary == Ok(true) then |matches| else 0
  }

  /** A disabled configuration with two matching results still reports two alerts sent. */
  lemma {:induction false} SummaryIgnoresDisabled(r1: ScreeningResult, r2: ScreeningResult)
    requires r1.matches && r2.matches
    ensures !IsEnabled(DefaultConfig)
    ensures SendBatchAlertsAsWritten(DefaultConfig, [r1, r2], Ok(true), Ok(true)) == 2
  {
    assert [r1, r2][..1] == [r1];
    assert Matching([r1]) == [r1] by {
      assert [r1][..0] == [];
    }
    assert Matching([r1, r2]) == [r1, r2];
  }

  /** `send_batch_alerts` with the enabled check in front of both paths, as `send_alert` has it. */
  function SendBatchAlerts(config: NotificationConfig, results: seq<ScreeningResult>,
                           sentOne: Result<bool, string>, sentSummary: Result<bool, string>): nat
  {
    if !IsEnabled(config) then 0
    else SendBatchAlertsAsWritten(config, results, sentOne, sentSummary)
  }

  /**
   * A batch: nothing is reported for no results, no matches, or a disabled
   * configuration; one match reports 1 exactly when its alert went out; several report
   * all of them when the summary went out and 0 otherwise.
   */
  lemma {:induction false} SendBatchAlertsSpec(config: NotificationConfig, results: seq<ScreeningResult>,
                            sentOne: Result<bool, string>, sentSummary: Result<bool, string>)
    ensures var n := SendBatchAlerts(config, results, sentOne, sentSummary);
      && (results == [] || Matching(results) == [] || !IsEnabled(config) ==> n == 0)
      && (|Matching(results)| == 1 ==> (n == 1 <==> SendAlert(config, Matching(results)[0], sentOne)))
      && (|Matching(results)| >= 2 && IsEnabled(config) ==>
            n == (if sentSummary == Ok(true) then |Matching(results)| else 0))
      && n <= |Matching(results)|
      && (n > 0 ==> IsEnabled(config) && forall r :: r in Matching(results) ==> r.matches)
  {
    FilterMembers(results, IsMatch());
    if results == [] {
      assert Matching(results) == [];
    }
  }

  /** The e-mail colour of a signal strength: green from 0.8, orange from 0.5, red below. */
  function StrengthColor(strength: real): string {
    if strength >= 0.8 then "10b981"
    else if strength >= 0.5 then "f59e0b"
    else "ef4444"
  }

  function ColorRank(color: string): nat {
    if color == "10b981" then 2 else if color == "f59e0b" then 1 else 0
  }

  /** The three bands, and a stronger signal never gets a weaker colour. */
  lemma {:induction false} StrengthColorBands(s: real, t: real)
    ensures StrengthColor(s) == "10b981" <==> s >= 0.8
    ensures StrengthColor(s) == "f59e0b" <==> 0.5 <= s < 0.8
    ensures StrengthColor(s) == "ef4444" <==> s < 0.5
    ensures s <= t ==> ColorRank(StrengthColor(s)) <= ColorRank(StrengthColor(t))
  {
  }
}
