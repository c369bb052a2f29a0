/**
 * The summary step shared by the deployment and the configuration scripts: the list
 * of (name, succeeded) pairs the main loop collects, and the tally that decides the
 * exit status.
 */
module Summary {
  import opened Wlst

  /** One summary line per ledger entry, in ledger order. */
  function Results(ledger: seq<Record>): (results: seq<(string, bool)>)
    ensures |results| == |ledger|
  {
    if ledger == [] then [] else [(ledger[0].item, ledger[0].result == Done)] + Results(ledger[1..])
  }

  lemma ResultsCons(r: Record, rest: seq<Record>)
    ensures Results([r] + rest) == [(r.item, r.result == Done)] + Results(rest)
  {
    assert ([r] + rest)[1..] == rest;
  }

  /** Entry `i` of the summary names ledger entry `i` and marks it successful exactly when it is Done. */
  lemma {:induction false} ResultsAt(ledger: seq<Record>, i: nat)
    requires i < |ledger|
    ensures Results(ledger)[i] == (ledger[i].item, ledger[i].result == Done)
    decreases i
  {
    if i > 0 {
      ResultsAt(ledger[1..], i - 1);
    }
  }

  /** The number of entries marked successful. */
  function Successes(results: seq<(string, bool)>): nat
  {
    if results == [] then 0 else (if results[0].1 then 1 else 0) + Successes(results[1..])
  }

  /** At most every entry succeeds, and all of them do exactly when none is marked failed. */
  lemma {:induction false} SuccessesBounded(results: seq<(string, bool)>)
    ensures Successes(results) <= |results|
    ensures Successes(results) == |results| <==> forall i :: 0 <= i < |results| ==> results[i].1
  {
    if results != [] {
      var rest := results[1..];
      SuccessesBounded(rest);
      assert forall i :: 0 < i < |results| ==> results[i] == rest[i - 1];
    }
  }

  /** The successes of a summary are the Done entries of its ledger. */
  lemma {:induction false} SuccessesOfResults(ledger: seq<Record>)
    ensures Successes(Results(ledger)) == Count(ledger, Done)
  {
    if ledger != [] {
      assert Results(ledger)[1..] == Results(ledger[1..]);
      SuccessesOfResults(ledger[1..]);
    }
  }

  /**
   * print_summary: counts the successful and the failed entries and reports whether
   * none failed.
   */
  method PrintSummary(results: seq<(string, bool)>) returns (allSucceeded: bool, successCount: nat, failCount: nat)
    ensures successCount == Successes(results)
    ensures successCount + failCount == |results|
    ensures allSucceeded <==> forall i :: 0 <= i < |results| ==> results[i].1
  {
    successCount, failCount := 0, 0;
    assert results[0..] == results;
    for i := 0 to |results|
      invariant Successes(results) == successCount + Successes(results[i..])
      invariant successCount + failCount == i
    {
      assert results[i..][1..] == results[i + 1..];
      if results[i].1 {
        successCount := successCount + 1;
      } else {
        failCount := failCount + 1;
      }
    }
    SuccessesBounded(results);
    allSucceeded := failCount == 0;
  }

  /**
   * The end of the deployment and configuration scripts: disconnect outside any try
   * block, then the summary; the exit status is 0 exactly when every entry succeeded.
   */
  function SummarisedEnding(ep: Endpoint, body: seq<Command>, ledger: seq<Record>): Run
  {
    if !Accepts(ep, body, Disconnect) then Run(body + [Disconnect], None, Uncaught)
    else Run(body + [Disconnect], Some(TallyOf(ledger)), if Count(ledger, Failed) == 0 then Status(0) else Status(1))
  }

  /**
   * For a ledger without skipped entries: a failing disconnect escapes uncaught;
   * otherwise the counters cover every entry once, and the status is 0 exactly when
   * every summary line is a success.
   */
  lemma SummarisedEndingExit(ep: Endpoint, body: seq<Command>, ledger: seq<Record>)
    requires Count(ledger, Skipped) == 0
    ensures var run := SummarisedEnding(ep, body, ledger);
            && (run.exit == Uncaught <==> !Accepts(ep, body, Disconnect))
            && (run.exit == Status(0) <==>
                  Accepts(ep, body, Disconnect) && forall i :: 0 <= i < |ledger| ==> Results(ledger)[i].1)
            && (run.tally.Some? ==> run.tally.value.succeeded + run.tally.value.failed == |ledger|)
  {
    SuccessesOfResults(ledger);
    SuccessesBounded(Results(ledger));
    TallyPartitions(ledger);
  }

  /** Disconnect, print the summary of `results` and choose the exit status. */
  method DisconnectAndSummarise(ep: Endpoint, trace: seq<Command>, results: seq<(string, bool)>, ghost ledger: seq<Record>)
    returns (run: Run)
    requires results == Results(ledger) && Count(ledger, Skipped) == 0
    ensures run == SummarisedEnding(ep, trace, ledger)
  {
    var disconnected := Accepts(ep, trace, Disconnect);
    if !disconnected {
      return Run(trace + [Disconnect], None, Uncaught);
    }
    var allSucceeded, successCount, failCount := PrintSummary(results);
    SuccessesOfResults(ledger);
    SuccessesBounded(results);
    TallyPartitions(ledger);
    return Run(trace + [Disconnect], Some(Tally(successCount, 0, failCount)), if allSucceeded then Status(0) else Status(1));
  }
}
