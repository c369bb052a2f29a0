/**
 * The undeploy script: connect with the stored credentials, undeploy each P6 EPPM
 * application in turn, counting the ones that raise as skipped, disconnect and print
 * the counts. Undeploy failures never change the exit status.
 */
module Undeploy {
  import opened Wlst
  import opened Lifecycle

  /** The applications to undeploy, in order. */
  const Applications: seq<string> := ["p6", "p6tm", "p6ws", "p6procloudconnect"]

  /**
   * undeploy_applications with `configExists` the existence of the stored user
   * configuration file. Only that file is checked before connecting. The connect and
   * the disconnect are outside any try block, so their failures escape uncaught.
   */
  function UndeployScript(ep: Endpoint, configExists: bool): Run
  {
    if !configExists then Run([], None, Status(1))
    else if !Accepts(ep, [], StoreConnect) then Run([StoreConnect], None, Uncaught)
    else
      var ledger := UnconditionalBatch(ep, [StoreConnect], UndeployApp, Applications);
      var body := [StoreConnect] + Issued(ledger);
      if !Accepts(ep, body, Disconnect) then Run(body + [Disconnect], None, Uncaught)
      else Run(body + [Disconnect], Some(TallyOf(ledger)), Status(0))
  }

  /** The script body, proved to behave as `UndeployScript`. */
  method UndeployApplications(ep: Endpoint, configExists: bool) returns (run: Run)
    ensures run == UndeployScript(ep, configExists)
  {
    if !configExists {
      return Run([], None, Status(1));
    }
    var trace := [StoreConnect];
    if !Accepts(ep, [], StoreConnect) {
      return Run(trace, None, Uncaught);
    }
    var successCount, failCount;
    successCount, failCount, trace := UnconditionalLoop(ep, trace, UndeployApp, Applications);
    var disconnected := Accepts(ep, trace, Disconnect);
    trace := trace + [Disconnect];
    if !disconnected {
      return Run(trace, None, Uncaught);
    }
    return Run(trace, Some(Tally(successCount, 0, failCount)), Status(0));
  }

  /**
   * Without the stored configuration nothing is issued and the exit status is 1. Once
   * connected, every application is undeployed once, in order, followed by one
   * disconnect, and each counts as undeployed or skipped. The exit status is 0 exactly
   * when the file exists and connect and disconnect return normally, whatever the
   * undeploys did; otherwise the exception escapes.
   */
  lemma UndeployScriptOutcome(ep: Endpoint, configExists: bool)
    ensures var run := UndeployScript(ep, configExists);
            var connected := configExists && Accepts(ep, [], StoreConnect);
            var body := [StoreConnect] + Commands(UndeployApp, Applications);
            && (!configExists ==> run == Run([], None, Status(1)))
            && (configExists && !connected ==> run == Run([StoreConnect], None, Uncaught))
            && (connected ==> run.trace == body + [Disconnect])
            && (run.exit == Status(0) <==> connected && Accepts(ep, body, Disconnect))
            && (run.exit == Uncaught <==> configExists && !(connected && Accepts(ep, body, Disconnect)))
            && (run.tally.Some? ==>
                  run.tally.value.skipped == 0 && run.tally.value.succeeded + run.tally.value.failed == |Applications|)
  {
    var ledger := UnconditionalBatch(ep, [StoreConnect], UndeployApp, Applications);
    UnconditionalBatchIssuesEach(ep, [StoreConnect], UndeployApp, Applications);
    UnconditionalNeverSkips(ep, [StoreConnect], UndeployApp, Applications);
    TallyPartitions(ledger);
  }
}
