/**
 * The managed-server start and stop scripts. Each one connects to the administration
 * server, runs a batch over its servers, disconnects and chooses an exit status.
 *
 * The state-checked scripts (the credential-store stop script and the two common
 * scripts) look the servers up by host name and read each server's state first; the
 * per-host scripts of prmapp01 and prmapp02 act on a fixed list without reading states.
 */
module ServiceScripts {
  import opened Wlst
  import opened HostRegistry
  import opened Lifecycle

  /** The password of the password-based scripts: the environment value, else the placeholder. */
  function AdminPassword(passwordEnv: Option<string>): (password: string)
    ensures passwordEnv.Some? ==> password == passwordEnv.value
    ensures passwordEnv.None? ==> password == "CHANGE_ME"
  {
    match passwordEnv
    case Some(p) => p
    case None => "CHANGE_ME"
  }

  /** The connect call of the scripts that read the password from the environment. */
  function PasswordConnect(passwordEnv: Option<string>): Command
  {
    ConnectWithPassword(AdminUser, AdminPassword(passwordEnv), AdminUrl)
  }

  // ---------------------------------------------------------------------------
  // State-checked scripts
  // ---------------------------------------------------------------------------

  /** The calls before the per-server loop of a state-checked script. */
  function CheckedPrologue(connect: Command): seq<Command>
  {
    [connect, DomainRuntime]
  }

  /** The two ways the scripts open a session. */
  predicate IsConnect(c: Command)
  {
    c.ConnectWithPassword? || c.ConnectWithStore?
  }

  /**
   * A state-checked script once its host is resolved: connect, domainRuntime, the
   * batch, disconnect; any exception outside the per-server block ends it with status 1,
   * and so does a batch with a failed server.
   */
  function CheckedScript(ep: Endpoint, connect: Command, a: Action, servers: seq<string>): Run
    requires IsTransition(a)
  {
    if !Accepts(ep, [], connect) then Run([connect], None, Status(1))
    else if !Accepts(ep, [connect], DomainRuntime) then Run([connect, DomainRuntime], None, Status(1))
    else
      var ledger := CheckedBatch(ep, CheckedPrologue(connect), a, servers);
      var body := CheckedPrologue(connect) + Issued(ledger);
      var t := TallyOf(ledger);
      Run(body + [Disconnect], Some(t), if Accepts(ep, body, Disconnect) && t.failed == 0 then Status(0) else Status(1))
  }

  /**
   * The script exits with status 0 exactly when connect, domainRuntime and disconnect
   * all return normally and no server failed; every other run ends with status 1.
   */
  lemma CheckedScriptExit(ep: Endpoint, connect: Command, a: Action, servers: seq<string>)
    requires IsTransition(a)
    ensures var run := CheckedScript(ep, connect, a, servers);
            && (run.exit == Status(0) || run.exit == Status(1))
            && (run.exit == Status(0) <==>
                  && Accepts(ep, [], connect)
                  && Accepts(ep, [connect], DomainRuntime)
                  && Accepts(ep, CheckedPrologue(connect) + Issued(CheckedBatch(ep, CheckedPrologue(connect), a, servers)), Disconnect)
                  && forall i :: 0 <= i < |servers| ==> CheckedBatch(ep, CheckedPrologue(connect), a, servers)[i].result != Failed)
  {
    NoFailureMeansAllSucceeded(CheckedBatch(ep, CheckedPrologue(connect), a, servers));
  }

  /**
   * A connect failure stops the script before any server is touched; once the loop has
   * run, the counters cover every server once and every server's state is read once,
   * in list order, before the final disconnect.
   */
  lemma CheckedScriptShape(ep: Endpoint, connect: Command, a: Action, servers: seq<string>)
    requires IsTransition(a) && IsConnect(connect)
    ensures var run := CheckedScript(ep, connect, a, servers);
            && run.trace[0] == connect
            && (!Accepts(ep, [], connect) ==> run.trace == [connect] && run.tally.None?)
            && (run.tally.Some? <==> Accepts(ep, [], connect) && Accepts(ep, [connect], DomainRuntime))
            && (run.tally.Some? ==>
                  && run.tally.value.succeeded + run.tally.value.skipped + run.tally.value.failed == |servers|
                  && Queried(run.trace) == servers
                  && run.trace[|run.trace| - 1] == Disconnect)
  {
    var ledger := CheckedBatch(ep, CheckedPrologue(connect), a, servers);
    var body := CheckedPrologue(connect) + Issued(ledger);
    TallyPartitions(ledger);
    CheckedQueriesInOrder(ep, CheckedPrologue(connect), a, servers);
    assert [connect][1..] == [] && [DomainRuntime][1..] == [] && CheckedPrologue(connect)[1..] == [DomainRuntime];
    assert Queried(CheckedPrologue(connect)) == [];
    assert Queried([Disconnect]) == [];
    QueriedAppend(CheckedPrologue(connect), Issued(ledger));
    QueriedAppend(body, [Disconnect]);
  }

  /** The script body after the host lookup and the credential checks. */
  method RunChecked(ep: Endpoint, connect: Command, a: Action, servers: seq<string>) returns (run: Run)
    requires IsTransition(a)
    ensures run == CheckedScript(ep, connect, a, servers)
  {
    var trace := [connect];
    if !Accepts(ep, [], connect) {
      return Run(trace, None, Status(1));
    }
    var navigated := Accepts(ep, trace, DomainRuntime);
    trace := trace + [DomainRuntime];
    assert trace == CheckedPrologue(connect);
    if !navigated {
      return Run(trace, None, Status(1));
    }
    var succeeded, skipped, failed;
    succeeded, skipped, failed, trace := CheckedLoop(ep, trace, a, servers);
    var disconnected := Accepts(ep, trace, Disconnect);
    trace := trace + [Disconnect];
    if !disconnected || failed > 0 {
      return Run(trace, Some(Tally(succeeded, skipped, failed)), Status(1));
    }
    return Run(trace, Some(Tally(succeeded, skipped, failed)), Status(0));
  }

  /**
   * The credential-store stop script: an unknown host, then a missing config file, then
   * a missing key file end the run with status 1 before anything is sent.
   */
  method StopManagedServers(hostname: string, configExists: bool, keyExists: bool, ep: Endpoint) returns (run: Run)
    ensures Resolve(hostname).None? ==> run == Run([], None, Status(1))
    ensures Resolve(hostname).Some? && !(configExists && keyExists) ==> run == Run([], None, Status(1))
    ensures Resolve(hostname).Some? && configExists && keyExists ==>
              run == CheckedScript(ep, StoreConnect, ShutdownServer(false), Resolve(hostname).value)
  {
    var servers := Resolve(hostname);
    if servers.None? {
      return Run([], None, Status(1));
    }
    if !configExists {
      return Run([], None, Status(1));
    }
    if !keyExists {
      return Run([], None, Status(1));
    }
    run := RunChecked(ep, StoreConnect, ShutdownServer(false), servers.value);
  }

  /** The common stop script: sessions are not waited for, the password comes from the environment. */
  method CommonStopManagedServers(hostname: string, passwordEnv: Option<string>, ep: Endpoint) returns (run: Run)
    ensures Resolve(hostname).None? ==> run == Run([], None, Status(1))
    ensures Resolve(hostname).Some? ==>
              run == CheckedScript(ep, PasswordConnect(passwordEnv), ShutdownServer(true), Resolve(hostname).value)
  {
    var servers := Resolve(hostname);
    if servers.None? {
      return Run([], None, Status(1));
    }
    run := RunChecked(ep, PasswordConnect(passwordEnv), ShutdownServer(true), servers.value);
  }

  /** The common start script. */
  method CommonStartManagedServers(hostname: string, passwordEnv: Option<string>, ep: Endpoint) returns (run: Run)
    ensures Resolve(hostname).None? ==> run == Run([], None, Status(1))
    ensures Resolve(hostname).Some? ==>
              run == CheckedScript(ep, PasswordConnect(passwordEnv), StartServer, Resolve(hostname).value)
  {
    var servers := Resolve(hostname);
    if servers.None? {
      return Run([], None, Status(1));
    }
    run := RunChecked(ep, PasswordConnect(passwordEnv), StartServer, servers.value);
  }

  // ---------------------------------------------------------------------------
  // Per-host scripts
  // ---------------------------------------------------------------------------

  /**
   * A per-host script: connect, one command per listed item, disconnect. A failure
   * outside the loop ends it with status 1; `failureExits` says whether a failed item
   * does too.
   */
  function UnconditionalScript(ep: Endpoint, connect: Command, a: Action, items: seq<string>, failureExits: bool): Run
  {
    if !Accepts(ep, [], connect) then Run([connect], None, Status(1))
    else
      var ledger := UnconditionalBatch(ep, [connect], a, items);
      var body := [connect] + Issued(ledger);
      var t := TallyOf(ledger);
      Run(body + [Disconnect], Some(t),
          if !Accepts(ep, body, Disconnect) then Status(1)
          else if failureExits && t.failed > 0 then Status(1)
          else Status(0))
  }

  /**
   * Once connected, the script issues exactly its command for every item, in list
   * order, and then disconnects; the two counters cover every item once.
   */
  lemma UnconditionalScriptShape(ep: Endpoint, connect: Command, a: Action, items: seq<string>, failureExits: bool)
    ensures var run := UnconditionalScript(ep, connect, a, items, failureExits);
            && (!Accepts(ep, [], connect) ==> run == Run([connect], None, Status(1)))
            && (Accepts(ep, [], connect) ==>
                  && run.trace == [connect] + Commands(a, items) + [Disconnect]
                  && run.tally.Some?
                  && run.tally.value.skipped == 0
                  && run.tally.value.succeeded + run.tally.value.failed == |items|)
  {
    var ledger := UnconditionalBatch(ep, [connect], a, items);
    UnconditionalBatchIssuesEach(ep, [connect], a, items);
    TallyPartitions(ledger);
    UnconditionalNeverSkips(ep, [connect], a, items);
  }

  /**
   * The exit status is 0 exactly when connect and disconnect return normally and,
   * if failures count, no item failed; otherwise it is 1.
   */
  lemma UnconditionalScriptExit(ep: Endpoint, connect: Command, a: Action, items: seq<string>, failureExits: bool)
    ensures var run := UnconditionalScript(ep, connect, a, items, failureExits);
            var ledger := UnconditionalBatch(ep, [connect], a, items);
            && (run.exit == Status(0) || run.exit == Status(1))
            && (run.exit == Status(0) <==>
                  && Accepts(ep, [], connect)
                  && Accepts(ep, [connect] + Commands(a, items), Disconnect)
                  && (failureExits ==> forall i :: 0 <= i < |items| ==> ledger[i].result != Failed))
  {
    var ledger := UnconditionalBatch(ep, [connect], a, items);
    UnconditionalBatchIssuesEach(ep, [connect], a, items);
    NoFailureMeansAllSucceeded(ledger);
  }

  /** The per-host script body. */
  method RunUnconditional(ep: Endpoint, connect: Command, a: Action, items: seq<string>, failureExits: bool) returns (run: Run)
    ensures run == UnconditionalScript(ep, connect, a, items, failureExits)
  {
    var trace := [connect];
    if !Accepts(ep, [], connect) {
      return Run(trace, None, Status(1));
    }
    var succeeded, failed;
    succeeded, failed, trace := UnconditionalLoop(ep, trace, a, items);
    var disconnected := Accepts(ep, trace, Disconnect);
    trace := trace + [Disconnect];
    var tally := Some(Tally(succeeded, 0, failed));
    if !disconnected {
      return Run(trace, tally, Status(1));
    }
    if failureExits && failed > 0 {
      return Run(trace, tally, Status(1));
    }
    return Run(trace, tally, Status(0));
  }

  /** prmapp01's start script: exit status 1 when any server failed to start. */
  method Prmapp01StartManagedServers(passwordEnv: Option<string>, ep: Endpoint) returns (run: Run)
    ensures run == UnconditionalScript(ep, PasswordConnect(passwordEnv), StartServer, Prmapp01Servers, true)
  {
    run := RunUnconditional(ep, PasswordConnect(passwordEnv), StartServer, Prmapp01Servers, true);
  }

  /** prmapp02's start script: exit status 1 when any server failed to start. */
  method Prmapp02StartManagedServers(passwordEnv: Option<string>, ep: Endpoint) returns (run: Run)
    ensures run == UnconditionalScript(ep, PasswordConnect(passwordEnv), StartServer, Prmapp02Servers, true)
  {
    run := RunUnconditional(ep, PasswordConnect(passwordEnv), StartServer, Prmapp02Servers, true);
  }

  /** prmapp02's stop script: once disconnected it exits 0, however many shutdowns failed. */
  method Prmapp02StopManagedServers(passwordEnv: Option<string>, ep: Endpoint) returns (run: Run)
    ensures run == UnconditionalScript(ep, PasswordConnect(passwordEnv), ShutdownServer(true), Prmapp02StopOrder, false)
  {
    run := RunUnconditional(ep, PasswordConnect(passwordEnv), ShutdownServer(true), Prmapp02StopOrder, false);
  }

  /** A failed shutdown never changes the exit status of prmapp02's stop script. */
  lemma Prmapp02StopIgnoresFailures(passwordEnv: Option<string>, ep: Endpoint)
    ensures var c := PasswordConnect(passwordEnv);
            var run := UnconditionalScript(ep, c, ShutdownServer(true), Prmapp02StopOrder, false);
            var body := [c] + Commands(ShutdownServer(true), Prmapp02StopOrder);
            run.exit == Status(0) <==> Accepts(ep, [], c) && Accepts(ep, body, Disconnect)
  {
    UnconditionalScriptExit(ep, PasswordConnect(passwordEnv), ShutdownServer(true), Prmapp02StopOrder, false);
  }
}
