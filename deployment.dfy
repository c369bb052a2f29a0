/**
 * The application deployment script: for each entry of the deployment table it checks
 * the archive, undeploys an application already registered under the same name,
 * deploys the archive and, only after a successful deploy, starts the application and
 * reads its targets back. A summary of the deploy results decides the exit status.
 */
module Deployment {
  import opened Wlst
  import opened Summary

  /** One entry of the deployment table: application name, archive path, target cluster, archive kind. */
  datatype AppDescriptor = AppDescriptor(name: string, path: string, target: string, kind: string)

  const Deployments: seq<AppDescriptor> := [
    AppDescriptor("p6", EppmHome + "/p6/p6.ear", "p6web_cluster", "ear"),
    AppDescriptor("p6tm", EppmHome + "/tmws/p6tm.ear", "p6tm_cluster", "ear"),
    AppDescriptor("p6ws", EppmHome + "/ws/server/p6ws.ear", "p6ws_cluster", "ear"),
    AppDescriptor("p6procloudconnect", EppmHome + "/p6procloudconnect/p6procloudconnect.war", "p6cc_cluster", "war")
  ]

  /** The deploy call: the archive is used where it lies (no staging, no upload). */
  function DeployCommand(d: AppDescriptor): Command
  {
    Deploy(d.name, d.path, d.target, "nostage", false)
  }

  /** check_application_exists sees the application: the listing returns and holds its name. */
  predicate Registered(ep: Endpoint, history: seq<Command>, app: string)
  {
    Accepts(ep, history, ListAppDeployments) && app in ep.deployments
  }

  /**
   * check_application_exists: a linear search of the listed deployments for `app`.
   * An exception while listing reads as "not registered".
   */
  method CheckApplicationExists(ep: Endpoint, history: seq<Command>, app: string) returns (found: bool)
    ensures found <==> Registered(ep, history, app)
  {
    if !Accepts(ep, history, ListAppDeployments) {
      return false;
    }
    var apps := ep.deployments;
    var i := 0;
    while i < |apps|
      invariant 0 <= i <= |apps|
      invariant app !in apps[..i]
    {
      if apps[i] == app {
        return true;
      }
      assert apps[..i + 1] == apps[..i] + [apps[i]];
      i := i + 1;
    }
    assert apps[..i] == apps;
    return false;
  }

  /**
   * undeploy_application: stop the application, ignoring any failure, then undeploy
   * it; the result is the undeploy's alone.
   */
  method UndeployApplication(ep: Endpoint, history: seq<Command>, app: string) returns (undeployed: bool, issued: seq<Command>)
    ensures issued == [StopApplication(app), Undeploy(app)]
    ensures undeployed <==> Accepts(ep, history + [StopApplication(app)], Undeploy(app))
  {
    issued := [StopApplication(app)];
    undeployed := Accepts(ep, history + issued, Undeploy(app));
    issued := issued + [Undeploy(app)];
  }

  /** The calls deploy_application makes before the deploy itself. */
  function RedeployPrefix(ep: Endpoint, h: seq<Command>, d: AppDescriptor): seq<Command>
  {
    [ListAppDeployments] + (if Registered(ep, h, d.name) then [StopApplication(d.name), Undeploy(d.name)] else [])
  }

  /** deploy_application, issued after the calls `h`, for an archive present on disk when its path is in `present`. */
  function DeployAttempt(ep: Endpoint, h: seq<Command>, d: AppDescriptor, present: set<string>): Record
  {
    if d.path !in present then Record(d.name, Failed, [])
    else
      var before := RedeployPrefix(ep, h, d);
      Record(d.name, if Accepts(ep, h + before, DeployCommand(d)) then Done else Failed, before + [DeployCommand(d)])
  }

  /**
   * A missing archive fails with no remote call. Otherwise the deployments are listed
   * first, one undeploy is attempted exactly when the application is registered, the
   * deploy comes last and is issued once, and the attempt succeeds exactly when the
   * deploy returns normally.
   */
  lemma DeployAttemptShape(ep: Endpoint, h: seq<Command>, d: AppDescriptor, present: set<string>)
    ensures var r := DeployAttempt(ep, h, d, present);
            && r.item == d.name
            && (d.path !in present ==> r.result == Failed && r.issued == [])
            && (d.path in present ==>
                  && r.issued[0] == ListAppDeployments
                  && r.issued[|r.issued| - 1] == DeployCommand(d)
                  && Occurrences(r.issued, Undeploy(d.name)) == (if Registered(ep, h, d.name) then 1 else 0)
                  && Occurrences(r.issued, DeployCommand(d)) == 1
                  && (r.result == Done <==> Accepts(ep, h + r.issued[..|r.issued| - 1], DeployCommand(d))))
  {
    if d.path in present {
      var before := RedeployPrefix(ep, h, d);
      var c := DeployCommand(d);
      var u := Undeploy(d.name);
      if Registered(ep, h, d.name) {
        OccurrencesOnce([ListAppDeployments, StopApplication(d.name)], u, [c]);
        assert before + [c] == [ListAppDeployments, StopApplication(d.name)] + [u] + [c];
      } else {
        OccurrencesAbsent(before + [c], u);
      }
      OccurrencesOnce(before, c, []);
      assert before + [c] + [] == before + [c];
      assert (before + [c])[..|before|] == before;
    }
  }

  /** deploy_application itself. */
  method DeployApplication(ep: Endpoint, history: seq<Command>, d: AppDescriptor, present: set<string>)
    returns (success: bool, issued: seq<Command>)
    ensures Record(d.name, if success then Done else Failed, issued) == DeployAttempt(ep, history, d, present)
  {
    if d.path !in present {
      return false, [];
    }
    var registered := CheckApplicationExists(ep, history, d.name);
    issued := [ListAppDeployments];
    if registered {
      var undeployed, calls := UndeployApplication(ep, history + issued, d.name);
      issued := issued + calls;
    }
    assert issued == RedeployPrefix(ep, history, d);
    success := Accepts(ep, history + issued, DeployCommand(d));
    issued := issued + [DeployCommand(d)];
  }

  /** deploy_application only lists, stops, undeploys and deploys. */
  lemma DeployAttemptCalls(ep: Endpoint, h: seq<Command>, d: AppDescriptor, present: set<string>)
    ensures forall x :: x in DeployAttempt(ep, h, d, present).issued ==>
              x.ListAppDeployments? || x.StopApplication? || x.Undeploy? || x.Deploy?
  {
  }

  /** One entry of the main loop: the deploy attempt, then start and verify only after a successful deploy. */
  function DeployItem(ep: Endpoint, h: seq<Command>, d: AppDescriptor, present: set<string>): Record
  {
    var r := DeployAttempt(ep, h, d, present);
    if r.result == Done then r.(issued := r.issued + [StartApplication(d.name), GetTargets(d.name)]) else r
  }

  /**
   * The recorded result is the deploy attempt's result, and the application is started
   * exactly once when that attempt succeeded and not at all otherwise: after a success
   * the attempt's calls are followed by the start and then the verification.
   */
  lemma DeployItemGating(ep: Endpoint, h: seq<Command>, d: AppDescriptor, present: set<string>)
    ensures var a := DeployAttempt(ep, h, d, present);
            var r := DeployItem(ep, h, d, present);
            && r.item == a.item && r.result == a.result
            && Occurrences(r.issued, StartApplication(d.name)) == (if a.result == Done then 1 else 0)
            && Occurrences(r.issued, GetTargets(d.name)) == (if a.result == Done then 1 else 0)
            && r.issued == a.issued + (if a.result == Done then [StartApplication(d.name), GetTargets(d.name)] else [])
  {
    var a := DeployAttempt(ep, h, d, present);
    var s := StartApplication(d.name);
    var g := GetTargets(d.name);
    DeployAttemptCalls(ep, h, d, present);
    if a.result == Done {
      OccurrencesOnce(a.issued, s, [g]);
      OccurrencesOnce(a.issued + [s], g, []);
      assert a.issued + [s, g] == a.issued + [s] + [g] == a.issued + [s] + [g] + [];
    } else {
      OccurrencesAbsent(a.issued, s);
      OccurrencesAbsent(a.issued, g);
    }
  }

  /** The ledger of the main loop over `ds`, started after the calls `h`. */
  function DeployBatch(ep: Endpoint, h: seq<Command>, present: set<string>, ds: seq<AppDescriptor>): (ledger: seq<Record>)
    ensures |ledger| == |ds|
    decreases |ds|
  {
    if ds == [] then []
    else
      var r := DeployItem(ep, h, ds[0], present);
      [r] + DeployBatch(ep, h + r.issued, present, ds[1..])
  }

  lemma DeployBatchFrom(ep: Endpoint, h: seq<Command>, present: set<string>, ds: seq<AppDescriptor>, i: nat)
    requires i < |ds|
    ensures var r := DeployItem(ep, h, ds[i], present);
            DeployBatch(ep, h, present, ds[i..]) == [r] + DeployBatch(ep, h + r.issued, present, ds[i + 1..])
  {
    assert ds[i..][1..] == ds[i + 1..];
  }

  /** Entry `i` of the ledger belongs to table entry `i`, and no entry is ever skipped. */
  lemma {:induction false} DeployBatchItems(ep: Endpoint, h: seq<Command>, present: set<string>, ds: seq<AppDescriptor>)
    ensures var ledger := DeployBatch(ep, h, present, ds);
            && (forall i :: 0 <= i < |ds| ==> ledger[i].item == ds[i].name)
            && Count(ledger, Skipped) == 0
    decreases |ds|
  {
    if ds != [] {
      var r := DeployItem(ep, h, ds[0], present);
      var rest := DeployBatch(ep, h + r.issued, present, ds[1..]);
      DeployBatchItems(ep, h + r.issued, present, ds[1..]);
      CountCons(r, rest, Skipped);
      assert forall i :: 0 < i < |ds| ==> ([r] + rest)[i] == rest[i - 1] && ds[i] == ds[1..][i - 1];
    }
  }

  /** Entry `i` of the ledger is table entry `i` handled after exactly the calls issued for the entries before it. */
  lemma {:induction false} DeployBatchAt(ep: Endpoint, h: seq<Command>, present: set<string>, ds: seq<AppDescriptor>, i: nat)
    requires i < |ds|
    ensures var ledger := DeployBatch(ep, h, present, ds);
            ledger[i] == DeployItem(ep, h + Issued(ledger[..i]), ds[i], present)
    decreases |ds|
  {
    var ledger := DeployBatch(ep, h, present, ds);
    var r := DeployItem(ep, h, ds[0], present);
    var rest := DeployBatch(ep, h + r.issued, present, ds[1..]);
    assert ledger == [r] + rest;
    if i == 0 {
      assert h + Issued(ledger[..0]) == h;
    } else {
      DeployBatchAt(ep, h + r.issued, present, ds[1..], i - 1);
      IssuedPrefixCons(h, r, rest, i);
    }
  }

  /** The loop of main: deploy each table entry, collecting one result per entry. */
  method DeployAll(ep: Endpoint, h0: seq<Command>, present: set<string>, ds: seq<AppDescriptor>)
    returns (results: seq<(string, bool)>, trace: seq<Command>)
    ensures results == Results(DeployBatch(ep, h0, present, ds))
    ensures trace == h0 + Issued(DeployBatch(ep, h0, present, ds))
  {
    ghost var whole := DeployBatch(ep, h0, present, ds);
    results, trace := [], h0;
    assert ds[0..] == ds;
    for i := 0 to |ds|
      invariant h0 + Issued(whole) == trace + Issued(DeployBatch(ep, trace, present, ds[i..]))
      invariant Results(whole) == results + Results(DeployBatch(ep, trace, present, ds[i..]))
    {
      var d := ds[i];
      var success, issued := DeployApplication(ep, trace, d, present);
      if success {
        // start_application and verify_deployment; their results are not recorded
        issued := issued + [StartApplication(d.name), GetTargets(d.name)];
      }
      ghost var r := Record(d.name, if success then Done else Failed, issued);
      assert r == DeployItem(ep, trace, d, present);
      ghost var later := DeployBatch(ep, trace + issued, present, ds[i + 1..]);
      DeployBatchFrom(ep, trace, present, ds, i);
      IssuedCons(r, later);
      ConcatAssoc(trace, issued, Issued(later));
      ResultsCons(r, later);
      ConcatAssoc(results, [(d.name, success)], Results(later));
      trace := trace + issued;
      results := results + [(d.name, success)];
    }
  }

  /**
   * The whole script. A connect failure exits 1 before any deployment; after the loop
   * comes the summarised ending.
   */
  function DeployScript(ep: Endpoint, present: set<string>): Run
  {
    if !Accepts(ep, [], StoreConnect) then Run([StoreConnect], None, Status(1))
    else
      var ledger := DeployBatch(ep, [StoreConnect], present, Deployments);
      SummarisedEnding(ep, [StoreConnect] + Issued(ledger), ledger)
  }

  /** main. */
  method DeployMain(ep: Endpoint, present: set<string>) returns (run: Run)
    ensures run == DeployScript(ep, present)
  {
    if !Accepts(ep, [], StoreConnect) {
      return Run([StoreConnect], None, Status(1));
    }
    var results, trace := DeployAll(ep, [StoreConnect], present, Deployments);
    DeployBatchItems(ep, [StoreConnect], present, Deployments);
    run := DisconnectAndSummarise(ep, trace, results, DeployBatch(ep, [StoreConnect], present, Deployments));
  }

  /**
   * A connect failure exits 1 with nothing deployed. Once connected, there is one
   * result per table entry, in table order; a failing disconnect escapes uncaught, and
   * otherwise the exit status is 0 exactly when every result is a success.
   */
  lemma DeployScriptOutcome(ep: Endpoint, present: set<string>)
    ensures var run := DeployScript(ep, present);
            var ledger := DeployBatch(ep, [StoreConnect], present, Deployments);
            var results := Results(ledger);
            var body := [StoreConnect] + Issued(ledger);
            && (!Accepts(ep, [], StoreConnect) ==> run == Run([StoreConnect], None, Status(1)))
            && |results| == |Deployments|
            && (forall i :: 0 <= i < |Deployments| ==> results[i].0 == Deployments[i].name)
            && (run.exit == Status(0) <==>
                  Accepts(ep, [], StoreConnect) && Accepts(ep, body, Disconnect) && forall i :: 0 <= i < |results| ==> results[i].1)
            && (run.exit == Uncaught <==> Accepts(ep, [], StoreConnect) && !Accepts(ep, body, Disconnect))
  {
    var ledger := DeployBatch(ep, [StoreConnect], present, Deployments);
    DeployBatchItems(ep, [StoreConnect], present, Deployments);
    SummarisedEndingExit(ep, [StoreConnect] + Issued(ledger), ledger);
    forall i | 0 <= i < |Deployments| {
      ResultsAt(ledger, i);
    }
  }

  /** `ep1` and `ep2` differ at most in whether start and verify calls fail. */
  ghost predicate AgreeExceptStartAndVerify(ep1: Endpoint, ep2: Endpoint)
  {
    && ep1.states == ep2.states
    && ep1.deployments == ep2.deployments
    && forall h: seq<Command>, c: Command :: !c.StartApplication? && !c.GetTargets? ==> ep1.fails(h, c) == ep2.fails(h, c)
  }

  lemma {:induction false} DeployBatchIgnoresStartAndVerify(ep1: Endpoint, ep2: Endpoint, h: seq<Command>, present: set<string>, ds: seq<AppDescriptor>)
    requires AgreeExceptStartAndVerify(ep1, ep2)
    ensures DeployBatch(ep1, h, present, ds) == DeployBatch(ep2, h, present, ds)
    decreases |ds|
  {
    if ds != [] {
      var d := ds[0];
      assert Registered(ep1, h, d.name) == Registered(ep2, h, d.name);
      var before := RedeployPrefix(ep1, h, d);
      assert Accepts(ep1, h + before, DeployCommand(d)) == Accepts(ep2, h + before, DeployCommand(d));
      var r := DeployItem(ep1, h, d, present);
      assert r == DeployItem(ep2, h, d, present);
      DeployBatchIgnoresStartAndVerify(ep1, ep2, h + r.issued, present, ds[1..]);
    }
  }

  /** Whether start or verify calls fail never changes the run: same calls, same results, same exit. */
  lemma DeployIgnoresStartAndVerify(ep1: Endpoint, ep2: Endpoint, present: set<string>)
    requires AgreeExceptStartAndVerify(ep1, ep2)
    ensures DeployScript(ep1, present) == DeployScript(ep2, present)
  {
    assert Accepts(ep1, [], StoreConnect) == Accepts(ep2, [], StoreConnect);
    DeployBatchIgnoresStartAndVerify(ep1, ep2, [StoreConnect], present, Deployments);
    var body := [StoreConnect] + Issued(DeployBatch(ep1, [StoreConnect], present, Deployments));
    assert Accepts(ep1, body, Disconnect) == Accepts(ep2, body, Disconnect);
  }
}
