/**
 * The server-arguments configuration script: for each managed server of the table it
 * reads the current start arguments, opens an edit session, sets the new arguments,
 * saves and activates; any exception cancels the edit session. The summary of the
 * per-server results decides the exit status.
 */
module Configuration {
  import opened Wlst
  import opened Summary

  const WebArguments: string :=
    "-server -Dprimavera.bootstrap.home=" + EppmHome + "/p6 -Djava.awt.headless=true -Djavax.xml.stream.XMLInputFactory=com.ctc.wstx.stax.WstxInputFactory -Xms4096m -Xmx4096m -XX:+UseParallelGC -XX:+UseParallelOldGC -XX:GCTimeRatio=19 -XX:NewSize=256m -XX:MaxNewSize=256m -XX:SurvivorRatio=8"
  const TeamMemberArguments: string := "-Dprimavera.bootstrap.home=" + EppmHome + "/tmws"
  const WebServicesArguments: string :=
    "-Djavax.xml.soap.MessageFactory=com.sun.xml.messaging.saaj.soap.ver1_1.SOAPMessageFactory1_1Impl -Djavax.xml.soap.SOAPConnectionFactory=weblogic.wsee.saaj.SOAPConnectionFactoryImpl -Dprimavera.bootstrap.home=" + EppmHome + "/ws"
  const CloudConnectArguments: string := "-Dprimavera.bootstrap.home=" + EppmHome + "/p6procloudconnect"

  /** The configuration table: each managed server with its start arguments, in processing order. */
  const ServerArguments: seq<(string, string)> := [
    ("p6web_ms1", WebArguments),
    ("p6web_ms2", WebArguments),
    ("p6tm_ms1", TeamMemberArguments),
    ("p6tm_ms2", TeamMemberArguments),
    ("p6ws_ms1", WebServicesArguments),
    ("p6ws_ms2", WebServicesArguments),
    ("p6cc_ms1", CloudConnectArguments),
    ("p6cc_ms2", CloudConnectArguments)
  ]

  /** The calls of the try block of configure_server_arguments, in order. */
  function ConfigureCommands(server: string, arguments: string): seq<Command>
  {
    [GetArguments(server), Edit, StartEdit, SetArguments(server, arguments), Save, Activate]
  }

  /** configure_server_arguments: the try block, then cancelEdit('y') after any exception. */
  function ConfigureStep(ep: Endpoint, h: seq<Command>, server: string, arguments: string): Record
  {
    var (issued, ok) := TryBlock(ep, h, ConfigureCommands(server, arguments));
    if ok then Record(server, Done, issued) else Record(server, Failed, issued + [CancelEdit("y")])
  }

  /**
   * The server is configured exactly when all six calls are issued in order and each
   * returns after the ones before it (a raising activate() is a failure); after
   * a failure the calls up to the failing one are followed by one cancelEdit('y'), and
   * nothing is set, saved or activated after the failing call.
   */
  lemma ConfigureStepShape(ep: Endpoint, h: seq<Command>, server: string, arguments: string)
    ensures var r := ConfigureStep(ep, h, server, arguments);
            var cmds := ConfigureCommands(server, arguments);
            && r.item == server
            && r.result != Skipped
            && (r.result == Done <==> r.issued == cmds)
            && (r.result == Done <==> forall i :: 0 <= i < |cmds| ==> Accepts(ep, h + cmds[..i], cmds[i]))
            && (r.result == Failed ==>
                  && r.issued[|r.issued| - 1] == CancelEdit("y")
                  && r.issued[..|r.issued| - 1] <= cmds
                  && 0 < |r.issued| - 1 <= |cmds|
                  && !Accepts(ep, h + r.issued[..|r.issued| - 2], r.issued[|r.issued| - 2]))
  {
    var p := TryBlock(ep, h, ConfigureCommands(server, arguments));
    TryBlockShape(ep, h, ConfigureCommands(server, arguments));
    TryBlockCompletes(ep, h, ConfigureCommands(server, arguments));
    var r := ConfigureStep(ep, h, server, arguments);
    if !p.1 {
      assert r.issued[..|r.issued| - 1] == p.0;
      assert r.issued[..|r.issued| - 2] == p.0[..|p.0| - 1];
    }
  }

  /** The straight-line body of configure_server_arguments. */
  method ConfigureServerArguments(ep: Endpoint, history: seq<Command>, server: string, arguments: string)
    returns (success: bool, issued: seq<Command>)
    ensures Record(server, if success then Done else Failed, issued) == ConfigureStep(ep, history, server, arguments)
  {
    var ok := true;
    issued := [];
    // the calls of the try block reached so far
    ghost var steps: seq<Command> := [];
    // cd to the ServerStart bean and get('Arguments')
    issued, ok := TryCall(ep, history, steps, issued, ok, GetArguments(server));
    steps := steps + [GetArguments(server)];
    issued, ok := TryCall(ep, history, steps, issued, ok, Edit);
    steps := steps + [Edit];
    issued, ok := TryCall(ep, history, steps, issued, ok, StartEdit);
    steps := steps + [StartEdit];
    // the second cd to the ServerStart bean and set('Arguments', arguments)
    issued, ok := TryCall(ep, history, steps, issued, ok, SetArguments(server, arguments));
    steps := steps + [SetArguments(server, arguments)];
    issued, ok := TryCall(ep, history, steps, issued, ok, Save);
    steps := steps + [Save];
    issued, ok := TryCall(ep, history, steps, issued, ok, Activate);
    steps := steps + [Activate];
    assert steps == ConfigureCommands(server, arguments);
    if !ok {
      // the failure of cancelEdit itself is swallowed
      issued := issued + [CancelEdit("y")];
    }
    success := ok;
  }

  /** The truncation of Python's slice `s[:n]`. */
  function Truncate(s: string, n: nat): (r: string)
    ensures |r| <= n && r <= s
    ensures |s| <= n ==> r == s
    ensures |s| > n ==> |r| == n
  {
    if |s| <= n then s else s[..n]
  }

  /** The echo of the arguments read back: at most 50 characters of them, or "(none)" when there are none. */
  function CurrentArgumentsEcho(current: Option<string>): (echo: string)
    ensures current.None? || current.value == [] ==> echo == "(none)"
    ensures current.Some? && current.value != [] ==>
              echo == Truncate(current.value, 50) + "..." && |echo| <= 53
  {
    if current.None? || current.value == [] then "(none)" else Truncate(current.value, 50) + "..."
  }

  /** The echo of the arguments just set: their first 60 characters, then "...". */
  function NewArgumentsEcho(arguments: string): (echo: string)
    ensures echo == Truncate(arguments, 60) + "..." && |echo| <= 63
  {
    Truncate(arguments, 60) + "..."
  }

  /** The ledger of the main loop over `entries`, started after the calls `h`. */
  function ConfigureBatch(ep: Endpoint, h: seq<Command>, entries: seq<(string, string)>): (ledger: seq<Record>)
    ensures |ledger| == |entries|
    decreases |entries|
  {
    if entries == [] then []
    else
      var r := ConfigureStep(ep, h, entries[0].0, entries[0].1);
      [r] + ConfigureBatch(ep, h + r.issued, entries[1..])
  }

  lemma ConfigureBatchFrom(ep: Endpoint, h: seq<Command>, entries: seq<(string, string)>, i: nat)
    requires i < |entries|
    ensures var r := ConfigureStep(ep, h, entries[i].0, entries[i].1);
            ConfigureBatch(ep, h, entries[i..]) == [r] + ConfigureBatch(ep, h + r.issued, entries[i + 1..])
  {
    assert entries[i..][1..] == entries[i + 1..];
  }

  /** Entry `i` of the ledger belongs to server `i` of the table, and no entry is skipped. */
  lemma {:induction false} ConfigureBatchItems(ep: Endpoint, h: seq<Command>, entries: seq<(string, string)>)
    ensures var ledger := ConfigureBatch(ep, h, entries);
            && (forall i :: 0 <= i < |entries| ==> ledger[i].item == entries[i].0)
            && Count(ledger, Skipped) == 0
    decreases |entries|
  {
    if entries != [] {
      var r := ConfigureStep(ep, h, entries[0].0, entries[0].1);
      var rest := ConfigureBatch(ep, h + r.issued, entries[1..]);
      ConfigureBatchItems(ep, h + r.issued, entries[1..]);
      CountCons(r, rest, Skipped);
      assert forall i :: 0 < i < |entries| ==> ([r] + rest)[i] == rest[i - 1] && entries[i] == entries[1..][i - 1];
    }
  }

  /** Entry `i` of the ledger is server `i` configured after exactly the calls issued for the servers before it. */
  lemma {:induction false} ConfigureBatchAt(ep: Endpoint, h: seq<Command>, entries: seq<(string, string)>, i: nat)
    requires i < |entries|
    ensures var ledger := ConfigureBatch(ep, h, entries);
            ledger[i] == ConfigureStep(ep, h + Issued(ledger[..i]), entries[i].0, entries[i].1)
    decreases |entries|
  {
    var ledger := ConfigureBatch(ep, h, entries);
    var r := ConfigureStep(ep, h, entries[0].0, entries[0].1);
    var rest := ConfigureBatch(ep, h + r.issued, entries[1..]);
    assert ledger == [r] + rest;
    if i == 0 {
      assert h + Issued(ledger[..0]) == h;
    } else {
      ConfigureBatchAt(ep, h + r.issued, entries[1..], i - 1);
      IssuedPrefixCons(h, r, rest, i);
    }
  }

  /** The loop of main: configure each server once, collecting one result per server. */
  method ConfigureAll(ep: Endpoint, h0: seq<Command>, entries: seq<(string, string)>)
    returns (results: seq<(string, bool)>, trace: seq<Command>)
    ensures results == Results(ConfigureBatch(ep, h0, entries))
    ensures trace == h0 + Issued(ConfigureBatch(ep, h0, entries))
  {
    ghost var whole := ConfigureBatch(ep, h0, entries);
    results, trace := [], h0;
    assert entries[0..] == entries;
    for i := 0 to |entries|
      invariant h0 + Issued(whole) == trace + Issued(ConfigureBatch(ep, trace, entries[i..]))
      invariant Results(whole) == results + Results(ConfigureBatch(ep, trace, entries[i..]))
    {
      var (server, arguments) := entries[i];
      var success, issued := ConfigureServerArguments(ep, trace, server, arguments);
      ghost var r := Record(server, if success then Done else Failed, issued);
      ghost var later := ConfigureBatch(ep, trace + issued, entries[i + 1..]);
      ConfigureBatchFrom(ep, trace, entries, i);
      IssuedCons(r, later);
      ConcatAssoc(trace, issued, Issued(later));
      ResultsCons(r, later);
      ConcatAssoc(results, [(server, success)], Results(later));
      trace := trace + issued;
      results := results + [(server, success)];
    }
  }

  /** The whole script: a connect failure exits 1 before any server is configured. */
  function ConfigureScript(ep: Endpoint): Run
  {
    if !Accepts(ep, [], StoreConnect) then Run([StoreConnect], None, Status(1))
    else
      var ledger := ConfigureBatch(ep, [StoreConnect], ServerArguments);
      SummarisedEnding(ep, [StoreConnect] + Issued(ledger), ledger)
  }

  /** main. */
  method ConfigureMain(ep: Endpoint) returns (run: Run)
    ensures run == ConfigureScript(ep)
  {
    if !Accepts(ep, [], StoreConnect) {
      return Run([StoreConnect], None, Status(1));
    }
    var results, trace := ConfigureAll(ep, [StoreConnect], ServerArguments);
    ConfigureBatchItems(ep, [StoreConnect], ServerArguments);
    run := DisconnectAndSummarise(ep, trace, results, ConfigureBatch(ep, [StoreConnect], ServerArguments));
  }

  /**
   * A connect failure exits 1 with nothing configured. Once connected, each server of
   * the table has one result, in table order; a failing disconnect escapes uncaught,
   * and otherwise the exit status is 0 exactly when every server was configured.
   */
  lemma ConfigureScriptOutcome(ep: Endpoint)
    ensures var run := ConfigureScript(ep);
            var ledger := ConfigureBatch(ep, [StoreConnect], ServerArguments);
            var results := Results(ledger);
            var body := [StoreConnect] + Issued(ledger);
            && (!Accepts(ep, [], StoreConnect) ==> run == Run([StoreConnect], None, Status(1)))
            && |results| == |ServerArguments|
            && (forall i :: 0 <= i < |ServerArguments| ==> results[i].0 == ServerArguments[i].0)
            && (run.exit == Status(0) <==>
                  Accepts(ep, [], StoreConnect) && Accepts(ep, body, Disconnect) && forall i :: 0 <= i < |results| ==> results[i].1)
            && (run.exit == Uncaught <==> Accepts(ep, [], StoreConnect) && !Accepts(ep, body, Disconnect))
  {
    var ledger := ConfigureBatch(ep, [StoreConnect], ServerArguments);
    ConfigureBatchItems(ep, [StoreConnect], ServerArguments);
    SummarisedEndingExit(ep, [StoreConnect] + Issued(ledger), ledger);
    forall i | 0 <= i < |ServerArguments| {
      ResultsAt(ledger, i);
    }
  }
}
