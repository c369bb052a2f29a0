/**
 * The abstract administration endpoint that every script drives, the vocabulary of
 * commands the scripts issue to it, and the per-item outcome ledger the scripts tally.
 *
 * The endpoint is modelled only as far as the scripts observe it: the lifecycle state
 * each managed server reports, the names of the registered application deployments,
 * and an oracle saying which calls raise an exception. The oracle sees the whole
 * history of calls issued before the one it judges, so that the same argument-less
 * call (for example `save()`) may succeed for one server and fail for the next.
 */
module Wlst {

  datatype Option<T> = None | Some(value: T)

  /** One call a script makes, recorded in the order it is made. */
  datatype Command =
    | ConnectWithPassword(user: string, password: string, url: string)
    | ConnectWithStore(configFile: string, keyFile: string, url: string)
    | Disconnect
    | DomainRuntime
      // cd('/ServerLifeCycleRuntimes/' + server) followed by cmo.getState()
    | GetState(server: string)
    | Start(server: string)
    | Shutdown(server: string, ignoreSessions: bool, force: bool)
      // cd('/') followed by cmo.getAppDeployments()
    | ListAppDeployments
    | StopApplication(app: string)
    | Undeploy(app: string)
    | Deploy(app: string, path: string, targets: string, stageMode: string, upload: bool)
    | StartApplication(app: string)
      // cd('/AppDeployments/' + app) followed by get('Targets')
    | GetTargets(app: string)
      // cd('/Servers/' + server + '/ServerStart/' + server) followed by get('Arguments')
    | GetArguments(server: string)
    | Edit
    | StartEdit
      // the second cd to the ServerStart bean followed by set('Arguments', arguments)
    | SetArguments(server: string, arguments: string)
    | Save
    | Activate
    | CancelEdit(defaultAnswer: string)
    | StoreUserConfig(configFile: string, keyFile: string)
      // a local os.chmod; it can raise like a remote call
    | Chmod(path: string, mode: nat)

  /** What the scripts can observe of the administration server. */
  datatype Endpoint = Endpoint(
    states: map<string, string>,             // server name to the state getState reports
    deployments: seq<string>,                // names of the registered deployments, in listing order
    fails: (seq<Command>, Command) -> bool)  // does the call raise, given all calls issued before it

  /** The call `c`, issued after the calls `history`, returns normally. */
  predicate Accepts(ep: Endpoint, history: seq<Command>, c: Command)
  {
    !ep.fails(history, c)
  }

  /** The state read for `server`, or None when the query raises (also for a server the endpoint does not know). */
  function QueryState(ep: Endpoint, history: seq<Command>, server: string): (r: Option<string>)
    ensures r.Some? <==> Accepts(ep, history, GetState(server)) && server in ep.states
    ensures r.Some? ==> r.value == ep.states[server]
  {
    if Accepts(ep, history, GetState(server)) && server in ep.states then Some(ep.states[server]) else None
  }

  // Fixed connection parameters, identical in every script.
  const AdminUrl: string := "t3://prmapp01:7001"
  const CredentialDir: string := "/u01/app/eppm/scripts"
  const ConfigFile: string := CredentialDir + "/wlconfig"
  const KeyFile: string := CredentialDir + "/wlkey"
  const AdminUser: string := "weblogic"
  const EppmHome: string := "/u01/app/eppm"

  /** The connect call of the scripts that use the encrypted credential store. */
  const StoreConnect: Command := ConnectWithStore(ConfigFile, KeyFile, AdminUrl)

  /** How a script run ends: an explicit exit status, or an exception nothing catches. */
  datatype Exit = Status(code: nat) | Uncaught

  /** The result kinds an item of a batch can have. */
  datatype Outcome = Done | Skipped | Failed

  /** One entry of the outcome ledger: the item, its result, and the calls issued for it. */
  datatype Record = Record(item: string, result: Outcome, issued: seq<Command>)

  /** The calls of a whole ledger, item after item. */
  function Issued(ledger: seq<Record>): seq<Command>
  {
    if ledger == [] then [] else ledger[0].issued + Issued(ledger[1..])
  }

  lemma ConcatAssoc<T>(x: seq<T>, y: seq<T>, z: seq<T>)
    ensures (x + y) + z == x + (y + z)
  {
  }

  lemma IssuedCons(r: Record, rest: seq<Record>)
    ensures Issued([r] + rest) == r.issued + Issued(rest)
  {
    assert ([r] + rest)[1..] == rest;
  }

  /** The history seen by entry `i > 0` of `[r] + rest`, read off `rest`. */
  lemma IssuedPrefixCons(h: seq<Command>, r: Record, rest: seq<Record>, i: nat)
    requires 0 < i <= |rest| + 1
    ensures h + Issued(([r] + rest)[..i]) == (h + r.issued) + Issued(rest[..i - 1])
  {
    assert ([r] + rest)[..i] == [r] + rest[..i - 1];
    IssuedCons(r, rest[..i - 1]);
    ConcatAssoc(h, r.issued, Issued(rest[..i - 1]));
  }

  /** The number of times `c` occurs in `trace`. */
  function Occurrences(trace: seq<Command>, c: Command): nat
  {
    if trace == [] then 0
    else (if trace[0] == c then 1 else 0) + Occurrences(trace[1..], c)
  }

  lemma {:induction false} OccurrencesAppend(s: seq<Command>, t: seq<Command>, c: Command)
    ensures Occurrences(s + t, c) == Occurrences(s, c) + Occurrences(t, c)
  {
    if s == [] {
      assert s + t == t;
    } else {
      assert (s + t)[1..] == s[1..] + t;
      OccurrencesAppend(s[1..], t, c);
    }
  }

  lemma {:induction false} OccurrencesAbsent(t: seq<Command>, c: Command)
    requires c !in t
    ensures Occurrences(t, c) == 0
  {
    if t != [] {
      assert c !in t[1..];
      OccurrencesAbsent(t[1..], c);
    }
  }

  /** A command that occurs at one position only is counted once. */
  lemma OccurrencesOnce(s: seq<Command>, c: Command, t: seq<Command>)
    requires c !in s && c !in t
    ensures Occurrences(s + [c] + t, c) == 1
  {
    OccurrencesAbsent(s, c);
    OccurrencesAbsent(t, c);
    OccurrencesAppend(s, [c], c);
    OccurrencesAppend(s + [c], t, c);
    assert [c][1..] == [];
  }

  /** The number of ledger entries whose result is `o`. */
  function Count(ledger: seq<Record>, o: Outcome): nat
  {
    if ledger == [] then 0
    else (if ledger[0].result == o then 1 else 0) + Count(ledger[1..], o)
  }

  lemma CountCons(r: Record, rest: seq<Record>, o: Outcome)
    ensures Count([r] + rest, o) == (if r.result == o then 1 else 0) + Count(rest, o)
  {
    assert ([r] + rest)[1..] == rest;
  }

  /** The counters a script keeps: items changed or succeeded, items skipped, items failed. */
  datatype Tally = Tally(succeeded: nat, skipped: nat, failed: nat)

  function TallyOf(ledger: seq<Record>): Tally
  {
    Tally(Count(ledger, Done), Count(ledger, Skipped), Count(ledger, Failed))
  }

  /** Every entry is counted exactly once. */
  lemma {:induction false} TallyPartitions(ledger: seq<Record>)
    ensures TallyOf(ledger).succeeded + TallyOf(ledger).skipped + TallyOf(ledger).failed == |ledger|
  {
    if ledger != [] {
      TallyPartitions(ledger[1..]);
    }
  }

  /** No failed entry exactly when every entry is Done or Skipped. */
  lemma {:induction false} NoFailureMeansAllSucceeded(ledger: seq<Record>)
    ensures Count(ledger, Failed) == 0 <==> forall i :: 0 <= i < |ledger| ==> ledger[i].result != Failed
  {
    if ledger != [] {
      var rest := ledger[1..];
      NoFailureMeansAllSucceeded(rest);
      assert forall i :: 0 < i < |ledger| ==> ledger[i] == rest[i - 1];
    }
  }

  /** The observable result of one script run. */
  datatype Run = Run(trace: seq<Command>, tally: Option<Tally>, exit: Exit)

  /**
   * The calls a try block makes when each of `steps` is issued only after the ones
   * before it returned; and whether the block ran to its end.
   */
  function TryBlock(ep: Endpoint, h: seq<Command>, steps: seq<Command>): (seq<Command>, bool)
  {
    if steps == [] then ([], true)
    else
      var n := |steps|;
      var (issued, ok) := TryBlock(ep, h, steps[..n - 1]);
      if !ok then (issued, false) else (issued + [steps[n - 1]], Accepts(ep, h + issued, steps[n - 1]))
  }

  /**
   * A try block issues a prefix of its calls, all of them when it completes, and
   * otherwise stops right after the first call that raised.
   */
  lemma {:induction false} TryBlockShape(ep: Endpoint, h: seq<Command>, steps: seq<Command>)
    ensures var (issued, ok) := TryBlock(ep, h, steps);
            && issued <= steps
            && (ok ==> issued == steps)
            && (!ok ==> |issued| > 0 && !Accepts(ep, h + issued[..|issued| - 1], issued[|issued| - 1]))
  {
    if steps != [] {
      var n := |steps|;
      var pre := steps[..n - 1];
      TryBlockShape(ep, h, pre);
      var p := TryBlock(ep, h, pre);
      if p.1 {
        assert p.0 + [steps[n - 1]] == steps;
        assert (p.0 + [steps[n - 1]])[..n - 1] == p.0;
      }
    }
  }

  /** A try block runs to its end exactly when each of its calls returns after the ones before it. */
  lemma TryBlockCompletes(ep: Endpoint, h: seq<Command>, steps: seq<Command>)
    ensures TryBlock(ep, h, steps).1 <==> forall i :: 0 <= i < |steps| ==> Accepts(ep, h + steps[..i], steps[i])
  {
    TryBlockShape(ep, h, steps);
    var (issued, ok) := TryBlock(ep, h, steps);
    if ok {
      forall i | 0 <= i < |steps|
        ensures Accepts(ep, h + steps[..i], steps[i])
      {
        TryBlockStopsAtFirstFailure(ep, h, steps, i);
      }
    } else {
      var last := |issued| - 1;
      assert issued[..last] == steps[..last] && issued[last] == steps[last];
    }
  }

  /** Every call before the last one issued returned normally, and all of them did when the block completed. */
  lemma {:induction false} TryBlockStopsAtFirstFailure(ep: Endpoint, h: seq<Command>, steps: seq<Command>, i: nat)
    requires var r := TryBlock(ep, h, steps); i < |r.0| - 1 || (r.1 && i < |r.0|)
    ensures var issued := TryBlock(ep, h, steps).0;
            Accepts(ep, h + issued[..i], issued[i])
  {
    var n := |steps|;
    var r := TryBlock(ep, h, steps);
    assert steps != [];
    var p := TryBlock(ep, h, steps[..n - 1]);
    TryBlockShape(ep, h, steps[..n - 1]);
    if !p.1 {
      assert r == p;
      TryBlockStopsAtFirstFailure(ep, h, steps[..n - 1], i);
    } else {
      assert r.0 == p.0 + [steps[n - 1]];
      if i < |p.0| {
        TryBlockStopsAtFirstFailure(ep, h, steps[..n - 1], i);
        assert r.0[..i] == p.0[..i] && r.0[i] == p.0[i];
      } else {
        assert r.0[..i] == p.0;
      }
    }
  }

  /** One more call at the end of a try block, read off the block without it. */
  lemma TryBlockSnoc(ep: Endpoint, h: seq<Command>, steps: seq<Command>, c: Command)
    ensures var (issued, ok) := TryBlock(ep, h, steps);
            TryBlock(ep, h, steps + [c]) == if ok then (issued + [c], Accepts(ep, h + issued, c)) else (issued, false)
  {
    assert (steps + [c])[..|steps|] == steps;
  }

  /**
   * One statement of a try block: `c` is issued only when every call before it in the
   * block returned, and the block is still running exactly when `c` returned too.
   */
  method TryCall(ep: Endpoint, history: seq<Command>, ghost steps: seq<Command>, issued: seq<Command>, ok: bool, c: Command)
    returns (issuedAfter: seq<Command>, okAfter: bool)
    requires (issued, ok) == TryBlock(ep, history, steps)
    ensures (issuedAfter, okAfter) == TryBlock(ep, history, steps + [c])
  {
    TryBlockSnoc(ep, history, steps, c);
    if ok {
      okAfter := Accepts(ep, history + issued, c);
      issuedAfter := issued + [c];
    } else {
      issuedAfter, okAfter := issued, false;
    }
  }
}
