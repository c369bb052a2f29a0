/**
 * The lifecycle controller: batches that start, stop or undeploy a list of items one
 * after the other, isolating each item's failure. A state-checked batch reads each
 * server's state first and skips it when it is already where the batch would take it;
 * an unconditional batch issues its command for every item.
 */
module Lifecycle {
  import opened Wlst

  /** The per-item command of a batch. */
  datatype Action = StartServer | ShutdownServer(ignoreSessions: bool) | UndeployApp

  /** Every shutdown the scripts issue carries force='true'. */
  function ActionCommand(a: Action, item: string): Command
  {
    match a
    case StartServer => Start(item)
    case ShutdownServer(ignoreSessions) => Shutdown(item, ignoreSessions, true)
    case UndeployApp => Undeploy(item)
  }

  /** Start and shutdown move a server towards a state; undeploy does not. */
  predicate IsTransition(a: Action)
  {
    !a.UndeployApp?
  }

  /** The state in which a server needs no transition. */
  function Desired(a: Action): string
    requires IsTransition(a)
  {
    if a.StartServer? then "RUNNING" else "SHUTDOWN"
  }

  // ---------------------------------------------------------------------------
  // State-checked batches
  // ---------------------------------------------------------------------------

  /** One server of a state-checked batch, with `history` everything issued before it. */
  function CheckedStep(ep: Endpoint, history: seq<Command>, a: Action, server: string): Record
    requires IsTransition(a)
  {
    var query := GetState(server);
    match QueryState(ep, history, server)
    case None => Record(server, Failed, [query])
    case Some(state) =>
      if state == Desired(a) then Record(server, Skipped, [query])
      else
        var cmd := ActionCommand(a, server);
        Record(server, if Accepts(ep, history + [query], cmd) then Done else Failed, [query, cmd])
  }

  /** The ledger of a state-checked batch over `servers`, started after the calls `h`. */
  function CheckedBatch(ep: Endpoint, h: seq<Command>, a: Action, servers: seq<string>): (ledger: seq<Record>)
    requires IsTransition(a)
    ensures |ledger| == |servers|
    decreases |servers|
  {
    if servers == [] then []
    else
      var r := CheckedStep(ep, h, a, servers[0]);
      [r] + CheckedBatch(ep, h + r.issued, a, servers[1..])
  }

  /** The batch over a suffix of the list, taken apart at its first server. */
  lemma CheckedBatchFrom(ep: Endpoint, h: seq<Command>, a: Action, servers: seq<string>, i: nat)
    requires IsTransition(a) && i < |servers|
    ensures var r := CheckedStep(ep, h, a, servers[i]);
            CheckedBatch(ep, h, a, servers[i..]) == [r] + CheckedBatch(ep, h + r.issued, a, servers[i + 1..])
  {
    assert servers[i..][1..] == servers[i + 1..];
  }

  /** Server `i` is handled after all servers before it, seeing exactly their calls. */
  lemma {:induction false} CheckedBatchAt(ep: Endpoint, h: seq<Command>, a: Action, servers: seq<string>, i: nat)
    requires IsTransition(a) && i < |servers|
    ensures var ledger := CheckedBatch(ep, h, a, servers);
            ledger[i] == CheckedStep(ep, h + Issued(ledger[..i]), a, servers[i])
    decreases |servers|
  {
    var ledger := CheckedBatch(ep, h, a, servers);
    var r := CheckedStep(ep, h, a, servers[0]);
    var rest := CheckedBatch(ep, h + r.issued, a, servers[1..]);
    assert ledger == [r] + rest;
    if i == 0 {
      assert h + Issued(ledger[..0]) == h;
    } else {
      CheckedBatchAt(ep, h + r.issued, a, servers[1..], i - 1);
      IssuedPrefixCons(h, r, rest, i);
    }
  }

  /**
   * What happens to server `i`: a failed state query is a failure with no transition;
   * a server already in the desired state is skipped with no transition; any other
   * state leads to exactly one transition command, and the server counts as done
   * exactly when that command returns normally.
   */
  lemma CheckedRecordAt(ep: Endpoint, h: seq<Command>, a: Action, servers: seq<string>, i: nat)
    requires IsTransition(a) && i < |servers|
    ensures var ledger := CheckedBatch(ep, h, a, servers);
            var hi := h + Issued(ledger[..i]);
            var s := servers[i];
            var q := QueryState(ep, hi, s);
            && (q.None? ==> ledger[i] == Record(s, Failed, [GetState(s)]))
            && (q == Some(Desired(a)) ==> ledger[i] == Record(s, Skipped, [GetState(s)]))
            && (q.Some? && q.value != Desired(a) ==>
                  && ledger[i].issued == [GetState(s), ActionCommand(a, s)]
                  && ledger[i].result != Skipped
                  && (ledger[i].result == Done <==> Accepts(ep, hi + [GetState(s)], ActionCommand(a, s))))
  {
    CheckedBatchAt(ep, h, a, servers, i);
  }

  /** The servers whose state a trace queries, in order. */
  function Queried(trace: seq<Command>): seq<string>
  {
    if trace == [] then []
    else (if trace[0].GetState? then [trace[0].server] else []) + Queried(trace[1..])
  }

  lemma {:induction false} QueriedAppend(s: seq<Command>, t: seq<Command>)
    ensures Queried(s + t) == Queried(s) + Queried(t)
  {
    if s == [] {
      assert s + t == t;
    } else {
      var head := if s[0].GetState? then [s[0].server] else [];
      assert (s + t)[0] == s[0] && (s + t)[1..] == s[1..] + t;
      QueriedAppend(s[1..], t);
      ConcatAssoc(head, Queried(s[1..]), Queried(t));
    }
  }

  lemma CheckedStepQueriesItsServer(ep: Endpoint, h: seq<Command>, a: Action, server: string)
    requires IsTransition(a)
    ensures Queried(CheckedStep(ep, h, a, server).issued) == [server]
  {
    var q := GetState(server);
    var c := ActionCommand(a, server);
    assert [c][1..] == [] && [q][1..] == [] && [q, c][1..] == [c];
    assert Queried([c]) == [];
    assert Queried([q]) == [server];
    assert Queried([q, c]) == [server];
  }

  /** Every server's state is read exactly once, in list order, whatever fails on the way. */
  lemma {:induction false} CheckedQueriesInOrder(ep: Endpoint, h: seq<Command>, a: Action, servers: seq<string>)
    requires IsTransition(a)
    ensures Queried(Issued(CheckedBatch(ep, h, a, servers))) == servers
    decreases |servers|
  {
    if servers != [] {
      var r := CheckedStep(ep, h, a, servers[0]);
      var rest := CheckedBatch(ep, h + r.issued, a, servers[1..]);
      IssuedCons(r, rest);
      QueriedAppend(r.issued, Issued(rest));
      CheckedStepQueriesItsServer(ep, h, a, servers[0]);
      CheckedQueriesInOrder(ep, h + r.issued, a, servers[1..]);
      assert [servers[0]] + servers[1..] == servers;
    }
  }

  /** The calls issued for one server hold its own transition once when its state was read and differs from the desired one, and no transition of another server. */
  lemma CheckedStepTransitions(ep: Endpoint, h: seq<Command>, a: Action, server: string, other: string)
    requires IsTransition(a)
    ensures var q := QueryState(ep, h, server);
            Occurrences(CheckedStep(ep, h, a, server).issued, ActionCommand(a, other))
              == if other == server && q.Some? && q.value != Desired(a) then 1 else 0
  {
    var q := GetState(server);
    var c := ActionCommand(a, server);
    var t := ActionCommand(a, other);
    assert [c][1..] == [] && [q][1..] == [] && [q, c][1..] == [c];
    assert Occurrences([q], t) == 0;
    assert Occurrences([c], t) == (if other == server then 1 else 0);
    assert Occurrences([q, c], t) == Occurrences([c], t);
  }

  lemma {:induction false} CheckedNoTransitionForOthers(ep: Endpoint, h: seq<Command>, a: Action, servers: seq<string>, other: string)
    requires IsTransition(a) && other !in servers
    ensures Occurrences(Issued(CheckedBatch(ep, h, a, servers)), ActionCommand(a, other)) == 0
    decreases |servers|
  {
    if servers != [] {
      var r := CheckedStep(ep, h, a, servers[0]);
      var rest := CheckedBatch(ep, h + r.issued, a, servers[1..]);
      IssuedCons(r, rest);
      OccurrencesAppend(r.issued, Issued(rest), ActionCommand(a, other));
      CheckedStepTransitions(ep, h, a, servers[0], other);
      assert other !in servers[1..];
      CheckedNoTransitionForOthers(ep, h + r.issued, a, servers[1..], other);
    }
  }

  predicate Distinct(items: seq<string>)
  {
    forall j, k :: 0 <= j < k < |items| ==> items[j] != items[k]
  }

  /**
   * Over a list of distinct servers, the whole batch issues exactly one transition
   * command for a server whose state was read and differs from the desired state,
   * and none for any other server.
   */
  lemma {:induction false} CheckedTransitionCount(ep: Endpoint, h: seq<Command>, a: Action, servers: seq<string>, i: nat)
    requires IsTransition(a) && i < |servers| && Distinct(servers)
    ensures var ledger := CheckedBatch(ep, h, a, servers);
            var s := servers[i];
            var q := QueryState(ep, h + Issued(ledger[..i]), s);
            Occurrences(Issued(ledger), ActionCommand(a, s)) == if q.Some? && q.value != Desired(a) then 1 else 0
    decreases |servers|
  {
    var ledger := CheckedBatch(ep, h, a, servers);
    var r := CheckedStep(ep, h, a, servers[0]);
    var rest := CheckedBatch(ep, h + r.issued, a, servers[1..]);
    var s := servers[i];
    var cmd := ActionCommand(a, s);
    assert ledger == [r] + rest;
    IssuedCons(r, rest);
    OccurrencesAppend(r.issued, Issued(rest), cmd);
    CheckedStepTransitions(ep, h, a, servers[0], s);
    if i == 0 {
      assert h + Issued(ledger[..0]) == h;
      assert s !in servers[1..];
      CheckedNoTransitionForOthers(ep, h + r.issued, a, servers[1..], s);
    } else {
      assert servers[1..][i - 1] == s && servers[0] != s;
      CheckedTransitionCount(ep, h + r.issued, a, servers[1..], i - 1);
      IssuedPrefixCons(h, r, rest, i);
    }
  }

  /** The body of the per-server `try` block: read the state, then start or stop unless already there. */
  method CheckServer(ep: Endpoint, history: seq<Command>, a: Action, server: string)
    returns (result: Outcome, issued: seq<Command>)
    requires IsTransition(a)
    ensures Record(server, result, issued) == CheckedStep(ep, history, a, server)
  {
    var query := GetState(server);
    issued := [query];
    if !(Accepts(ep, history, query) && server in ep.states) {
      result := Failed;
    } else if ep.states[server] == Desired(a) {
      result := Skipped;
    } else {
      var cmd := ActionCommand(a, server);
      var ok := Accepts(ep, history + issued, cmd);
      issued := issued + [cmd];
      result := if ok then Done else Failed;
    }
  }

  /** The loop of a state-checked start or stop script, with its three counters. */
  method CheckedLoop(ep: Endpoint, h0: seq<Command>, a: Action, servers: seq<string>)
    returns (succeeded: nat, skipped: nat, failed: nat, trace: seq<Command>)
    requires IsTransition(a)
    ensures Tally(succeeded, skipped, failed) == TallyOf(CheckedBatch(ep, h0, a, servers))
    ensures trace == h0 + Issued(CheckedBatch(ep, h0, a, servers))
    ensures succeeded + skipped + failed == |servers|
  {
    ghost var whole := CheckedBatch(ep, h0, a, servers);
    succeeded, skipped, failed := 0, 0, 0;
    trace := h0;
    assert servers[0..] == servers;
    for i := 0 to |servers|
      invariant h0 + Issued(whole) == trace + Issued(CheckedBatch(ep, trace, a, servers[i..]))
      invariant Count(whole, Done) == succeeded + Count(CheckedBatch(ep, trace, a, servers[i..]), Done)
      invariant Count(whole, Skipped) == skipped + Count(CheckedBatch(ep, trace, a, servers[i..]), Skipped)
      invariant Count(whole, Failed) == failed + Count(CheckedBatch(ep, trace, a, servers[i..]), Failed)
    {
      var result, issued := CheckServer(ep, trace, a, servers[i]);
      ghost var r := Record(servers[i], result, issued);
      ghost var later := CheckedBatch(ep, trace + issued, a, servers[i + 1..]);
      CheckedBatchFrom(ep, trace, a, servers, i);
      IssuedCons(r, later);
      ConcatAssoc(trace, issued, Issued(later));
      CountCons(r, later, Done);
      CountCons(r, later, Skipped);
      CountCons(r, later, Failed);
      trace := trace + issued;
      match result {
        case Done => succeeded := succeeded + 1;
        case Skipped => skipped := skipped + 1;
        case Failed => failed := failed + 1;
      }
    }
    TallyPartitions(whole);
  }

  // ---------------------------------------------------------------------------
  // Unconditional batches
  // ---------------------------------------------------------------------------

  /** One item of an unconditional batch: one command, done exactly when it returns normally. */
  function UnconditionalStep(ep: Endpoint, history: seq<Command>, a: Action, item: string): Record
  {
    var cmd := ActionCommand(a, item);
    Record(item, if Accepts(ep, history, cmd) then Done else Failed, [cmd])
  }

  function UnconditionalBatch(ep: Endpoint, h: seq<Command>, a: Action, items: seq<string>): (ledger: seq<Record>)
    ensures |ledger| == |items|
    decreases |items|
  {
    if items == [] then []
    else
      var r := UnconditionalStep(ep, h, a, items[0]);
      [r] + UnconditionalBatch(ep, h + r.issued, a, items[1..])
  }

  lemma UnconditionalBatchFrom(ep: Endpoint, h: seq<Command>, a: Action, items: seq<string>, i: nat)
    requires i < |items|
    ensures var r := UnconditionalStep(ep, h, a, items[i]);
            UnconditionalBatch(ep, h, a, items[i..]) == [r] + UnconditionalBatch(ep, h + r.issued, a, items[i + 1..])
  {
    assert items[i..][1..] == items[i + 1..];
  }

  /** The command of `a` for each item, in list order. */
  function Commands(a: Action, items: seq<string>): (cmds: seq<Command>)
    ensures |cmds| == |items|
    ensures forall i :: 0 <= i < |items| ==> cmds[i] == ActionCommand(a, items[i])
  {
    if items == [] then [] else [ActionCommand(a, items[0])] + Commands(a, items[1..])
  }

  /** The commands of the first `i > 0` items, after `h`, read off the list without its head. */
  lemma CommandsPrefixCons(h: seq<Command>, a: Action, items: seq<string>, i: nat)
    requires 0 < i <= |items|
    ensures h + Commands(a, items[..i]) == (h + [ActionCommand(a, items[0])]) + Commands(a, items[1..][..i - 1])
  {
    assert items[1..][..i - 1] == items[..i][1..];
    ConcatAssoc(h, [ActionCommand(a, items[0])], Commands(a, items[1..][..i - 1]));
  }

  /** An unconditional batch issues exactly its command for every item, in list order. */
  lemma {:induction false} UnconditionalBatchIssuesEach(ep: Endpoint, h: seq<Command>, a: Action, items: seq<string>)
    ensures Issued(UnconditionalBatch(ep, h, a, items)) == Commands(a, items)
    decreases |items|
  {
    if items != [] {
      var r := UnconditionalStep(ep, h, a, items[0]);
      var rest := UnconditionalBatch(ep, h + r.issued, a, items[1..]);
      UnconditionalBatchIssuesEach(ep, h + r.issued, a, items[1..]);
      IssuedCons(r, rest);
    }
  }

  /**
   * Item `i` is done exactly when its command, issued after the commands of all items
   * before it, returns normally: an earlier failure never stops a later item.
   */
  lemma {:induction false} UnconditionalResultAt(ep: Endpoint, h: seq<Command>, a: Action, items: seq<string>, i: nat)
    requires i < |items|
    ensures UnconditionalBatch(ep, h, a, items)[i].result == Done
        <==> Accepts(ep, h + Commands(a, items[..i]), ActionCommand(a, items[i]))
    decreases |items|
  {
    var c := ActionCommand(a, items[0]);
    var r := UnconditionalStep(ep, h, a, items[0]);
    var rest := UnconditionalBatch(ep, h + r.issued, a, items[1..]);
    assert UnconditionalBatch(ep, h, a, items) == [r] + rest;
    if i == 0 {
      assert h + Commands(a, items[..0]) == h;
    } else {
      UnconditionalResultAt(ep, h + [c], a, items[1..], i - 1);
      CommandsPrefixCons(h, a, items, i);
    }
  }

  /** The loop of an unconditional per-host script, with its two counters. */
  method UnconditionalLoop(ep: Endpoint, h0: seq<Command>, a: Action, items: seq<string>)
    returns (succeeded: nat, failed: nat, trace: seq<Command>)
    ensures Tally(succeeded, 0, failed) == TallyOf(UnconditionalBatch(ep, h0, a, items))
    ensures trace == h0 + Issued(UnconditionalBatch(ep, h0, a, items))
    ensures succeeded + failed == |items|
  {
    ghost var whole := UnconditionalBatch(ep, h0, a, items);
    succeeded, failed := 0, 0;
    trace := h0;
    assert items[0..] == items;
    for i := 0 to |items|
      invariant h0 + Issued(whole) == trace + Issued(UnconditionalBatch(ep, trace, a, items[i..]))
      invariant Count(whole, Done) == succeeded + Count(UnconditionalBatch(ep, trace, a, items[i..]), Done)
      invariant Count(whole, Skipped) == Count(UnconditionalBatch(ep, trace, a, items[i..]), Skipped)
      invariant Count(whole, Failed) == failed + Count(UnconditionalBatch(ep, trace, a, items[i..]), Failed)
    {
      var cmd := ActionCommand(a, items[i]);
      var ok := Accepts(ep, trace, cmd);
      ghost var before := trace;
      ghost var r := UnconditionalStep(ep, trace, a, items[i]);
      trace := trace + [cmd];
      if ok {
        succeeded := succeeded + 1;
      } else {
        failed := failed + 1;
      }
      ghost var later := UnconditionalBatch(ep, trace, a, items[i + 1..]);
      UnconditionalBatchFrom(ep, before, a, items, i);
      IssuedCons(r, later);
      ConcatAssoc(before, [cmd], Issued(later));
      CountCons(r, later, Done);
      CountCons(r, later, Skipped);
      CountCons(r, later, Failed);
    }
    TallyPartitions(whole);
  }

  /** An unconditional batch never skips an item. */
  lemma {:induction false} UnconditionalNeverSkips(ep: Endpoint, h: seq<Command>, a: Action, items: seq<string>)
    ensures Count(UnconditionalBatch(ep, h, a, items), Skipped) == 0
    decreases |items|
  {
    if items != [] {
      var r := UnconditionalStep(ep, h, a, items[0]);
      var rest := UnconditionalBatch(ep, h + r.issued, a, items[1..]);
      UnconditionalNeverSkips(ep, h + r.issued, a, items[1..]);
      CountCons(r, rest, Skipped);
    }
  }
}
