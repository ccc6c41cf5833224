/** What `processToolCalls` guarantees, stated over every script of its
    collaborators: how a round of tool calls is answered, which results the loop
    can end with, and how the 8000 ms budget bounds the status queries. */
module PollerProperties {
  import opened Wrappers
  import opened JsValues
  import opened Registry
  import Sanitizer
  import opened Poller
  import opened RegistryProperties

  // Views of a trace.

  /** The elapsed times seen by the deadline tests before each status query, in order. */
  function Queries(trace: seq<Effect>): seq<int>
  {
    if trace == [] then []
    else (if trace[0].Queried? then [trace[0].elapsed] else []) + Queries(trace[1..])
  }

  /** The handler invocations, in order, as (name, arguments). */
  function Invocations(effects: seq<Effect>): seq<(string, Json)>
  {
    if effects == [] then []
    else (if effects[0].Invoked? then [(effects[0].name, effects[0].args)] else []) + Invocations(effects[1..])
  }

  // Independent descriptions of what a round should do.

  /** The calls of a round whose names resolve to a handler, in order. */
  function Registered(functionMap: Option<map<string, Handler>>, calls: seq<ToolCall>): seq<ToolCall>
  {
    if calls == [] then []
    else (if Resolve(functionMap, calls[0].name).Some? then [calls[0]] else []) + Registered(functionMap, calls[1..])
  }

  /** The submission a registered call whose handler resolves should produce:
      the call's id and the serialized handler output. */
  function OutputFor(env: Environment, functionMap: Option<map<string, Handler>>, call: ToolCall): ToolOutput
    requires Resolve(functionMap, call.name).Some?
    requires Resolve(functionMap, call.name).value(DecodeArgs(env, call.arguments)).Resolved?
  {
    ToolOutput(call.id, env.stringify(Resolve(functionMap, call.name).value(DecodeArgs(env, call.arguments)).output))
  }

  /** What each of the calls should be invoked with: its name and its decoded arguments. */
  function NamesAndArguments(env: Environment, calls: seq<ToolCall>): seq<(string, Json)>
  {
    if calls == [] then [] else [(calls[0].name, DecodeArgs(env, calls[0].arguments))] + NamesAndArguments(env, calls[1..])
  }

  /** Every registered call's handler resolves on its arguments. */
  ghost predicate HandlersResolve(env: Environment, functionMap: Option<map<string, Handler>>, calls: seq<ToolCall>)
  {
    forall i :: 0 <= i < |calls| && Resolve(functionMap, calls[i].name).Some? ==>
      Resolve(functionMap, calls[i].name).value(DecodeArgs(env, calls[i].arguments)).Resolved?
  }

  function Outputs(env: Environment, functionMap: Option<map<string, Handler>>, calls: seq<ToolCall>): seq<ToolOutput>
    requires HandlersResolve(env, functionMap, calls)
  {
    if calls == [] then []
    else
      assert HandlersResolve(env, functionMap, calls[1..]) by {
        forall i | 0 <= i < |calls[1..]| && Resolve(functionMap, calls[1..][i].name).Some?
          ensures Resolve(functionMap, calls[1..][i].name).value(DecodeArgs(env, calls[1..][i].arguments)).Resolved?
        {
          assert calls[1..][i] == calls[i + 1];
        }
      }
      (if Resolve(functionMap, calls[0].name).Some? then [OutputFor(env, functionMap, calls[0])] else [])
        + Outputs(env, functionMap, calls[1..])
  }

  // Sequence bookkeeping.

  lemma {:induction false} QueriesAppend(a: seq<Effect>, b: seq<Effect>)
    ensures Queries(a + b) == Queries(a) + Queries(b)
    decreases |a|
  {
    if a != [] {
      assert (a + b)[1..] == a[1..] + b;
      QueriesAppend(a[1..], b);
    } else {
      assert a + b == b;
    }
  }

  lemma {:induction false} SubmissionsAppend(a: seq<Effect>, b: seq<Effect>)
    ensures Submissions(a + b) == Submissions(a) + Submissions(b)
    decreases |a|
  {
    if a != [] {
      assert (a + b)[1..] == a[1..] + b;
      SubmissionsAppend(a[1..], b);
    } else {
      assert a + b == b;
    }
  }

  lemma {:induction false} InvocationsAppend(a: seq<Effect>, b: seq<Effect>)
    ensures Invocations(a + b) == Invocations(a) + Invocations(b)
    decreases |a|
  {
    if a != [] {
      assert (a + b)[1..] == a[1..] + b;
      InvocationsAppend(a[1..], b);
    } else {
      assert a + b == b;
    }
  }

  // One round of tool calls.

  /** The arguments handed to a handler are `JSON.parse(arguments)`, or `{}` when that throws. */
  lemma DecodeArgsFallsBack(env: Environment, call: ToolCall)
    ensures env.parse(call.arguments).Some? ==> DecodeArgs(env, call.arguments) == env.parse(call.arguments).value
    ensures env.parse(call.arguments).None? ==> DecodeArgs(env, call.arguments) == EmptyObject
  {
  }

  /** Dropping the first call keeps every registered handler resolving. */
  lemma HandlersResolveRest(env: Environment, functionMap: Option<map<string, Handler>>, calls: seq<ToolCall>)
    requires calls != [] && HandlersResolve(env, functionMap, calls)
    ensures HandlersResolve(env, functionMap, calls[1..])
  {
    var rest := calls[1..];
    forall i | 0 <= i < |rest| && Resolve(functionMap, rest[i].name).Some?
      ensures Resolve(functionMap, rest[i].name).value(DecodeArgs(env, rest[i].arguments)).Resolved?
    {
      assert rest[i] == calls[i + 1];
    }
  }

  /** When every registered handler resolves and every submission is accepted,
      the round ends without an exception, and each registered call submits
      exactly one output carrying its own id and the serialized result, in the
      order of the calls. */
  lemma {:induction false} DispatchAnswersEveryRegisteredCall(
      env: Environment, functionMap: Option<map<string, Handler>>, calls: seq<ToolCall>, sent: nat)
    requires HandlersResolve(env, functionMap, calls)
    requires forall n: nat :: sent <= n ==> env.submitAccepted(n)
    ensures Dispatch(env, functionMap, calls, sent).error.None?
    ensures Submissions(Dispatch(env, functionMap, calls, sent).effects) == Outputs(env, functionMap, calls)
    decreases |calls|
  {
    if calls != [] {
      var call, rest := calls[0], calls[1..];
      HandlersResolveRest(env, functionMap, calls);
      DecodeArgsFallsBack(env, call);
      if Resolve(functionMap, call.name).Some? {
        assert Resolve(functionMap, calls[0].name).value(DecodeArgs(env, calls[0].arguments)).Resolved?;
        var tail := Dispatch(env, functionMap, rest, sent + 1);
        DispatchAnswersEveryRegisteredCall(env, functionMap, rest, sent + 1);
        var head := [Invoked(call.name, DecodeArgs(env, call.arguments)), Submitted(OutputFor(env, functionMap, call))];
        DispatchSubmits(env, functionMap, calls, sent);
        SubmissionsAppend(head, tail.effects);
      } else {
        var tail := Dispatch(env, functionMap, rest, sent);
        DispatchAnswersEveryRegisteredCall(env, functionMap, rest, sent);
        DispatchSkips(env, functionMap, calls, sent);
        SubmissionsAppend([Skipped(call.name)], tail.effects);
      }
    }
  }

  /** Under the same conditions each registered call is invoked once, in order,
      with its decoded arguments, and no other call is. */
  lemma {:induction false} DispatchInvokesEveryRegisteredCall(
      env: Environment, functionMap: Option<map<string, Handler>>, calls: seq<ToolCall>, sent: nat)
    requires HandlersResolve(env, functionMap, calls)
    requires forall n: nat :: sent <= n ==> env.submitAccepted(n)
    ensures Invocations(Dispatch(env, functionMap, calls, sent).effects)
         == NamesAndArguments(env, Registered(functionMap, calls))
    decreases |calls|
  {
    if calls != [] {
      var call, rest := calls[0], calls[1..];
      var regs := Registered(functionMap, calls);
      var regsRest := Registered(functionMap, rest);
      HandlersResolveRest(env, functionMap, calls);
      DecodeArgsFallsBack(env, call);
      if Resolve(functionMap, call.name).Some? {
        assert Resolve(functionMap, calls[0].name).value(DecodeArgs(env, calls[0].arguments)).Resolved?;
        var tail := Dispatch(env, functionMap, rest, sent + 1);
        DispatchInvokesEveryRegisteredCall(env, functionMap, rest, sent + 1);
        var head := [Invoked(call.name, DecodeArgs(env, call.arguments)), Submitted(OutputFor(env, functionMap, call))];
        DispatchSubmits(env, functionMap, calls, sent);
        InvocationsAppend(head, tail.effects);
        assert Invocations(head) == [(call.name, DecodeArgs(env, call.arguments))];
        assert regs == [call] + regsRest;
        assert ([call] + regsRest)[1..] == regsRest;
      } else {
        var tail := Dispatch(env, functionMap, rest, sent);
        DispatchInvokesEveryRegisteredCall(env, functionMap, rest, sent);
        DispatchSkips(env, functionMap, calls, sent);
        InvocationsAppend([Skipped(call.name)], tail.effects);
        assert regs == regsRest;
      }
    }
  }

  /** Only a name that resolves is ever invoked, and only a name that does not
      resolve is skipped; a submission always directly follows an invocation,
      and a round makes no status query and no wait of its own. */
  lemma {:induction false} DispatchInvokesOnlyRegistered(
      env: Environment, functionMap: Option<map<string, Handler>>, calls: seq<ToolCall>, sent: nat)
    ensures forall i :: 0 <= i < |Dispatch(env, functionMap, calls, sent).effects| ==>
      WellFormedAt(functionMap, Dispatch(env, functionMap, calls, sent).effects, i)
    decreases |calls|
  {
    if calls != [] {
      var call, rest := calls[0], calls[1..];
      var effects := Dispatch(env, functionMap, calls, sent).effects;
      var args := DecodeArgs(env, call.arguments);
      match Resolve(functionMap, call.name)
      case None =>
        var tail := Dispatch(env, functionMap, rest, sent).effects;
        DispatchInvokesOnlyRegistered(env, functionMap, rest, sent);
        assert effects == [Skipped(call.name)] + tail;
        ShiftWellFormed(functionMap, [Skipped(call.name)], tail);
      case Some(handler) =>
        match handler(args)
        case Rejected(_) =>
        case Resolved(output) =>
          if env.submitAccepted(sent) {
            var tail := Dispatch(env, functionMap, rest, sent + 1).effects;
            var head := [Invoked(call.name, args), Submitted(ToolOutput(call.id, env.stringify(output)))];
            DispatchInvokesOnlyRegistered(env, functionMap, rest, sent + 1);
            assert effects == head + tail;
            ShiftWellFormed(functionMap, head, tail);
          }
    }
  }

  /** The i-th effect of a round is consistent with the registry. */
  ghost predicate WellFormedAt(functionMap: Option<map<string, Handler>>, effects: seq<Effect>, i: nat)
    requires i < |effects|
  {
    && (effects[i].Invoked? ==> Resolve(functionMap, effects[i].name).Some?)
    && (effects[i].Skipped? ==> Resolve(functionMap, effects[i].name).None?)
    && (effects[i].Submitted? ==> i > 0 && effects[i - 1].Invoked?)
    && !effects[i].Queried? && !effects[i].Waited?
  }

  lemma ShiftWellFormed(functionMap: Option<map<string, Handler>>, head: seq<Effect>, tail: seq<Effect>)
    requires forall i :: 0 <= i < |head| ==> WellFormedAt(functionMap, head, i)
    requires forall i :: 0 <= i < |tail| ==> WellFormedAt(functionMap, tail, i)
    requires tail != [] && tail[0].Submitted? ==> head != [] && head[|head| - 1].Invoked?
    ensures forall i :: 0 <= i < |head + tail| ==> WellFormedAt(functionMap, head + tail, i)
  {
    var all := head + tail;
    forall i | 0 <= i < |all|
      ensures WellFormedAt(functionMap, all, i)
    {
      if i < |head| {
        assert all[i] == head[i];
        assert WellFormedAt(functionMap, head, i);
        if i > 0 { assert all[i - 1] == head[i - 1]; }
      } else {
        assert all[i] == tail[i - |head|];
        assert WellFormedAt(functionMap, tail, i - |head|);
        if i > |head| { assert all[i - 1] == tail[i - 1 - |head|]; }
        if i == |head| && i > 0 { assert all[i - 1] == head[|head| - 1]; }
      }
    }
  }

  /** The warnings of a round in which no name resolves. */
  function SkipAll(calls: seq<ToolCall>): (r: seq<Effect>)
    ensures |r| == |calls|
    ensures forall i :: 0 <= i < |calls| ==> r[i] == Skipped(calls[i].name)
  {
    if calls == [] then [] else [Skipped(calls[0].name)] + SkipAll(calls[1..])
  }

  /** A round in which no name resolves (also when `function_map` is absent)
      only warns: no handler is invoked, nothing is submitted, nothing is thrown. */
  lemma {:induction false} DispatchSkipsUnregistered(
      env: Environment, functionMap: Option<map<string, Handler>>, calls: seq<ToolCall>, sent: nat)
    requires forall i :: 0 <= i < |calls| ==> Resolve(functionMap, calls[i].name).None?
    ensures Dispatch(env, functionMap, calls, sent) == Batch(SkipAll(calls), None)
    ensures Submissions(SkipAll(calls)) == [] && Invocations(SkipAll(calls)) == []
    decreases |calls|
  {
    if calls != [] {
      var rest := calls[1..];
      assert forall i :: 0 <= i < |rest| ==> rest[i] == calls[i + 1];
      assert Resolve(functionMap, calls[0].name).None?;
      DispatchSkipsUnregistered(env, functionMap, rest, sent);
      DispatchSkips(env, functionMap, calls, sent);
      SubmissionsAppend([Skipped(calls[0].name)], SkipAll(rest));
      InvocationsAppend([Skipped(calls[0].name)], SkipAll(rest));
    }
  }

  // The poll loop.

  /** With no drift, the k-th check happens 2000 ms after the previous one; in
      any case no earlier. */
  lemma {:induction false} ElapsedLowerBound(env: Environment, k: nat)
    ensures Elapsed(env, k) >= PollIntervalMs * k
    ensures (forall j: nat :: j <= k ==> env.drift(j) == 0) ==> Elapsed(env, k) == PollIntervalMs * k
  {
    if k > 0 {
      ElapsedLowerBound(env, k - 1);
    }
  }

  /** The trace of a round that goes on: its own query, then the later rounds'. */
  lemma ContinueQueries(effects: seq<Effect>, later: seq<Effect>, elapsed: int)
    requires Queries(effects) == [elapsed]
    ensures Queries(effects + [Waited] + later) == [elapsed] + Queries(later)
  {
    QueriesAppend(effects + [Waited], later);
    QueriesAppend(effects, [Waited]);
    assert Queries([Waited]) == [];
  }

  /** The queries qs, made from round k on, each follow the deadline check of
      its own round, and the last of those checks saw less than 8000 ms elapsed. */
  ghost predicate FollowChecks(env: Environment, k: nat, qs: seq<int>)
  {
    && (forall i :: 0 <= i < |qs| ==> qs[i] == Elapsed(env, k + i))
    && (|qs| > 0 ==> Elapsed(env, k + |qs| - 1) < DeadlineMs)
  }

  /** Each status query comes right after the deadline check of its round, which
      passed: the i-th query of the trace is the one of round k + i, and the last
      one saw less than 8000 ms elapsed. */
  lemma {:induction false} QueriesFollowChecks(env: Environment, functionMap: Option<map<string, Handler>>, k: nat, sent: nat)
    ensures FollowChecks(env, k, Queries(Poll(env, functionMap, k, sent).trace))
    decreases DeadlineMs - Elapsed(env, k), 1
  {
    if Elapsed(env, k) < DeadlineMs {
      if Round(env, functionMap, k, sent).Continue? {
        ContinuingRoundFollowsCheck(env, functionMap, k, sent);
      } else {
        RoundQueriesOnce(env, functionMap, k, sent);
        PollStops(env, functionMap, k, sent);
      }
    } else {
      assert Poll(env, functionMap, k, sent).trace == [];
    }
  }

  lemma {:induction false} ContinuingRoundFollowsCheck(env: Environment, functionMap: Option<map<string, Handler>>, k: nat, sent: nat)
    requires Elapsed(env, k) < DeadlineMs
    requires Round(env, functionMap, k, sent).Continue?
    ensures FollowChecks(env, k, Queries(Poll(env, functionMap, k, sent).trace))
    decreases DeadlineMs - Elapsed(env, k), 0
  {
    var step := Round(env, functionMap, k, sent);
    var rest := Poll(env, functionMap, k + 1, step.sent);
    ContinueQueriesOnce(env, functionMap, k, sent);
    PollContinues(env, functionMap, k, sent);
    QueriesFollowChecks(env, functionMap, k + 1, step.sent);
    ContinueQueries(step.effects, rest.trace, Elapsed(env, k));
    ShiftChecks(env, k, Elapsed(env, k), Queries(rest.trace));
  }

  /** The query list of round k followed by those of rounds k + 1 onwards. */
  lemma ShiftChecks(env: Environment, k: nat, first: int, later: seq<int>)
    requires first == Elapsed(env, k) && first < DeadlineMs
    requires FollowChecks(env, k + 1, later)
    ensures FollowChecks(env, k, [first] + later)
  {
    var qs := [first] + later;
    forall i | 0 <= i < |qs|
      ensures qs[i] == Elapsed(env, k + i)
    {
      if i > 0 {
        assert qs[i] == later[i - 1];
        assert k + 1 + (i - 1) == k + i;
      }
    }
  }

  /** The deadline tests see ever later times. */
  lemma {:induction false} ElapsedIncreases(env: Environment, i: nat, j: nat)
    requires i <= j
    ensures Elapsed(env, i) <= Elapsed(env, j)
    decreases j - i
  {
    if i < j {
      ElapsedIncreases(env, i, j - 1);
    }
  }

  /** No status query is made once the budget is spent: every query of the trace
      follows a check that saw less than 8000 ms elapsed. */
  lemma QueriesBeforeDeadline(env: Environment, functionMap: Option<map<string, Handler>>, k: nat, sent: nat)
    ensures var qs := Queries(Poll(env, functionMap, k, sent).trace);
      forall i :: 0 <= i < |qs| ==> qs[i] < DeadlineMs
  {
    var qs := Queries(Poll(env, functionMap, k, sent).trace);
    QueriesFollowChecks(env, functionMap, k, sent);
    forall i | 0 <= i < |qs|
      ensures qs[i] < DeadlineMs
    {
      ElapsedIncreases(env, k + i, k + |qs| - 1);
    }
  }

  /** A round's own effects hold exactly one query, its first, with the elapsed
      time of its deadline check. */
  lemma RoundQueriesOnce(env: Environment, functionMap: Option<map<string, Handler>>, k: nat, sent: nat)
    ensures var effects := match Round(env, functionMap, k, sent)
        case Stop(ending) => ending.trace
        case Continue(effects, _) => effects;
      Queries(effects) == [Elapsed(env, k)] && effects != [] && effects[0] == Queried(Elapsed(env, k))
  {
    var queried := [Queried(Elapsed(env, k))];
    assert Queries(queried) == [Elapsed(env, k)];
    match env.retrieve(k)
    case None =>
    case Some(run) =>
      if run.status == "requires_action" && run.toolCalls.Some? {
        var batch := Dispatch(env, functionMap, run.toolCalls.value, sent);
        QueriesAppend(queried, batch.effects);
        DispatchInvokesOnlyRegistered(env, functionMap, run.toolCalls.value, sent);
        NoQueries(functionMap, batch.effects);
      }
  }

  lemma {:induction false} NoQueries(functionMap: Option<map<string, Handler>>, effects: seq<Effect>)
    requires forall i :: 0 <= i < |effects| ==> WellFormedAt(functionMap, effects, i)
    ensures Queries(effects) == []
    decreases |effects|
  {
    if effects != [] {
      assert WellFormedAt(functionMap, effects, 0);
      var rest := effects[1..];
      forall i | 0 <= i < |rest|
        ensures !rest[i].Queried?
      {
        assert WellFormedAt(functionMap, effects, i + 1);
        assert rest[i] == effects[i + 1];
      }
      NoQueriesPlain(rest);
    }
  }

  lemma {:induction false} NoQueriesPlain(effects: seq<Effect>)
    requires forall i :: 0 <= i < |effects| ==> !effects[i].Queried?
    ensures Queries(effects) == []
    decreases |effects|
  {
    if effects != [] {
      NoQueriesPlain(effects[1..]);
    }
  }

  /** However the clock drifts, the loop makes at most four status queries: a
      query in round j needs 2000 * j < 8000. */
  lemma AtMostFourQueries(env: Environment, functionMap: Option<map<string, Handler>>)
    ensures |Queries(Poll(env, functionMap, 0, 0).trace)| <= 4
  {
    var qs := Queries(Poll(env, functionMap, 0, 0).trace);
    QueriesFollowChecks(env, functionMap, 0, 0);
    if |qs| > 0 {
      ElapsedLowerBound(env, |qs| - 1);
    }
  }

  /** The ways the loop can end, given its first deadline check is round k:
      "timeout" once a deadline check finds 8000 ms spent; "failed" when the last
      query reported a failed run; the sanitized newest message when it reported
      a completed run; or an exception. */
  ghost predicate EndsProperly(env: Environment, k: nat, e: Ending)
  {
    var n := |Queries(e.trace)|;
    var last := k + n - 1;
    || (e.outcome == Returned(TimedOut) && Elapsed(env, k + n) >= DeadlineMs)
    || (e.outcome == Returned(RunFailed) && n > 0
        && env.retrieve(last).Some? && env.retrieve(last).value.status == "failed")
    || (n > 0 && env.retrieve(last).Some? && env.retrieve(last).value.status == "completed"
        && env.newestMessage(last).Some?
        && e.outcome == Returned(Response(Sanitizer.Sanitize(env.newestMessage(last).value), "completed")))
    || e.outcome.Raised?
  }

  /** The loop ends in exactly one of the ways `EndsProperly` names. */
  lemma {:induction false} PollOutcome(env: Environment, functionMap: Option<map<string, Handler>>, k: nat, sent: nat)
    ensures EndsProperly(env, k, Poll(env, functionMap, k, sent))
    decreases DeadlineMs - Elapsed(env, k), 1
  {
    if Elapsed(env, k) < DeadlineMs {
      if Round(env, functionMap, k, sent).Continue? {
        ContinuingRoundEndsProperly(env, functionMap, k, sent);
      } else {
        var step := Round(env, functionMap, k, sent);
        RoundQueriesOnce(env, functionMap, k, sent);
        PollStops(env, functionMap, k, sent);
        RoundStops(env, functionMap, k, sent);
        assert k + |Queries(step.ending.trace)| - 1 == k;
      }
    } else {
      assert Poll(env, functionMap, k, sent).trace == [];
    }
  }

  lemma {:induction false} ContinuingRoundEndsProperly(env: Environment, functionMap: Option<map<string, Handler>>, k: nat, sent: nat)
    requires Elapsed(env, k) < DeadlineMs
    requires Round(env, functionMap, k, sent).Continue?
    ensures EndsProperly(env, k, Poll(env, functionMap, k, sent))
    decreases DeadlineMs - Elapsed(env, k), 0
  {
    var step := Round(env, functionMap, k, sent);
    var rest := Poll(env, functionMap, k + 1, step.sent);
    ContinueQueriesOnce(env, functionMap, k, sent);
    PollContinues(env, functionMap, k, sent);
    PollOutcome(env, functionMap, k + 1, step.sent);
    ContinueQueries(step.effects, rest.trace, Elapsed(env, k));
    ShiftEnding(env, k, Poll(env, functionMap, k, sent), rest, Elapsed(env, k));
  }

  lemma ContinueQueriesOnce(env: Environment, functionMap: Option<map<string, Handler>>, k: nat, sent: nat)
    requires Round(env, functionMap, k, sent).Continue?
    ensures Queries(Round(env, functionMap, k, sent).effects) == [Elapsed(env, k)]
  {
    RoundQueriesOnce(env, functionMap, k, sent);
  }

  /** An ending one round later is still proper with the round's query in front. */
  lemma ShiftEnding(env: Environment, k: nat, e: Ending, rest: Ending, first: int)
    requires EndsProperly(env, k + 1, rest)
    requires e.outcome == rest.outcome
    requires Queries(e.trace) == [first] + Queries(rest.trace)
    ensures EndsProperly(env, k, e)
  {
    assert k + |Queries(e.trace)| == (k + 1) + |Queries(rest.trace)|;
  }

  /** A round that returns: "failed" or the sanitized message, from the status
      its own query reported, or an exception. */
  lemma RoundStops(env: Environment, functionMap: Option<map<string, Handler>>, k: nat, sent: nat)
    requires Round(env, functionMap, k, sent).Stop?
    ensures var o := Round(env, functionMap, k, sent).ending.outcome;
      || (o == Returned(RunFailed) && env.retrieve(k).Some? && env.retrieve(k).value.status == "failed")
      || (env.retrieve(k).Some? && env.retrieve(k).value.status == "completed" && env.newestMessage(k).Some?
          && o == Returned(Response(Sanitizer.Sanitize(env.newestMessage(k).value), "completed")))
      || o.Raised?
  {
  }

  /** A status that is none of the three the loop reacts to. */
  ghost predicate Pending(run: Option<RunState>)
  {
    run.Some? && run.value.status != "completed" && run.value.status != "requires_action" && run.value.status != "failed"
  }

  /** If time advances only through the fixed 2000 ms waits and the run never
      leaves a pending status, the loop queries at 0, 2000, 4000 and 6000 ms
      and then times out. */
  lemma FixedWaitTimesOut(env: Environment, functionMap: Option<map<string, Handler>>)
    requires forall j: nat :: env.drift(j) == 0
    requires forall j: nat :: Pending(env.retrieve(j))
    ensures Poll(env, functionMap, 0, 0)
         == Ending(Returned(TimedOut), [Queried(0), Waited, Queried(2000), Waited, Queried(4000), Waited, Queried(6000), Waited])
  {
    assert Elapsed(env, 1) == 2000;
    assert Elapsed(env, 2) == 4000;
    assert Elapsed(env, 3) == 6000;
    assert Elapsed(env, 4) == 8000;
    assert Pending(env.retrieve(3)) && Pending(env.retrieve(2)) && Pending(env.retrieve(1)) && Pending(env.retrieve(0));
    assert Poll(env, functionMap, 4, 0) == Ending(Returned(TimedOut), []);
    assert Poll(env, functionMap, 3, 0) == Ending(Returned(TimedOut), [Queried(6000), Waited]);
    assert Poll(env, functionMap, 2, 0) == Ending(Returned(TimedOut), [Queried(4000), Waited, Queried(6000), Waited]);
  }

  /** A `requires_action` round whose tool names are all unknown only warns and
      then waits and polls again instead of returning. */
  lemma UnregisteredCallsContinue(env: Environment, functionMap: Option<map<string, Handler>>, k: nat, sent: nat, calls: seq<ToolCall>)
    requires Elapsed(env, k) < DeadlineMs
    requires env.retrieve(k) == Some(RunState("requires_action", Some(calls)))
    requires forall i :: 0 <= i < |calls| ==> Resolve(functionMap, calls[i].name).None?
    ensures Poll(env, functionMap, k, sent)
         == After([Queried(Elapsed(env, k))] + SkipAll(calls) + [Waited], Poll(env, functionMap, k + 1, sent))
  {
    DispatchSkipsUnregistered(env, functionMap, calls, sent);
  }

  /** The round trip the source is written for: the run asks for one registered
      tool, the handler's output is submitted under the call's id, and on the
      next poll the run is completed and its sanitized message is returned. */
  lemma ToolRoundThenCompleted(env: Environment, functionMap: Option<map<string, Handler>>, call: ToolCall, output: Json, text: string)
    requires env.drift(0) == 0 && env.drift(1) == 0
    requires env.retrieve(0) == Some(RunState("requires_action", Some([call])))
    requires env.retrieve(1) == Some(RunState("completed", None))
    requires Resolve(functionMap, call.name).Some?
    requires Resolve(functionMap, call.name).value(DecodeArgs(env, call.arguments)) == Resolved(output)
    requires env.submitAccepted(0)
    requires env.newestMessage(1) == Some(text)
    ensures Poll(env, functionMap, 0, 0) == Ending(
      Returned(Response(Sanitizer.Sanitize(text), "completed")),
      [Queried(0), Invoked(call.name, DecodeArgs(env, call.arguments)),
       Submitted(ToolOutput(call.id, env.stringify(output))), Waited, Queried(2000)])
  {
    var out := ToolOutput(call.id, env.stringify(output));
    var submissions := [Invoked(call.name, DecodeArgs(env, call.arguments)), Submitted(out)];
    OneCallAnswered(env, functionMap, call, output);
    RoundAnswers(env, functionMap, 0, 0, [call], submissions);
    assert Elapsed(env, 0) == 0 && Elapsed(env, 1) == 2000;
    assert Round(env, functionMap, 0, 0) == Continue([Queried(0)] + submissions, 1);
    CompletedRound(env, functionMap, 1, 1, text);
    ContinueThen(env, functionMap, 0, 0, [Queried(0)] + submissions, 1, Poll(env, functionMap, 1, 1));
    assert [Queried(0)] + submissions + [Waited] + [Queried(2000)]
        == [Queried(0), Invoked(call.name, DecodeArgs(env, call.arguments)), Submitted(out), Waited, Queried(2000)];
  }

  /** A round that goes on, followed by the trace of the later rounds. */
  lemma ContinueThen(env: Environment, functionMap: Option<map<string, Handler>>, k: nat, sent: nat,
                     effects: seq<Effect>, sent': nat, later: Ending)
    requires Elapsed(env, k) < DeadlineMs
    requires Round(env, functionMap, k, sent) == Continue(effects, sent')
    requires Poll(env, functionMap, k + 1, sent') == later
    ensures Poll(env, functionMap, k, sent) == Ending(later.outcome, effects + [Waited] + later.trace)
  {
    PollContinues(env, functionMap, k, sent);
  }

  /** A `requires_action` round whose calls are all answered goes on. */
  lemma RoundAnswers(env: Environment, functionMap: Option<map<string, Handler>>, k: nat, sent: nat,
                     calls: seq<ToolCall>, effects: seq<Effect>)
    requires env.retrieve(k) == Some(RunState("requires_action", Some(calls)))
    requires Dispatch(env, functionMap, calls, sent) == Batch(effects, None)
    ensures Round(env, functionMap, k, sent) == Continue([Queried(Elapsed(env, k))] + effects, sent + |Submissions(effects)|)
  {
  }

  /** A round that finds the run completed returns its sanitized message. */
  lemma CompletedRound(env: Environment, functionMap: Option<map<string, Handler>>, k: nat, sent: nat, text: string)
    requires Elapsed(env, k) < DeadlineMs
    requires env.retrieve(k).Some? && env.retrieve(k).value.status == "completed"
    requires env.newestMessage(k) == Some(text)
    ensures Poll(env, functionMap, k, sent)
         == Ending(Returned(Response(Sanitizer.Sanitize(text), "completed")), [Queried(Elapsed(env, k))])
  {
    assert Round(env, functionMap, k, sent)
        == Stop(Ending(Returned(Response(Sanitizer.Sanitize(text), "completed")), [Queried(Elapsed(env, k))]));
    PollStops(env, functionMap, k, sent);
  }

  /** A round of one registered call whose handler and submission resolve. */
  lemma OneCallAnswered(env: Environment, functionMap: Option<map<string, Handler>>, call: ToolCall, output: Json)
    requires Resolve(functionMap, call.name).Some?
    requires Resolve(functionMap, call.name).value(DecodeArgs(env, call.arguments)) == Resolved(output)
    requires env.submitAccepted(0)
    ensures var out := ToolOutput(call.id, env.stringify(output));
      && Dispatch(env, functionMap, [call], 0) == Batch([Invoked(call.name, DecodeArgs(env, call.arguments)), Submitted(out)], None)
      && Submissions([Invoked(call.name, DecodeArgs(env, call.arguments)), Submitted(out)]) == [out]
  {
    var out := ToolOutput(call.id, env.stringify(output));
    var submissions := [Invoked(call.name, DecodeArgs(env, call.arguments)), Submitted(out)];
    DispatchSubmits(env, functionMap, [call], 0);
    assert [call][1..] == [];
    assert submissions[1..] == [Submitted(out)];
    assert [Submitted(out)][1..] == [];
    assert Submissions([Submitted(out)]) == [out];
  }

  // The lookup as written against the own-entry lookup.

  /** No call of the list names a member every object inherits. */
  ghost predicate OffPrototype(calls: seq<ToolCall>)
  {
    forall i :: 0 <= i < |calls| ==> calls[i].name !in ObjectPrototypeMembers
  }

  /** A round none of whose calls names an inherited member goes the same way
      with either lookup. */
  lemma {:induction false} DispatchAgreesOffPrototype(env: Environment, functionMap: Option<map<string, Handler>>,
                                                      prototype: string -> Handler, calls: seq<ToolCall>, sent: nat)
    requires OffPrototype(calls)
    ensures Dispatch(env, ObjectView(functionMap, prototype), calls, sent) == Dispatch(env, functionMap, calls, sent)
    decreases |calls|
  {
    if calls != [] {
      ObjectViewOffPrototype(functionMap, prototype, calls[0].name);
      assert OffPrototype(calls[1..]) by {
        forall i | 0 <= i < |calls[1..]|
          ensures calls[1..][i].name !in ObjectPrototypeMembers
        {
          assert calls[1..][i] == calls[i + 1];
        }
      }
      DispatchAgreesOffPrototype(env, functionMap, prototype, calls[1..], sent);
      DispatchAgreesOffPrototype(env, functionMap, prototype, calls[1..], sent + 1);
    }
  }

  /** Every round of tool calls the service reports avoids the inherited names. */
  ghost predicate CallsOffPrototype(env: Environment)
  {
    forall j: nat :: env.retrieve(j).Some? && env.retrieve(j).value.toolCalls.Some? ==>
      OffPrototype(env.retrieve(j).value.toolCalls.value)
  }

  lemma RoundAgreesOffPrototype(env: Environment, functionMap: Option<map<string, Handler>>,
                                prototype: string -> Handler, k: nat, sent: nat)
    requires CallsOffPrototype(env)
    ensures Round(env, ObjectView(functionMap, prototype), k, sent) == Round(env, functionMap, k, sent)
  {
    if env.retrieve(k).Some? && env.retrieve(k).value.toolCalls.Some? {
      DispatchAgreesOffPrototype(env, functionMap, prototype, env.retrieve(k).value.toolCalls.value, sent);
    }
  }

  /** When the service never names an inherited member, the loop as written and
      the loop with the own-entry lookup do exactly the same. */
  lemma {:induction false} PollAgreesOffPrototype(env: Environment, functionMap: Option<map<string, Handler>>,
                                                  prototype: string -> Handler, k: nat, sent: nat)
    requires CallsOffPrototype(env)
    ensures Poll(env, ObjectView(functionMap, prototype), k, sent) == Poll(env, functionMap, k, sent)
    decreases DeadlineMs - Elapsed(env, k)
  {
    var view := ObjectView(functionMap, prototype);
    if Elapsed(env, k) >= DeadlineMs {
      PollTimesOut(env, view, k, sent);
      PollTimesOut(env, functionMap, k, sent);
    } else {
      RoundAgreesOffPrototype(env, functionMap, prototype, k, sent);
      var step := Round(env, functionMap, k, sent);
      if step.Stop? {
        PollStops(env, view, k, sent);
        PollStops(env, functionMap, k, sent);
      } else {
        PollContinues(env, view, k, sent);
        PollContinues(env, functionMap, k, sent);
        PollAgreesOffPrototype(env, functionMap, prototype, k + 1, step.sent);
      }
    }
  }

  /** The two lookups part ways on an inherited name: a run that asks once for a
      tool called "constructor" of a registry that defines no such tool, and then
      completes. As written, the inherited member is invoked and its output
      submitted; with the own-entry lookup the call is only warned about. */
  lemma InheritedNameReachesLoop(env: Environment, functionMap: Option<map<string, Handler>>,
                                 prototype: string -> Handler, call: ToolCall, output: Json, text: string)
    requires call.name == "constructor"
    requires functionMap.Some? && call.name !in functionMap.value
    requires env.drift(0) == 0 && env.drift(1) == 0
    requires env.retrieve(0) == Some(RunState("requires_action", Some([call])))
    requires env.retrieve(1) == Some(RunState("completed", None))
    requires prototype(call.name)(DecodeArgs(env, call.arguments)) == Resolved(output)
    requires env.submitAccepted(0)
    requires env.newestMessage(1) == Some(text)
    ensures Poll(env, ObjectView(functionMap, prototype), 0, 0).trace
         == [Queried(0), Invoked(call.name, DecodeArgs(env, call.arguments)),
             Submitted(ToolOutput(call.id, env.stringify(output))), Waited, Queried(2000)]
    ensures Poll(env, functionMap, 0, 0).trace == [Queried(0), Skipped(call.name), Waited, Queried(2000)]
  {
    ObjectViewResolves(functionMap, prototype, call.name);
    assert ResolveAsWritten(functionMap, call.name) == Inherited(call.name);
    ToolRoundThenCompleted(env, ObjectView(functionMap, prototype), call, output, text);
    SkippedThenCompleted(env, functionMap, call, text);
  }

  /** One call of an unknown name is warned about; the next poll returns the message. */
  lemma SkippedThenCompleted(env: Environment, functionMap: Option<map<string, Handler>>, call: ToolCall, text: string)
    requires Resolve(functionMap, call.name).None?
    requires env.drift(0) == 0 && env.drift(1) == 0
    requires env.retrieve(0) == Some(RunState("requires_action", Some([call])))
    requires env.retrieve(1) == Some(RunState("completed", None))
    requires env.newestMessage(1) == Some(text)
    ensures Poll(env, functionMap, 0, 0).trace == [Queried(0), Skipped(call.name), Waited, Queried(2000)]
  {
    var skipped := [Skipped(call.name)];
    DispatchSkips(env, functionMap, [call], 0);
    assert [call][1..] == [] && skipped[1..] == [];
    assert Dispatch(env, functionMap, [call], 0) == Batch(skipped, None);
    assert Submissions(skipped) == [];
    RoundAnswers(env, functionMap, 0, 0, [call], skipped);
    assert Elapsed(env, 0) == 0 && Elapsed(env, 1) == 2000;
    assert Round(env, functionMap, 0, 0) == Continue([Queried(0)] + skipped, 0);
    CompletedRound(env, functionMap, 1, 0, text);
    var later := Poll(env, functionMap, 1, 0);
    assert later.trace == [Queried(2000)];
    ContinueThen(env, functionMap, 0, 0, [Queried(0)] + skipped, 0, later);
    assert [Queried(0)] + skipped + [Waited] + [Queried(2000)] == [Queried(0), Skipped(call.name), Waited, Queried(2000)];
  }
}
