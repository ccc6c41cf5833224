/** `processToolCalls`: poll the assistant run until it completes, fails or the
    8000 ms budget is spent, answering every `requires_action` round by invoking
    the registered tool handlers and submitting their outputs.

    The OpenAI client, the clock, `setTimeout`, `JSON.parse` and `JSON.stringify`
    are the fields of an `Environment`: a script that says what each call returns.
    The loop is verified for every script. An exception that the source lets
    escape becomes `Raised`; the effects the loop has on the outside world are
    recorded, in order, in a trace. */
module Poller {
  import opened Wrappers
  import opened JsValues
  import opened Registry
  import Sanitizer

  /** The polling budget (`Date.now() - startTime < 8000`). */
  const DeadlineMs := 8000
  /** The pause after every round that does not return (`setTimeout(resolve, 2000)`). */
  const PollIntervalMs := 2000

  /** One entry of `required_action.submit_tool_outputs.tool_calls`. */
  datatype ToolCall = ToolCall(id: string, name: string, arguments: string)

  /** What `runs.retrieve` reports: the status and, when present, the tool calls
      of `required_action.submit_tool_outputs`. */
  datatype RunState = RunState(status: string, toolCalls: Option<seq<ToolCall>>)

  /** The collaborators, as a script.
      - retrieve(k): the k-th `runs.retrieve`; None when it throws.
      - newestMessage(k): `messages.data[0].content[0].text.value` listed after the
        k-th retrieve; None when the list call throws or that path is missing.
      - submitAccepted(n): whether the n-th `submit_tool_outputs` resolves.
      - parse: `JSON.parse`; None when it throws.
      - stringify: `JSON.stringify`.
      - start: `Date.now()` when `startTime` is taken.
      - drift(k): the milliseconds by which the k-th deadline check comes later
        than the 2000 ms waits alone would put it (for k = 0, after start). */
  datatype Environment = Environment(
    retrieve: nat -> Option<RunState>,
    newestMessage: nat -> Option<string>,
    submitAccepted: nat -> bool,
    parse: string -> Option<Json>,
    stringify: Json -> string,
    start: int,
    drift: nat -> nat)

  /** The exceptions that escape `processToolCalls`. */
  datatype Error =
    | RetrieveFailed
    | MessageUnavailable
    | ToolCallsMissing
    | HandlerThrew(name: string, reason: string)
    | SubmitFailed(toolCallId: string)

  /** The object `processToolCalls` resolves to. */
  datatype Response = Response(response: string, status: string)

  const RunFailed := Response("error", "failed")
  const TimedOut := Response("timeout", "timeout")

  datatype Outcome = Returned(result: Response) | Raised(error: Error)

  /** The single entry of a `tool_outputs` submission. */
  datatype ToolOutput = ToolOutput(toolCallId: string, output: string)

  /** What the loop does to the outside world, in order. */
  datatype Effect =
    | Queried(elapsed: int)          // a `runs.retrieve`, with the elapsed time the deadline test before it saw
    | Invoked(name: string, args: Json)
    | Submitted(output: ToolOutput)  // a `submit_tool_outputs` that resolved
    | Skipped(name: string)          // the "not found in tool data" warning
    | Waited                         // the 2000 ms pause

  /** The effects of one `requires_action` round and the exception that ended it early, if any. */
  datatype Batch = Batch(effects: seq<Effect>, error: Option<Error>)

  /** How a run of the loop ends, and everything it did. */
  datatype Ending = Ending(outcome: Outcome, trace: seq<Effect>)

  function Prepend(effects: seq<Effect>, batch: Batch): Batch
  {
    Batch(effects + batch.effects, batch.error)
  }

  function After(effects: seq<Effect>, ending: Ending): Ending
  {
    Ending(ending.outcome, effects + ending.trace)
  }

  lemma PrependTwice(effects: seq<Effect>, more: seq<Effect>, batch: Batch)
    ensures Prepend(effects, Prepend(more, batch)) == Prepend(effects + more, batch)
  {
    assert effects + (more + batch.effects) == (effects + more) + batch.effects;
  }

  lemma AfterTwice(effects: seq<Effect>, more: seq<Effect>, ending: Ending)
    ensures After(effects, After(more, ending)) == After(effects + more, ending)
  {
    assert effects + (more + ending.trace) == (effects + more) + ending.trace;
  }

  /** `JSON.parse(arguments)`, falling back to `{}` when it throws. */
  function DecodeArgs(env: Environment, arguments: string): Json
  {
    match env.parse(arguments)
    case Some(v) => v
    case None => EmptyObject
  }

  /** The outputs submitted, in order. */
  function Submissions(effects: seq<Effect>): seq<ToolOutput>
  {
    if effects == [] then []
    else (if effects[0].Submitted? then [effects[0].output] else []) + Submissions(effects[1..])
  }

  /** The `for` over the tool calls of one round, `sent` submissions having been made before it. */
  function Dispatch(env: Environment, functionMap: Option<map<string, Handler>>, calls: seq<ToolCall>, sent: nat): Batch
    decreases |calls|
  {
    if calls == [] then Batch([], None)
    else
      var call := calls[0];
      var args := DecodeArgs(env, call.arguments);
      match Resolve(functionMap, call.name)
      case None => Prepend([Skipped(call.name)], Dispatch(env, functionMap, calls[1..], sent))
      case Some(handler) =>
        match handler(args)
        case Rejected(reason) => Batch([Invoked(call.name, args)], Some(HandlerThrew(call.name, reason)))
        case Resolved(output) =>
          if env.submitAccepted(sent) then
            Prepend([Invoked(call.name, args), Submitted(ToolOutput(call.id, env.stringify(output)))],
                    Dispatch(env, functionMap, calls[1..], sent + 1))
          else Batch([Invoked(call.name, args)], Some(SubmitFailed(call.id)))
  }

  /** A call whose name resolves to nothing is skipped, and the round goes on. */
  lemma DispatchSkips(env: Environment, functionMap: Option<map<string, Handler>>, calls: seq<ToolCall>, sent: nat)
    requires calls != [] && Resolve(functionMap, calls[0].name).None?
    ensures Dispatch(env, functionMap, calls, sent)
         == Prepend([Skipped(calls[0].name)], Dispatch(env, functionMap, calls[1..], sent))
  {
  }

  /** A call whose handler resolves and whose submission is accepted is invoked
      and answered, and the round goes on. */
  lemma DispatchSubmits(env: Environment, functionMap: Option<map<string, Handler>>, calls: seq<ToolCall>, sent: nat)
    requires calls != [] && Resolve(functionMap, calls[0].name).Some?
    requires Resolve(functionMap, calls[0].name).value(DecodeArgs(env, calls[0].arguments)).Resolved?
    requires env.submitAccepted(sent)
    ensures var args := DecodeArgs(env, calls[0].arguments);
      var output := Resolve(functionMap, calls[0].name).value(args).output;
      Dispatch(env, functionMap, calls, sent)
      == Prepend([Invoked(calls[0].name, args), Submitted(ToolOutput(calls[0].id, env.stringify(output)))],
                 Dispatch(env, functionMap, calls[1..], sent + 1))
  {
  }

  /** The `requires_action` branch. */
  method HandleRequiredAction(env: Environment, functionMap: Option<map<string, Handler>>, calls: seq<ToolCall>, sent: nat)
    returns (batch: Batch)
    ensures batch == Dispatch(env, functionMap, calls, sent)
  {
    var effects: seq<Effect> := [];
    var submitted := sent;
    var i := 0;
    while i < |calls|
      invariant 0 <= i <= |calls|
      invariant Dispatch(env, functionMap, calls, sent) == Prepend(effects, Dispatch(env, functionMap, calls[i..], submitted))
    {
      var toolCall := calls[i];
      assert calls[i..][0] == toolCall && calls[i..][1..] == calls[i + 1..];
      var args: Json;
      var parsed := env.parse(toolCall.arguments);
      if parsed.Some? {
        args := parsed.value;
      } else {
        args := EmptyObject;
      }
      assert args == DecodeArgs(env, toolCall.arguments);
      var functionToCall := Resolve(functionMap, toolCall.name);
      if functionToCall.Some? {
        var result := functionToCall.value(args);
        if result.Rejected? {
          return Batch(effects + [Invoked(toolCall.name, args)], Some(HandlerThrew(toolCall.name, result.reason)));
        }
        var submission := ToolOutput(toolCall.id, env.stringify(result.output));
        if !env.submitAccepted(submitted) {
          return Batch(effects + [Invoked(toolCall.name, args)], Some(SubmitFailed(toolCall.id)));
        }
        var done := [Invoked(toolCall.name, args), Submitted(submission)];
        DispatchSubmits(env, functionMap, calls[i..], submitted);
        PrependTwice(effects, done, Dispatch(env, functionMap, calls[i + 1..], submitted + 1));
        effects := effects + done;
        submitted := submitted + 1;
      } else {
        DispatchSkips(env, functionMap, calls[i..], submitted);
        PrependTwice(effects, [Skipped(toolCall.name)], Dispatch(env, functionMap, calls[i + 1..], submitted));
        effects := effects + [Skipped(toolCall.name)];
      }
      i := i + 1;
    }
    batch := Batch(effects, None);
  }

  /** The time since `startTime` that the k-th deadline check reads: every round
      after the first adds the 2000 ms wait and its drift. */
  function Elapsed(env: Environment, k: nat): int
  {
    if k == 0 then env.drift(0) else Elapsed(env, k - 1) + PollIntervalMs + env.drift(k)
  }

  /** What one round after a passed deadline check leads to: the loop returns
      or throws, or it goes on to the wait with the effects so far and the new
      number of submissions. */
  datatype Step = Stop(ending: Ending) | Continue(effects: seq<Effect>, sent: nat)

  /** One round of the loop body, the k-th, `sent` submissions having been made before it. */
  function Round(env: Environment, functionMap: Option<map<string, Handler>>, k: nat, sent: nat): Step
  {
    var queried := [Queried(Elapsed(env, k))];
    match env.retrieve(k)
    case None => Stop(Ending(Raised(RetrieveFailed), queried))
    case Some(run) =>
      if run.status == "completed" then
        match env.newestMessage(k)
        case None => Stop(Ending(Raised(MessageUnavailable), queried))
        case Some(text) => Stop(Ending(Returned(Response(Sanitizer.Sanitize(text), "completed")), queried))
      else if run.status == "requires_action" then
        match run.toolCalls
        case None => Stop(Ending(Raised(ToolCallsMissing), queried))
        case Some(calls) =>
          var batch := Dispatch(env, functionMap, calls, sent);
          if batch.error.Some? then Stop(Ending(Raised(batch.error.value), queried + batch.effects))
          else Continue(queried + batch.effects, sent + |Submissions(batch.effects)|)
      else if run.status == "failed" then Stop(Ending(Returned(RunFailed), queried))
      else Continue(queried, sent)
  }

  /** The loop from its k-th deadline check on, `sent` submissions having been made. */
  function Poll(env: Environment, functionMap: Option<map<string, Handler>>, k: nat, sent: nat): Ending
    decreases DeadlineMs - Elapsed(env, k)
  {
    if Elapsed(env, k) >= DeadlineMs then Ending(Returned(TimedOut), [])
    else
      match Round(env, functionMap, k, sent)
      case Stop(ending) => ending
      case Continue(effects, sent') => After(effects + [Waited], Poll(env, functionMap, k + 1, sent'))
  }

  /** A round that goes on: its effects and a wait, then the later rounds. */
  lemma PollContinues(env: Environment, functionMap: Option<map<string, Handler>>, k: nat, sent: nat)
    requires Elapsed(env, k) < DeadlineMs
    requires Round(env, functionMap, k, sent).Continue?
    ensures var step := Round(env, functionMap, k, sent);
      var rest := Poll(env, functionMap, k + 1, step.sent);
      && Poll(env, functionMap, k, sent).trace == step.effects + [Waited] + rest.trace
      && Poll(env, functionMap, k, sent).outcome == rest.outcome
    ensures var step := Round(env, functionMap, k, sent);
      Poll(env, functionMap, k, sent) == After(step.effects + [Waited], Poll(env, functionMap, k + 1, step.sent))
  {
  }

  /** A round that returns ends the loop. */
  lemma PollStops(env: Environment, functionMap: Option<map<string, Handler>>, k: nat, sent: nat)
    requires Elapsed(env, k) < DeadlineMs
    requires Round(env, functionMap, k, sent).Stop?
    ensures Poll(env, functionMap, k, sent) == Round(env, functionMap, k, sent).ending
  {
  }

  /** A deadline check that finds the budget spent ends the loop with "timeout". */
  lemma PollTimesOut(env: Environment, functionMap: Option<map<string, Handler>>, k: nat, sent: nat)
    requires Elapsed(env, k) >= DeadlineMs
    ensures Poll(env, functionMap, k, sent) == Ending(Returned(TimedOut), [])
  {
  }

  /** The body of the `while`: one status query and what follows from it. */
  method PollOnce(env: Environment, functionMap: Option<map<string, Handler>>, k: nat, sent: nat, elapsed: int)
    returns (step: Step)
    requires elapsed == Elapsed(env, k)
    ensures step == Round(env, functionMap, k, sent)
    ensures elapsed < DeadlineMs && step.Stop? ==> Poll(env, functionMap, k, sent) == step.ending
    ensures elapsed < DeadlineMs && step.Continue? ==>
      Poll(env, functionMap, k, sent) == After(step.effects + [Waited], Poll(env, functionMap, k + 1, step.sent))
  {
    var queried := [Queried(elapsed)];
    var runStatus := env.retrieve(k);
    if runStatus.None? {
      return Stop(Ending(Raised(RetrieveFailed), queried));
    }
    var status := runStatus.value.status;
    if status == "completed" {
      var messageContent := env.newestMessage(k);
      if messageContent.None? {
        return Stop(Ending(Raised(MessageUnavailable), queried));
      }
      return Stop(Ending(Returned(Response(Sanitizer.Sanitize(messageContent.value), "completed")), queried));
    } else if status == "requires_action" {
      if runStatus.value.toolCalls.None? {
        return Stop(Ending(Raised(ToolCallsMissing), queried));
      }
      var batch := HandleRequiredAction(env, functionMap, runStatus.value.toolCalls.value, sent);
      if batch.error.Some? {
        return Stop(Ending(Raised(batch.error.value), queried + batch.effects));
      }
      return Continue(queried + batch.effects, sent + |Submissions(batch.effects)|);
    } else if status == "failed" {
      return Stop(Ending(Returned(RunFailed), queried));
    }
    return Continue(queried, sent);
  }

  /** `processToolCalls(client, thread_id, run_id, tool_data)` with
      `tool_data.function_map` given as functionMap. */
  method ProcessToolCalls(env: Environment, functionMap: Option<map<string, Handler>>)
    returns (outcome: Outcome, trace: seq<Effect>)
    ensures Ending(outcome, trace) == Poll(env, functionMap, 0, 0)
  {
    var startTime := env.start;
    var now := startTime + env.drift(0);
    var k: nat := 0;
    var sent: nat := 0;
    trace := [];
    while now - startTime < DeadlineMs
      invariant now - startTime == Elapsed(env, k)
      invariant Poll(env, functionMap, 0, 0) == After(trace, Poll(env, functionMap, k, sent))
      decreases DeadlineMs - (now - startTime)
    {
      var step := PollOnce(env, functionMap, k, sent, now - startTime);
      if step.Stop? {
        return step.ending.outcome, trace + step.ending.trace;
      }
      AfterTwice(trace, step.effects + [Waited], Poll(env, functionMap, k + 1, step.sent));
      trace := trace + (step.effects + [Waited]);
      sent := step.sent;
      k := k + 1;
      now := now + PollIntervalMs + env.drift(k);
    }
    PollTimesOut(env, functionMap, k, sent);
    outcome := Returned(TimedOut);
  }

  /** `processToolCalls` as the source writes it: the read of
      `tool_data.function_map[functionName]` also finds what the object inherits,
      so the loop runs over `ObjectView`, with `prototype` saying what a call of
      each inherited member returns. */
  method ProcessToolCallsAsWritten(env: Environment, functionMap: Option<map<string, Handler>>, prototype: string -> Handler)
    returns (outcome: Outcome, trace: seq<Effect>)
    ensures Ending(outcome, trace) == Poll(env, ObjectView(functionMap, prototype), 0, 0)
  {
    outcome, trace := ProcessToolCalls(env, ObjectView(functionMap, prototype));
  }
}
