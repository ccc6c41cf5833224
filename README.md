# Run orchestration of the assistant gateway, in Dafny

This project models the core of the gateway's `coreFunctions.js` and proves
properties of it. There are four parts.

- **`processToolCalls`**: the loop that polls an assistant run for at most
  8000 ms. On `requires_action` it answers the run's tool calls. Each call's
  arguments are decoded with `JSON.parse`, falling back to `{}`. The handler
  registered under the call's name is invoked, and its serialized output is
  submitted under the call's id. A name the registry does not define only
  produces a warning, except that the lookup as written also finds the members
  every JavaScript object inherits (see "## Findings").
  - On `completed` the loop returns the newest message, sanitized.
  - On `failed` it returns `{ response: "error", status: "failed" }`.
  - Otherwise it waits 2000 ms and polls again.
  - Once the budget is spent it returns `{ response: "timeout", status: "timeout" }`.
- **The sanitizer**: `cleanMarkdown`, then citation removal, whitespace
  collapse and `trim`. Each rule is modelled as a left-to-right global
  replacement with JavaScript's regular-expression semantics spelt out:
  - `^` under the `m` flag;
  - `.` never matches a line terminator;
  - lazy `.*?` with backtracking;
  - the `\s` class.
- **`loadToolsFromDirectory`**: a `ToolData` object with `toolConfigs` and
  `functionMap` fields, filled module by module.
- **`checkRunStatus`**: the placeholder status check.

Modules:

| Module | File | Contents |
|---|---|---|
| `Wrappers` | `wrappers.dfy` | Option and Result |
| `JsValues` | `js_values.dfy` | JSON values, truthiness, handlers |
| `Sanitizer` | `sanitizer.dfy` | the sanitizer rules |
| `SanitizerProperties` | `sanitizer_properties.dfy` | what the sanitizer guarantees |
| `Registry` | `registry.dfy` | the registry class, its fold, and the lookup the poller does |
| `RegistryProperties` | `registry_properties.dfy` | what the registry guarantees |
| `Poller` | `poller.dfy` | the loop |
| `PollerProperties` | `poller_properties.dfy` | what the loop guarantees |
| `RunStatus` | `run_status.dfy` | the status check |

The loop's collaborators form one `Environment` value, a script that fixes
every answer the outside world gives. It covers the OpenAI client, the clock, the
2000 ms pause, `JSON.parse` and `JSON.stringify`. `ProcessToolCalls` is proved
for every script. A script says four things:
- what the k-th `runs.retrieve` returns;
- what the message list holds after it;
- whether the n-th submission resolves;
- by how much the k-th deadline check comes later than the fixed pauses put it.

The loop's result is an `Outcome`: a returned response, or the exception that
escaped. It also produces a trace of effects in order: queries, each with the
elapsed time its check saw; handler invocations; submissions; warnings; pauses.
The specification of the loop is the function `Poll`. The loop body is
`PollOnce`, which is specified by `Round`. The tool-call `for` loop is
`HandleRequiredAction`, which is specified by `Dispatch`.

Three behaviours of the code that a reader might not expect, all modelled as
written:
- **The sanitizer is not idempotent.** `"# #x"` becomes `"#x"`, and sanitizing
  that again gives `"x"` (`SanitizeNotIdempotent`).
- **Failures throw.** The code does not degrade them to a `failed` result.
  This covers:
  - a completed run whose newest message cannot be read;
  - a handler that throws;
  - a submission that is rejected;
  - a retrieve that fails.

  Each is the `Raised` outcome. The loop does not go on, and no further call
  of the round is answered.
- **The deadline is `elapsed < 8000`.** The loop stops at the first check that
  sees 8000 ms or more. Waiting until 8 seconds are exceeded would allow one
  more query.

## Model

| member | source | states |
|---|---|---|
| `Sanitizer.HashRunEnd` | coreFunctions.js:107 | the greedy `#+` of the heading rule ends after the last `#` of the run that starts at i, and everything it spans is `#` |
| `Sanitizer.WhitespaceRunEnd` | coreFunctions.js:107 | the greedy `\s*` (and `\s+` of the whitespace rule) stops at the first non-whitespace character, having spanned only whitespace |
| `Sanitizer.FindOnLine` | coreFunctions.js:109 | a lazy `.*?` followed by a literal stops at the first occurrence of the literal that is reachable without crossing a line terminator |
| `Sanitizer.FindOnLineMisses` | coreFunctions.js:109 | the lazy search fails if and only if no occurrence of the literal is reachable without crossing a line terminator |
| `Sanitizer.BracketFrom` | coreFunctions.js:111 | in `open .*? mid (.*?) close` the match found has `mid`, then `close` after it, both actually present in the text |
| `Sanitizer.BracketFromIsFirst` | coreFunctions.js:111 | the match found is the one backtracking finds: its `mid` is reached without crossing a line terminator, its `close` is the first one after that `mid` on the line, every earlier `mid` on the line has no `close` after it; and no match is found exactly when no `mid` on the line is followed by a `close` |
| `Sanitizer.CollapseWhitespaceFrom` | coreFunctions.js:134 | after `replace(/\s+/g, ' ')` every whitespace character left is a space, no two whitespace characters are adjacent, and the output starts with whitespace exactly when the input does |
| `Sanitizer.CollapseKeepsText` | coreFunctions.js:134 | the whitespace rule keeps every non-whitespace character, in order, and adds none |
| `Sanitizer.TrimStart` | coreFunctions.js:134 | the leading-whitespace trim leaves a suffix of the input that does not start with whitespace, and everything it dropped is whitespace |
| `Sanitizer.TrimEnd` | coreFunctions.js:134 | the trailing-whitespace trim leaves a prefix of the input that does not end with whitespace, and everything it dropped is whitespace |
| `Sanitizer.Sanitize` | coreFunctions.js:131-134 | the sanitized message has no whitespace at either end and no two whitespace characters in a row |
| `Sanitizer.TrimSingleSpaced` | coreFunctions.js:134 | `trim` keeps a single-spaced text single-spaced |
| `Sanitizer.StripHeadingsFrom` | coreFunctions.js:107 | the heading rule from position i: a `#` run at a line start and the whitespace after it are dropped, all else is copied; never longer than its input (meaning stated by `SanitizerProperties.HeadingsCopy`, `ExampleHeadings` and `SanitizeNotIdempotent`) |
| `Sanitizer.StripHeadings` | coreFunctions.js:107 | the heading rule over the whole text (definition; stated by the lemmas named for `StripHeadingsFrom`) |
| `Sanitizer.StripBoldFrom` | coreFunctions.js:109 | the bold rule from position i: `**x**` on one line becomes `x`, all else is copied; never longer than its input (meaning stated by `SanitizerProperties.BoldCopy` and `ExampleBold`) |
| `Sanitizer.StripBold` | coreFunctions.js:109 | the bold rule over the whole text (definition; stated by the lemmas named for `StripBoldFrom`) |
| `Sanitizer.ReplaceBracketedFrom` | coreFunctions.js:111 | the global replacement of `open .*? mid (.*?) close` from position i; never longer than its input (meaning stated by `SanitizerProperties.BracketedCopy`, `ReplaceOne`, `ExampleLinks` and `ExampleCitations`) |
| `Sanitizer.CollapseLinks` | coreFunctions.js:111 | the link rule: a link becomes its target (definition; stated by `SanitizerProperties.ExampleLinks`) |
| `Sanitizer.StripCitations` | coreFunctions.js:133 | the citation rule: a citation marker is dropped with its contents (definition; stated by `SanitizerProperties.ExampleCitations`) |
| `Sanitizer.CleanMarkdown` | coreFunctions.js:105-113 | headings, then bold, then links, in the source's order (definition; stated by `SanitizerProperties.SanitizeWithoutMarkup` and `SanitizeExample`) |
| `Sanitizer.CollapseWhitespace` | coreFunctions.js:134 | the whitespace rule over the whole text (definition; stated by `CollapseWhitespaceFrom` and `CollapseKeepsText`) |
| `Sanitizer.Trim` | coreFunctions.js:134 | `trim()`: the trailing trim after the leading one (definition; stated by `TrimStart`, `TrimEnd` and `TrimSingleSpaced`) |
| `SanitizerProperties.HeadingsCopy` | coreFunctions.js:107 | a stretch with no `#` at a line start is copied unchanged by the heading rule |
| `SanitizerProperties.BoldCopy` | coreFunctions.js:109 | a stretch where no `**…**` starts is copied unchanged by the bold rule |
| `SanitizerProperties.BracketedCopy` | coreFunctions.js:111 | a stretch where no link (or citation) starts is copied unchanged |
| `SanitizerProperties.CollapseCopy` | coreFunctions.js:134 | a stretch without whitespace is copied unchanged by the whitespace rule |
| `SanitizerProperties.ReplaceOne` | coreFunctions.js:111 | (proof step) a link match is replaced as a whole by its target (a citation by nothing), and the scan resumes after its closing bracket |
| `SanitizerProperties.SanitizeWithoutMarkup` | coreFunctions.js:105-113 | text in which no heading, bold, link or citation pattern matches is only whitespace-collapsed and trimmed |
| `SanitizerProperties.ExampleHeadings` | coreFunctions.js:107 | `"# "` at the start of the worked example is removed |
| `SanitizerProperties.ExampleBold` | coreFunctions.js:109 | `**world**` becomes `world` |
| `SanitizerProperties.ExampleLinks` | coreFunctions.js:111 | `[link](http://x)` becomes `http://x` |
| `SanitizerProperties.ExampleCitations` | coreFunctions.js:133 | `【a†b】` is removed |
| `SanitizerProperties.CollapseWord` | coreFunctions.js:134 | a word followed by whitespace collapses to the word and one space |
| `SanitizerProperties.ExampleWhitespace` | coreFunctions.js:134 | the example's newlines and double space become single spaces |
| `SanitizerProperties.SanitizeExample` | coreFunctions.js:131-134 | `"# Hello\n**world**\n[link](http://x)\n【a†b】  extra"` sanitizes to `"Hello world http://x extra"` |
| `SanitizerProperties.SanitizeNotIdempotent` | coreFunctions.js:107 | `"# #x"` sanitizes to `"#x"`, which sanitizes to `"x"`: sanitizing twice is not sanitizing once |
| `Registry.ToolData.constructor` | coreFunctions.js:184 | a new `tool_data` has no configurations and an empty function map |
| `Registry.ToolData.AddSource` | coreFunctions.js:188-199 | loading one entry appends its truthy `tool_config` (for a `.js` file only) and writes each of its function exports over the map, nothing else |
| `Registry.LoadToolsFromDirectory` | coreFunctions.js:183-204 | the returned registry is fresh and holds exactly `Configs` and `FunctionMap` of the listing, in listing order |
| `Registry.IsJsFile` | coreFunctions.js:188 | `file.endsWith('.js')` (definition; stated by `RegistryProperties.IgnoresNonJs`) |
| `Registry.ConfigOf` | coreFunctions.js:188-193 | the configuration one entry contributes: its truthy `tool_config` if it is a `.js` file, else nothing (definition; stated by `RegistryProperties.ConfigsMembers`) |
| `Registry.FunctionsOf` | coreFunctions.js:188-199 | the function exports of one `.js` entry, by name (definition; stated by `RegistryProperties.FunctionMapKeys`) |
| `Registry.Configs` | coreFunctions.js:187-193 | `tool_configs` after the listing is loaded (the specification of `ToolData.AddSource` and `LoadToolsFromDirectory`; stated by `RegistryProperties.ConfigsAppend`, `ConfigsInOrder` and `ConfigsMembers`) |
| `Registry.FunctionMap` | coreFunctions.js:187-201 | `function_map` after the listing is loaded (the specification of `ToolData.AddSource` and `LoadToolsFromDirectory`; stated by `RegistryProperties.FunctionMapAppend`, `FunctionMapKeys` and `LastDefinitionWins`) |
| `Registry.Resolve` | coreFunctions.js:154 | the lookup restricted to the map's own entries, used by the loop (stated by `RegistryProperties.ResolveInRegistry` and `ResolveAgreesOffPrototype`) |
| `Registry.ObjectView` | coreFunctions.js:154 | the function map as a JavaScript object sees it: its own entries over the members every object inherits (stated by `RegistryProperties.ObjectViewResolves`) |
| `Registry.ResolveAsWritten` | coreFunctions.js:154 | the lookup as written: an own entry is the registered handler; an inherited hit is a name with no own entry |
| `RegistryProperties.ConfigsAppend` | coreFunctions.js:187-193 | loading a + b lists b's configurations after a's |
| `RegistryProperties.FunctionMapAppend` | coreFunctions.js:187-199 | loading a + b gives a's map overwritten by b's |
| `RegistryProperties.ConfigsInOrder` | coreFunctions.js:191-192 | the configurations are those before entry i, then entry i's, then those after it |
| `RegistryProperties.ConfigsMembers` | coreFunctions.js:188-193 | a configuration is listed if and only if some `.js` module exports it as a truthy `tool_config` |
| `RegistryProperties.IgnoresNonJs` | coreFunctions.js:188 | inserting a file that does not end in `.js` changes neither the configurations nor the map |
| `RegistryProperties.FunctionMapKeys` | coreFunctions.js:195-199 | a name is registered if and only if some `.js` module exports a function under it; non-functions and unexported names are absent |
| `RegistryProperties.LastDefinitionWins` | coreFunctions.js:197 | on a shared name the handler of the last module defining it is registered |
| `RegistryProperties.ResolveInRegistry` | coreFunctions.js:154-155 | in a loaded registry the lookup finds nothing exactly when no module defines the name, and otherwise the last definition's handler |
| `RegistryProperties.InheritedNameResolves` | coreFunctions.js:154 | as written, `"constructor"` is found in an empty function map although it has no entry |
| `RegistryProperties.ResolveAgreesOffPrototype` | coreFunctions.js:154 | away from inherited member names, the lookup as written and the own-entry lookup agree |
| `RegistryProperties.ObjectViewResolves` | coreFunctions.js:154 | the own-entry lookup in that view is the lookup as written: an own entry gives its handler, an inherited member gives the inherited handler, anything else gives nothing |
| `RegistryProperties.ObjectViewOffPrototype` | coreFunctions.js:154 | away from inherited member names the view and the bare map resolve alike |
| `Poller.DispatchSkips` | coreFunctions.js:163-165 | (proof step) an unknown name is warned about and the round goes on with the next call |
| `Poller.DispatchSubmits` | coreFunctions.js:154-162 | (proof step) a known name whose handler resolves and whose submission resolves is invoked with the decoded arguments, answered under the call's id with the serialized output, and the round goes on |
| `Poller.HandleRequiredAction` | coreFunctions.js:143-166 | the `for` over the tool calls does exactly what `Dispatch` describes: same effects in the same order, same exception |
| `Poller.PollTimesOut` | coreFunctions.js:177-178 | (proof step) a deadline check that sees 8000 ms or more ends the loop with the timeout response and no further effect |
| `Poller.PollStops` | coreFunctions.js:125-172 | (proof step) a round that returns or throws ends the loop with that result |
| `Poller.PollContinues` | coreFunctions.js:141-174 | (proof step) a round that does not return is followed by the 2000 ms pause and the next deadline check |
| `Poller.PollOnce` | coreFunctions.js:122-174 | one iteration queries once and then does what `Round` describes; if its check passed, that is how the rest of the loop begins |
| `Poller.ProcessToolCalls` | coreFunctions.js:118-179 | the loop ends with exactly the outcome and effects of `Poll` from the first check, for every behaviour of the service and the clock |
| `Poller.DecodeArgs` | coreFunctions.js:146-152 | the parsed arguments, or `{}` when `JSON.parse` throws (definition; stated by `PollerProperties.DecodeArgsFallsBack`) |
| `Poller.Dispatch` | coreFunctions.js:143-166 | the specification of the tool-call `for` loop (`HandleRequiredAction` is proved against it; stated by the `Dispatch…` lemmas of `PollerProperties`) |
| `Poller.Elapsed` | coreFunctions.js:119-121 | the time the k-th deadline check sees: the first drift, then 2000 ms (the pause of line 174) plus a drift per round (stated by `PollerProperties.ElapsedLowerBound` and `ElapsedIncreases`) |
| `Poller.Round` | coreFunctions.js:122-174 | the specification of one iteration (`PollOnce` is proved against it; stated by `PollerProperties.RoundQueriesOnce` and `RoundStops`) |
| `Poller.Poll` | coreFunctions.js:121-178 | the specification of the `while` loop (`ProcessToolCalls` is proved against it; stated by `PollerProperties.PollOutcome`, `QueriesBeforeDeadline` and `AtMostFourQueries`) |
| `Poller.ProcessToolCallsAsWritten` | coreFunctions.js:118-179 | the loop with the lookup as written ends with exactly the outcome and effects of `Poll` over `ObjectView`, so every `Poll` property above holds of it too |
| `PollerProperties.DecodeArgsFallsBack` | coreFunctions.js:146-152 | (proof step) handlers receive the parsed arguments, or `{}` when parsing fails |
| `PollerProperties.DispatchAnswersEveryRegisteredCall` | coreFunctions.js:143-162 | when handlers and submissions resolve, a round throws nothing and submits one output per registered call, in call order, each with its own id and serialized output |
| `PollerProperties.DispatchInvokesEveryRegisteredCall` | coreFunctions.js:154-156 | under the same conditions each registered call's handler is invoked once, in order, with its decoded arguments, and no other handler is |
| `PollerProperties.DispatchInvokesOnlyRegistered` | coreFunctions.js:154-165 | in every round only resolving names are invoked, only unknown names are warned about, every submission directly follows its invocation, and the round makes no query or pause |
| `PollerProperties.DispatchSkipsUnregistered` | coreFunctions.js:163-165 | a round in which no name resolves (or with no function map) only warns: no invocation, no submission, no exception |
| `PollerProperties.ElapsedLowerBound` | coreFunctions.js:174 | the k-th deadline check sees at least 2000·k ms, and exactly that when the clock has no drift |
| `PollerProperties.ElapsedIncreases` | coreFunctions.js:121 | later deadline checks never see less elapsed time |
| `PollerProperties.RoundQueriesOnce` | coreFunctions.js:122 | every round makes exactly one query, first, right after its deadline check |
| `PollerProperties.QueriesFollowChecks` | coreFunctions.js:121-122 | the i-th query of the loop follows the deadline check of round i, and the last one saw less than 8000 ms |
| `PollerProperties.QueriesBeforeDeadline` | coreFunctions.js:121-122 | no query is made once 8000 ms have elapsed |
| `PollerProperties.AtMostFourQueries` | coreFunctions.js:121-174 | however the clock drifts, the loop makes at most four queries |
| `PollerProperties.RoundStops` | coreFunctions.js:125-172 | a round that ends the loop either returned `failed` after a failed status, or returned the sanitized newest message after a completed status, or threw |
| `PollerProperties.PollOutcome` | coreFunctions.js:118-179 | the loop ends in exactly one way: timeout with at least 8000 ms spent at the last check, `failed` or the sanitized message from the status of the last query, or an exception |
| `PollerProperties.FixedWaitTimesOut` | coreFunctions.js:121-178 | with no drift and a run that stays pending, the loop queries at 0, 2000, 4000 and 6000 ms and then times out, never earlier |
| `PollerProperties.UnregisteredCallsContinue` | coreFunctions.js:141-174 | a `requires_action` round naming only unknown tools warns, pauses and polls again instead of ending the loop |
| `PollerProperties.ToolRoundThenCompleted` | coreFunctions.js:118-179 | one registered tool call is answered under its id and, on the next poll, the completed run's sanitized message is returned |
| `PollerProperties.SkippedThenCompleted` | coreFunctions.js:163-165 | one call of an unknown name is only warned about; the loop pauses, and on the next poll returns the completed run's message |
| `PollerProperties.DispatchAgreesOffPrototype` | coreFunctions.js:143-166 | a round none of whose calls names an inherited member goes the same with the lookup as written and the own-entry lookup |
| `PollerProperties.RoundAgreesOffPrototype` | coreFunctions.js:122-174 | the same for a whole iteration, when no reported call names an inherited member |
| `PollerProperties.PollAgreesOffPrototype` | coreFunctions.js:118-179 | when the service never names an inherited member, the loop as written and the loop with the own-entry lookup end the same way with the same effects |
| `PollerProperties.InheritedNameReachesLoop` | coreFunctions.js:154-165 | a run asking once for `"constructor"` of a registry without it: as written the inherited member is invoked and its output submitted; with the own-entry lookup the call is only warned about |
| `RunStatus.CheckRunStatus` | coreFunctions.js:89-102 | fails with the missing-identifier error exactly when either identifier is absent or falsy; otherwise reports the given run as completed |
| `RunStatus.Present` | coreFunctions.js:91 | an identifier passes `!id` when it is given and truthy (definition; stated by `RunStatus.CheckRunStatus` and `EmptyIdsFail`) |
| `RunStatus.ReportIgnoresThread` | coreFunctions.js:96-97 | the thread identifier only has to be present; which one it is never changes the report |
| `RunStatus.EmptyIdsFail` | coreFunctions.js:91-93 | an empty or absent identifier, in either position, is the missing-identifier error |

## Left out

- I/O and asynchrony: the OpenAI client, `fs`, `path`, `require`, `Date.now`
  and `setTimeout` become fields of the `Environment` (poller) or the given
  list of loaded modules (registry). Concurrent interleavings and logging are
  not modelled.
- Numbers: JSON numbers are integers. `JSON.parse` and `JSON.stringify` are
  opaque functions of the `Environment`. Their own behaviour is not modelled.
- The clock: each deadline check sees the previous one plus 2000 ms plus a
  non-negative drift. A wall clock set backwards between checks is not modelled.
- Mid-call failures: a `require` that throws, and a `Date.now` that fails, are
  not modelled.
- The function map holds functions only: `loadToolsFromDirectory` never stores
  anything else. Someone who puts a non-function value there by hand is outside
  the model.
- Handlers: a handler is a pure function from arguments to a settled result.
  Side effects, and a handler that never settles, are not modelled.
- `messages.data[0].content[0].text.value`: either a string or missing
  (the `Raised(MessageUnavailable)` outcome). What else the message list holds
  is not modelled.
- Other parts of the repository: `getCurrentTime`, `addThread`, `verifyApiKey`,
  the routes of `index.js`, `db.js` and the tools under `tools/` are not part of
  this model. Their behaviour, persistence and HTTP are outside the core.
- `Registry.ObjectView`: what an inherited member does when the loop calls it
  (`Object(args)` for `constructor`, a `TypeError` for `__proto__`, and so on)
  is a parameter. Each member's own behaviour is not modelled.
- `Sanitizer.BracketFrom`, `Sanitizer.BracketAt` and
  `Sanitizer.ReplaceBracketedFrom` require the middle literal to be non-empty
  and not to start with a line terminator. Both literals the code uses, `](`
  and `†`, meet this. Other patterns are not modelled.
- Unicode: strings are sequences of Unicode characters, not UTF-16 code units.
  Every character in the patterns is a single code unit, and `.` only occurs
  inside `.*?` runs, so no match changes. Normalisation is not modelled.

## Findings

| source | as written | input that shows it | evidently intended | confidence | as-written member | corrected member |
|---|---|---|---|---|---|---|
| coreFunctions.js:154 | `tool_data.function_map[functionName]` is a property read on a plain object, so it also finds members inherited from `Object.prototype` | a tool call named `"constructor"` (or `"toString"`, `"valueOf"`, …) against a registry that defines no such tool: the lookup yields `Object`, which is then invoked and its result submitted | only names the registry itself defines are invoked; any other name is warned about and skipped | not executed; follows from JavaScript property lookup | `Registry.ResolveAsWritten`, reaching the loop through `Registry.ObjectView` and `Poller.ProcessToolCallsAsWritten` (shown by `RegistryProperties.InheritedNameResolves` and `PollerProperties.InheritedNameReachesLoop`) | `Registry.Resolve` (proved in `RegistryProperties.ResolveInRegistry`; `PollerProperties.PollAgreesOffPrototype` shows both loops agree on every other name; used by `Poller.ProcessToolCalls`) |
