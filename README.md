# Cancellable agent streaming, modelled in Dafny

This project models the core of a chat service that streams an AI agent's
answer and lets the user cancel it.

The `AgentOrchestrator` (src/agent/agent_core.py) has two parts:
- A **stop check**. A sticky local flag `stop_requested` sits in front of a
  remote signal store (Redis). When the flag is set, the check answers "stop"
  without asking the store. Otherwise it asks the store, and a true answer
  sets the flag. When asking the store fails with any exception, the failure
  is logged and the check answers "no stop".
- A **streaming loop**. For each event of the agent's stream it runs the stop
  check. On a stop it calls the agent's stop tool and yields the marker
  `"[STOPPED]"`. Then it yields the event's `"data"`, if the event has any.

The application settings (src/config.py) are also modelled: the field
defaults, the five accepted logging levels, and the `redis_url` property.

Files:
- `wrappers.dfy`: `Option`.
- `config.dfy` (module `Config`): settings, defaults, logging levels, Python's
  decimal text of an `int`, `RedisUrl` and its inverse `ParseRedisUrl`.
- `agent_core.dfy` (module `AgentCore`): the class `AgentOrchestrator`.
  - Its field `stopRequested` is updated in place by `CheckStop`.
  - Its method `StreamResponse` is the loop.
  - `StreamResponse` is proved to compute the specification function `Run`,
    which is built from one turn of the loop, `Step`.
- `agent_core_properties.dfy` (module `AgentCoreProperties`): what `Run`
  implies. This covers the shape of the output with and without a stop, the
  counts of store queries and stop-tool calls, and three conversations worked
  through.

What the loop consults from outside is passed in as oracles, indexed by the
position of the event being handled:
- `store(i)`: the answer the store would give if asked while event i is
  handled: `Signal(true)`, `Signal(false)` or `Failure`.
- `toolRaises(i)`: whether the stop tool raises if it is called then.

The agent's stream is a finite `seq<Event>`.

### Behaviour as written

The code is modelled as written. In four places it does not behave like an
idealised "stop once" design:
- The loop never breaks after a stop. The flag is sticky, so every later
  event yields `"[STOPPED]"` again and calls the stop tool again.
- The marker comes before the same event's data, so content follows it.
- A stream that starts on an orchestrator whose flag is already set yields
  the marker before every chunk, as long as the stop tool returns. That flag
  is never cleared.
- The stop-tool call (src/agent/agent_core.py:74) is not inside a
  `try`/`except`, and it runs again for every event once the flag is set. If
  the tool raises on any of those calls, the exception ends the stream before
  that event's marker is yielded.

The code does not emit a single terminal marker, and it does not swallow
stop-tool errors. The lemmas `FirstSignalAt`, `StreamAfterStop`,
`StopToolFailureEndsStream`, `StopToolRaisesLater` and
`StopToolRaisesAfterStop` state what it does.

## Model

| member | source | states |
|---|---|---|
| AgentCore.Step | src/agent/agent_core.py:72-80 | One turn of the loop, defined without a contract. After the stop tool has raised, an event changes nothing. Otherwise `StopCheck` runs on the current flag and the store's reply, counting one query when the store is asked. On a stop, a raising tool adds one stop-tool call and ends the stream with nothing yielded. A tool that returns adds one call, then the marker, then the event's data. With no stop, only the event's data is appended. |
| AgentCore.Run | src/agent/agent_core.py:70-83 | The loop as a function, defined without a contract. After 0 events: no output, no calls, no queries, the starting flag, not ended. After n events: `Step` applied to the result after n - 1 events, with event n - 1 and the oracles at n - 1. |
| AgentCore.StopCheck | src/agent/agent_core.py:87-104 | A set flag answers "stop" without a store query. A clear flag always queries the store. The answer is "stop" exactly when the flag was set or the store said true. A false signal and a store failure both answer "no stop". The flag afterwards equals the answer. |
| AgentCore.AgentOrchestrator.constructor | src/agent/agent_core.py:17-19 | A new orchestrator keeps the given chat id and starts with the stop flag clear. |
| AgentCore.AgentOrchestrator.CheckStop | src/agent/agent_core.py:87-104 | The answer, whether the store was queried, and the new flag are those of `StopCheck` on the old flag and the store's reply. The flag is never cleared. |
| AgentCore.AgentOrchestrator.StreamResponse | src/agent/agent_core.py:44-85 | The yielded fragments, the stop-tool calls, the store queries, the final flag and how the stream ends are exactly `Run` over all events from the orchestrator's old flag. |
| AgentCore.RaisedIsFinal | src/agent/agent_core.py:72-75 | Once the stop tool has raised, later events change nothing: the stream is over. |
| AgentCoreProperties.StoppedPayloadFirst | src/agent/agent_core.py:72-80 | After a stop, each event contributes the marker first and then its own data. |
| AgentCoreProperties.AtMostOncePerEvent | src/agent/agent_core.py:70-74 | After n events, the store has been queried at most n times and the stop tool called at most n times. |
| AgentCoreProperties.StopFlagMonotone | src/agent/agent_core.py:93-100 | Once the flag is set after m events, it stays set after every later count of events. |
| AgentCoreProperties.SetFlagNeverQueries | src/agent/agent_core.py:93-94 | A stream that starts with the flag set never queries the store, and the flag stays set. |
| AgentCoreProperties.DataUntilSignal | src/agent/agent_core.py:70-83 | While no true signal has come, each event yields only its data. There is no stop-tool call and one query per event, and the flag stays clear. |
| AgentCoreProperties.NoSignalYieldsData | src/agent/agent_core.py:70-83 | If the store never says true, the stream is exactly the events' data in order. There is no marker, no stop-tool call, one query per event, and the flag stays clear. |
| AgentCoreProperties.StoreFailuresAreHarmless | src/agent/agent_core.py:96-104 | A store that always fails cannot stop or break the stream: the output is the events' data and the stream completes. |
| AgentCoreProperties.StoppedFrom | src/agent/agent_core.py:70-83 | From a point where the flag is set, each later event appends the marker and its data. It adds one stop-tool call per event and no query. |
| AgentCoreProperties.StreamAfterStop | src/agent/agent_core.py:70-83 | A stream started with the flag already set, with a stop tool that always returns, yields the marker before every event's data. It calls the stop tool once per event and queries the store zero times. |
| AgentCoreProperties.FirstStopState | src/agent/agent_core.py:72-80 | Right after the first true signal at event f: the data of events before f, then the marker, then event f's data. One stop-tool call, f + 1 queries, flag set. |
| AgentCoreProperties.FirstSignalUpTo | src/agent/agent_core.py:70-83 | For every n past the first true signal at event f: the data of events before f, then the marker and the data of each of events f to n - 1. There are n - f stop-tool calls and f + 1 queries. |
| AgentCoreProperties.FirstSignalAt | src/agent/agent_core.py:70-83 | The first true signal at event f: events before f yield only their data, and every event from f to the end yields the marker and then its data. The stop tool is called once per event from f on. The store is queried f + 1 times. |
| AgentCoreProperties.FirstStopRaises | src/agent/agent_core.py:72-75 | A stop tool that raises at the first true signal at event f leaves the data of events before f, one stop-tool call, f + 1 queries, the flag set, and a stream ended by the exception. |
| AgentCoreProperties.StopToolFailureEndsStream | src/agent/agent_core.py:72-75 | If the stop tool raises at the first stop, the whole stream is the data before it, with no marker. The exception ends the stream, and no later event is handled. |
| AgentCoreProperties.RaisesWhileStopped | src/agent/agent_core.py:72-75 | With the flag set after k events, a stop tool that raises at event k ends the stream with nothing more yielded. It adds one more stop-tool call and no query. |
| AgentCoreProperties.StopToolRaisesLater | src/agent/agent_core.py:70-83 | After the first stop at event f, suppose the tool returns until it raises at a later event k. Then the stream is the data before f, followed by the marker and data of events f to k - 1, with no marker for k. There are k - f + 1 stop-tool calls and f + 1 queries, and the exception ends the stream. |
| AgentCoreProperties.StopToolRaisesAfterStop | src/agent/agent_core.py:70-83 | Suppose the flag is set at the start and the tool returns until it raises at event k. Then the stream is the marker and data of events before k. There are k + 1 stop-tool calls and no query, and the exception ends the stream. |
| AgentCoreProperties.ConversationWithoutStop | src/agent/agent_core.py:79-80 | Chunks "Hi" and " there" with no stop come out as ["Hi", " there"]. |
| AgentCoreProperties.ConversationStoppedBeforeStart | src/agent/agent_core.py:72-80 | With the stop signal already set, the output is ["[STOPPED]", "Hi", "[STOPPED]", " there"]. |
| AgentCoreProperties.ConversationStoppedAfterTwoChunks | src/agent/agent_core.py:72-80 | A stop signal set after two chunks gives ["Hi", " there", "[STOPPED]", "!"]: content follows the marker. |
| Config.ParseLogLevel | src/config.py:32-34 | Exactly the five level names are accepted, and an accepted name is the name of the level returned. |
| Config.LevelNameRoundTrip | src/config.py:32-34 | Every level reads back from its own name. |
| Config.DecimalString | src/config.py:46 | The decimal text of a natural number is a non-empty run of digits, with a leading zero only for zero itself. |
| Config.DecimalStringValue | src/config.py:46 | The decimal text of a natural number denotes that number. |
| Config.IntString | src/config.py:46 | Python's text of an int reads back as the same number and holds no ':' or '/'. |
| Config.SplitLastAt | src/config.py:46 | Splitting at the last separator recovers the parts a URL was joined from, when the tail holds no separator. |
| Config.RedisUrl | src/config.py:43-46 | The `redis_url` property, defined without a contract: `"redis://" + host + ":" + str(port) + "/" + str(db)`, with `IntString` as Python's `str` of an int. Its properties are stated by the lemmas below. |
| Config.RedisUrlRoundTrip | src/config.py:43-46 | The host, port and database read back out of `redis_url` unchanged. |
| Config.RedisUrlDeterminedByRedisFields | src/config.py:20-46 | Two settings have the same `redis_url` if and only if their Redis host, port and database agree. No other field affects it. |
| Config.DefaultRedisUrl | src/config.py:24-26 | With the default Redis host, port and database, `redis_url` is "redis://redis:6379/0". |
| Config.Defaults | src/config.py:20-41 | The defaults: host "0.0.0.0", port 8000, session directory "./data/sessions", level INFO, model "gemini-flash-2.5" and the supplied API key. The Redis URL is "redis://redis:6379/0". |

## Left out

- Async scheduling and the `asyncio.sleep` delays (src/agent/agent_core.py:78, 83). These are suspension points only. The loop is modelled as a plain sequential loop, with the store's answer at each event given as an oracle.
- Cancellation of the generator by its consumer, and errors raised by the agent's own stream. The stream is a finite sequence of events that always reaches its end, unless the stop tool raises.
- The Strands `Agent`, `GeminiModel` and `FileSessionManager`, and the stop tool's effect (src/agent/agent_core.py:21-42, 56-65, 74). These are foreign libraries. The stop tool is counted, and whether it raises is an oracle.
- `RedisClient.check_stop_signal`: src/services/redis_client.py is not part of this model. Its reply is an oracle: `Signal(bool)` or `Failure`.
- `os.makedirs` and the filesystem (src/agent/agent_core.py:22-24). This is I/O.
- Logging, including the truncation of the message to 100 characters in a log line (src/agent/agent_core.py:53, 67-68, 73, 77, 85, 102). It has no effect on behaviour.
- The user message passed to the agent. It only reaches the agent and the log.
- Loading settings from the environment and `.env`, case-insensitive names, ignored extra keys, and the global `settings` instance (src/config.py:12-17, 50). This is pydantic behaviour. `Defaults` models the values used when nothing is overridden.
- Config.ParseInt: reads back only the text `IntString` writes (an optional '-' and decimal digits). Python's `int()` also accepts signs, spaces and underscores, but that matters only to the inverse used in the proofs.
- Ports and database numbers are unbounded `int`s, as in Python. No range is enforced.
- The web application (src/main.py) and the router wiring (src/api/__init__.py) are not part of this model.
