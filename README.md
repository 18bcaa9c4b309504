# WsReconnect: the reconnection state machine

A model of `WsReconnect`, the object that keeps a TimeNode's WebSocket
connection to an Ethereum node alive. When the current provider reports `error`
or `end`, the engine emits `disconnect` and schedules `handleWsDisconnect`.
That call answers early when the engine has just reconnected, when the retry
count has reached `config.maxRetries`, or when an attempt is already in flight.
Otherwise it probes the provider URL at `reconnectTries mod |providerUrls|`.
A good probe emits `reconnect` with the new handle. It then resets the counter
and sets a 15-second cool-down flag. A failed probe raises the counter by one
and schedules another call after `reconnectTries` seconds.

Files:

- `reconnect_spec.dfy` (module `ReconnectSpec`) holds the values, the
  round-robin index, the guards and `Step`. `Step` is the effect of one input on
  a `World`: the three recovery fields plus logs of emitted events, scheduled
  timers, started probes and settled probe outcomes. `Run` folds `Step` over a
  sequence of inputs.
- `ws_reconnect.dfy` (module `WsReconnectEngine`) holds class `WsReconnect`.
  Its fields are updated in place, as the source does. `handleWsDisconnect` is
  split at its `await` into `HandleWsDisconnect` (guards, flag, probe start)
  and `FinishWsDisconnect(watchingEnabled)` (the probe's verdict and what
  follows). Each method states its new fields and logs exactly.
  `OnProviderSignal`, `HandleWsDisconnect`, `FinishWsDisconnect` and
  `CoolDownElapsed` are also proved to agree with `Step`; `Setup` has no
  counterpart there. `Valid()` is kept by every method: at most
  one probe is in flight, the counter stays within the configured limit, and
  the probe in flight was started for the URL the counter selects.
  `OverlappingCalls` is a client of the class: a call made while the probe is
  pending answers `RECONNECTING`, a call after the success answers
  `ALREADY_RECONNECTED`, and after the cool-down a fresh probe starts.
- `reconnect_proofs.dfy` (module `ReconnectProofs`) holds properties over
  arbitrary runs of `Step`, plus the concrete scenarios.

Two behaviours of the code worth knowing; the model follows the code:

- The constructor stores `this.maxRetries` (index.ts:19). The exhaustion guard
  reads `this.config.maxRetries` instead (index.ts:55). In the model the limit
  is `config.maxRetries`, and the constructor's value is a field nothing reads.
- The code does not reject an empty `providerUrls` or a non-positive limit at
  setup. With an empty list, `reconnectTries % 0` is NaN and the lookup gives no
  URL (`ProviderIndex` returns `None`), and the model takes every probe to
  fail. With a limit of
  zero or less, the first call already answers `MAX_ATTEMPTS`.

## Model

| member | source | states |
|---|---|---|
| `ReconnectSpec.ProviderIndex` | src/WsReconnect/index.ts:89 | an index exists exactly when the URL list is non-empty; it is below the list's length; it equals the counter while the counter is below the length |
| `ReconnectSpec.Guard` | src/WsReconnect/index.ts:52-60 | the early reply is one of the three guard answers; there is none exactly when the engine is not in cool-down, the counter is below `config.maxRetries` and no attempt is in flight; cool-down wins over the other two and answers `ALREADY_RECONNECTED`; the exhaustion guard answers `MAX_ATTEMPTS` before the in-flight guard answers `RECONNECTING`; an attempt in flight always answers early |
| `ReconnectSpec.Step` | src/WsReconnect/index.ts:30-82 | the reference semantics the methods are proved against (`Signal` :30-48, `Begin` :52-63, `Complete` :64-82, `CoolDownElapsed` :70-72); only `Begin` starts probes, only a settled probe moves the counter, only a signal or a success emits, and the event and timer logs only grow |
| `ReconnectProofs.ProviderIndexPeriodic` | src/WsReconnect/index.ts:89 | the probed index repeats with the period of the URL list, so failures rotate through every provider |
| `ReconnectProofs.StepKeepsBound` | src/WsReconnect/index.ts:55-77 | no single input takes the counter past the limit; an attempt in flight was admitted below the limit |
| `ReconnectProofs.RunKeepsBound` | src/WsReconnect/index.ts:55-77 | the same bound holds after any sequence of signals, calls, probe results and cool-down expiries |
| `ReconnectProofs.TriesNeverExceedMax` | src/WsReconnect/index.ts:13-77 | from the initial counter 0 and a limit of at least 0, `reconnectTries <= config.maxRetries` after any run |
| `ReconnectProofs.StepKeepsBalance` | src/WsReconnect/index.ts:58-76 | no single input breaks the pairing of started and settled probes; `reconnecting` and `reconnected` are never both set |
| `ReconnectProofs.RunKeepsBalance` | src/WsReconnect/index.ts:58-76 | the pairing of started and settled probes holds after any run |
| `ReconnectProofs.AtMostOneProbeInFlight` | src/WsReconnect/index.ts:58-64 | in every run at most one probe is unsettled, and one is unsettled exactly while `reconnecting` is set |
| `ReconnectProofs.StepKeepsProbeMatch` | src/WsReconnect/index.ts:63-89 | no single input breaks the tie between the probe in flight and the URL the counter selects |
| `ReconnectProofs.RunKeepsProbeMatch` | src/WsReconnect/index.ts:63-89 | the tie holds after any run |
| `ReconnectProofs.ReconnectCarriesProbedUrl` | src/WsReconnect/index.ts:64-89 | in every run, a probe that settles successfully emits `reconnect` with the handle of the URL that probe was started for |
| `ReconnectProofs.CallDuringAttemptStartsNoProbe` | src/WsReconnect/index.ts:55-60 | a call arriving mid-attempt changes nothing and answers `RECONNECTING`, or `MAX_ATTEMPTS` when the counter is at the limit |
| `ReconnectProofs.ExhaustedIsTerminal` | src/WsReconnect/index.ts:55-57 | once the counter reaches the limit with nothing in flight, no input starts a probe or changes the counter again |
| `ReconnectProofs.CoolDownSuppressesRetries` | src/WsReconnect/index.ts:52-54 | while `reconnected` is set and the cool-down timer has not fired, any signals and stale retries leave the recovery fields unchanged and start no probe |
| `ReconnectProofs.SuccessfulProbe` | src/WsReconnect/index.ts:65-73 | a good probe answers `RECONNECTED`; it emits one `reconnect` with the handle of the URL its last started probe was for, which is `reconnectTries` mod the number of URLs; the counter becomes 0; `reconnected` is set and `reconnecting` cleared; a 15000 ms clear is scheduled; the next call answers `ALREADY_RECONNECTED` |
| `ReconnectProofs.CoolDownReenablesRecovery` | src/WsReconnect/index.ts:70-72 | after the cool-down timer fires, the next call passes the guards and starts a probe |
| `ReconnectProofs.FailuresRotate` | src/WsReconnect/index.ts:76-89 | k failed attempts from idle probe indices t, t+1, … mod the list length; they raise the counter by k and schedule retries after (t+1)·1000, (t+2)·1000, … ms |
| `ReconnectProofs.RotationOverThreeUrls` | src/WsReconnect/index.ts:89 | five failures over three URLs probe indices 0, 1, 2, 0, 1, with retries after 1000 … 5000 ms |
| `ReconnectProofs.ExhaustedAfterThreeFailures` | src/WsReconnect/index.ts:55-80 | with limit 3 and one failing URL: three probes and three scheduled retries, then the fourth call answers `MAX_ATTEMPTS` and changes nothing |
| `ReconnectProofs.SecondUrlRecovers` | src/WsReconnect/index.ts:65-89 | with limit 5 and two URLs where the first fails and the second passes: the second probe succeeds, exactly one `reconnect` carries the second URL's handle, and the counter is back at 0 |
| `ReconnectProofs.BackoffIsLinear` | src/WsReconnect/index.ts:33-80 | the failure that raises the counter to K and a signal arriving at counter K both schedule the retry after K·1000 ms |
| `WsReconnectEngine.WsReconnect.constructor` | src/WsReconnect/index.ts:13-20 | the counter starts at 0 with both flags clear and all logs empty; the constructor's limit is stored |
| `WsReconnectEngine.WsReconnect.Setup` | src/WsReconnect/index.ts:22-23 | attaches the configuration and establishes the invariant |
| `WsReconnectEngine.WsReconnect.OnProviderSignal` | src/WsReconnect/index.ts:30-48 | an `error` or `end` emits `disconnect`; it schedules a `handleWsDisconnect` call after `reconnectTries`·1000 ms; it changes no recovery field and starts no probe |
| `WsReconnectEngine.WsReconnect.HandleWsDisconnect` | src/WsReconnect/index.ts:51-63 | the three guards in order, first match wins, each leaving every field and log unchanged; otherwise `reconnecting` is set and exactly one probe is started at `reconnectTries` mod the number of URLs |
| `WsReconnectEngine.WsReconnect.FinishWsDisconnect` | src/WsReconnect/index.ts:64-82 | success: `RECONNECTED`, one `reconnect` with the handle of the URL the settled probe (the last entry of `probes`) was started for, counter 0, `reconnected` set, 15000 ms clear scheduled. Failure: `FAIL`, counter +1, `reconnected` unchanged, no event, a retry after the new counter·1000 ms. `reconnecting` is cleared either way |
| `WsReconnectEngine.WsReconnect.CoolDownElapsed` | src/WsReconnect/index.ts:70-72 | the cool-down timer clears `reconnected` and nothing else |

## Left out

- The `EventEmitter` base class and the listener wiring on `currentProvider`.
  Emitted events are a ghost log. `OnProviderSignal` stands for both the `error`
  and the `end` listener, whose bodies are the same apart from their log lines.
- `WsReconnectEngine.WsReconnect.OnProviderSignal` models an `end` that carries
  a payload. The `end` listener's log line reads `err.type` and `err.reason`
  before its `setTimeout`; an `end` with no payload throws there, after
  `disconnect` is emitted and before any retry is scheduled. That case is not
  modelled.
- Real timers and asynchronous interleaving. A `setTimeout` is recorded as a
  ghost entry (delay, callback). A timer firing is the caller invoking
  `HandleWsDisconnect` or `CoolDownElapsed`. No wall-clock time is modelled.
- `W3Util.getWeb3FromProviderUrl` and `isWatchingEnabled` are network calls.
  The probe's verdict is the `watchingEnabled` parameter, false when building
  the handle throws or the check says no. The handle is `Web3(url)` for the
  probed URL. With an empty URL list there is no URL, and the probe is taken to
  fail.
- Logging and `Config` loading. Only `maxRetries` and `providerUrls` of the
  configuration are modelled.
- `WsReconnectEngine.WsReconnect.Setup` may be called once. A second `setup`,
  which would replace the configuration mid-run and wire a second set of
  listeners, is not modelled.
- `WsReconnectEngine.WsReconnect.HandleWsDisconnect` requires `setup` to have
  run. Before that the source throws on reading `this.config.maxRetries`, and no
  listener exists that could call it.
- `WsReconnectEngine.WsReconnect.FinishWsDisconnect`: the completion is one
  atomic step in the model, although the body appends the `reconnect` event
  before resetting the counter, as the source does. In the source,
  `emit('reconnect', …)` at index.ts:66 runs its listeners synchronously,
  before `reconnected` is set and `reconnecting` is cleared (index.ts:67-69).
  A `reconnect` listener that calls `handleWsDisconnect` there gets
  `RECONNECTING` (index.ts:58-59); in the model every later call sees the
  finished step and gets `ALREADY_RECONNECTED`. That re-entrant case is not
  captured.
- JavaScript numbers: the counter is a natural number and the limit an
  integer. A missing, fractional or NaN `config.maxRetries` is not modelled.
