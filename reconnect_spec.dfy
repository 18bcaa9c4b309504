/** Values and the one-step semantics of the WebSocket reconnection state machine.
    A World is everything an observer of the engine can see: its three recovery
    fields and the append-only logs of emitted events, scheduled timers, started
    probes and settled probe outcomes. */
module ReconnectSpec {

  datatype Option<+T> = None | Some(value: T)

  /** The replies of handleWsDisconnect. */
  datatype ReconnectMsg = AlreadyReconnected | MaxAttempts | Reconnecting | Reconnected | Fail

  /** A connection handle, built from the provider URL it was made for. */
  datatype Web3 = Web3(providerUrl: string)

  /** Events published to subscribers. */
  datatype Event = Disconnect | Reconnect(web3: Web3)

  /** What a scheduled timer does when it fires. */
  datatype Callback = CallHandleWsDisconnect | ClearReconnected

  datatype Timer = Timer(delayMs: nat, callback: Callback)

  /** The part of the configuration the engine reads. */
  datatype Config = Config(maxRetries: int, providerUrls: seq<string>)

  /** The three recovery fields. */
  datatype State = State(reconnectTries: nat, reconnecting: bool, reconnected: bool)

  datatype World = World(
    state: State,
    events: seq<Event>,
    timers: seq<Timer>,
    probes: seq<Option<nat>>,  // the provider index each started probe was given
    outcomes: seq<bool>)       // whether each settled probe succeeded

  /** The inputs the engine reacts to: a provider `error`/`end` signal, the
      synchronous part of handleWsDisconnect, the settling of its probe, and the
      expiry of the cool-down timer. */
  datatype Op = Signal | Begin | Complete(watchingEnabled: bool) | CoolDownElapsed

  datatype Stepped = Stepped(next: World, reply: Option<ReconnectMsg>)

  const RetryUnitMs: nat := 1000
  const CoolDownMs: nat := 15000

  const InitialState := State(0, false, false)
  const InitialWorld := World(InitialState, [], [], [], [])

  /** Round-robin choice of the provider to probe. An empty list has no index:
      the remainder by zero is NaN and the lookup yields no URL. */
  function ProviderIndex(reconnectTries: nat, providerUrls: seq<string>): (i: Option<nat>)
    ensures i.Some? <==> |providerUrls| > 0
    ensures i.Some? ==> i.value < |providerUrls|
    ensures reconnectTries < |providerUrls| ==> i == Some(reconnectTries)
  {
    if |providerUrls| == 0 then None else Some(reconnectTries % |providerUrls|)
  }

  /** The three early returns of handleWsDisconnect, in the order they are tested. */
  function Guard(cfg: Config, s: State): (early: Option<ReconnectMsg>)
    ensures early != Some(Reconnected) && early != Some(Fail)
    ensures early == None <==> !s.reconnected && s.reconnectTries < cfg.maxRetries && !s.reconnecting
    ensures s.reconnected ==> early == Some(AlreadyReconnected)
    ensures !s.reconnected && s.reconnectTries >= cfg.maxRetries ==> early == Some(MaxAttempts)
    ensures !s.reconnected && s.reconnectTries < cfg.maxRetries && s.reconnecting ==> early == Some(Reconnecting)
    ensures s.reconnecting ==> early != None
  {
    if s.reconnected then Some(AlreadyReconnected)
    else if s.reconnectTries >= cfg.maxRetries then Some(MaxAttempts)
    else if s.reconnecting then Some(Reconnecting)
    else None
  }

  /** A configured limit below zero behaves like zero: the very first call already
      answers MAX_ATTEMPTS. */
  function Limit(cfg: Config): (limit: nat)
  {
    if cfg.maxRetries < 0 then 0 else cfg.maxRetries
  }

  /** The counter never passes the limit, and an attempt in flight was admitted under it. */
  predicate Bounded(cfg: Config, s: State)
  {
    s.reconnectTries <= Limit(cfg) &&
    (s.reconnecting ==> s.reconnectTries < cfg.maxRetries)
  }

  /** At most one probe is in flight, and exactly when `reconnecting` is set;
      a just-reconnected engine has no probe in flight. */
  predicate ProbesBalanced(w: World)
  {
    !(w.state.reconnecting && w.state.reconnected) &&
    |w.probes| == |w.outcomes| + (if w.state.reconnecting then 1 else 0)
  }

  /** The probe in flight was started for the provider the counter selects now;
      the counter does not move while a probe is pending. */
  predicate InFlightProbeMatches(cfg: Config, w: World)
  {
    w.state.reconnecting ==>
      |w.probes| > 0 && w.probes[|w.probes| - 1] == ProviderIndex(w.state.reconnectTries, cfg.providerUrls)
  }

  /** The reference semantics of one input; the methods of class WsReconnect are
      proved to agree with it. */
  function Step(cfg: Config, w: World, op: Op): (st: Stepped)
    ensures !op.Begin? ==> st.next.probes == w.probes
    ensures st.next.state.reconnectTries != w.state.reconnectTries ==> op.Complete? && w.state.reconnecting
    ensures |st.next.events| > |w.events| ==> op.Signal? || (op.Complete? && st.reply == Some(Reconnected))
    ensures op.Begin? && st.reply.None? ==> |st.next.probes| == |w.probes| + 1 && !w.state.reconnecting
    ensures w.events <= st.next.events && w.timers <= st.next.timers
  {
    var s := w.state;
    match op
    case Signal =>
      Stepped(w.(events := w.events + [Disconnect],
                 timers := w.timers + [Timer(s.reconnectTries * RetryUnitMs, CallHandleWsDisconnect)]),
              None)
    case Begin =>
      var early := Guard(cfg, s);
      if early.Some? then Stepped(w, early)
      else
        Stepped(w.(state := s.(reconnecting := true),
                   probes := w.probes + [ProviderIndex(s.reconnectTries, cfg.providerUrls)]),
                None)
    case Complete(watchingEnabled) =>
      var i := ProviderIndex(s.reconnectTries, cfg.providerUrls);
      if !s.reconnecting then Stepped(w, None)  // no suspended attempt to resume
      else if watchingEnabled && i.Some? then
        Stepped(World(State(0, false, true),
                      w.events + [Reconnect(Web3(cfg.providerUrls[i.value]))],
                      w.timers + [Timer(CoolDownMs, ClearReconnected)],
                      w.probes,
                      w.outcomes + [true]),
                Some(Reconnected))
      else
        Stepped(w.(state := State(s.reconnectTries + 1, false, s.reconnected),
                   timers := w.timers + [Timer((s.reconnectTries + 1) * RetryUnitMs, CallHandleWsDisconnect)],
                   outcomes := w.outcomes + [false]),
                Some(Fail))
    case CoolDownElapsed =>
      Stepped(w.(state := s.(reconnected := false)), None)
  }

  /** The world after the given inputs, in order. */
  function Run(cfg: Config, w: World, ops: seq<Op>): (w': World)
    decreases |ops|
  {
    if ops == [] then w else Run(cfg, Step(cfg, w, ops[0]).next, ops[1..])
  }

  /** k consecutive attempts whose probe fails. */
  function Failures(k: nat): (ops: seq<Op>)
  {
    if k == 0 then [] else [Begin, Complete(false)] + Failures(k - 1)
  }
}
