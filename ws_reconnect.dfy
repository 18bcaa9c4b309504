/** The reconnecting WebSocket engine as an object whose methods update its
    recovery fields in place. handleWsDisconnect is split at its `await`:
    HandleWsDisconnect runs the guards and starts the probe, and
    FinishWsDisconnect resumes with the probe's result. Emitted events,
    scheduled timers, started probes and settled outcomes are ghost logs. */
module WsReconnectEngine {
  import opened ReconnectSpec

  class WsReconnect {
    /** The limit handed to the constructor; the guards read config.maxRetries instead. */
    var maxRetries: int
    var config: Config
    var isSetUp: bool

    var reconnectTries: nat
    var reconnecting: bool
    var reconnected: bool

    ghost var events: seq<Event>
    ghost var timers: seq<Timer>
    ghost var probes: seq<Option<nat>>
    ghost var outcomes: seq<bool>

    ghost function Snapshot(): (w: World)
      reads this
    {
      World(State(reconnectTries, reconnecting, reconnected), events, timers, probes, outcomes)
    }

    /** At most one probe in flight, the counter within the configured limit and
        the probe in flight started for the provider the counter selects; before
        setup nothing has run. */
    ghost predicate Valid()
      reads this
    {
      ProbesBalanced(Snapshot()) &&
      (isSetUp ==> Bounded(config, Snapshot().state) && InFlightProbeMatches(config, Snapshot())) &&
      (!isSetUp ==> reconnectTries == 0 && !reconnecting)
    }

    constructor (maxRetries: int)
      ensures Valid() && !isSetUp
      ensures this.maxRetries == maxRetries
      ensures Snapshot() == InitialWorld
    {
      this.maxRetries := maxRetries;
      config := Config(0, []);
      isSetUp := false;
      reconnectTries, reconnecting, reconnected := 0, false, false;
      events, timers, probes, outcomes := [], [], [], [];
    }

    /** Attaches the configuration; the provider's `error` and `end` listeners
        (OnProviderSignal) are live from here on. */
    method Setup(config: Config)
      requires Valid() && !isSetUp
      modifies this`config, this`isSetUp
      ensures Valid() && isSetUp
      ensures this.config == config
    {
      this.config := config;
      isSetUp := true;
    }

    /** The provider's `error` or `end` listener: announce the disconnect and
        schedule handleWsDisconnect after reconnectTries seconds. */
    method OnProviderSignal()
      requires Valid() && isSetUp
      modifies this`events, this`timers
      ensures Valid()
      ensures events == old(events) + [Disconnect]
      ensures timers == old(timers) + [Timer(reconnectTries * RetryUnitMs, CallHandleWsDisconnect)]
      ensures Snapshot().state == old(Snapshot().state) && probes == old(probes)
      ensures Snapshot() == Step(config, old(Snapshot()), Signal).next
    {
      events := events + [Disconnect];
      timers := timers + [Timer(reconnectTries * RetryUnitMs, CallHandleWsDisconnect)];
    }

    /** handleWsDisconnect up to its `await`: the three guards in order, then
        the attempt is marked in flight and the probe of the provider at
        reconnectTries mod |providerUrls| is started. `None` means the reply is
        still pending on the probe. */
    method HandleWsDisconnect() returns (reply: Option<ReconnectMsg>)
      requires Valid() && isSetUp
      modifies this`reconnecting, this`probes
      ensures Valid()
      ensures old(reconnected) ==>
        reply == Some(AlreadyReconnected) && Snapshot() == old(Snapshot())
      ensures !old(reconnected) && old(reconnectTries) >= config.maxRetries ==>
        reply == Some(MaxAttempts) && Snapshot() == old(Snapshot())
      ensures !old(reconnected) && old(reconnectTries) < config.maxRetries && old(reconnecting) ==>
        reply == Some(Reconnecting) && Snapshot() == old(Snapshot())
      ensures !old(reconnected) && old(reconnectTries) < config.maxRetries && !old(reconnecting) ==>
        reply == None && reconnecting &&
        probes == old(probes) + [ProviderIndex(reconnectTries, config.providerUrls)]
      ensures Stepped(Snapshot(), reply) == Step(config, old(Snapshot()), Begin)
    {
      if reconnected {
        return Some(AlreadyReconnected);
      }
      if reconnectTries >= config.maxRetries {
        return Some(MaxAttempts);
      }
      if reconnecting {
        return Some(Reconnecting);
      }
      reconnecting := true;
      probes := probes + [ProviderIndex(reconnectTries, config.providerUrls)];
      reply := None;
    }

    /** handleWsDisconnect after its `await`. `watchingEnabled` is the probe's
        verdict on the provider it was started for (the last entry of `probes`):
        false when building the handle threw or the watch check said no. */
    method FinishWsDisconnect(watchingEnabled: bool) returns (reply: ReconnectMsg)
      requires Valid() && isSetUp && reconnecting
      modifies this`reconnectTries, this`reconnecting, this`reconnected, this`events, this`timers, this`outcomes
      ensures Valid()
      ensures !reconnecting
      ensures outcomes == old(outcomes) + [reply == Reconnected]
      ensures var p := old(probes)[|old(probes)| - 1];
        if watchingEnabled && p.Some? then
          reply == Reconnected &&
          p.value < |config.providerUrls| &&
          events == old(events) + [Reconnect(Web3(config.providerUrls[p.value]))] &&
          reconnectTries == 0 && reconnected &&
          timers == old(timers) + [Timer(CoolDownMs, ClearReconnected)]
        else
          reply == Fail &&
          reconnectTries == old(reconnectTries) + 1 && reconnected == old(reconnected) &&
          events == old(events) &&
          timers == old(timers) + [Timer(reconnectTries * RetryUnitMs, CallHandleWsDisconnect)]
      ensures Stepped(Snapshot(), Some(reply)) == Step(config, old(Snapshot()), Complete(watchingEnabled))
    {
      var i := ProviderIndex(reconnectTries, config.providerUrls);
      if watchingEnabled && i.Some? {
        events := events + [Reconnect(Web3(config.providerUrls[i.value]))];
        reconnectTries := 0;
        reconnected := true;
        reconnecting := false;
        timers := timers + [Timer(CoolDownMs, ClearReconnected)];
        outcomes := outcomes + [true];
        return Reconnected;
      }
      reconnecting := false;
      reconnectTries := reconnectTries + 1;
      timers := timers + [Timer(reconnectTries * RetryUnitMs, CallHandleWsDisconnect)];
      outcomes := outcomes + [false];
      reply := Fail;
    }

    /** The 15-second timer scheduled by a successful reconnect: ends the cool-down. */
    method CoolDownElapsed()
      requires Valid()
      modifies this`reconnected
      ensures Valid()
      ensures !reconnected
      ensures Snapshot() == Step(config, old(Snapshot()), Op.CoolDownElapsed).next
    {
      reconnected := false;
    }
  }

  /** A probe that is still pending answers a second call with RECONNECTING
      (or an earlier guard's reply) and starts no second probe; once it succeeds,
      a further call is answered ALREADY_RECONNECTED until the cool-down ends. */
  method OverlappingCalls(providerUrls: seq<string>)
  {
    var engine := new WsReconnect(3);
    engine.Setup(Config(3, providerUrls));
    var r1 := engine.HandleWsDisconnect();
    assert r1 == None && |engine.probes| == 1;
    var r2 := engine.HandleWsDisconnect();
    assert r2 == Some(Reconnecting) && |engine.probes| == 1;
    var r3 := engine.FinishWsDisconnect(true);
    assert r3 == (if |providerUrls| > 0 then Reconnected else Fail);
    if r3 == Reconnected {
      var r4 := engine.HandleWsDisconnect();
      assert r4 == Some(AlreadyReconnected) && |engine.probes| == 1;
      engine.CoolDownElapsed();
      var r5 := engine.HandleWsDisconnect();
      assert r5 == None && |engine.probes| == 2;
    }
  }
}
