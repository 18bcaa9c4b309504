/** Properties of the reconnection state machine over whole runs: the retry
    bound, mutual exclusion of probes, round-robin rotation with linear
    backoff, exhaustion and cool-down, and the concrete scenarios. */
module ReconnectProofs {
  import opened ReconnectSpec

  lemma MulAtLeast(d: int, n: nat)
    requires d >= 1
    ensures d * n >= n
  {
    assert d * n == (d - 1) * n + n;
  }

  /** A remainder is determined by any quotient-remainder decomposition. */
  lemma ModUnique(a: nat, n: nat, q: int, r: int)
    requires n > 0 && 0 <= r < n && a == q * n + r
    ensures a % n == r
  {
    var q', r' := a / n, a % n;
    assert q' * n + r' == q * n + r;
    assert (q' - q) * n == q' * n - q * n;
    if q' - q >= 1 {
      MulAtLeast(q' - q, n);
    } else if q - q' >= 1 {
      MulAtLeast(q - q', n);
    }
  }

  /** The chosen index repeats with the period of the URL list. */
  lemma ProviderIndexPeriodic(reconnectTries: nat, providerUrls: seq<string>)
    requires |providerUrls| > 0
    ensures ProviderIndex(reconnectTries + |providerUrls|, providerUrls) == ProviderIndex(reconnectTries, providerUrls)
  {
    var n := |providerUrls|;
    var q, r := reconnectTries / n, reconnectTries % n;
    assert reconnectTries + n == (q + 1) * n + r;
    ModUnique(reconnectTries + n, n, q + 1, r);
  }

  lemma {:induction false} RunAppend(cfg: Config, w: World, a: seq<Op>, b: seq<Op>)
    ensures Run(cfg, w, a + b) == Run(cfg, Run(cfg, w, a), b)
    decreases |a|
  {
    if a == [] {
      assert a + b == b;
    } else {
      assert (a + b)[0] == a[0];
      assert (a + b)[1..] == a[1..] + b;
      RunAppend(cfg, Step(cfg, w, a[0]).next, a[1..], b);
    }
  }

  lemma StepKeepsBound(cfg: Config, w: World, op: Op)
    requires Bounded(cfg, w.state)
    ensures Bounded(cfg, Step(cfg, w, op).next.state)
  {
  }

  lemma {:induction false} RunKeepsBound(cfg: Config, w: World, ops: seq<Op>)
    requires Bounded(cfg, w.state)
    ensures Bounded(cfg, Run(cfg, w, ops).state)
    decreases |ops|
  {
    if ops != [] {
      StepKeepsBound(cfg, w, ops[0]);
      RunKeepsBound(cfg, Step(cfg, w, ops[0]).next, ops[1..]);
    }
  }

  /** Starting from the constructor's state with a non-negative limit, the
      counter never exceeds the configured maxRetries, whatever arrives. */
  lemma TriesNeverExceedMax(cfg: Config, ops: seq<Op>)
    requires cfg.maxRetries >= 0
    ensures Run(cfg, InitialWorld, ops).state.reconnectTries <= cfg.maxRetries
  {
    RunKeepsBound(cfg, InitialWorld, ops);
  }

  lemma StepKeepsBalance(cfg: Config, w: World, op: Op)
    requires ProbesBalanced(w)
    ensures ProbesBalanced(Step(cfg, w, op).next)
  {
  }

  lemma {:induction false} RunKeepsBalance(cfg: Config, w: World, ops: seq<Op>)
    requires ProbesBalanced(w)
    ensures ProbesBalanced(Run(cfg, w, ops))
    decreases |ops|
  {
    if ops != [] {
      StepKeepsBalance(cfg, w, ops[0]);
      RunKeepsBalance(cfg, Step(cfg, w, ops[0]).next, ops[1..]);
    }
  }

  /** Mutual exclusion: whatever interleaving of signals, calls and probe
      results arrives, at most one probe is unsettled at any time, and one is
      unsettled exactly while `reconnecting` is set. */
  lemma AtMostOneProbeInFlight(cfg: Config, ops: seq<Op>)
    ensures var w := Run(cfg, InitialWorld, ops);
      |w.outcomes| <= |w.probes| <= |w.outcomes| + 1 &&
      (w.state.reconnecting <==> |w.probes| == |w.outcomes| + 1)
  {
    RunKeepsBalance(cfg, InitialWorld, ops);
  }

  lemma StepKeepsProbeMatch(cfg: Config, w: World, op: Op)
    requires InFlightProbeMatches(cfg, w)
    ensures InFlightProbeMatches(cfg, Step(cfg, w, op).next)
  {
  }

  lemma {:induction false} RunKeepsProbeMatch(cfg: Config, w: World, ops: seq<Op>)
    requires InFlightProbeMatches(cfg, w)
    ensures InFlightProbeMatches(cfg, Run(cfg, w, ops))
    decreases |ops|
  {
    if ops != [] {
      StepKeepsProbeMatch(cfg, w, ops[0]);
      RunKeepsProbeMatch(cfg, Step(cfg, w, ops[0]).next, ops[1..]);
    }
  }

  /** In every run, a probe that settles successfully emits `reconnect` with the
      handle of the URL that probe was started for, although the completion
      looks the URL up again from the counter. */
  lemma ReconnectCarriesProbedUrl(cfg: Config, ops: seq<Op>)
    ensures var w := Run(cfg, InitialWorld, ops);
      w.state.reconnecting && |cfg.providerUrls| > 0 ==>
        |w.probes| > 0 &&
        (var p := w.probes[|w.probes| - 1];
         p.Some? && p.value < |cfg.providerUrls| &&
         Step(cfg, w, Complete(true)).next.events == w.events + [Reconnect(Web3(cfg.providerUrls[p.value]))])
  {
    RunKeepsProbeMatch(cfg, InitialWorld, ops);
  }

  /** A call arriving while an attempt is in flight (and not cut off by the two
      earlier guards) is answered RECONNECTING and starts no second probe. */
  lemma CallDuringAttemptStartsNoProbe(cfg: Config, w: World)
    requires w.state.reconnecting && !w.state.reconnected
    ensures var st := Step(cfg, w, Begin);
      st.next == w &&
      st.reply == (if w.state.reconnectTries >= cfg.maxRetries then Some(MaxAttempts) else Some(Reconnecting))
  {
  }

  /** Once the counter has reached the limit with nothing in flight, no input
      ever starts a probe or moves the counter again. */
  lemma {:induction false} ExhaustedIsTerminal(cfg: Config, w: World, ops: seq<Op>)
    requires w.state.reconnectTries >= cfg.maxRetries && !w.state.reconnecting
    ensures var w' := Run(cfg, w, ops);
      w'.probes == w.probes && w'.outcomes == w.outcomes &&
      w'.state.reconnectTries == w.state.reconnectTries && !w'.state.reconnecting
    decreases |ops|
  {
    if ops != [] {
      var w1 := Step(cfg, w, ops[0]).next;
      assert w1.probes == w.probes && w1.outcomes == w.outcomes;
      assert w1.state.reconnectTries == w.state.reconnectTries && !w1.state.reconnecting;
      ExhaustedIsTerminal(cfg, w1, ops[1..]);
    }
  }

  /** During the cool-down window, stale signals and retries change no recovery
      field and start no probe. */
  lemma {:induction false} CoolDownSuppressesRetries(cfg: Config, w: World, ops: seq<Op>)
    requires w.state.reconnected && !w.state.reconnecting
    requires forall i :: 0 <= i < |ops| ==> ops[i] != CoolDownElapsed
    ensures var w' := Run(cfg, w, ops);
      w'.state == w.state && w'.probes == w.probes && w'.outcomes == w.outcomes
    decreases |ops|
  {
    if ops != [] {
      var w1 := Step(cfg, w, ops[0]).next;
      assert w1.state == w.state && w1.probes == w.probes && w1.outcomes == w.outcomes;
      CoolDownSuppressesRetries(cfg, w1, ops[1..]);
    }
  }

  /** A successful probe: one reconnect event with the probed provider's handle,
      the counter reset, the cool-down flag set and its clearing scheduled; an
      immediate further call is answered ALREADY_RECONNECTED. */
  lemma SuccessfulProbe(cfg: Config, w: World)
    requires w.state.reconnecting && |cfg.providerUrls| > 0
    requires InFlightProbeMatches(cfg, w)
    ensures var st := Step(cfg, w, Complete(true));
      var p := w.probes[|w.probes| - 1];
      p == Some(w.state.reconnectTries % |cfg.providerUrls|) &&
      st.reply == Some(Reconnected) &&
      st.next.events == w.events + [Reconnect(Web3(cfg.providerUrls[p.value]))] &&
      st.next.state == State(0, false, true) &&
      st.next.timers == w.timers + [Timer(15000, ClearReconnected)] &&
      Step(cfg, st.next, Begin) == Stepped(st.next, Some(AlreadyReconnected))
  {
  }

  /** After the cool-down timer fires, the next call is processed normally. */
  lemma CoolDownReenablesRecovery(cfg: Config, w: World)
    requires w.state == State(0, false, true) && cfg.maxRetries > 0
    ensures var w1 := Step(cfg, w, CoolDownElapsed).next;
      var st := Step(cfg, w1, Begin);
      st.reply == None && st.next.state.reconnecting &&
      st.next.probes == w.probes + [ProviderIndex(0, cfg.providerUrls)]
  {
  }

  /** k failed attempts from an idle state probe consecutive indices round-robin,
      raise the counter by k and schedule retries 1000 ms, 2000 ms, ... further
      out each time. */
  lemma {:induction false} FailuresRotate(cfg: Config, w: World, k: nat)
    requires !w.state.reconnected && !w.state.reconnecting
    requires w.state.reconnectTries + k <= cfg.maxRetries
    ensures var t := w.state.reconnectTries;
      Run(cfg, w, Failures(k)) ==
      w.(state := State(t + k, false, false),
         timers := w.timers + seq(k, j requires 0 <= j < k => Timer((t + j + 1) * RetryUnitMs, CallHandleWsDisconnect)),
         probes := w.probes + seq(k, j requires 0 <= j < k => ProviderIndex(t + j, cfg.providerUrls)),
         outcomes := w.outcomes + seq(k, j requires 0 <= j < k => false))
    decreases k
  {
    var t := w.state.reconnectTries;
    if k == 0 {
      assert Failures(0) == [];
    } else {
      var ops := Failures(k);
      assert ops[0] == Begin;
      assert ops[1..] == [Complete(false)] + Failures(k - 1);
      var w1 := Step(cfg, w, Begin).next;
      assert ops[1..][0] == Complete(false);
      assert ops[1..][1..] == Failures(k - 1);
      var w2 := Step(cfg, w1, Complete(false)).next;
      assert Run(cfg, w, ops) == Run(cfg, w2, Failures(k - 1));
      FailuresRotate(cfg, w2, k - 1);
      var ts := seq(k, j requires 0 <= j < k => Timer((t + j + 1) * RetryUnitMs, CallHandleWsDisconnect));
      var ts' := seq(k - 1, j requires 0 <= j < k - 1 => Timer((t + 1 + j + 1) * RetryUnitMs, CallHandleWsDisconnect));
      assert ts == [ts[0]] + ts';
      var ps := seq(k, j requires 0 <= j < k => ProviderIndex(t + j, cfg.providerUrls));
      var ps' := seq(k - 1, j requires 0 <= j < k - 1 => ProviderIndex(t + 1 + j, cfg.providerUrls));
      assert ps == [ps[0]] + ps';
      var os := seq(k, j requires 0 <= j < k => false);
      var os' := seq(k - 1, j requires 0 <= j < k - 1 => false);
      assert os == [false] + os';
      assert w2.timers + ts' == w.timers + ts;
      assert w2.probes + ps' == w.probes + ps;
      assert w2.outcomes + os' == w.outcomes + os;
    }
  }

  /** Five consecutive failures over three URLs probe indices 0, 1, 2, 0, 1 and
      schedule retries after 1, 2, 3, 4 and 5 seconds. */
  lemma RotationOverThreeUrls(a: string, b: string, c: string)
    ensures var w := Run(Config(5, [a, b, c]), InitialWorld, Failures(5));
      w.probes == [Some(0), Some(1), Some(2), Some(0), Some(1)] &&
      w.timers == [Timer(1000, CallHandleWsDisconnect), Timer(2000, CallHandleWsDisconnect),
                   Timer(3000, CallHandleWsDisconnect), Timer(4000, CallHandleWsDisconnect),
                   Timer(5000, CallHandleWsDisconnect)] &&
      w.state.reconnectTries == 5
  {
    var cfg := Config(5, [a, b, c]);
    FailuresRotate(cfg, InitialWorld, 5);
    ProviderIndexPeriodic(0, cfg.providerUrls);
    ProviderIndexPeriodic(1, cfg.providerUrls);
  }

  /** maxRetries = 3 with one URL that always fails: three probes and three
      scheduled retries, then the fourth call is answered MAX_ATTEMPTS. */
  lemma ExhaustedAfterThreeFailures(u: string)
    ensures var cfg := Config(3, [u]);
      var w := Run(cfg, InitialWorld, Failures(3));
      |w.probes| == 3 && |w.timers| == 3 && w.state.reconnectTries == 3 &&
      Step(cfg, w, Begin) == Stepped(w, Some(MaxAttempts))
  {
    FailuresRotate(Config(3, [u]), InitialWorld, 3);
  }

  /** maxRetries = 5 with two URLs, the first failing and the second passing:
      the second probe succeeds, exactly one reconnect event carries the second
      URL's handle, and the counter is back at zero. */
  lemma SecondUrlRecovers(u0: string, u1: string)
    ensures var w := Run(Config(5, [u0, u1]), InitialWorld, Failures(1) + [Begin, Complete(true)]);
      w.events == [Reconnect(Web3(u1))] &&
      w.probes == [Some(0), Some(1)] &&
      w.outcomes == [false, true] &&
      w.state == State(0, false, true)
  {
    var cfg := Config(5, [u0, u1]);
    RunAppend(cfg, InitialWorld, Failures(1), [Begin, Complete(true)]);
    FailuresRotate(cfg, InitialWorld, 1);
    var w1 := Run(cfg, InitialWorld, Failures(1));
    assert [Begin, Complete(true)][1..] == [Complete(true)];
    assert Run(cfg, w1, [Begin, Complete(true)])
        == Step(cfg, Step(cfg, w1, Begin).next, Complete(true)).next;
  }

  /** Both retry paths use the same linear backoff: a signal at counter K and
      the failure that raises the counter to K schedule the call after K seconds. */
  lemma BackoffIsLinear(cfg: Config, w: World)
    requires w.state.reconnecting
    ensures var st := Step(cfg, w, Complete(false));
      var k := st.next.state.reconnectTries;
      k == w.state.reconnectTries + 1 &&
      st.next.timers[|st.next.timers| - 1] == Timer(k * 1000, CallHandleWsDisconnect) &&
      Step(cfg, st.next, Signal).next.timers[|st.next.timers|] == Timer(k * 1000, CallHandleWsDisconnect)
  {
  }
}
