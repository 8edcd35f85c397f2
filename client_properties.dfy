/** Properties of the client's bookkeeping, stated over ClientSpec: FIFO
    matching of replies to sends, the attempt counting and trace of the
    reconnection loop, what the disconnection handler leaves behind, and the
    one-way cancellation flag. */
module ClientProperties {
  import opened ClientSpec

  // ------------------------------------------------------ queue and replies

  /** Several sends in a row. */
  function SendAll(s: ClientState, cmds: seq<Command>): ClientState
    decreases |cmds|
  {
    if cmds == [] then s
    else SendAll(Send(s, cmds[0].request, cmds[0].callback), cmds[1..])
  }

  /** Several replies arriving in a row. */
  function ReceiveAll(s: ClientState, replies: seq<Bytes>): ClientState
    decreases |replies|
  {
    if replies == [] then s else ReceiveAll(Receive(s, replies[0]), replies[1..])
  }

  /** The callback executions FIFO matching promises: the k-th reply goes to
      the k-th command's callback, when it has one. */
  function Invocations(cs: seq<Command>, replies: seq<Bytes>): seq<Invocation>
    requires |replies| <= |cs|
    decreases |replies|
  {
    if replies == [] then [] else Answer(cs[0], replies[0]) + Invocations(cs[1..], replies[1..])
  }

  /** Sends queue and transmit exactly their own commands, in order. */
  lemma {:induction false} SendAllAppends(s: ClientState, cmds: seq<Command>)
    ensures SendAll(s, cmds) == s.(commands := s.commands + cmds, sent := s.sent + Requests(cmds))
    decreases |cmds|
  {
    if cmds != [] {
      var s1 := Send(s, cmds[0].request, cmds[0].callback);
      SendAllAppends(s1, cmds[1..]);
      assert s.commands + [cmds[0]] + cmds[1..] == s.commands + cmds;
      RequestsCons(cmds);
      assert s.sent + [cmds[0].request] + Requests(cmds[1..]) == s.sent + Requests(cmds);
    }
  }

  /** Replies consume the queue from the front and run exactly the matched
      callbacks, in order; the in-flight counter is back where it started. */
  lemma {:induction false} FifoDispatch(s: ClientState, replies: seq<Bytes>)
    requires |replies| <= |s.commands|
    ensures ReceiveAll(s, replies) ==
      s.(commands := s.commands[|replies|..], fired := s.fired + Invocations(s.commands, replies))
    decreases |replies|
  {
    if replies != [] {
      var s1 := Receive(s, replies[0]);
      FifoDispatch(s1, replies[1..]);
      assert s1.commands[|replies| - 1..] == s.commands[|replies|..];
      assert s1.fired + Invocations(s1.commands, replies[1..])
          == s.fired + Invocations(s.commands, replies);
    }
  }

  /** A reply with nothing queued runs no callback and changes nothing. */
  lemma {:induction false} UnmatchedRepliesIgnored(s: ClientState, replies: seq<Bytes>)
    requires s.commands == []
    ensures ReceiveAll(s, replies) == s
    decreases |replies|
  {
    if replies != [] {
      UnmatchedRepliesIgnored(Receive(s, replies[0]), replies[1..]);
    }
  }

  /** When every command has a callback, the k-th execution is the k-th
      command's callback with the k-th reply: each fires once, in send order. */
  lemma {:induction false} InvocationsInSendOrder(cs: seq<Command>, replies: seq<Bytes>)
    requires |replies| == |cs|
    requires forall i :: 0 <= i < |cs| ==> cs[i].callback.Some?
    ensures |Invocations(cs, replies)| == |cs|
    ensures forall i :: 0 <= i < |cs| ==>
      Invocations(cs, replies)[i] == Invocation(cs[i].callback.value, replies[i])
    decreases |replies|
  {
    if replies != [] {
      InvocationsInSendOrder(cs[1..], replies[1..]);
      assert Answer(cs[0], replies[0]) == [Invocation(cs[0].callback.value, replies[0])];
    }
  }

  /** N sends on an empty queue followed by N replies: everything sent once,
      every callback matched in send order, the queue left empty. */
  lemma SendsThenReplies(s: ClientState, cmds: seq<Command>, replies: seq<Bytes>)
    requires s.commands == [] && |replies| == |cmds|
    ensures ReceiveAll(SendAll(s, cmds), replies) ==
      s.(sent := s.sent + Requests(cmds), fired := s.fired + Invocations(cmds, replies))
  {
    SendAllAppends(s, cmds);
    var s1 := SendAll(s, cmds);
    assert s1.commands == cmds;
    FifoDispatch(s1, replies);
    assert cmds[|replies|..] == [];
  }

  // ------------------------------------------------------- retry loop

  /** connect's last report tells the truth about the link, unless the
      transport threw, in which case only start was reported. */
  lemma ConnectReports(s: ClientState, c: Config)
    requires c.observer
    ensures var r := Connect(s, c);
      && |r.phases| > |s.phases| && r.phases[|s.phases|] == Start
      && r.phases[|r.phases| - 1] ==
         (if r.connected then Ok else if ConnectRaises(s) then Start else Failed)
    ensures ConnectRaises(s) ==> Connect(s, c).phases == s.phases + [Start]
    ensures !ConnectRaises(s) ==> |Connect(s, c).phases| == |s.phases| + 2
  {
  }

  /** reconnect's last report tells the truth about the link, whatever
      connect did, and every call counts one attempt. */
  lemma ReconnectReports(s: ClientState, c: Config)
    requires c.observer
    ensures var r := Reconnect(s, c);
      && r.attempts == s.attempts + 1
      && |r.phases| > |s.phases| && r.phases[|r.phases| - 1] == (if r.connected then Ok else Failed)
  {
  }


  /** The loop touches only the attempt counter, the transport, the phase
      log and (on recovery) the transmission log; in particular the queue,
      the callbacks, the in-flight counter and cancel_ are left alone. */
  lemma {:induction false} RetryFrame(s: ClientState, c: Config)
    requires Terminates(s, c)
    ensures var r := RetryLoop(s, c);
      r == s.(attempts := r.attempts, connected := r.connected, outcomes := r.outcomes,
              phases := r.phases, sent := r.sent)
    ensures RetryLoop(s, c).attempts >= s.attempts
    decreases Budget(s, c)
  {
    if ShouldReconnect(s, c) {
      AttemptProgress(s, c);
      RetryFrame(Attempt(s, c), c);
    }
  }

  /** A bounded policy never exceeds its bound. */
  lemma {:induction false} RetryBounded(s: ClientState, c: Config)
    requires c.maxReconnects >= 0 && s.attempts <= c.maxReconnects
    ensures RetryLoop(s, c).attempts <= c.maxReconnects
    decreases Budget(s, c)
  {
    if ShouldReconnect(s, c) {
      AttemptProgress(s, c);
      RetryBounded(Attempt(s, c), c);
    }
  }

  /** Against a transport that never connects, a bounded policy makes
      exactly max_reconnects attempts and ends disconnected. Thrown and
      refused connects count alike. */
  lemma {:induction false} RetryAllRefused(s: ClientState, c: Config)
    requires c.maxReconnects >= 0 && s.attempts <= c.maxReconnects
    requires !s.connected && !s.cancel && Connects !in s.outcomes
    ensures RetryLoop(s, c).attempts == c.maxReconnects
    ensures !RetryLoop(s, c).connected
    decreases Budget(s, c)
  {
    if ShouldReconnect(s, c) {
      AttemptProgress(s, c);
      assert s.outcomes != [] ==> s.outcomes == [s.outcomes[0]] + RestOutcomes(s.outcomes);
      RetryAllRefused(Attempt(s, c), c);
    }
  }

  /** The loop stops right after the first successful connect, provided the
      policy still allows that attempt. */
  lemma {:induction false} RetryFirstSuccess(s: ClientState, c: Config, k: nat)
    requires k < |s.outcomes| && s.outcomes[k] == Connects
    requires forall i :: 0 <= i < k ==> s.outcomes[i] != Connects
    requires !s.connected && !s.cancel
    requires c.maxReconnects == -1 || s.attempts + k < c.maxReconnects
    ensures Terminates(s, c)
    ensures RetryLoop(s, c).connected
    ensures RetryLoop(s, c).attempts == s.attempts + k + 1
    ensures RetryLoop(s, c).outcomes == s.outcomes[k + 1..]
    decreases k
  {
    assert ShouldReconnect(s, c);
    AttemptProgress(s, c);
    var t := Attempt(s, c);
    if k > 0 {
      assert t.outcomes == s.outcomes[1..];
      RetryFirstSuccess(t, c, k - 1);
      assert t.outcomes[k..] == s.outcomes[k + 1..];
    } else {
      assert t.connected;
    }
  }

  /** On recovery the queue is retransmitted exactly once, in order; without
      recovery nothing is transmitted. */
  lemma {:induction false} RetryResends(s: ClientState, c: Config)
    requires Terminates(s, c)
    ensures var r := RetryLoop(s, c);
      r.sent == s.sent + (if r.connected && !s.connected then Requests(s.commands) else [])
    decreases Budget(s, c)
  {
    if ShouldReconnect(s, c) {
      AttemptProgress(s, c);
      var t := Attempt(s, c);
      RetryResends(t, c);
      if t.connected {
        assert RetryLoop(t, c) == t;
      }
    }
  }

  /** The notifications of `k` loop iterations over the oracle `outcomes`. */
  function LoopPhases(c: Config, outcomes: seq<Outcome>, k: nat): seq<Phase>
    decreases k
  {
    if k == 0 then []
    else RoundPhases(c, NextOutcome(outcomes)) + LoopPhases(c, RestOutcomes(outcomes), k - 1)
  }

  /** The loop's iterations never report dropped or stopped. */
  lemma {:induction false} LoopPhasesQuiet(c: Config, outcomes: seq<Outcome>, k: nat)
    ensures Stopped !in LoopPhases(c, outcomes, k)
    ensures Dropped !in LoopPhases(c, outcomes, k)
    decreases k
  {
    if k > 0 {
      LoopPhasesQuiet(c, RestOutcomes(outcomes), k - 1);
    }
  }

  /** LoopPhases written with an accumulator: the trace after `k` rounds
      on top of `acc`. */
  function LoopTrace(c: Config, outcomes: seq<Outcome>, k: nat, acc: seq<Phase>): seq<Phase>
    decreases k
  {
    if k == 0 then acc
    else LoopTrace(c, RestOutcomes(outcomes), k - 1, acc + RoundPhases(c, NextOutcome(outcomes)))
  }

  lemma {:induction false} LoopTraceAppends(c: Config, outcomes: seq<Outcome>, k: nat, acc: seq<Phase>)
    ensures LoopTrace(c, outcomes, k, acc) == acc + LoopPhases(c, outcomes, k)
    decreases k
  {
    if k > 0 {
      var round := RoundPhases(c, NextOutcome(outcomes));
      var rest := LoopPhases(c, RestOutcomes(outcomes), k - 1);
      calc {
        LoopTrace(c, outcomes, k, acc);
        LoopTrace(c, RestOutcomes(outcomes), k - 1, acc + round);
        { LoopTraceAppends(c, RestOutcomes(outcomes), k - 1, acc + round); }
        (acc + round) + rest;
        acc + (round + rest);
        acc + LoopPhases(c, outcomes, k);
      }
    }
  }

  lemma {:induction false} RetryTraceAcc(s: ClientState, c: Config)
    requires Terminates(s, c)
    ensures RetryLoop(s, c).attempts >= s.attempts
    ensures RetryLoop(s, c).phases ==
      LoopTrace(c, s.outcomes, RetryLoop(s, c).attempts - s.attempts, s.phases)
    decreases Budget(s, c)
  {
    if ShouldReconnect(s, c) {
      AttemptProgress(s, c);
      var t := Attempt(s, c);
      RetryTraceAcc(t, c);
      assert RetryLoop(s, c) == RetryLoop(t, c);
    }
  }

  /** The loop's trace: per attempt an optional sleeping, then the attempt's
      own start and ok/failed notifications. */
  lemma RetryTrace(s: ClientState, c: Config)
    requires Terminates(s, c)
    ensures RetryLoop(s, c).attempts >= s.attempts
    ensures RetryLoop(s, c).phases ==
      s.phases + LoopPhases(c, s.outcomes, RetryLoop(s, c).attempts - s.attempts)
  {
    RetryTraceAcc(s, c);
    LoopTraceAppends(c, s.outcomes, RetryLoop(s, c).attempts - s.attempts, s.phases);
  }

  // --------------------------------------------- the disconnection handler

  /** Past its guard, the handler ends with reconnecting_ false, counts its
      attempts from zero within a bounded policy and leaves cancel_, the
      in-flight counter and the executed callbacks alone. */
  lemma DropFrame(s: ClientState, c: Config)
    requires !s.reconnecting && Terminates(s, c)
    ensures var r := HandleDrop(s, c);
      && !r.reconnecting && r.cancel == s.cancel
      && r.callbacksRunning == s.callbacksRunning && r.fired == s.fired
      && 0 <= r.attempts
      && (c.maxReconnects >= 0 ==> r.attempts <= c.maxReconnects)
  {
    var b := BeginReconnect(s, c);
    RetryFrame(b, c);
    if c.maxReconnects >= 0 {
      RetryBounded(b, c);
    }
  }

  /** The handler's trace past its guard: dropped, `k` loop rounds and,
      unless the transport came back, stopped. */
  function HandlerPhases(c: Config, outcomes: seq<Outcome>, k: nat, recovered: bool): seq<Phase>
  {
    DropPhase(c) + LoopPhases(c, outcomes, k) + (if !recovered && c.observer then [Stopped] else [])
  }

  /** A recovering run reports neither stopped nor a second dropped. */
  lemma HandlerPhasesOnRecovery(c: Config, outcomes: seq<Outcome>, k: nat)
    ensures Stopped !in HandlerPhases(c, outcomes, k, true)
    ensures c.observer ==> multiset(HandlerPhases(c, outcomes, k, true))[Dropped] == 1
  {
    LoopPhasesQuiet(c, outcomes, k);
    assert HandlerPhases(c, outcomes, k, true) == DropPhase(c) + LoopPhases(c, outcomes, k);
  }

  /** The handler's trace: dropped, the loop's rounds and, when the
      transport is still down, stopped. */
  lemma DropTrace(s: ClientState, c: Config)
    requires !s.reconnecting && Terminates(s, c)
    ensures var r := HandleDrop(s, c);
      && 0 <= r.attempts
      && r.phases == s.phases + HandlerPhases(c, s.outcomes, r.attempts, r.connected)
  {
    var b := BeginReconnect(s, c);
    RetryFrame(b, c);
    RetryTrace(b, c);
    var l := RetryLoop(b, c);
    var r := HandleDrop(s, c);
    assert r == EndReconnect(l, c);
    var drop, loop := DropPhase(c), LoopPhases(c, s.outcomes, l.attempts);
    var stop := if !l.connected && c.observer then [Stopped] else [];
    Concat3(s.phases, drop, loop, stop, b.phases, l.phases, r.phases);
  }

  /** Sequence bookkeeping for a trace built in three steps. */
  lemma Concat3<T>(s: seq<T>, x: seq<T>, y: seq<T>, z: seq<T>, sx: seq<T>, sxy: seq<T>, sxyz: seq<T>)
    requires sx == s + x && sxy == sx + y && sxyz == sxy + z
    ensures sxyz == s + (x + y + z)
  {
  }

  /** The queue survives only a recovery, and a recovery retransmits it once. */
  lemma DropQueue(s: ClientState, c: Config)
    requires !s.reconnecting && Terminates(s, c)
    ensures var r := HandleDrop(s, c);
      && r.commands == (if r.connected then s.commands else [])
      && r.sent == s.sent + (if r.connected && !s.connected then Requests(s.commands) else [])
  {
    var b := BeginReconnect(s, c);
    RetryFrame(b, c);
    RetryResends(b, c);
  }

  /** Giving up: if the handler ends disconnected, the queue is empty and
      stopped is the last thing the observer heard. */
  lemma DropGivesUp(s: ClientState, c: Config)
    requires !s.reconnecting && Terminates(s, c)
    requires !HandleDrop(s, c).connected
    ensures HandleDrop(s, c).commands == []
    ensures c.observer ==> |HandleDrop(s, c).phases| > 0 && HandleDrop(s, c).phases[|HandleDrop(s, c).phases| - 1] == Stopped
  {
    DropQueue(s, c);
    DropTrace(s, c);
  }

  /** Recovering: if the handler ends connected, the queue is intact and
      stopped was not reported by this run. */
  lemma DropRecovers(s: ClientState, c: Config)
    requires !s.reconnecting && Terminates(s, c)
    requires HandleDrop(s, c).connected
    ensures HandleDrop(s, c).commands == s.commands
    ensures |HandleDrop(s, c).phases| >= |s.phases|
    ensures Stopped !in HandleDrop(s, c).phases[|s.phases|..]
  {
    var r := HandleDrop(s, c);
    DropQueue(s, c);
    DropTrace(s, c);
    var added := HandlerPhases(c, s.outcomes, r.attempts, true);
    assert r.phases[|s.phases|..] == added;
    HandlerPhasesOnRecovery(c, s.outcomes, r.attempts);
  }

  /** max_reconnects = m >= 0 and a transport that never connects: exactly
      m attempts, then the queue is drained and stopped is reported. */
  lemma DropAllRefused(s: ClientState, c: Config)
    requires !s.reconnecting && !s.connected && !s.cancel
    requires c.maxReconnects >= 0 && Connects !in s.outcomes
    ensures HandleDrop(s, c).attempts == c.maxReconnects
    ensures !HandleDrop(s, c).connected && HandleDrop(s, c).commands == []
    ensures HandleDrop(s, c).phases == s.phases + HandlerPhases(c, s.outcomes, c.maxReconnects, false)
  {
    RetryAllRefused(BeginReconnect(s, c), c);
    DropQueue(s, c);
    DropTrace(s, c);
  }

  /** Cancelled before the drop: no attempt at all; a disconnected client
      drains its queue and reports stopped straight after dropped. */
  lemma DropCancelled(s: ClientState, c: Config)
    requires !s.reconnecting && s.cancel
    ensures HandleDrop(s, c).attempts == 0
    ensures HandleDrop(s, c).outcomes == s.outcomes && HandleDrop(s, c).sent == s.sent
    ensures !s.connected ==> (HandleDrop(s, c).commands == [] &&
      HandleDrop(s, c).phases == s.phases + DropPhase(c) + (if c.observer then [Stopped] else []))
  {
  }

  /** The destructor's order (cancel, then close) ensures a drop delivered
      afterwards makes no attempt and gives up at once. */
  lemma DropAfterDestroy(s: ClientState, c: Config)
    requires !s.reconnecting
    ensures var r := HandleDrop(Destroy(s), c);
      r.attempts == 0 && !r.connected && r.commands == [] && r.sent == s.sent
      && r.outcomes == s.outcomes && r.phases == s.phases + DropPhase(c) + (if c.observer then [Stopped] else [])
  {
    DropCancelled(Destroy(s), c);
  }

  /** cancel_ is only ever set: no operation clears it. */
  lemma CancelIsOneWay(s: ClientState, c: Config, request: Bytes, callback: Option<CallbackId>, reply: Bytes)
    requires s.cancel
    ensures Connect(s, c).cancel && Reconnect(s, c).cancel && Send(s, request, callback).cancel
    ensures Receive(s, reply).cancel && Disconnect(s).cancel && Destroy(s).cancel
    ensures Terminates(s, c) ==> RetryLoop(s, c).cancel
    ensures s.reconnecting || Terminates(s, c) ==> HandleDrop(s, c).cancel
  {
    if Terminates(s, c) {
      RetryFrame(s, c);
    }
    if !s.reconnecting && Terminates(s, c) {
      DropFrame(s, c);
    }
  }

  // ----------------------------------------------------------- a scenario

  /** The scenario's policy: an observer, no bound, a 500 ms interval. */
  function ScenarioPolicy(): Config
  {
    Config(true, -1, 500)
  }

  /** The client of the scenario just before the drop is handled: it
      connected at once, has one command pending, and its transport will
      fail twice and then connect. */
  function ScenarioDropped(request: Bytes): ClientState
  {
    ClientState(false, false, false, 0, 0, [Refuses, Refuses, Connects],
                [Command(request, Some(7))], [request], [], [Start, Ok])
  }

  /** How the scenario gets there: connect, send, then the transport drops. */
  lemma ScenarioSetup(request: Bytes)
    ensures Send(Connect(Initial([Connects, Refuses, Refuses, Connects]), ScenarioPolicy()),
                 request, Some(7)).(connected := false) == ScenarioDropped(request)
  {
  }

  /** After the drop the client recovers on the third attempt, and the
      pending request is transmitted a second time. */
  lemma ScenarioRecovers(request: Bytes)
    ensures var r := HandleDrop(ScenarioDropped(request), ScenarioPolicy());
      && r.connected && r.attempts == 3 && !r.reconnecting
      && r.commands == [Command(request, Some(7))]
      && r.sent == [request, request]
  {
    var c := ScenarioPolicy();
    var s1 := ScenarioDropped(request);
    RetryFirstSuccess(BeginReconnect(s1, c), c, 2);
    DropQueue(s1, c);
    assert Requests(s1.commands) == [request];
  }

  /** Meanwhile the observer hears dropped and three sleeping/attempt
      rounds, each with connect's and reconnect's own report. */
  lemma ScenarioTrace(request: Bytes)
    ensures HandleDrop(ScenarioDropped(request), ScenarioPolicy()).phases ==
      [Start, Ok, Dropped,
       Sleeping, Start, Failed, Failed,
       Sleeping, Start, Failed, Failed,
       Sleeping, Start, Ok, Ok]
  {
    var c := ScenarioPolicy();
    var s1 := ScenarioDropped(request);
    ScenarioRecovers(request);
    DropTrace(s1, c);
    ScenarioHandlerPhases(c, s1.phases, s1.outcomes);
  }

  lemma ScenarioHandlerPhases(c: Config, before: seq<Phase>, outs: seq<Outcome>)
    requires c == Config(true, -1, 500) && before == [Start, Ok] && outs == [Refuses, Refuses, Connects]
    ensures before + HandlerPhases(c, outs, 3, true) ==
      [Start, Ok, Dropped,
       Sleeping, Start, Failed, Failed,
       Sleeping, Start, Failed, Failed,
       Sleeping, Start, Ok, Ok]
  {
    ScenarioLoopPhases(c, outs);
    assert HandlerPhases(c, outs, 3, true) == [Dropped] + LoopPhases(c, outs, 3) + [];
  }

  lemma ScenarioLoopPhases(c: Config, outs: seq<Outcome>)
    requires c == Config(true, -1, 500) && outs == [Refuses, Refuses, Connects]
    ensures LoopPhases(c, outs, 3) == [Sleeping, Start, Failed, Failed,
                                       Sleeping, Start, Failed, Failed,
                                       Sleeping, Start, Ok, Ok]
  {
    assert RestOutcomes(outs) == [Refuses, Connects];
    assert RestOutcomes(RestOutcomes(outs)) == [Connects];
    assert LoopPhases(c, [Connects], 1) == [Sleeping, Start, Ok, Ok];
    assert LoopPhases(c, [Refuses, Connects], 2) == [Sleeping, Start, Failed, Failed, Sleeping, Start, Ok, Ok];
  }
}
