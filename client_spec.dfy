/** Value-level specification of the tsp client's sequential bookkeeping
    (src/client/client.cpp): the command queue, the reply dispatcher, the
    reconnection state machine and the phase notifications it emits.
    Each function here is the effect of one member function of `client`
    on an abstract snapshot of the client's fields; the class in client.dfy
    is proved against these functions. */
module ClientSpec {

  newtype byte = x: int | 0 <= x < 256

  /** A request or reply payload (std::vector<uint8_t>). */
  type Bytes = seq<byte>

  /** An opaque reply handler; invoking it is recorded in the `fired` log. */
  type CallbackId = nat

  datatype Option<T> = None | Some(value: T)

  /** connect_state: the phases reported to the connect observer. */
  datatype Phase = Start | Ok | Failed | Dropped | Sleeping | Stopped

  /** What one call of the transport's connect does. */
  datatype Outcome = Connects | Refuses | Throws

  /** command_request: a payload with its (possibly empty) reply callback. */
  datatype Command = Command(request: Bytes, callback: Option<CallbackId>)

  /** One execution of a reply callback with the reply it was given. */
  datatype Invocation = Invocation(callback: CallbackId, reply: Bytes)

  /** The reconnect policy stored by `connect`: whether an observer is set,
      max_reconnects_ (-1 means unbounded) and reconnect_interval_msecs_. */
  datatype Config = Config(observer: bool, maxReconnects: int, intervalMsecs: nat)

  /** The client's mutable fields, the transport's state and the logs the
      environment observes (transmissions, callback executions, phases). */
  datatype ClientState = ClientState(
    connected: bool,          // client_connection_.is_connected()
    reconnecting: bool,       // reconnecting_
    cancel: bool,             // cancel_
    attempts: int,            // current_reconnect_attempts_
    callbacksRunning: int,    // callbacks_running_
    outcomes: seq<Outcome>,   // what the transport's next connects will do
    commands: seq<Command>,   // commands_, front first
    sent: seq<Bytes>,         // every payload handed to client_connection_.send
    fired: seq<Invocation>,   // every reply callback executed
    phases: seq<Phase>)       // every notification delivered to the observer

  function Initial(outcomes: seq<Outcome>): (s: ClientState)
    ensures !s.connected && !s.reconnecting && !s.cancel && s.commands == []
  {
    ClientState(false, false, false, 0, 0, outcomes, [], [], [], [])
  }

  /** The payloads of a sequence of commands, in order. */
  function Requests(cs: seq<Command>): (r: seq<Bytes>)
    ensures |r| == |cs|
  {
    if cs == [] then [] else Requests(cs[..|cs| - 1]) + [cs[|cs| - 1].request]
  }

  /** Requests, read from the front. */
  lemma {:induction false} RequestsCons(cs: seq<Command>)
    requires cs != []
    ensures Requests(cs) == [cs[0].request] + Requests(cs[1..])
    decreases |cs|
  {
    if |cs| > 1 {
      RequestsCons(cs[..|cs| - 1]);
      assert cs[..|cs| - 1][1..] == cs[1..][..|cs| - 2];
      assert cs[..|cs| - 1][0] == cs[0];
    } else {
      assert cs[..0] == [] && cs[1..] == [];
    }
  }

  /** Requests keeps every payload, once and in place. */
  lemma {:induction false} RequestsIndex(cs: seq<Command>)
    ensures forall i :: 0 <= i < |cs| ==> Requests(cs)[i] == cs[i].request
    decreases |cs|
  {
    if cs != [] {
      RequestsIndex(cs[..|cs| - 1]);
    }
  }

  /** The observer is called only when one was supplied to `connect`. */
  function Notify(s: ClientState, c: Config, p: Phase): (r: ClientState)
    ensures r.phases == if c.observer then s.phases + [p] else s.phases
  {
    if c.observer then s.(phases := s.phases + [p]) else s
  }

  // ---------------------------------------------------------------- queue

  /** unprotected_send (and send, which only adds the lock): transmit the
      request, then append the (request, callback) pair to the queue. */
  function Send(s: ClientState, request: Bytes, callback: Option<CallbackId>): (r: ClientState)
    ensures r.commands == s.commands + [Command(request, callback)]
    ensures r.sent == s.sent + [request]
  {
    s.(sent := s.sent + [request], commands := s.commands + [Command(request, callback)])
  }

  /** The invocation, if any, made for a command answered by `reply`. */
  function Answer(cmd: Command, reply: Bytes): seq<Invocation>
  {
    match cmd.callback
    case None => []
    case Some(id) => [Invocation(id, reply)]
  }

  /** connection_receive_handler: pop the oldest command and run its callback
      with the reply; on an empty queue nothing is popped and nothing runs.
      The in-flight counter is raised before and lowered after the callback. */
  function Receive(s: ClientState, reply: Bytes): (r: ClientState)
    ensures |s.commands| == 0 ==> r == s
    ensures |s.commands| > 0 ==>
      r.commands == s.commands[1..] && r.fired == s.fired + Answer(s.commands[0], reply)
    ensures r.callbacksRunning == s.callbacksRunning
  {
    if |s.commands| == 0 then s
    else s.(commands := s.commands[1..], fired := s.fired + Answer(s.commands[0], reply))
  }

  /** clear_callbacks: the queue is moved out and drained; the drained
      callbacks are not executed, and the in-flight counter is raised by the
      drained count and lowered once per drained command. */
  function ClearCallbacks(s: ClientState): (r: ClientState)
    ensures r.commands == []
    ensures r == s.(commands := [])
  {
    s.(commands := [])
  }

  /** resend_failed_commands: every pending command goes through
      unprotected_send again, oldest first. */
  function Resend(s: ClientState): (r: ClientState)
    ensures r.commands == s.commands
    ensures r.sent == s.sent + Requests(s.commands)
  {
    s.(sent := s.sent + Requests(s.commands))
  }

  // ------------------------------------------------------------ transport

  /** The result of the transport's next connect; an exhausted oracle refuses. */
  function NextOutcome(outcomes: seq<Outcome>): Outcome
  {
    if outcomes == [] then Refuses else outcomes[0]
  }

  function RestOutcomes(outcomes: seq<Outcome>): (r: seq<Outcome>)
    ensures outcomes != [] ==> |r| == |outcomes| - 1
  {
    if outcomes == [] then [] else outcomes[1..]
  }

  /** The notifications of one call of connect, given the transport's outcome. */
  function ConnectPhases(o: Outcome): seq<Phase>
  {
    match o
    case Connects => [Start, Ok]
    case Refuses => [Start, Failed]
    case Throws => [Start]
  }

  /** client::connect (the policy fields are already stored in `c`): notify
      start, run the transport's connect, then notify ok or failed. When the
      transport throws, the exception leaves `connect` before either. */
  function Connect(s: ClientState, c: Config): (r: ClientState)
    ensures r.attempts == s.attempts && r.reconnecting == s.reconnecting && r.cancel == s.cancel
    ensures r.commands == s.commands && r.sent == s.sent && r.fired == s.fired
    ensures r.callbacksRunning == s.callbacksRunning
  {
    var o := NextOutcome(s.outcomes);
    s.(connected := o == Connects, outcomes := RestOutcomes(s.outcomes),
       phases := s.phases + (if c.observer then ConnectPhases(o) else []))
  }

  /** Whether `connect` lets the transport's exception propagate. */
  predicate ConnectRaises(s: ClientState)
  {
    NextOutcome(s.outcomes) == Throws
  }

  /** client::disconnect: close the transport, then drain the queue. */
  function Disconnect(s: ClientState): (r: ClientState)
    ensures !r.connected && r.commands == []
    ensures r == s.(connected := false, commands := [])
  {
    ClearCallbacks(s.(connected := false))
  }

  /** client::cancel_reconnect. */
  function CancelReconnect(s: ClientState): (r: ClientState)
    ensures r.cancel
    ensures r == s.(cancel := true)
  {
    s.(cancel := true)
  }

  /** client::~client: cancel reconnection first, then close the transport.
      The queue is not drained here. */
  function Destroy(s: ClientState): (r: ClientState)
    ensures r.cancel && !r.connected
    ensures r == s.(cancel := true, connected := false)
  {
    var s1 := if !s.cancel then CancelReconnect(s) else s;
    if s1.connected then s1.(connected := false) else s1
  }

  // --------------------------------------------------------- reconnection

  /** should_reconnect, on the individual fields. */
  predicate ShouldRetry(connected: bool, cancel: bool, maxReconnects: int, attempts: int)
  {
    !connected && !cancel && (maxReconnects == -1 || attempts < maxReconnects)
  }

  predicate ShouldReconnect(s: ClientState, c: Config)
  {
    ShouldRetry(s.connected, s.cancel, c.maxReconnects, s.attempts)
  }

  /** sleep_before_next_reconnect_attempt: with an interval configured, notify
      sleeping (the sleep itself is not modelled). */
  function Sleep(s: ClientState, c: Config): (r: ClientState)
    ensures r.phases == if c.observer && c.intervalMsecs != 0 then s.phases + [Sleeping] else s.phases
    ensures r == s.(phases := r.phases)
  {
    if c.intervalMsecs == 0 then s else Notify(s, c, Sleeping)
  }

  /** The notifications one reconnect attempt emits: connect's own start and
      ok/failed, then reconnect's ok/failed. */
  function AttemptPhases(o: Outcome): seq<Phase>
  {
    match o
    case Connects => [Start, Ok, Ok]
    case Refuses => [Start, Failed, Failed]
    case Throws => [Start, Failed]
  }

  /** client::reconnect: count the attempt, call connect swallowing its
      exception, notify failed or ok, and on success resend the queue. */
  function Reconnect(s: ClientState, c: Config): (r: ClientState)
    ensures r.reconnecting == s.reconnecting && r.cancel == s.cancel && r.commands == s.commands
    ensures r.fired == s.fired && r.callbacksRunning == s.callbacksRunning
  {
    var o := NextOutcome(s.outcomes);
    s.(attempts := s.attempts + 1, connected := o == Connects,
       outcomes := RestOutcomes(s.outcomes),
       phases := s.phases + (if c.observer then AttemptPhases(o) else []),
       sent := if o == Connects then s.sent + Requests(s.commands) else s.sent)
  }

  /** What the observer hears in one iteration of the retry loop. */
  function RoundPhases(c: Config, o: Outcome): seq<Phase>
  {
    (if c.observer && c.intervalMsecs != 0 then [Sleeping] else [])
    + (if c.observer then AttemptPhases(o) else [])
  }

  /** One iteration of the retry loop body, stated field by field: the
      attempt is counted, the next outcome decides the link, the observer
      hears the round, and a success resends the queue. */
  function Attempt(s: ClientState, c: Config): (r: ClientState)
    ensures r.reconnecting == s.reconnecting && r.cancel == s.cancel && r.commands == s.commands
    ensures r.fired == s.fired && r.callbacksRunning == s.callbacksRunning
  {
    var o := NextOutcome(s.outcomes);
    s.(attempts := s.attempts + 1, connected := o == Connects,
       outcomes := RestOutcomes(s.outcomes), phases := s.phases + RoundPhases(c, o),
       sent := if o == Connects then s.sent + Requests(s.commands) else s.sent)
  }

  /** The field-by-field round is what the loop body does: sleep, then
      reconnect. */
  lemma AttemptIsSleepThenReconnect(s: ClientState, c: Config)
    ensures Attempt(s, c) == Reconnect(Sleep(s, c), c)
  {
    var o := NextOutcome(s.outcomes);
    var sl := if c.observer && c.intervalMsecs != 0 then [Sleeping] else [];
    var at := if c.observer then AttemptPhases(o) else [];
    assert Sleep(s, c) == s.(phases := s.phases + sl);
    assert (s.phases + sl) + at == s.phases + RoundPhases(c, o);
  }

  /** The retry loop ends: a bounded policy runs out, and an unbounded one
      (max_reconnects == -1) must eventually meet a successful connect, since
      otherwise the source loops forever. */
  predicate Terminates(s: ClientState, c: Config)
  {
    c.maxReconnects == -1 && !s.connected && !s.cancel ==> Connects in s.outcomes
  }

  /** What is left for the retry loop to consume. */
  function Budget(s: ClientState, c: Config): nat
  {
    if c.maxReconnects == -1 then |s.outcomes|
    else if s.attempts < c.maxReconnects then c.maxReconnects - s.attempts
    else 0
  }

  /** An attempt keeps the loop terminating and uses up budget. */
  lemma AttemptProgress(s: ClientState, c: Config)
    requires Terminates(s, c) && ShouldReconnect(s, c)
    ensures Terminates(Attempt(s, c), c)
    ensures Budget(Attempt(s, c), c) < Budget(s, c)
  {
    assert c.maxReconnects == -1 && NextOutcome(s.outcomes) != Connects ==>
      s.outcomes == [s.outcomes[0]] + RestOutcomes(s.outcomes);
  }

  /** `while (should_reconnect()) { sleep; reconnect(); }` */
  function RetryLoop(s: ClientState, c: Config): (r: ClientState)
    requires Terminates(s, c)
    ensures !ShouldReconnect(r, c)
    decreases Budget(s, c)
  {
    if ShouldReconnect(s, c) then
      AttemptProgress(s, c);
      RetryLoop(Attempt(s, c), c)
    else s
  }

  /** The notification that opens the handler. */
  function DropPhase(c: Config): seq<Phase>
  {
    if c.observer then [Dropped] else []
  }

  /** Entering reconnection: reconnecting_ is set, the attempts are counted
      from zero again and dropped is reported. */
  function BeginReconnect(s: ClientState, c: Config): (r: ClientState)
    ensures r.reconnecting && r.attempts == 0 && r.phases == s.phases + DropPhase(c)
    ensures r == s.(reconnecting := true, attempts := 0, phases := s.phases + DropPhase(c))
  {
    Notify(s.(reconnecting := true, attempts := 0), c, Dropped)
  }

  /** Leaving reconnection: still disconnected means giving up (the queue is
      drained and stopped reported); reconnecting_ is cleared either way. */
  function EndReconnect(s: ClientState, c: Config): (r: ClientState)
    ensures !r.reconnecting
    ensures r.commands == if s.connected then s.commands else []
    ensures r.phases == s.phases + (if !s.connected && c.observer then [Stopped] else [])
    ensures r == s.(reconnecting := false, commands := r.commands, phases := r.phases)
  {
    var s1 := if !s.connected then Notify(ClearCallbacks(s), c, Stopped) else s;
    s1.(reconnecting := false)
  }

  /** connection_disconnection_handler: ignored while already reconnecting;
      otherwise begin, run the retry loop, and end. */
  function HandleDrop(s: ClientState, c: Config): (r: ClientState)
    requires s.reconnecting || Terminates(s, c)
    ensures s.reconnecting ==> r == s
    ensures !r.reconnecting || s.reconnecting
  {
    if s.reconnecting then s
    else EndReconnect(RetryLoop(BeginReconnect(s, c), c), c)
  }

  lemma HandleDropUnfold(s: ClientState, c: Config)
    requires !s.reconnecting && Terminates(s, c)
    ensures HandleDrop(s, c) == EndReconnect(RetryLoop(BeginReconnect(s, c), c), c)
  {
  }
}
