/** The tsp client object of src/client/client.cpp, sequentially: its fields
    are updated in place by its member functions, and every method is proved
    to change the abstract snapshot `Model()` exactly as the function of the
    same name in ClientSpec says. The mutex, the condition variable and the
    detached drain thread are replaced by their sequential effect; the
    transport is the `connected` flag plus the `outcomes` oracle. */
module TspClient {
  import opened ClientSpec

  class Client {
    // connection parameters saved by connect for automatic reconnection
    var host: string
    var port: nat
    var observer: bool          // connect_callback_ is set
    var maxReconnects: int      // -1: unbounded
    var intervalMsecs: nat

    // reconnection bookkeeping
    var reconnecting: bool
    var cancel: bool
    var attempts: int

    // command queue and in-flight counter
    var commands: seq<Command>
    var callbacksRunning: int

    // the transport
    var connected: bool
    var outcomes: seq<Outcome>

    // what the environment observes
    var sent: seq<Bytes>
    var fired: seq<Invocation>
    var phases: seq<Phase>

    ghost function Model(): ClientState
      reads this`connected, this`reconnecting, this`cancel, this`attempts, this`callbacksRunning
      reads this`outcomes, this`commands, this`sent, this`fired, this`phases
    {
      ClientState(connected, reconnecting, cancel, attempts, callbacksRunning,
                  outcomes, commands, sent, fired, phases)
    }

    function Policy(): Config
      reads this`observer, this`maxReconnects, this`intervalMsecs
    {
      Config(observer, maxReconnects, intervalMsecs)
    }

    /** A client over a transport whose connects will behave as `outcomes`. */
    constructor (outcomes: seq<Outcome>)
      ensures Model() == Initial(outcomes)
      ensures !observer
    {
      host, port := "", 0;
      observer, maxReconnects, intervalMsecs := false, 0, 0;
      reconnecting, cancel, attempts := false, false, 0;
      commands, callbacksRunning := [], 0;
      connected := false;
      this.outcomes := outcomes;
      sent, fired, phases := [], [], [];
    }

    function IsConnected(): (r: bool)
      reads this
      ensures r == Model().connected
    {
      connected
    }

    function IsReconnecting(): (r: bool)
      reads this
      ensures r == Model().reconnecting
    {
      reconnecting
    }

    /** should_reconnect */
    function ShouldReconnect(): (r: bool)
      reads this
      ensures r == ClientSpec.ShouldReconnect(Model(), Policy())
    {
      ShouldRetry(connected, cancel, maxReconnects, attempts)
    }

    /** The observer is called when one was given to connect. */
    method Notify(p: Phase)
      modifies this`phases
      ensures Model() == ClientSpec.Notify(old(Model()), Policy(), p)
    {
      if observer {
        phases := phases + [p];
      }
    }

    /** The transport's connect: consumes the next outcome of the oracle. */
    method TransportConnect() returns (o: Outcome)
      modifies this`connected, this`outcomes
      ensures o == NextOutcome(old(outcomes))
      ensures connected == (o == Connects)
      ensures outcomes == RestOutcomes(old(outcomes))
    {
      if outcomes == [] {
        o := Refuses;
      } else {
        o := outcomes[0];
        outcomes := outcomes[1..];
      }
      connected := o == Connects;
    }

    /** client::connect. `raised` says that the transport's exception
        propagates to the caller; start has then been notified, but neither
        ok nor failed. */
    method Connect(host: string, port: nat, observer: bool, maxReconnects: int, intervalMsecs: nat)
      returns (raised: bool)
      modifies this`host, this`port, this`observer, this`maxReconnects, this`intervalMsecs
      modifies this`phases, this`connected, this`outcomes
      ensures this.host == host && this.port == port
      ensures Policy() == Config(observer, maxReconnects, intervalMsecs)
      ensures Model() == ClientSpec.Connect(old(Model()), Policy())
      ensures raised == ConnectRaises(old(Model()))
    {
      this.host, this.port := host, port;
      this.observer, this.maxReconnects, this.intervalMsecs := observer, maxReconnects, intervalMsecs;
      raised := ConnectWithPolicy();
    }

    /** The body of client::connect once the parameters are stored. */
    method ConnectWithPolicy() returns (raised: bool)
      modifies this`phases, this`connected, this`outcomes
      ensures Model() == ClientSpec.Connect(old(Model()), Policy())
      ensures raised == ConnectRaises(old(Model()))
    {
      ghost var before := phases;
      Notify(Start);
      var o := TransportConnect();
      if o == Throws {
        raised := true;
        return;
      }
      raised := false;
      if connected {
        Notify(Ok);
        assert observer ==> phases == before + [Start, Ok];
      } else {
        Notify(Failed);
        assert observer ==> phases == before + [Start, Failed];
      }
    }

    /** client::disconnect: close the transport, then drain the queue. */
    method Disconnect()
      modifies this`connected, this`commands, this`callbacksRunning
      ensures Model() == ClientSpec.Disconnect(old(Model()))
    {
      connected := false;
      ClearCallbacks();
    }

    /** client::cancel_reconnect: the flag is only ever set. */
    method CancelReconnect()
      modifies this`cancel
      ensures cancel
      ensures Model() == ClientSpec.CancelReconnect(old(Model()))
    {
      cancel := true;
    }

    /** client::send: unprotected_send under the callbacks lock. */
    method Send(request: Bytes, callback: Option<CallbackId>)
      modifies this`sent, this`commands
      ensures commands == old(commands) + [Command(request, callback)]
      ensures sent == old(sent) + [request]
      ensures Model() == ClientSpec.Send(old(Model()), request, callback)
    {
      UnprotectedSend(request, callback);
    }

    /** client::unprotected_send: transmit, then queue the pair. */
    method UnprotectedSend(request: Bytes, callback: Option<CallbackId>)
      modifies this`sent, this`commands
      ensures commands == old(commands) + [Command(request, callback)]
      ensures sent == old(sent) + [request]
      ensures Model() == ClientSpec.Send(old(Model()), request, callback)
    {
      sent := sent + [request];
      commands := commands + [Command(request, callback)];
    }

    /** client::connection_receive_handler. */
    method ReceiveReply(reply: Bytes)
      modifies this`callbacksRunning, this`commands, this`fired
      ensures callbacksRunning == old(callbacksRunning)
      ensures old(commands) == [] ==> commands == [] && fired == old(fired)
      ensures old(commands) != [] ==>
        commands == old(commands)[1..] && fired == old(fired) + Answer(old(commands)[0], reply)
      ensures Model() == Receive(old(Model()), reply)
    {
      var callback: Option<CallbackId> := None;
      callbacksRunning := callbacksRunning + 1;
      if |commands| > 0 {
        callback := commands[0].callback;
        commands := commands[1..];
      }
      if callback.Some? {
        fired := fired + [Invocation(callback.value, reply)];
      }
      callbacksRunning := callbacksRunning - 1;
    }

    /** client::clear_callbacks: move the queue out and drain it, raising
        the in-flight counter by its size and lowering it once per entry. */
    method ClearCallbacks()
      modifies this`commands, this`callbacksRunning
      ensures commands == [] && callbacksRunning == old(callbacksRunning)
      ensures Model() == ClientSpec.ClearCallbacks(old(Model()))
    {
      if |commands| == 0 {
        return;
      }
      var pending := commands;
      commands := [];
      callbacksRunning := callbacksRunning + |pending|;
      while |pending| > 0
        invariant commands == []
        invariant callbacksRunning == old(callbacksRunning) + |pending|
      {
        callbacksRunning := callbacksRunning - 1;
        pending := pending[1..];
      }
    }

    /** client::resend_failed_commands: move the queue out and send every
        pending command again through unprotected_send, oldest first. */
    method ResendFailedCommands()
      modifies this`sent, this`commands
      ensures commands == old(commands)
      ensures sent == old(sent) + Requests(old(commands))
      ensures Model() == Resend(old(Model()))
    {
      if |commands| == 0 {
        return;
      }
      var pending := commands;
      commands := [];
      SendPending(pending);
      assert commands == old(commands);
    }

    /** The loop of resend_failed_commands over the moved-out queue. */
    method SendPending(pending: seq<Command>)
      modifies this`sent, this`commands
      ensures commands == old(commands) + pending
      ensures sent == old(sent) + Requests(pending)
    {
      var i := 0;
      while i < |pending|
        invariant i <= |pending|
        invariant commands == old(commands) + pending[..i]
        invariant sent == old(sent) + Requests(pending[..i])
      {
        UnprotectedSend(pending[i].request, pending[i].callback);
        assert pending[..i + 1][..i] == pending[..i];
        i := i + 1;
      }
      assert pending[..i] == pending;
    }

    /** client::sleep_before_next_reconnect_attempt, without the sleep. */
    method SleepBeforeNextReconnectAttempt()
      modifies this`phases
      ensures Model() == Sleep(old(Model()), Policy())
    {
      if intervalMsecs == 0 {
        return;
      }
      Notify(Sleeping);
    }

    /** client::reconnect: count the attempt, reconnect swallowing any
        exception, report, and resend on success. The source calls connect
        with the parameters connect stored, which writes them back unchanged,
        so only connect's body after the stores is run here. */
    method Reconnect()
      modifies this`attempts, this`phases, this`connected, this`outcomes, this`sent, this`commands
      ensures attempts == old(attempts) + 1
      ensures Model() == ClientSpec.Reconnect(old(Model()), Policy())
    {
      ghost var before := phases;
      attempts := attempts + 1;
      var _ := ConnectWithPolicy();
      if !connected {
        Notify(Failed);
        assert observer ==> phases == before + AttemptPhases(NextOutcome(old(outcomes)));
        return;
      }
      Notify(Ok);
      assert observer ==> phases == before + [Start, Ok, Ok];
      ResendFailedCommands();
    }

    /** client::connection_disconnection_handler. An unbounded policy against
        a transport that never connects again loops forever, so that case
        is required away unless already reconnecting. */
    method HandleDisconnection()
      requires reconnecting || Terminates(Model(), Policy())
      modifies this`reconnecting, this`attempts, this`phases, this`connected, this`outcomes, this`sent, this`commands, this`callbacksRunning
      ensures old(reconnecting) ==> Model() == old(Model())
      ensures !old(reconnecting) ==> !reconnecting
      ensures Model() == HandleDrop(old(Model()), Policy())
    {
      if IsReconnecting() {
        return;
      }
      ghost var s0 := Model();
      BeginReconnect();
      RetryWhileDisconnected();
      EndReconnect();
      HandleDropUnfold(s0, Policy());
    }

    /** The handler's entry: set reconnecting_, count from zero, notify
        dropped. */
    method BeginReconnect()
      modifies this`reconnecting, this`attempts, this`phases
      ensures Model() == ClientSpec.BeginReconnect(old(Model()), Policy())
    {
      reconnecting := true;
      attempts := 0;
      Notify(Dropped);
    }

    /** The handler's exit: give up when still disconnected, then clear
        reconnecting_. */
    method EndReconnect()
      modifies this`reconnecting, this`phases, this`commands, this`callbacksRunning
      ensures Model() == ClientSpec.EndReconnect(old(Model()), Policy())
    {
      if !IsConnected() {
        ClearCallbacks();
        Notify(Stopped);
      }
      reconnecting := false;
    }

    /** The loop `while (should_reconnect()) { sleep; reconnect(); }` of
        connection_disconnection_handler. */
    method RetryWhileDisconnected()
      requires Terminates(Model(), Policy())
      modifies this`attempts, this`phases, this`connected, this`outcomes, this`sent, this`commands
      ensures Model() == RetryLoop(old(Model()), Policy())
    {
      while ShouldReconnect()
        invariant Terminates(Model(), Policy())
        invariant RetryLoop(Model(), Policy()) == RetryLoop(old(Model()), Policy())
        decreases Budget(Model(), Policy())
      {
        ghost var before := Model();
        AttemptProgress(before, Policy());
        AttemptIsSleepThenReconnect(before, Policy());
        SleepBeforeNextReconnectAttempt();
        Reconnect();
      }
    }

    /** client::~client: cancel reconnection, then close the transport. */
    method Destroy()
      modifies this`cancel, this`connected
      ensures cancel && !connected
      ensures Model() == ClientSpec.Destroy(old(Model()))
    {
      if !cancel {
        CancelReconnect();
      }
      if IsConnected() {
        connected := false;
      }
    }
  }
}
