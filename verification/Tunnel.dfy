/**
 The UDP tunnel as a protocol between two endpoints: UDPTunnel.send_cemi on one side, the
 receiving half of UDPTunnel (the algorithm every KNXnet/IP tunnel endpoint runs) on the
 other, and between them a FIFO channel in each direction that may lose and duplicate.

 Sends are numbered 0, 1, 2, ... over the life of the client; the number of a send stands for
 its payload. Counters on the wire are modulo 256, exactly as in the code.
 */
module Tunnel {
  import opened Bytes

  // ------------------------------------------------------------ the code's rules

  /** sequence_number + 1 & 0xFF */
  function NextCounter(c: nat): (r: nat)
    ensures r < 256
  {
    (c + 1) % 256
  }

  /** expected_sequence_number - 1 & 0xFF */
  function PreviousCounter(c: nat): (r: nat)
    ensures r < 256
  {
    (c + 255) % 256
  }

  datatype Reception = Deliver | AcknowledgeAgain | Drop

  /** How _tunnelling_request_received treats a counter. */
  function Receive(expected: nat, counter: nat): Reception {
    if counter == expected then Deliver
    else if counter == PreviousCounter(expected) then AcknowledgeAgain
    else Drop
  }

  // ------------------------------------------------------------------- the state

  /** A TunnellingRequest; `at` is history: its place among the transmissions of the connection. */
  datatype Request = Request(counter: nat, send: nat, at: nat)

  /** A TunnellingAck; `at` is history: the place of the request it answers. */
  datatype Ack = Ack(counter: nat, noError: bool, at: nat)

  datatype Phase =
    | Idle
      /** Awaiting the ack of a try; `counter` is the one in the transmitted request. */
    | Waiting(attempt: nat, send: nat, counter: nat)
      /** Awaiting the reconnect task; `reconnected` once a new connection was established. */
    | AwaitingReconnect(resend: nat, reconnected: bool)

  datatype State = State(
    phase: Phase,
    sequenceNumber: nat,
    sends: nat,
    up: bool,
    toServer: seq<Request>,
    toClient: seq<Ack>,
    expected: nat,
    /** Histories: the sends transmitted and delivered on this connection, delivered on earlier ones, returned. */
    transmitted: seq<nat>,
    delivered: seq<nat>,
    deliveredBefore: seq<nat>,
    returned: set<nat>)

  function Init(): State {
    State(Idle, 0, 0, false, [], [], 0, [], [], [], {})
  }

  /** What the network may do besides losing frames; `late`: a timeout may come while frames are in flight. */
  datatype Environment = Environment(duplicatesRequests: bool, duplicatesAcks: bool, late: bool)

  datatype Event =
    | StartSend
    | SendWithoutConnection
    | Timeout(raises: bool)
    | ThirdTry
    | ReconnectCancelled
    | ServerReceives
    | ServerRefuses
    | ClientReceivesAck
    | LoseRequest(at: nat)
    | LoseAck(at: nat)
    | DuplicateRequest(at: nat)
    | DuplicateAck(at: nat)
    | ConnectionLost
    | ConnectionEstablished

  function Remove<T>(s: seq<T>, at: nat): seq<T>
    requires at < |s|
  {
    s[..at] + s[at + 1..]
  }

  function Double<T>(s: seq<T>, at: nat): seq<T>
    requires at < |s|
  {
    s[..at + 1] + s[at..]
  }

  predicate Enabled(env: Environment, s: State, e: Event) {
    match e
    case StartSend => s.phase.Idle? && s.up
    case SendWithoutConnection => s.phase.Idle? && !s.up
    case Timeout(_) => s.phase.Waiting? && (env.late || (s.toServer == [] && s.toClient == []))
    case ThirdTry => s.phase.AwaitingReconnect? && s.phase.reconnected
    case ReconnectCancelled => s.phase.AwaitingReconnect?
    case ServerReceives => s.toServer != []
    case ServerRefuses => s.toServer != []
    case ClientReceivesAck => s.toClient != []
    case LoseRequest(at) => at < |s.toServer|
    case LoseAck(at) => at < |s.toClient|
    case DuplicateRequest(at) => at < |s.toServer| && env.duplicatesRequests
    case DuplicateAck(at) => at < |s.toClient| && env.duplicatesAcks
    case ConnectionLost => s.up
    case ConnectionEstablished => !s.up
  }

  /** The transmissions of the connection; a repeated send is not transmitted anew. */
  function Transmitted(s: State, send: nat): (t: seq<nat>)
    ensures t != [] && t[|t| - 1] == send
  {
    if s.transmitted != [] && s.transmitted[|s.transmitted| - 1] == send then s.transmitted
    else s.transmitted + [send]
  }

  /** One try: put a request on the wire and wait. */
  function Transmit(s: State, attempt: nat, send: nat): State {
    var transmitted := Transmitted(s, send);
    s.(phase := Waiting(attempt, send, s.sequenceNumber),
       toServer := s.toServer + [Request(s.sequenceNumber, send, |transmitted| - 1)],
       transmitted := transmitted)
  }

  /** send_cemi ends: the finally clause increments the counter. */
  function Finish(s: State): State {
    s.(phase := Idle, sequenceNumber := NextCounter(s.sequenceNumber))
  }

  /** The transport is stopped: what was in flight belongs to no connection any more. */
  function Close(s: State): State {
    s.(up := false, toServer := [], toClient := [], transmitted := [], delivered := [],
       deliveredBefore := s.deliveredBefore + s.delivered)
  }

  /**
   A try was not acknowledged. Without a connection the second try raises, or fails on the
   closed transport like an unacknowledged one. A second failure waits for a reconnect, or
   closes the tunnel and raises when auto_reconnect is off. A third failure raises.
   */
  function TryFailed(s: State, raises: bool): State
    requires s.phase.Waiting?
  {
    if s.phase.attempt == 1 && s.up then Transmit(s, 2, s.phase.send)
    else if s.phase.attempt >= 3 then Finish(s)
    else if raises then Finish(Close(s))
    else s.(phase := AwaitingReconnect(s.phase.send, false))
  }

  function Step(s: State, e: Event): State
    requires Enabled(Environment(true, true, true), s, e)
  {
    match e
    case StartSend => Transmit(s, 1, s.sends).(sends := s.sends + 1)
    case SendWithoutConnection => Finish(s).(sends := s.sends + 1)
    case Timeout(raises) => TryFailed(s, raises)
    case ThirdTry => if s.up then Transmit(s, 3, s.phase.resend) else Finish(s)
    case ReconnectCancelled => Finish(Close(s))
    case ServerReceives =>
      var r := s.toServer[0];
      var rest := s.(toServer := s.toServer[1..]);
      (match Receive(s.expected, r.counter)
       case Deliver => rest.(expected := NextCounter(s.expected), delivered := s.delivered + [r.send],
                             toClient := s.toClient + [Ack(r.counter, true, r.at)])
       case AcknowledgeAgain => rest.(toClient := s.toClient + [Ack(r.counter, true, r.at)])
       case Drop => rest)
    case ServerRefuses =>
      var r := s.toServer[0];
      s.(toServer := s.toServer[1..], toClient := s.toClient + [Ack(r.counter, false, r.at)])
    case ClientReceivesAck =>
      var rest := s.(toClient := s.toClient[1..]);
      // any TunnellingAck ends the try: neither its channel nor its counter is compared
      if !s.phase.Waiting? then rest
      else if !s.toClient[0].noError then TryFailed(rest, false)
      else Finish(rest).(returned := s.returned + {s.phase.send})
    case LoseRequest(at) => s.(toServer := Remove(s.toServer, at))
    case LoseAck(at) => s.(toClient := Remove(s.toClient, at))
    case DuplicateRequest(at) => s.(toServer := Double(s.toServer, at))
    case DuplicateAck(at) => s.(toClient := Double(s.toClient, at))
    case ConnectionLost => Close(s)
    case ConnectionEstablished =>
      s.(up := true, expected := 0, sequenceNumber := 0,
         phase := if s.phase.AwaitingReconnect? then s.phase.(reconnected := true) else s.phase)
  }

  predicate Legal(env: Environment, s: State, run: seq<Event>)
    decreases |run|
  {
    run == [] || (Enabled(env, s, run[0]) && Legal(env, Step(s, run[0]), run[1..]))
  }

  function Exec(env: Environment, s: State, run: seq<Event>): State
    requires Legal(env, s, run)
    decreases |run|
  {
    if run == [] then s else Exec(env, Step(s, run[0]), run[1..])
  }

  // ------------------------------------------------------------- what is promised

  predicate Ascending(s: seq<nat>) {
    forall i, j :: 0 <= i < j < |s| ==> s[i] <= s[j]
  }

  predicate StrictlyAscending(s: seq<nat>) {
    forall i, j :: 0 <= i < j < |s| ==> s[i] < s[j]
  }

  /**
   On the connection the delivered payloads are a prefix of the transmitted ones, each
   transmitted once; over all connections nothing is delivered out of order; and every send
   that returned was delivered.
   */
  ghost predicate Correct(s: State) {
    && s.delivered <= s.transmitted
    && StrictlyAscending(s.transmitted)
    && Ascending(s.deliveredBefore + s.delivered)
    && forall i :: i in s.returned ==> i in s.deliveredBefore + s.delivered
  }

  /** The acknowledgement about to end a try carries the counter of the outstanding request. */
  predicate AckMatches(s: State, e: Event) {
    e.ClientReceivesAck? && s.toClient != [] && s.phase.Waiting? && s.toClient[0].noError ==>
      s.toClient[0].counter == s.phase.counter
  }

  predicate AllAcksMatch(env: Environment, s: State, run: seq<Event>)
    requires Legal(env, s, run)
    decreases |run|
  {
    run == [] || (AckMatches(s, run[0]) && AllAcksMatch(env, Step(s, run[0]), run[1..]))
  }
}
