/**
 A point-to-point management connection: P2PConnection with the part of Management that
 registers it, acknowledges and dispatches. One event is one piece of code between two awaits.
 One request at a time is assumed. Runs start when connect() has returned the connection;
 before that nobody holds it and nothing is dispatched to it.
 */
module ManagementConnection {
  import opened Bytes
  import opened TransportControl

  /** The future in _ack_waiter. */
  datatype AckWaiter = NoWaiter | AckPending | Acked(tpci: Tpci) | AckCancelled

  /** The future in _response_waiter. */
  datatype ResponseWaiter = ResponsePending | Answered(tpci: Tpci) | Refused | ResponseCancelled

  /** Where a caller of request() stands; `number` is the sequence number of its telegram. */
  datatype Caller =
    | Idle
      /** The sleep of the rate limit. */
    | Pausing
    | Sending(attempt: nat, number: nat)
    | AwaitingAck(attempt: nat, number: nat)
    | AckTimedOut(attempt: nat, number: nat)
    | Receiving
    | ResponseTimedOut

  /** A telegram handed to the CEMI handler: the send it belongs to, its number, and which try it is. */
  datatype Transmission = Transmission(send: nat, number: nat, attempt: nat)

  datatype Connection = Connection(
    connected: bool,
    /** A disconnect() that awaits the sending of its TDisconnect. */
    disconnecting: bool,
    /** Not among the management's connections. */
    closed: bool,
    generator: nat,
    expected: nat,
    ack: AckWaiter,
    response: ResponseWaiter,
    caller: Caller,
    /**
     Histories: sends begun, telegrams transmitted, responses accepted, sends acknowledged and
     returned, TAcks sent.
     */
    sends: nat,
    transmissions: seq<Transmission>,
    accepted: seq<Tpci>,
    acknowledged: set<nat>,
    returned: set<nat>,
    acksSent: seq<nat>)

  function Init(): Connection {
    Connection(true, false, false, 0, 0, NoWaiter, ResponsePending, Idle, 0, [], [], {}, {}, [])
  }

  datatype Event =
    | RequestPauses
    | PauseEnds
    | RequestBegins
    | SendConfirmed
    | SendFails
    | AckHandled
    | AckTimeout
    | AckTimeoutHandled
    | ResponseHandled
    | ResponseTimeout
    | ResponseTimeoutHandled
    | Process(tpci: Tpci)
    | DisconnectBegins
    | DisconnectEnds
      /** disconnect() of a connection that is lost already: it is removed, and the call raises. */
    | DisconnectRefused

  predicate Enabled(c: Connection, e: Event) {
    match e
    case RequestPauses => c.caller.Idle? && c.connected
    case PauseEnds => c.caller.Pausing?
    case RequestBegins => c.caller.Idle? && c.connected
    case SendConfirmed => c.caller.Sending?
    case SendFails => c.caller.Sending?
    case AckHandled => c.caller.AwaitingAck? && (c.ack.Acked? || c.ack.AckCancelled?)
    case AckTimeout => c.caller.AwaitingAck?
    case AckTimeoutHandled => c.caller.AckTimedOut?
    case ResponseHandled => c.caller.Receiving? && !c.response.ResponsePending?
    case ResponseTimeout => c.caller.Receiving?
    case ResponseTimeoutHandled => c.caller.ResponseTimedOut?
    case Process(_) => !c.closed
    case DisconnectBegins => c.connected
    case DisconnectEnds => c.disconnecting
    case DisconnectRefused => !c.connected
  }

  function NextNumber(n: nat): nat {
    (n + 1) % 16
  }

  /** _send_data up to the first await. */
  function BeginSend(c: Connection): Connection {
    c.(ack := AckPending, generator := NextNumber(c.generator), sends := c.sends + 1,
       transmissions := c.transmissions + [Transmission(c.sends, c.generator, 1)], caller := Sending(1, c.generator))
  }

  /** _send_data from the awaited ack on: a TNak or another number raises. */
  function HandleAck(c: Connection): Connection
    requires c.caller.AwaitingAck? && c.sends > 0
  {
    var good := c.ack.Acked? && c.ack.tpci.TAck? && c.ack.tpci.number == c.caller.number;
    c.(ack := NoWaiter, caller := if good then Receiving else Idle,
       returned := if good then c.returned + {c.sends - 1} else c.returned)
  }

  /** The one repeat after the first timeout; the second timeout raises. */
  function HandleAckTimeout(c: Connection): Connection
    requires c.caller.AckTimedOut? && c.sends > 0
  {
    if c.caller.attempt == 1 then
      c.(ack := AckPending, caller := Sending(2, c.caller.number),
         transmissions := c.transmissions + [Transmission(c.sends - 1, c.caller.number, 2)])
    else c.(ack := NoWaiter, caller := Idle)
  }

  datatype Processing = Processed | InvalidState

  /** P2PConnection.process: the new state, and whether setting a future that is done raised. */
  function ProcessTelegram(c: Connection, t: Tpci): (Connection, Processing) {
    if t.TDisconnect? then
      var lost := c.(connected := false);
      if !c.ack.NoWaiter? && !c.response.ResponsePending? then (lost, InvalidState)
      else (if c.response.ResponsePending? then lost.(response := Refused) else lost, Processed)
    else if t.TAck? || t.TNak? then
      if c.ack.NoWaiter? then (c, Processed)
      else if !c.ack.AckPending? then (c, InvalidState)
      else
        (c.(ack := Acked(t),
            acknowledged := if c.sends > 0 && t == TAck((c.sends - 1) % 16) then c.acknowledged + {c.sends - 1} else c.acknowledged),
         Processed)
    else if !c.response.ResponsePending? || t.SequenceNumber() != c.expected then (c, Processed)
    else (c.(response := Answered(t), expected := NextNumber(c.expected), accepted := c.accepted + [t]), Processed)
  }

  /** Management.process acknowledges numbered data before anything else. */
  function Acknowledge(c: Connection, t: Tpci): Connection {
    if t.TDataConnected? then c.(acksSent := c.acksSent + [t.number]) else c
  }

  /** The end of disconnect(): both waiters are cancelled and the connection is removed. */
  function Close(c: Connection): Connection {
    c.(closed := true, disconnecting := false,
       ack := if c.ack.AckPending? then AckCancelled else c.ack,
       response := if c.response.ResponsePending? then ResponseCancelled else c.response)
  }

  function Step(c: Connection, e: Event): Connection
    requires Enabled(c, e) && (c.caller.AwaitingAck? || c.caller.AckTimedOut? ==> c.sends > 0)
  {
    match e
    case RequestPauses => c.(caller := Pausing)
    case PauseEnds => if c.connected then BeginSend(c) else c.(caller := Idle)
    case RequestBegins => BeginSend(c)
    case SendConfirmed => c.(caller := AwaitingAck(c.caller.attempt, c.caller.number))
    case SendFails => c.(ack := NoWaiter, caller := Idle)
    case AckHandled => HandleAck(c)
    case AckTimeout =>
      c.(ack := if c.ack.AckPending? then AckCancelled else c.ack, caller := AckTimedOut(c.caller.attempt, c.caller.number))
    case AckTimeoutHandled => HandleAckTimeout(c)
    case ResponseHandled => c.(response := ResponsePending, caller := Idle)
    case ResponseTimeout =>
      c.(response := if c.response.ResponsePending? then ResponseCancelled else c.response, caller := ResponseTimedOut)
    case ResponseTimeoutHandled => c.(response := ResponsePending, caller := Idle)
    case Process(t) => ProcessTelegram(Acknowledge(c, t), t).0
    case DisconnectBegins => c.(connected := false, disconnecting := true)
    case DisconnectEnds => Close(c)
    case DisconnectRefused => c.(closed := true)
  }

  // ------------------------------------------------------------------- invariants

  /** The current send, its number, and the ack it may return on. */
  predicate SendsNumbered(c: Connection) {
    && c.generator == c.sends % 16
    && (c.caller.Sending? || c.caller.AwaitingAck? || c.caller.AckTimedOut? ==>
          c.sends > 0 && c.caller.number == (c.sends - 1) % 16 && 1 <= c.caller.attempt <= 2 && !c.ack.NoWaiter?)
    && (c.ack.Acked? && c.ack.tpci.TAck? ==>
          c.sends > 0 && (c.ack.tpci.number == (c.sends - 1) % 16 ==> c.sends - 1 in c.acknowledged))
    && (!c.ack.NoWaiter? ==> c.sends > 0)
    && c.returned <= c.acknowledged
    && forall k :: k in c.acknowledged ==> k < c.sends
  }

  predicate WellNumbered(t: Transmission) {
    t.number == t.send % 16 && 1 <= t.attempt <= 2
  }

  /** After a telegram comes its one repeat or the next send. */
  predicate Follows(t: Transmission, u: Transmission) {
    (u.send == t.send && t.attempt == 1 && u.attempt == 2) || (u.send == t.send + 1 && u.attempt == 1)
  }

  /** The transmissions are the sends in order, each once or, repeated, twice. */
  predicate InOrder(ts: seq<Transmission>) {
    && (forall i :: 0 <= i < |ts| ==> WellNumbered(ts[i]))
    && (forall i :: 0 <= i < |ts| - 1 ==> Follows(ts[i], ts[i + 1]))
    && (ts != [] ==> ts[0] == Transmission(0, 0, 1))
  }

  lemma InOrderAppend(ts: seq<Transmission>, t: Transmission)
    requires InOrder(ts) && WellNumbered(t)
    requires if ts == [] then t == Transmission(0, 0, 1) else Follows(ts[|ts| - 1], t)
    ensures InOrder(ts + [t])
  {
  }

  predicate TransmissionsInOrder(c: Connection) {
    && InOrder(c.transmissions)
    && (c.sends > 0 <==> c.transmissions != [])
    && (c.sends > 0 ==>
          var last := c.transmissions[|c.transmissions| - 1];
          && last.send == c.sends - 1
          && (c.caller.Sending? || c.caller.AwaitingAck? || c.caller.AckTimedOut? ==> last.attempt == c.caller.attempt))
  }

  predicate ResponsesNumbered(c: Connection) {
    && c.expected == |c.accepted| % 16
    && forall i :: 0 <= i < |c.accepted| ==> c.accepted[i].SequenceNumber() == i % 16
  }

  predicate Invariant(c: Connection) {
    SendsNumbered(c) && TransmissionsInOrder(c) && ResponsesNumbered(c)
  }

  lemma NextIsModulo(n: nat)
    ensures NextNumber(n % 16) == (n + 1) % 16
  {
  }

  lemma StepKeepsSends(c: Connection, e: Event)
    requires SendsNumbered(c) && Enabled(c, e)
    ensures SendsNumbered(Step(c, e))
  {
    NextIsModulo(c.sends);
  }

  lemma StepKeepsTransmissions(c: Connection, e: Event)
    requires SendsNumbered(c) && TransmissionsInOrder(c) && Enabled(c, e)
    ensures TransmissionsInOrder(Step(c, e))
  {
    if e.RequestBegins? || (e.PauseEnds? && c.connected) {
      InOrderAppend(c.transmissions, Transmission(c.sends, c.generator, 1));
    } else if e.AckTimeoutHandled? {
      if c.caller.attempt == 1 {
        InOrderAppend(c.transmissions, Transmission(c.sends - 1, c.caller.number, 2));
      }
    } else {
      assert Step(c, e).transmissions == c.transmissions && Step(c, e).sends == c.sends;
    }
  }

  lemma StepKeepsResponses(c: Connection, e: Event)
    requires SendsNumbered(c) && ResponsesNumbered(c) && Enabled(c, e)
    ensures ResponsesNumbered(Step(c, e))
  {
    NextIsModulo(|c.accepted|);
  }

  predicate Legal(c: Connection, run: seq<Event>)
    requires SendsNumbered(c)
    decreases |run|
  {
    run == [] || (Enabled(c, run[0]) && (StepKeepsSends(c, run[0]); Legal(Step(c, run[0]), run[1..])))
  }

  function Exec(c: Connection, run: seq<Event>): (r: Connection)
    requires SendsNumbered(c) && Legal(c, run)
    ensures SendsNumbered(r)
    decreases |run|
  {
    if run == [] then c else (StepKeepsSends(c, run[0]); Exec(Step(c, run[0]), run[1..]))
  }

  lemma {:induction false} RunKeeps(c: Connection, run: seq<Event>)
    requires Invariant(c) && Legal(c, run)
    ensures Invariant(Exec(c, run))
    decreases |run|
  {
    if run != [] {
      StepKeepsSends(c, run[0]);
      StepKeepsTransmissions(c, run[0]);
      StepKeepsResponses(c, run[0]);
      RunKeeps(Step(c, run[0]), run[1..]);
    }
  }

  // ----------------------------------------------------------------- main results

  /**
   On every run the k-th accepted response carries number k mod 16, so equal numbers are at
   least 16 responses apart: a repeated response is not accepted before the wrap.
   */
  lemma AcceptedInSequence(run: seq<Event>, i: nat, j: nat)
    requires Legal(Init(), run)
    requires i <= j < |Exec(Init(), run).accepted|
    ensures var accepted := Exec(Init(), run).accepted;
            && accepted[j].SequenceNumber() == j % 16
            && (accepted[i].SequenceNumber() == accepted[j].SequenceNumber() && i != j ==> j - i >= 16)
  {
    RunKeeps(Init(), run);
  }

  /**
   On every run the k-th send uses k mod 16 in its one or two transmissions, in order, and returns
   only once a TAck with that number came for it.
   */
  lemma SendsInSequence(run: seq<Event>)
    requires Legal(Init(), run)
    ensures var c := Exec(Init(), run);
            && InOrder(c.transmissions)
            && (c.transmissions != [] ==> c.transmissions[|c.transmissions| - 1].send == c.sends - 1)
            && c.returned <= c.acknowledged
  {
    RunKeeps(Init(), run);
  }

  lemma StepRecordsAck(c: Connection, e: Event, k: nat)
    requires Enabled(c, e) && (c.caller.AwaitingAck? || c.caller.AckTimedOut? ==> c.sends > 0)
    ensures k in Step(c, e).acknowledged && k !in c.acknowledged <==>
              k !in c.acknowledged && k + 1 == c.sends && c.ack.AckPending? && e == Process(TAck(k % 16))
  {
  }

  /** An ack is recorded for a send exactly when a TAck with the send's number reaches its waiting future. */
  lemma AcknowledgedMeans(run: seq<Event>, e: Event, k: nat)
    requires Legal(Init(), run) && Enabled(Exec(Init(), run), e)
    ensures var c := Exec(Init(), run);
            k in Step(c, e).acknowledged && k !in c.acknowledged <==>
              k !in c.acknowledged && k + 1 == c.sends && c.ack.AckPending? && e == Process(TAck(k % 16))
  {
    StepRecordsAck(Exec(Init(), run), e, k);
  }

  /** Two transmissions apart is another send. */
  lemma {:induction false} AtMostOneRepeat(ts: seq<Transmission>, i: nat, j: nat)
    requires InOrder(ts) && i < j < |ts|
    ensures ts[i].send <= ts[j].send && (ts[i].send == ts[j].send ==> j == i + 1 && ts[j].number == ts[i].number)
    decreases j
  {
    assert Follows(ts[j - 1], ts[(j - 1) + 1]);
    assert WellNumbered(ts[i]) && WellNumbered(ts[j]);
    if i < j - 1 {
      AtMostOneRepeat(ts, i, j - 1);
      assert Follows(ts[j - 2], ts[(j - 2) + 1]);
    }
  }

  lemma AcceptsUnnumberedIff(c: Connection, t: Tpci)
    requires c.expected == |c.accepted| % 16
    requires t.TDataIndividual? || t.TConnect? || t.TDataBroadcast?
    ensures ProcessTelegram(c, t).0.accepted == c.accepted + [t] <==> c.response.ResponsePending? && |c.accepted| % 16 == 0
  {
    assert c.accepted != c.accepted + [t] by {
      assert |c.accepted + [t]| == |c.accepted| + 1;
    }
  }

  /**
   Data without a number is taken for the awaited response exactly when number 0 is expected,
   although it carries none: every TPCI has the attribute sequence_number.
   */
  lemma UnnumberedAcceptedIff(run: seq<Event>, t: Tpci)
    requires Legal(Init(), run) && (t.TDataIndividual? || t.TConnect? || t.TDataBroadcast?)
    ensures var c := Exec(Init(), run);
            ProcessTelegram(c, t).0.accepted == c.accepted + [t] <==> c.response.ResponsePending? && |c.accepted| % 16 == 0
  {
    RunKeeps(Init(), run);
    AcceptsUnnumberedIff(Exec(Init(), run), t);
  }

  // ------------------------------------------------------- futures set twice

  /** The ack waiter as the events alone tell it: created, and used up by an ack, a timeout or the own disconnect. */
  datatype Waiting = Absent | Fresh(attempt: nat) | Used(attempt: nat)

  /**
   What the events alone tell: whether the connection is there, the ack waiter, whether the
   response waiter is done, and how many responses were accepted.
   */
  datatype Watched = Watched(connected: bool, ack: Waiting, responseDone: bool, accepted: nat)

  function WatchAck(connected: bool, w: Waiting, e: Event): Waiting {
    match e
    case RequestBegins => Fresh(1)
    case PauseEnds => if connected then Fresh(1) else w
    case SendFails => Absent
    case AckHandled => Absent
    case AckTimeoutHandled => if !w.Absent? && w.attempt == 1 then Fresh(2) else Absent
    case AckTimeout => if w.Fresh? then Used(w.attempt) else w
    case DisconnectEnds => if w.Fresh? then Used(w.attempt) else w
    case Process(t) => if w.Fresh? && (t.TAck? || t.TNak?) then Used(w.attempt) else w
    case _ => w
  }

  /** Data with the next number, or with none when that is 0, answers a waiter that is not done. */
  predicate Answers(w: Watched, e: Event) {
    && e.Process? && !w.responseDone && !e.tpci.TDisconnect? && !e.tpci.TAck? && !e.tpci.TNak?
    && e.tpci.SequenceNumber() == w.accepted % 16
  }

  function WatchResponse(w: Watched, e: Event): bool {
    match e
    case ResponseHandled => false
    case ResponseTimeoutHandled => false
    case ResponseTimeout => true
    case DisconnectEnds => true
    case Process(t) => w.responseDone || t.TDisconnect? || Answers(w, e)
    case _ => w.responseDone
  }

  function Watch(w: Watched, e: Event): Watched {
    Watched(w.connected && !e.DisconnectBegins? && e != Process(TDisconnect),
            WatchAck(w.connected, w.ack, e), WatchResponse(w, e), if Answers(w, e) then w.accepted + 1 else w.accepted)
  }

  const AT_FIRST := Watched(true, Absent, false, 0)

  function WatchAll(w: Watched, run: seq<Event>): Watched
    decreases |run|
  {
    if run == [] then w else WatchAll(Watch(w, run[0]), run[1..])
  }

  predicate Agree(c: Connection, w: Watched) {
    && c.connected == w.connected
    && (c.ack.NoWaiter? <==> w.ack.Absent?)
    && (c.ack.AckPending? <==> w.ack.Fresh?)
    && (!w.ack.Absent? ==> (c.caller.Sending? || c.caller.AwaitingAck? || c.caller.AckTimedOut?) && c.caller.attempt == w.ack.attempt)
    && (!c.response.ResponsePending? <==> w.responseDone)
    && c.expected == w.accepted % 16
  }

  lemma StepAgrees(c: Connection, w: Watched, e: Event)
    requires SendsNumbered(c) && Enabled(c, e) && Agree(c, w)
    ensures Agree(Step(c, e), Watch(w, e))
  {
    NextIsModulo(w.accepted);
  }

  lemma {:induction false} WatchAgrees(c: Connection, w: Watched, run: seq<Event>)
    requires SendsNumbered(c) && Legal(c, run) && Agree(c, w)
    ensures Agree(Exec(c, run), WatchAll(w, run))
    decreases |run|
  {
    if run != [] {
      StepKeepsSends(c, run[0]);
      StepAgrees(c, w, run[0]);
      WatchAgrees(Step(c, run[0]), Watch(w, run[0]), run[1..]);
    }
  }

  /**
   After every run, a TAck or TNak that is dispatched raises InvalidStateError exactly when the
   waiter of the current try has been used up by an earlier ack, a timeout or the own
   disconnect, and the caller has not yet gone on.
   */
  lemma SecondAckRaisesIff(run: seq<Event>, t: Tpci)
    requires Legal(Init(), run) && Enabled(Exec(Init(), run), Process(t)) && (t.TAck? || t.TNak?)
    ensures ProcessTelegram(Exec(Init(), run), t).1.InvalidState? <==> WatchAll(AT_FIRST, run).ack.Used?
    ensures WatchAll(AT_FIRST, run).ack.Used? ==> ProcessTelegram(Exec(Init(), run), t).0 == Exec(Init(), run)
  {
    WatchAgrees(Init(), AT_FIRST, run);
  }

  /**
   After every run, a TDisconnect that is dispatched raises InvalidStateError exactly when a
   telegram awaits its ack and the response waiter is done already: by a response that
   overtook the ack, an earlier TDisconnect or the own disconnect. The connection counts as
   lost either way. Nothing but acks and TDisconnects raises.
   */
  lemma DisconnectRaisesIff(run: seq<Event>, t: Tpci)
    requires Legal(Init(), run) && Enabled(Exec(Init(), run), Process(t)) && !t.TAck? && !t.TNak?
    ensures var w := WatchAll(AT_FIRST, run);
            ProcessTelegram(Exec(Init(), run), t).1.InvalidState? <==> t.TDisconnect? && !w.ack.Absent? && w.responseDone
    ensures t.TDisconnect? ==> !ProcessTelegram(Exec(Init(), run), t).0.connected
  {
    WatchAgrees(Init(), AT_FIRST, run);
  }

  /** A response that overtakes the ack of its request, and then a TDisconnect: it raises. */
  lemma DisconnectRaises() returns (run: seq<Event>)
    ensures Legal(Init(), run) && Enabled(Exec(Init(), run), Process(TDisconnect))
    ensures ProcessTelegram(Exec(Init(), run), TDisconnect).1.InvalidState?
  {
    run := [];
    run := ExecThen(run, RequestBegins);
    run := ExecThen(run, SendConfirmed);
    run := ExecThen(run, Process(TDataConnected(0)));
  }

  lemma ExecThen(run: seq<Event>, e: Event) returns (longer: seq<Event>)
    requires Legal(Init(), run) && Enabled(Exec(Init(), run), e)
    ensures Legal(Init(), longer) && Exec(Init(), longer) == Step(Exec(Init(), run), e)
  {
    ExecAppend(Init(), run, e);
    longer := run + [e];
  }

  lemma {:induction false} ExecAppend(c: Connection, run: seq<Event>, e: Event)
    requires SendsNumbered(c) && Legal(c, run) && Enabled(Exec(c, run), e)
    ensures Legal(c, run + [e]) && Exec(c, run + [e]) == Step(Exec(c, run), e)
    decreases |run|
  {
    if run == [] {
      assert [] + [e] == [e] && [e][1..] == [];
    } else {
      assert (run + [e])[1..] == run[1..] + [e];
      StepKeepsSends(c, run[0]);
      ExecAppend(Step(c, run[0]), run[1..], e);
    }
  }

  /** Two acks before the caller goes on: the second one raises. */
  lemma SecondAckRaises() returns (run: seq<Event>)
    ensures Legal(Init(), run) && Enabled(Exec(Init(), run), Process(TAck(0)))
    ensures ProcessTelegram(Exec(Init(), run), TAck(0)).1.InvalidState?
  {
    run := [];
    run := ExecThen(run, RequestBegins);
    run := ExecThen(run, Process(TAck(0)));
  }

  // ------------------------------------------------------------- after a disconnect

  /** A telegram's first try is on its way: its caller has not gone on yet. */
  predicate FirstTryOpen(c: Connection) {
    (c.caller.Sending? || c.caller.AwaitingAck? || c.caller.AckTimedOut?) && c.caller.attempt == 1
  }

  /**
   The connection once lost, on every run, the one step that transmits is the repeat of a first try
   that timed out.
   */
  lemma TransmitsWhenDisconnectedIff(run: seq<Event>, e: Event)
    requires Legal(Init(), run) && Enabled(Exec(Init(), run), e) && !Exec(Init(), run).connected
    ensures var c := Exec(Init(), run);
            Step(c, e).transmissions != c.transmissions <==> e.AckTimeoutHandled? && c.caller.attempt == 1
  {
    var c := Exec(Init(), run);
    if e.AckTimeoutHandled? && c.caller.attempt == 1 {
      assert |Step(c, e).transmissions| == |c.transmissions| + 1;
    }
  }

  /** Whatever happens after the loss, at most the repeat of an open first try is transmitted. */
  lemma {:induction false} AtMostTheRepeat(c: Connection, more: seq<Event>)
    requires SendsNumbered(c) && !c.connected && Legal(c, more)
    ensures var end := Exec(c, more);
            && !end.connected
            && (end.transmissions == c.transmissions ||
                (FirstTryOpen(c) && end.transmissions == c.transmissions + [Transmission(c.sends - 1, c.caller.number, 2)]))
    decreases |more|
  {
    if more != [] {
      StepKeepsSends(c, more[0]);
      AtMostTheRepeat(Step(c, more[0]), more[1..]);
    }
  }

  ghost predicate QuietForever(c: Connection)
    requires SendsNumbered(c)
  {
    forall more :: Legal(c, more) ==> Exec(c, more).transmissions == c.transmissions
  }

  lemma OpenTryRepeats(c: Connection) returns (more: seq<Event>)
    requires SendsNumbered(c) && FirstTryOpen(c)
    ensures Legal(c, more) && Exec(c, more).transmissions == c.transmissions + [Transmission(c.sends - 1, c.caller.number, 2)]
  {
    more := [];
    if Exec(c, more).caller.Sending? {
      ExecAppend(c, more, SendConfirmed);
      more := more + [SendConfirmed];
    }
    if Exec(c, more).caller.AwaitingAck? {
      ExecAppend(c, more, AckTimeout);
      more := more + [AckTimeout];
    }
    ExecAppend(c, more, AckTimeoutHandled);
    more := more + [AckTimeoutHandled];
  }

  /** In every reachable state without a connection: nothing is ever sent again exactly when no first try is open. */
  lemma QuietAfterDisconnectIff(run: seq<Event>)
    requires Legal(Init(), run) && !Exec(Init(), run).connected
    ensures QuietForever(Exec(Init(), run)) <==> !FirstTryOpen(Exec(Init(), run))
  {
    var c := Exec(Init(), run);
    if FirstTryOpen(c) {
      var more := OpenTryRepeats(c);
      assert |Exec(c, more).transmissions| == |c.transmissions| + 1;
    } else {
      forall more | Legal(c, more) ensures Exec(c, more).transmissions == c.transmissions {
        AtMostTheRepeat(c, more);
      }
    }
  }

  /** The peer's TDisconnect wakes only the response waiter: an unacknowledged telegram is still repeated. */
  lemma RepeatsAfterDisconnect() returns (run: seq<Event>)
    ensures Legal(Init(), run)
    ensures var c := Exec(Init(), run);
            !c.connected && c.transmissions == [Transmission(0, 0, 1), Transmission(0, 0, 2)]
  {
    run := [];
    run := ExecThen(run, RequestBegins);
    run := ExecThen(run, SendConfirmed);
    run := ExecThen(run, Process(TDisconnect));
    run := ExecThen(run, AckTimeout);
    run := ExecThen(run, AckTimeoutHandled);
  }

  // ------------------------------------------------------- acks, answers, ends

  /** The number of numbered data that is dispatched. */
  function NumberOf(e: Event): seq<nat> {
    if e.Process? && e.tpci.TDataConnected? then [e.tpci.number] else []
  }

  function NumbersOf(run: seq<Event>): seq<nat> {
    if run == [] then [] else NumberOf(run[0]) + NumbersOf(run[1..])
  }

  lemma StepAcknowledges(c: Connection, e: Event)
    requires SendsNumbered(c) && Enabled(c, e)
    ensures Step(c, e).acksSent == c.acksSent + NumberOf(e)
  {
    assert c.acksSent + [] == c.acksSent;
  }

  lemma {:induction false} AcksFollowNumbers(c: Connection, run: seq<Event>)
    requires SendsNumbered(c) && Legal(c, run)
    ensures Exec(c, run).acksSent == c.acksSent + NumbersOf(run)
    decreases |run|
  {
    if run == [] {
      assert c.acksSent + [] == c.acksSent;
    } else {
      StepKeepsSends(c, run[0]);
      StepAcknowledges(c, run[0]);
      AcksFollowNumbers(Step(c, run[0]), run[1..]);
      assert c.acksSent + NumberOf(run[0]) + NumbersOf(run[1..]) == c.acksSent + (NumberOf(run[0]) + NumbersOf(run[1..]));
    }
  }

  /**
   On every run exactly the numbered data that came is acknowledged, repeats included, with the
   numbers it came with.
   */
  lemma AcksEchoNumbers(run: seq<Event>)
    requires Legal(Init(), run)
    ensures Exec(Init(), run).acksSent == NumbersOf(run)
  {
    AcksFollowNumbers(Init(), run);
  }

  /**
   On every run a send returns exactly when a TAck with its number is handled; on anything else the
   caller is left idle.
   */
  lemma ReturnsIff(run: seq<Event>, e: Event, send: nat)
    requires Legal(Init(), run) && Enabled(Exec(Init(), run), e) && send !in Exec(Init(), run).returned
    ensures var c := Exec(Init(), run);
            && (send in Step(c, e).returned <==> e.AckHandled? && send + 1 == c.sends && c.ack == Acked(TAck(send % 16)))
            && (e.AckHandled? && send + 1 == c.sends ==>
                  && Step(c, e).ack.NoWaiter?
                  && Step(c, e).caller == if c.ack == Acked(TAck(send % 16)) then Receiving else Idle)
  {
  }

  /** A future that has its result keeps it until the caller takes it, whatever comes in between. */
  lemma ResultsStay(c: Connection, e: Event)
    requires SendsNumbered(c) && Enabled(c, e)
    ensures !c.response.ResponsePending? && !e.ResponseHandled? && !e.ResponseTimeoutHandled? ==> Step(c, e).response == c.response
    ensures c.ack.Acked? && !(e.AckHandled? || e.SendFails? || e.AckTimeoutHandled? || e.RequestBegins? || e.PauseEnds?) ==> Step(c, e).ack == c.ack
  {
  }

  /** A response is accepted only into a future that has no result yet, and then it is its result. */
  predicate Accepts(c: Connection, c': Connection) {
    || c'.accepted == c.accepted
    || (c.response.ResponsePending? && c'.response.Answered? && c'.accepted == c.accepted + [c'.response.tpci])
  }

  lemma StepAccepts(c: Connection, e: Event)
    requires SendsNumbered(c) && Enabled(c, e)
    ensures Accepts(c, Step(c, e))
    ensures Step(c, e).accepted == c.accepted && Step(c, e).response.Answered? ==> c.response == Step(c, e).response
  {
  }

  /** A future is given at most one response, and keeps it until the caller makes a new one. */
  lemma {:induction false} AnswerStays(c: Connection, run: seq<Event>)
    requires SendsNumbered(c) && Legal(c, run)
    requires forall i :: 0 <= i < |run| ==> !run[i].ResponseHandled? && !run[i].ResponseTimeoutHandled?
    ensures if !c.response.ResponsePending? then Exec(c, run).response == c.response && Exec(c, run).accepted == c.accepted
            else |Exec(c, run).accepted| <= |c.accepted| + 1 && (|Exec(c, run).accepted| > |c.accepted| ==> Exec(c, run).response.Answered?)
    decreases |run|
  {
    if run != [] {
      StepKeepsSends(c, run[0]);
      ResultsStay(c, run[0]);
      StepAccepts(c, run[0]);
      AnswerStays(Step(c, run[0]), run[1..]);
    }
  }

  predicate AnswerIsLast(c: Connection) {
    c.response.Answered? ==> c.accepted != [] && c.response.tpci == c.accepted[|c.accepted| - 1]
  }

  /** On every run the response that a request returns is the last that was accepted. */
  lemma {:induction false} AnswerIsAccepted(c: Connection, run: seq<Event>)
    requires SendsNumbered(c) && Legal(c, run) && AnswerIsLast(c)
    ensures AnswerIsLast(Exec(c, run))
    decreases |run|
  {
    if run != [] {
      StepKeepsSends(c, run[0]);
      StepAccepts(c, run[0]);
      AnswerIsAccepted(Step(c, run[0]), run[1..]);
    }
  }

  /** Whether such an event has come. */
  predicate Came(run: seq<Event>, which: Event -> bool) {
    exists i :: 0 <= i < |run| && which(run[i])
  }

  lemma CameThen(front: seq<Event>, e: Event, which: Event -> bool)
    ensures Came(front + [e], which) <==> Came(front, which) || which(e)
  {
    if Came(front, which) {
      var i :| 0 <= i < |front| && which(front[i]);
      assert (front + [e])[i] == front[i];
    }
    assert (front + [e])[|front|] == e;
  }

  predicate Disconnects(e: Event) {
    e.DisconnectBegins? || e == Process(TDisconnect)
  }

  predicate BeginsDisconnect(e: Event) {
    e.DisconnectBegins?
  }

  predicate EndsDisconnect(e: Event) {
    e.DisconnectEnds?
  }

  predicate Removes(e: Event) {
    e.DisconnectEnds? || e.DisconnectRefused?
  }

  lemma StepEnds(c: Connection, e: Event)
    requires SendsNumbered(c) && Enabled(c, e)
    ensures var c' := Step(c, e);
            && (c'.connected <==> c.connected && !Disconnects(e))
            && (c'.disconnecting <==> e.DisconnectBegins? || (c.disconnecting && !e.DisconnectEnds?))
            && (c'.closed <==> c.closed || Removes(e))
  {
  }

  /**
   On every run: the connection counts as lost once disconnect() was called or the peer's
   TDisconnect came, is being closed between the two halves of disconnect(), and is among the
   management's connections until the second half, or the call that is refused.
   */
  lemma {:induction false} ConnectionEndsIff(run: seq<Event>)
    requires Legal(Init(), run)
    ensures var c := Exec(Init(), run);
            && (c.connected <==> !Came(run, Disconnects))
            && (c.disconnecting <==> Came(run, BeginsDisconnect) && !Came(run, EndsDisconnect))
            && (c.closed <==> Came(run, Removes)) && (Came(run, EndsDisconnect) ==> Came(run, BeginsDisconnect))
    decreases |run|
  {
    if run != [] {
      var front, last := run[..|run| - 1], run[|run| - 1];
      ExecLast(Init(), run);
      ConnectionEndsIff(front);
      StepEnds(Exec(Init(), front), last);
      assert run == front + [last];
      CameThen(front, last, Disconnects);
      CameThen(front, last, Removes);
      CameThen(front, last, BeginsDisconnect);
      CameThen(front, last, EndsDisconnect);
      if Came(front, BeginsDisconnect) {
        var i :| 0 <= i < |front| && BeginsDisconnect(front[i]);
        assert Disconnects(front[i]);
      }
    }
  }

  lemma {:induction false} ExecLast(c: Connection, run: seq<Event>)
    requires SendsNumbered(c) && Legal(c, run) && run != []
    ensures Legal(c, run[..|run| - 1])
    ensures var before := Exec(c, run[..|run| - 1]); Enabled(before, run[|run| - 1]) && Exec(c, run) == Step(before, run[|run| - 1])
    decreases |run|
  {
    StepKeepsSends(c, run[0]);
    if |run| > 1 {
      ExecLast(Step(c, run[0]), run[1..]);
      assert run[1..][..|run| - 2] == run[..|run| - 1][1..];
    } else {
      assert run[..0] == [] && run[1..] == [];
    }
  }

  predicate Begins(e: Event) {
    e.RequestBegins? || e.RequestPauses?
  }

  /**
   On every run a request sends its telegram with the next number: at once, or when the sleep of
   the rate limit is over, unless the connection was lost meanwhile.
   */
  lemma RequestSends(run: seq<Event>, e: Event)
    requires Legal(Init(), run) && Enabled(Exec(Init(), run), e) && (Begins(e) || e.PauseEnds?)
    ensures var c, c' := Exec(Init(), run), Step(Exec(Init(), run), e);
            if e.RequestPauses? then c' == c.(caller := Pausing)
            else if e.RequestBegins? || !Came(run, Disconnects) then
              && c'.caller == Sending(1, c.sends % 16) && c'.ack.AckPending? && c'.sends == c.sends + 1
              && c'.transmissions == c.transmissions + [Transmission(c.sends, c.sends % 16, 1)]
            else c' == c.(caller := Idle)
  {
    ConnectionEndsIff(run);
  }

  /** What a request still takes: the steps between its awaits. */
  function Remaining(caller: Caller): nat {
    match caller
    case Idle => 0
    case ResponseTimedOut => 1
    case Receiving => 2
    case AckTimedOut(attempt, _) => if attempt == 1 then 6 else 3
    case AwaitingAck(attempt, _) => if attempt == 1 then 7 else 4
    case Sending(attempt, _) => if attempt == 1 then 8 else 5
    case Pausing => 9
  }

  predicate OfCaller(e: Event) {
    !e.Process? && !e.DisconnectBegins? && !e.DisconnectEnds? && !e.DisconnectRefused?
  }

  function CallerSteps(run: seq<Event>): nat {
    if run == [] then 0 else (if OfCaller(run[0]) then 1 else 0) + CallerSteps(run[1..])
  }

  lemma OthersLeaveCaller(c: Connection, e: Event)
    requires SendsNumbered(c) && Enabled(c, e) && !OfCaller(e)
    ensures Remaining(Step(c, e).caller) <= Remaining(c.caller) <= 9
  {
  }

  lemma CallerGoesOn(c: Connection, e: Event)
    requires SendsNumbered(c) && Enabled(c, e) && OfCaller(e) && !Begins(e)
    ensures 1 + Remaining(Step(c, e).caller) <= Remaining(c.caller) <= 9
  {
  }

  lemma StepRemains(c: Connection, e: Event)
    requires SendsNumbered(c) && Enabled(c, e) && !Begins(e)
    ensures (if OfCaller(e) then 1 else 0) + Remaining(Step(c, e).caller) <= Remaining(c.caller) <= 9
  {
    if OfCaller(e) {
      CallerGoesOn(c, e);
    } else {
      OthersLeaveCaller(c, e);
    }
  }

  /** Every request ends within nine steps of its own, by its result or by an exception, whatever else happens. */
  lemma {:induction false} RequestIsBounded(c: Connection, run: seq<Event>)
    requires SendsNumbered(c) && Legal(c, run) && !Came(run, Begins)
    ensures CallerSteps(run) + Remaining(Exec(c, run).caller) <= Remaining(c.caller) <= 9
    decreases |run|
  {
    if run != [] {
      assert !Begins(run[0]);
      forall i | 0 <= i < |run[1..]| ensures !Begins(run[1..][i]) {
        assert run[1..][i] == run[i + 1];
      }
      StepKeepsSends(c, run[0]);
      StepRemains(c, run[0]);
      RequestIsBounded(Step(c, run[0]), run[1..]);
    }
  }

  /** Until then it can always take a step: a confirmation or a timeout at the latest. */
  lemma RequestProgresses(c: Connection) returns (e: Event)
    requires SendsNumbered(c) && !c.caller.Idle?
    ensures OfCaller(e) && !Begins(e) && Enabled(c, e) && Remaining(Step(c, e).caller) < Remaining(c.caller)
  {
    match c.caller
    case Pausing => e := PauseEnds;
    case Sending(_, _) => e := SendConfirmed;
    case AwaitingAck(_, _) => e := AckTimeout;
    case AckTimedOut(_, _) => e := AckTimeoutHandled;
    case Receiving => e := ResponseTimeout;
    case ResponseTimedOut => e := ResponseTimeoutHandled;
  }

  // ------------------------------------------------------------------ the object

  class P2PConnection {
    var connected: bool
    /** A disconnect() that awaits the sending of its TDisconnect. */
    var disconnecting: bool
    /** Not among the management's connections. */
    var closed: bool
    /** The value the generator yields next. */
    var sequenceNumber: nat
    var expectedSequenceNumber: nat
    var ackWaiter: AckWaiter
    var responseWaiter: ResponseWaiter
    /** The caller of request(). */
    var caller: Caller
    /** Histories, which the original does not keep. */
    var sends: nat
    var transmissions: seq<Transmission>
    var accepted: seq<Tpci>
    var acknowledged: set<nat>
    var returned: set<nat>
    var acksSent: seq<nat>

    function View(): Connection
      reads this
    {
      Connection(connected, disconnecting, closed, sequenceNumber, expectedSequenceNumber, ackWaiter, responseWaiter, caller, sends,
                 transmissions, accepted, acknowledged, returned, acksSent)
    }

    constructor ()
      ensures View() == Init().(connected := false, closed := true)
    {
      connected, disconnecting, closed, sequenceNumber, expectedSequenceNumber := false, false, true, 0, 0;
      ackWaiter, responseWaiter, caller := NoWaiter, ResponsePending, Idle;
      sends, transmissions, accepted, acknowledged, returned, acksSent := 0, [], [], {}, {}, [];
    }

    /** Management.connect with a new connection: registered once the TConnect is confirmed. */
    method Connect(confirmed: bool) returns (raised: bool)
      requires View() == Init().(connected := false, closed := true)
      modifies this
      ensures raised <==> !confirmed
      ensures View() == if confirmed then Init() else old(View()).(response := ResponseCancelled)
    {
      if !confirmed {
        responseWaiter := ResponseCancelled;
        return true;
      }
      connected := true;
      closed := false;
      return false;
    }

    /** disconnect() up to its await; a connection that is lost already is only removed. */
    method BeginDisconnect() returns (refused: bool)
      modifies this
      ensures refused <==> !old(connected)
      ensures View() == if refused then old(View()).(closed := true) else old(View()).(connected := false, disconnecting := true)
    {
      if !connected {
        closed := true;
        return true;
      }
      connected, disconnecting := false, true;
      return false;
    }

    /** The finally clause of disconnect(), whether or not the TDisconnect could be sent. */
    method EndDisconnect()
      requires disconnecting
      modifies this
      ensures View() == Close(old(View()))
    {
      if ackWaiter.AckPending? {
        ackWaiter := AckCancelled;
      }
      if responseWaiter.ResponsePending? {
        responseWaiter := ResponseCancelled;
      }
      closed, disconnecting := true, false;
    }

    method ProcessIncoming(t: Tpci) returns (r: Processing)
      modifies this
      ensures (View(), r) == ProcessTelegram(old(View()), t)
    {
      if t.TDisconnect? {
        connected := false;
        if !ackWaiter.NoWaiter? {
          if !responseWaiter.ResponsePending? {
            return InvalidState;
          }
          responseWaiter := Refused;
        }
        if responseWaiter.ResponsePending? {
          responseWaiter := Refused;
        }
        return Processed;
      }
      if t.TAck? || t.TNak? {
        if ackWaiter.NoWaiter? {
          return Processed;
        }
        if !ackWaiter.AckPending? {
          return InvalidState;
        }
        ackWaiter := Acked(t);
        if sends > 0 && t == TAck((sends - 1) % 16) {
          acknowledged := acknowledged + {sends - 1};
        }
        return Processed;
      }
      if !responseWaiter.ResponsePending? {
        return Processed;
      }
      if t.SequenceNumber() != expectedSequenceNumber {
        return Processed;
      }
      responseWaiter := Answered(t);
      accepted := accepted + [t];
      expectedSequenceNumber := (expectedSequenceNumber + 1) % 16;
      return Processed;
    }

    /** Management.process for a telegram of the peer. */
    method ManagementProcess(t: Tpci) returns (r: Processing)
      requires !closed
      modifies this
      ensures (View(), r) == ProcessTelegram(Acknowledge(old(View()), t), t)
    {
      if t.TDataConnected? {
        acksSent := acksSent + [t.number];
      }
      r := ProcessIncoming(t);
    }

    /** request() up to _send_data or the sleep of the rate limit; without a connection it raises. */
    method BeginRequest(pause: bool) returns (refused: bool)
      requires caller.Idle?
      modifies this
      ensures refused <==> !old(connected)
      ensures View() == if refused then old(View()) else if pause then old(View()).(caller := Pausing) else BeginSend(old(View()))
    {
      if !connected {
        return true;
      }
      if pause {
        caller := Pausing;
        return false;
      }
      refused := SendData();
    }

    /** _send_data up to the first await; a connection lost during the sleep of request() makes it raise. */
    method SendData() returns (refused: bool)
      requires caller.Idle? || caller.Pausing?
      modifies this
      ensures refused <==> !old(connected)
      ensures View() == if refused then old(View()).(caller := Idle) else BeginSend(old(View()))
    {
      if !connected {
        caller := Idle;
        return true;
      }
      ackWaiter := AckPending;
      var number := sequenceNumber;
      sequenceNumber := (sequenceNumber + 1) % 16;
      transmissions := transmissions + [Transmission(sends, number, 1)];
      sends := sends + 1;
      caller := Sending(1, number);
      return false;
    }

    /** _send_data after the timeout of an ack. */
    method AfterAckTimeout()
      requires caller.AckTimedOut? && sends > 0
      modifies this
      ensures View() == HandleAckTimeout(old(View()))
    {
      if caller.attempt == 1 {
        ackWaiter := AckPending;
        transmissions := transmissions + [Transmission(sends - 1, caller.number, 2)];
        caller := Sending(2, caller.number);
        return;
      }
      ackWaiter := NoWaiter;
      caller := Idle;
    }

    /** _send_data after its ack; the checks are those after the finally clause. */
    method AfterAck()
      requires caller.AwaitingAck? && sends > 0 && (ackWaiter.Acked? || ackWaiter.AckCancelled?)
      modifies this
      ensures View() == HandleAck(old(View()))
    {
      var ack := ackWaiter;
      ackWaiter := NoWaiter;
      var number := caller.number;
      caller := Idle;
      if ack.AckCancelled? || !ack.tpci.TAck? {
        return;
      }
      if ack.tpci.number != number {
        return;
      }
      returned := returned + {sends - 1};
      caller := Receiving;
    }

    /** _receive after its await, however that ended. */
    method AfterReceive() returns (telegram: Option<Tpci>)
      requires (caller.Receiving? && !responseWaiter.ResponsePending?) || caller.ResponseTimedOut?
      modifies this
      ensures View() == old(View()).(response := ResponsePending, caller := Idle)
      ensures telegram == if old(caller).Receiving? && old(responseWaiter).Answered? then Some(old(responseWaiter).tpci) else None
    {
      telegram := if caller.Receiving? && responseWaiter.Answered? then Some(responseWaiter.tpci) else None;
      responseWaiter := ResponsePending;
      caller := Idle;
    }
  }
}
