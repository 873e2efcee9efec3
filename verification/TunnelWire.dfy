/**
 send_cemi of a UDP tunnel with its reconnects, and the wire to the other endpoint: the requests
 that `TunnelSender` logs travel over the channels of `Tunnel` and are received as there. Every
 run of the two together is a run of the two-endpoint protocol, so its guarantees carry over.
 */
module TunnelWire {
  import opened Bytes
  import Tunnel
  import Safety = TunnelSafety
  import Environment = TunnelEnvironment
  import Tasks = TunnelTasks
  import opened TunnelSender

  datatype Wire = Wire(
    j: Joint,
    toServer: seq<Tunnel.Request>,
    toClient: seq<Tunnel.Ack>,
    expected: nat,
    /** Histories, as in Tunnel. */
    transmitted: seq<nat>,
    delivered: seq<nat>,
    deliveredBefore: seq<nat>,
    /** A send ended with its reconnect cancelled by a disconnect() that has yet to close the connection. */
    closing: bool)

  datatype WireEvent =
    | Client(event: JointEvent)
      /** No ack within a second. */
    | TimesOut
      /** The client takes the next ack off the wire. */
    | AckArrives
    | Network(step: Tunnel.Event)

  function StartWire(autoReconnect: bool): (w: Wire)
    ensures Invariant(w.j)
  {
    Wire(Start(autoReconnect), [], [], 0, [], [], [], false)
  }

  /** What the two endpoints and the channels between them hold; the sender's phase is in `j`. */
  function Ends(w: Wire): Tunnel.State {
    Tunnel.State(Tunnel.Idle, 0, 0, w.j.up, w.toServer, w.toClient, w.expected, w.transmitted, w.delivered, w.deliveredBefore, w.j.returned)
  }

  function OnWire(w: Wire, s: Tunnel.State): Wire {
    w.(toServer := s.toServer, toClient := s.toClient, expected := s.expected,
       transmitted := s.transmitted, delivered := s.delivered, deliveredBefore := s.deliveredBefore)
  }

  predicate OfNetwork(e: Tunnel.Event) {
    e.ServerReceives? || e.ServerRefuses? || e.LoseRequest? || e.LoseAck? || e.DuplicateRequest? || e.DuplicateAck?
  }

  predicate CanWire(env: Tunnel.Environment, w: Wire, e: WireEvent) {
    match e
    case Client(event) => Can(w.j, event) && !event.TryAcked? && !event.TryFails?
    case TimesOut => CanEndTry(w.j) && (env.late || (w.toServer == [] && w.toClient == []))
    case AckArrives => w.toClient != [] && (w.j.sender.Trying? ==> CanEndTry(w.j))
    case Network(step) => OfNetwork(step) && Tunnel.Enabled(env, Ends(w), step)
  }

  /** A request goes out. */
  function Sent(w: Wire, q: Request): Wire {
    var transmitted := Tunnel.Transmitted(Ends(w), q.send);
    w.(toServer := w.toServer + [Tunnel.Request(q.counter, q.send, |transmitted| - 1)], transmitted := transmitted)
  }

  /** The client has moved: what was in flight on a connection that is over is gone, and a request it logged is sent. */
  function Carried(w: Wire, j': Joint, established: bool): Wire {
    var kept := if established || !j'.up then OnWire(w, Tunnel.Close(Ends(w))).(expected := 0) else w;
    var sent := if j'.up && |j'.log| > |w.j.log| then Sent(kept, j'.log[|j'.log| - 1]) else kept;
    sent.(j := j', closing := j'.up && !established && (w.closing || (w.j.sender.AwaitingReconnect? && j'.sender.Free?)))
  }

  function NextWire(w: Wire, e: WireEvent): Wire
    requires SenderNamed(w.j) && CanWire(Tunnel.Environment(true, true, true), w, e)
  {
    match e
    case Client(event) => Carried(w, Next(w.j, event), event.OfTunnel? && Tasks.Establishes(event.event))
    case TimesOut => Carried(w, Next(w.j, TryFails), false)
    case AckArrives =>
      var rest := w.(toClient := w.toClient[1..]);
      if !w.j.sender.Trying? then rest
      else Carried(rest, Next(w.j, if w.toClient[0].noError then TryAcked else TryFails), false)
    case Network(step) => OnWire(w, Tunnel.Step(Ends(w), step))
  }

  /** The ack about to end a try carries the counter of the last request. */
  predicate Matches(w: Wire, e: WireEvent) {
    e.AckArrives? && w.j.sender.Trying? && w.toClient != [] && w.toClient[0].noError ==>
      w.j.log != [] && w.toClient[0].counter == w.j.log[|w.j.log| - 1].counter
  }

  lemma WireKeepsInvariant(env: Tunnel.Environment, w: Wire, e: WireEvent)
    requires Invariant(w.j) && CanWire(env, w, e)
    ensures Invariant(NextWire(w, e).j)
  {
    match e
    case Client(event) => StepKeeps(w.j, event);
    case TimesOut => StepKeeps(w.j, TryFails);
    case AckArrives =>
      if w.j.sender.Trying? {
        StepKeeps(w.j, if w.toClient[0].noError then TryAcked else TryFails);
      }
    case Network(_) =>
  }

  predicate LegalWire(env: Tunnel.Environment, w: Wire, run: seq<WireEvent>)
    requires Invariant(w.j)
    decreases |run|
  {
    run == [] || (CanWire(env, w, run[0]) && (WireKeepsInvariant(env, w, run[0]); LegalWire(env, NextWire(w, run[0]), run[1..])))
  }

  function ExecWire(env: Tunnel.Environment, w: Wire, run: seq<WireEvent>): (end: Wire)
    requires Invariant(w.j) && LegalWire(env, w, run)
    ensures Invariant(end.j)
    decreases |run|
  {
    if run == [] then w else (WireKeepsInvariant(env, w, run[0]); ExecWire(env, NextWire(w, run[0]), run[1..]))
  }

  predicate AllMatch(env: Tunnel.Environment, w: Wire, run: seq<WireEvent>)
    requires Invariant(w.j) && LegalWire(env, w, run)
    decreases |run|
  {
    run == [] || (Matches(w, run[0]) && (WireKeepsInvariant(env, w, run[0]); AllMatch(env, NextWire(w, run[0]), run[1..])))
  }

  /**
   A send begins while a disconnect() that cancelled the reconnect of the one before has yet to
   close the connection.
   */
  predicate Overtakes(w: Wire, e: WireEvent) {
    e == Client(SendBegins) && w.closing
  }

  predicate InTurn(env: Tunnel.Environment, w: Wire, run: seq<WireEvent>)
    requires Invariant(w.j) && LegalWire(env, w, run)
    decreases |run|
  {
    run == [] || (!Overtakes(w, run[0]) && (WireKeepsInvariant(env, w, run[0]); InTurn(env, NextWire(w, run[0]), run[1..])))
  }

  // ------------------------------------------------------------ runs of Tunnel

  /** A run of the two-endpoint protocol whose accepted acks match. */
  predicate Runs(env: Tunnel.Environment, s: Tunnel.State, events: seq<Tunnel.Event>, s': Tunnel.State) {
    Tunnel.Legal(env, s, events) && Tunnel.AllAcksMatch(env, s, events) && Tunnel.Exec(env, s, events) == s'
  }

  lemma {:induction false} RunsThen(env: Tunnel.Environment, s: Tunnel.State, events: seq<Tunnel.Event>, s': Tunnel.State, e: Tunnel.Event)
    requires Runs(env, s, events, s') && Tunnel.Enabled(env, s', e) && Tunnel.AckMatches(s', e)
    ensures Runs(env, s, events + [e], Tunnel.Step(s', e))
    decreases |events|
  {
    if events == [] {
      assert [] + [e] == [e] && [e][1..] == [];
    } else {
      assert (events + [e])[1..] == events[1..] + [e];
      RunsThen(env, Tunnel.Step(s, events[0]), events[1..], s', e);
    }
  }

  lemma {:induction false} RunsConcat(env: Tunnel.Environment, s: Tunnel.State, a: seq<Tunnel.Event>, s': Tunnel.State,
                                      b: seq<Tunnel.Event>, s'': Tunnel.State)
    requires Runs(env, s, a, s') && Runs(env, s', b, s'')
    ensures Runs(env, s, a + b, s'')
    decreases |a|
  {
    if a == [] {
      assert a + b == b;
    } else {
      assert (a + b)[1..] == a[1..] + b;
      RunsConcat(env, Tunnel.Step(s, a[0]), a[1..], s', b, s'');
    }
  }

  lemma Then(env: Tunnel.Environment, s: Tunnel.State, events: seq<Tunnel.Event>, s1: Tunnel.State, e: Tunnel.Event)
    returns (longer: seq<Tunnel.Event>, s': Tunnel.State)
    requires Runs(env, s, events, s1) && Tunnel.Enabled(env, s1, e) && Tunnel.AckMatches(s1, e)
    ensures Runs(env, s, longer, s') && s' == Tunnel.Step(s1, e)
  {
    RunsThen(env, s, events, s1, e);
    longer, s' := events + [e], Tunnel.Step(s1, e);
  }

  lemma Nowhere(env: Tunnel.Environment, s: Tunnel.State) returns (events: seq<Tunnel.Event>, s': Tunnel.State)
    ensures s' == s && Runs(env, s, events, s')
  {
    events, s' := [], s;
  }

  /** Nothing is in flight on the connection, and nothing has been. */
  predicate Blank(s: Tunnel.State) {
    s.toServer == [] && s.toClient == [] && s.transmitted == [] && s.delivered == []
  }

  predicate SameHistories(s: Tunnel.State, s': Tunnel.State) {
    s'.returned == s.returned && s'.deliveredBefore == s.deliveredBefore
  }

  lemma ClosedBlank(s: Tunnel.State)
    requires Blank(s)
    ensures Tunnel.Close(s) == s.(up := false)
  {
    assert s.deliveredBefore + [] == s.deliveredBefore;
  }

  /** A try with an old channel on a new transport is a try on a connection that loses it at once. */
  lemma StrayTry(env: Tunnel.Environment, s: Tunnel.State, e: Tunnel.Event) returns (events: seq<Tunnel.Event>, s': Tunnel.State)
    requires !s.up && Blank(s)
    requires
      || (e.StartSend? && s.phase.Idle?)
      || (e == Tunnel.Timeout(false) && s.phase.Waiting? && s.phase.attempt == 1)
      || (e.ThirdTry? && s.phase.AwaitingReconnect?)
    ensures Runs(env, s, events, s') && !s'.up && Blank(s') && SameHistories(s, s') && s'.phase.Waiting?
    ensures s'.sends == s.sends + (if e.StartSend? then 1 else 0)
    ensures s'.phase.attempt == (if e.StartSend? then 1 else if e.Timeout? then 2 else 3)
    ensures s'.phase.send == (if e.StartSend? then s.sends else if e.Timeout? then s.phase.send else s.phase.resend)
  {
    events, s' := Nowhere(env, s);
    events, s' := Then(env, s, events, s, Tunnel.ConnectionEstablished);
    events, s' := Then(env, s, events, s', e);
    assert |s'.toServer| == 1;
    events, s' := Then(env, s, events, s', Tunnel.LoseRequest(0));
    events, s' := Then(env, s, events, s', Tunnel.ConnectionLost);
    assert s.deliveredBefore + [] == s.deliveredBefore;
  }

  // ---------------------------------------------------------- the simulation

  predicate InPhase(w: Wire, s: Tunnel.State) {
    if w.closing then w.j.up && w.j.sender.Free? && s.phase.AwaitingReconnect? && s.sends == w.j.sends
    else
      match w.j.sender
      case Free => s.phase.Idle? && s.sends == w.j.sends
      case AwaitingReady(_) => s.phase.Idle? && s.sends + 1 == w.j.sends
      case Trying(n) =>
        && s.phase.Waiting? && s.phase.attempt == n && s.phase.send + 1 == w.j.sends == s.sends
        && (w.j.tried ==> w.j.log != [] && s.phase.counter == w.j.log[|w.j.log| - 1].counter)
      case AwaitingReconnect(_) => s.phase.AwaitingReconnect? && s.phase.resend + 1 == w.j.sends == s.sends
  }

  /** The endpoints and the channels are the same. */
  predicate SameEnds(w: Wire, s: Tunnel.State) {
    && s == Ends(w).(phase := s.phase, sequenceNumber := s.sequenceNumber, sends := s.sends, expected := s.expected)
    && (if s.up then s.expected == w.expected && (w.j.log == [] ==> Blank(s) && s.expected == 0) else Blank(s))
  }

  /** The joint state of sender and wire is this state of the two-endpoint protocol. */
  predicate Projects(w: Wire, s: Tunnel.State) {
    && SameEnds(w, s) && InPhase(w, s)
    && (w.j.up && !w.closing ==> s.sequenceNumber == w.j.tasks.sequenceNumber)
  }

  /** Where a routine of the sender leaves it; `attempt` is the try that it may have begun. */
  predicate Leaves(j: Joint, j': Joint, attempt: nat) {
    && j'.sends == j.sends && j'.returned == j.returned
    && match j'.sender
       case Free => !j'.up && j'.log == j.log
       case AwaitingReady(_) => false
       case AwaitingReconnect(_) => j'.up == j.up && j'.log == j.log && j'.tasks.sequenceNumber == j.tasks.sequenceNumber
       case Trying(n) =>
         && n == attempt && j'.up == j'.tried == j.up && j'.tasks.sequenceNumber == j.tasks.sequenceNumber
         && if j.up then Appends(j, j') else j'.log == j.log
  }

  predicate Appends(j: Joint, j': Joint) {
    |j'.log| == |j.log| + 1 && j'.log[|j.log|].send + 1 == j.sends && j'.log[|j.log|].counter == j.tasks.sequenceNumber
  }

  /** A connection that is up has its channel and its transport. */
  predicate Sound(j: Joint) {
    j.sends > 0 && Named(j.tasks) && (j.up ==> j.tasks.channel && j.tasks.transportOpen)
  }

  lemma TransmitLeaves(j: Joint, attempt: nat)
    requires Sound(j)
    ensures Leaves(j, Transmit(j, attempt), attempt)
  {
  }

  lemma GiveUpLeaves(j: Joint)
    requires Sound(j)
    ensures Leaves(j, GiveUp(j), 3)
  {
    if j.tasks.reconnectTask.None? {
      LossLeavesChannel(j.tasks);
    } else {
      TransmitLeaves(j, 3);
    }
  }

  lemma TryLeaves(j: Joint, attempt: nat)
    requires Sound(j) && attempt < 3
    ensures Leaves(j, Try(j, attempt), attempt)
    ensures j.up ==> Try(j, attempt).sender.Trying?
  {
    if j.tasks.channel && !j.tasks.transportOpen {
      GiveUpLeaves(j);
    } else {
      TransmitLeaves(j, attempt);
    }
  }

  /** A request of the current connection on the wire. */
  lemma CarriedRequest(w: Wire, s: Tunnel.State, j: Joint, j': Joint, attempt: nat)
    requires SameEnds(w, s) && !w.closing && s.up && s.sends == j.sends && s.sequenceNumber == j.tasks.sequenceNumber
    requires j.log == w.j.log && j.up && j.returned == w.j.returned && Leaves(j, j', attempt) && j'.sender.Trying?
    ensures j.sends > 0 && Projects(Carried(w, j', false), Tunnel.Transmit(s, attempt, j.sends - 1))
  {
    assert j'.log[|j'.log| - 1] == j'.log[|j.log|];
    assert Tunnel.Transmitted(Ends(w), j.sends - 1) == Tunnel.Transmitted(s, j.sends - 1);
  }

  /** Nothing is carried while the connection is not up, and nothing stays when it is lost. */
  lemma CarriedNothing(w: Wire, s: Tunnel.State, j': Joint, s': Tunnel.State)
    requires SameEnds(w, s) && !j'.up && !s'.up && Blank(s') && j'.returned == s'.returned
    requires s'.deliveredBefore == s.deliveredBefore + s.delivered
    ensures SameEnds(Carried(w, j', false), s') && !Carried(w, j', false).closing && Carried(w, j', false).j == j'
  {
  }

  lemma NothingDelivered(s: Tunnel.State)
    requires Blank(s)
    ensures s.deliveredBefore == s.deliveredBefore + s.delivered
  {
  }

  /** The first try, or the end of a send that cannot begin one. */
  lemma SendStarts(env: Tunnel.Environment, w: Wire, s: Tunnel.State, j: Joint, j': Joint)
    returns (events: seq<Tunnel.Event>, s': Tunnel.State)
    requires SameEnds(w, s) && !w.closing && !w.j.sender.AwaitingReconnect? && s.phase.Idle? && s.sends + 1 == j.sends
    requires j.log == w.j.log && j.up == w.j.up && j.returned == w.j.returned && (j.up ==> s.sequenceNumber == j.tasks.sequenceNumber)
    requires Leaves(j, j', 1) && (j.up ==> j'.sender.Trying?)
    ensures Runs(env, s, events, s') && Projects(Carried(w, j', false), s')
  {
    events, s' := Nowhere(env, s);
    if j.up {
      events, s' := Then(env, s, events, s, Tunnel.StartSend);
      var begun := s.(sends := j.sends);
      CarriedRequest(w, begun, j, j', 1);
      assert Tunnel.Transmitted(begun, s.sends) == Tunnel.Transmitted(s, s.sends);
    } else {
      if j'.sender.Free? {
        events, s' := Then(env, s, events, s, Tunnel.SendWithoutConnection);
      } else {
        events, s' := StrayTry(env, s, Tunnel.StartSend);
        if j'.sender.AwaitingReconnect? {
          events, s' := Then(env, s, events, s', Tunnel.Timeout(false));
        }
      }
      NothingDelivered(s);
      CarriedNothing(w, s, j', s');
    }
  }

  /** The third try, on a connection on which nothing was sent before; or the end of the send. */
  lemma ThirdTryStarts(env: Tunnel.Environment, w: Wire, s: Tunnel.State, j: Joint, j': Joint)
    returns (events: seq<Tunnel.Event>, s': Tunnel.State)
    requires SameEnds(w, s) && !w.closing && s.phase.AwaitingReconnect? && s.phase.resend + 1 == j.sends == s.sends
    requires j.log == w.j.log && j.up == w.j.up && j.returned == w.j.returned
    requires j.up ==> j.log == [] && j.tasks.sequenceNumber == 0 && j'.sender.Trying?
    requires Leaves(j, j', 3) && !j'.sender.AwaitingReconnect?
    ensures Runs(env, s, events, s') && Projects(Carried(w, j', false), s')
  {
    events, s' := Nowhere(env, s);
    if j.up {
      ClosedBlank(s);
      events, s' := Then(env, s, events, s, Tunnel.ConnectionLost);
      events, s' := Then(env, s, events, s', Tunnel.ConnectionEstablished);
      var renewed := s';
      events, s' := Then(env, s, events, s', Tunnel.ThirdTry);
      CarriedRequest(w, renewed, j, j', 3);
    } else {
      if j'.sender.Free? {
        events, s' := Then(env, s, events, s, Tunnel.ReconnectCancelled);
        ClosedBlank(s);
      } else {
        events, s' := StrayTry(env, s, Tunnel.ThirdTry);
      }
      NothingDelivered(s);
      CarriedNothing(w, s, j', s');
    }
  }

  /** The event of Tunnel that fails the try: `s` is the state without the ack, if it was one. */
  predicate Fails(env: Tunnel.Environment, s0: Tunnel.State, e: Tunnel.Event, s: Tunnel.State) {
    && s.phase.Waiting? && Tunnel.Enabled(env, s0, e) && Tunnel.AckMatches(s0, e) && Tunnel.Step(s0, e) == Tunnel.TryFailed(s, false)
    && (!s.up ==> s0 == s && e == Tunnel.Timeout(false))
  }

  lemma FirstTryFails(env: Tunnel.Environment, w: Wire, s0: Tunnel.State, e: Tunnel.Event, s: Tunnel.State)
    returns (events: seq<Tunnel.Event>, s': Tunnel.State)
    requires Invariant(w.j) && Projects(w, s) && w.j.sender == Trying(1) && Fails(env, s0, e, s)
    ensures Runs(env, s0, events, s') && Projects(Carried(w, Try(w.j, 2), false), s')
  {
    var j' := Try(w.j, 2);
    TryLeaves(w.j, 2);
    events, s' := Nowhere(env, s0);
    events, s' := Then(env, s0, events, s0, e);
    if w.j.up {
      CarriedRequest(w, s, w.j, j', 2);
    } else {
      if j'.sender.Free? {
        events, s' := Then(env, s0, events, s', Tunnel.ReconnectCancelled);
        ClosedBlank(s);
      } else if j'.sender.Trying? {
        events, s' := StrayTry(env, s, e);
      }
      NothingDelivered(s);
      CarriedNothing(w, s, j', s');
    }
  }

  lemma EndedBeforeThird(j: Joint)
    requires Invariant(j) && CanEndTry(j) && GiveUp(j).sender.Trying? && j.up
    ensures j.log == [] && j.tasks.sequenceNumber == 0
  {
    if j.tasks.reconnectTask.None? {
      LossLeavesChannel(j.tasks);
    }
  }

  lemma SecondTryFails(env: Tunnel.Environment, w: Wire, s0: Tunnel.State, e: Tunnel.Event, s: Tunnel.State)
    returns (events: seq<Tunnel.Event>, s': Tunnel.State)
    requires Invariant(w.j) && Projects(w, s) && w.j.sender == Trying(2) && CanEndTry(w.j) && Fails(env, s0, e, s)
    ensures Runs(env, s0, events, s') && Projects(Carried(w, GiveUp(w.j), false), s')
  {
    var j' := GiveUp(w.j);
    GiveUpLeaves(w.j);
    events, s' := Nowhere(env, s0);
    events, s' := Then(env, s0, events, s0, e);
    if j'.sender.Trying? {
      if w.j.up {
        EndedBeforeThird(w.j);
      }
      var rest;
      var waiting := s';
      rest, s' := ThirdTryStarts(env, w, waiting, w.j, j');
      RunsConcat(env, s0, events, waiting, rest, s');
      events := events + rest;
    } else if j'.sender.Free? {
      events, s' := Then(env, s0, events, s', Tunnel.ReconnectCancelled);
      CarriedNothing(w, s, j', s');
    } else if !w.j.up {
      NothingDelivered(s);
      CarriedNothing(w, s, j', s');
    }
  }

  lemma ThirdTryFails(env: Tunnel.Environment, w: Wire, s0: Tunnel.State, e: Tunnel.Event, s: Tunnel.State)
    returns (events: seq<Tunnel.Event>, s': Tunnel.State)
    requires Invariant(w.j) && Projects(w, s) && w.j.sender == Trying(3) && Fails(env, s0, e, s)
    ensures Runs(env, s0, events, s') && Projects(Carried(w, End(w.j, false), false), s')
  {
    events, s' := Nowhere(env, s0);
    events, s' := Then(env, s0, events, s0, e);
    if !w.j.up {
      NothingDelivered(s);
      CarriedNothing(w, s, End(w.j, false), s');
    }
  }

  lemma TryFailsOnWire(env: Tunnel.Environment, w: Wire, s0: Tunnel.State, e: Tunnel.Event, s: Tunnel.State)
    returns (events: seq<Tunnel.Event>, s': Tunnel.State)
    requires Invariant(w.j) && Projects(w, s) && CanEndTry(w.j) && Fails(env, s0, e, s)
    ensures Runs(env, s0, events, s') && Projects(Carried(w, Next(w.j, TryFails), false), s')
  {
    if w.j.sender.attempt == 1 {
      events, s' := FirstTryFails(env, w, s0, e, s);
    } else if w.j.sender.attempt == 2 {
      events, s' := SecondTryFails(env, w, s0, e, s);
    } else {
      events, s' := ThirdTryFails(env, w, s0, e, s);
    }
  }

  /** The connection that is up, if any, is lost; a send that was ended by a cancelled reconnect ends here as well. */
  lemma LosesConnection(env: Tunnel.Environment, w: Wire, s: Tunnel.State) returns (events: seq<Tunnel.Event>, s': Tunnel.State)
    requires Projects(w, s)
    ensures Runs(env, s, events, s') && !s'.up && Blank(s') && s'.returned == s.returned
    ensures s'.deliveredBefore == s.deliveredBefore + s.delivered
    ensures s'.phase == (if w.closing then Tunnel.Idle else s.phase) && s'.sends == s.sends
  {
    events, s' := Nowhere(env, s);
    if w.closing {
      events, s' := Then(env, s, events, s', Tunnel.ReconnectCancelled);
    } else if s.up {
      events, s' := Then(env, s, events, s', Tunnel.ConnectionLost);
    } else {
      NothingDelivered(s);
    }
  }

  lemma EstablishesOnWire(env: Tunnel.Environment, w: Wire, event: Tasks.Event, s: Tunnel.State)
    returns (events: seq<Tunnel.Event>, s': Tunnel.State)
    requires Invariant(w.j) && Projects(w, s) && Can(w.j, OfTunnel(event)) && Tasks.Establishes(event)
    ensures Runs(env, s, events, s') && Projects(Carried(w, AfterTunnelEvent(w.j, event), true), s')
  {
    EstablishedCounter(w.j.tasks, event);
    events, s' := LosesConnection(env, w, s);
    events, s' := Then(env, s, events, s', Tunnel.ConnectionEstablished);
    if !AfterTunnelEvent(w.j, event).up {
      var open := s';
      events, s' := Then(env, s, events, s', Tunnel.ConnectionLost);
      NothingDelivered(open);
    }
  }

  /** An event of the tunnel's tasks that leaves the sender alone. */
  lemma MovesOnWire(env: Tunnel.Environment, w: Wire, j': Joint, s: Tunnel.State) returns (events: seq<Tunnel.Event>, s': Tunnel.State)
    requires Projects(w, s) && (j'.up ==> w.j.up && j'.tried == w.j.tried) && (j'.tried ==> w.j.tried)
    requires j'.sender == w.j.sender && j'.sends == w.j.sends && j'.returned == w.j.returned && j'.log == w.j.log
    requires j'.tasks.sequenceNumber == w.j.tasks.sequenceNumber
    ensures Runs(env, s, events, s') && Projects(Carried(w, j', false), s')
  {
    events, s' := Nowhere(env, s);
    if !j'.up {
      events, s' := LosesConnection(env, w, s);
      CarriedNothing(w, s, j', s');
    }
  }

  lemma ResumesOnWire(env: Tunnel.Environment, w: Wire, id: nat, s: Tunnel.State) returns (events: seq<Tunnel.Event>, s': Tunnel.State)
    requires Invariant(w.j) && Projects(w, s) && Can(w.j, OfTunnel(Tasks.ReconnectDone(id))) && Awaits(w.j.sender, id)
    ensures Runs(env, s, events, s') && Projects(Carried(w, Next(w.j, OfTunnel(Tasks.ReconnectDone(id))), false), s')
  {
    var event := Tasks.ReconnectDone(id);
    TunnelStepKeepsNames(w.j.tasks, event);
    var reaped := Moved(w.j, Tasks.Step(w.j.tasks, event)).(unsettled := false);
    if w.j.sender.AwaitingReady? {
      TryLeaves(reaped, 1);
      events, s' := SendStarts(env, w, s, reaped, Try(reaped, 1));
    } else if w.j.tasks.reconnects[id].Cancelled? {
      events, s' := Nowhere(env, s);
      if !reaped.up {
        events, s' := Then(env, s, events, s, Tunnel.ReconnectCancelled);
        ClosedBlank(s);
        NothingDelivered(s);
        CarriedNothing(w, s, End(reaped, false), s');
      }
    } else {
      TransmitLeaves(reaped, 3);
      events, s' := ThirdTryStarts(env, w, s, reaped, Transmit(reaped, 3));
    }
  }

  lemma TunnelEventOnWire(env: Tunnel.Environment, w: Wire, event: Tasks.Event, s: Tunnel.State)
    returns (events: seq<Tunnel.Event>, s': Tunnel.State)
    requires Invariant(w.j) && Projects(w, s) && CanWire(env, w, Client(OfTunnel(event)))
    ensures Runs(env, s, events, s') && Projects(NextWire(w, Client(OfTunnel(event))), s')
  {
    if Tasks.Establishes(event) {
      events, s' := EstablishesOnWire(env, w, event, s);
    } else if event.ReconnectDone? && Awaits(w.j.sender, event.id) {
      events, s' := ResumesOnWire(env, w, event.id, s);
    } else {
      if !event.ReconnectDone? {
        TunnelEventIsCalm(w.j.tasks, event);
      }
      events, s' := MovesOnWire(env, w, AfterTunnelEvent(w.j, event), s);
    }
  }

  lemma SendBeginsOnWire(env: Tunnel.Environment, w: Wire, s: Tunnel.State) returns (events: seq<Tunnel.Event>, s': Tunnel.State)
    requires Invariant(w.j) && Projects(w, s) && CanWire(env, w, Client(SendBegins)) && !w.closing
    ensures Runs(env, s, events, s') && Projects(NextWire(w, Client(SendBegins)), s')
  {
    var begun := w.j.(sends := w.j.sends + 1, tried := false);
    if w.j.tasks.reconnectTask.Some? && !Ending(w.j.tasks) {
      events, s' := Nowhere(env, s);
      if !w.j.up {
        NothingDelivered(s);
        CarriedNothing(w, s, Begin(w.j), s');
      }
    } else {
      TryLeaves(begun, 1);
      events, s' := SendStarts(env, w, s, begun, Try(begun, 1));
    }
  }

  lemma AckOnWire(env: Tunnel.Environment, w: Wire, s: Tunnel.State) returns (events: seq<Tunnel.Event>, s': Tunnel.State)
    requires Invariant(w.j) && Projects(w, s) && CanWire(env, w, AckArrives) && Matches(w, AckArrives)
    ensures Runs(env, s, events, s') && Projects(NextWire(w, AckArrives), s')
  {
    var rest, popped := w.(toClient := w.toClient[1..]), s.(toClient := s.toClient[1..]);
    assert s.up;
    if w.j.sender.Trying? && !w.toClient[0].noError {
      events, s' := TryFailsOnWire(env, rest, s, Tunnel.ClientReceivesAck, popped);
    } else {
      events, s' := Nowhere(env, s);
      events, s' := Then(env, s, events, s, Tunnel.ClientReceivesAck);
    }
  }

  lemma NetworkOnWire(env: Tunnel.Environment, w: Wire, step: Tunnel.Event, s: Tunnel.State)
    returns (events: seq<Tunnel.Event>, s': Tunnel.State)
    requires Projects(w, s) && CanWire(env, w, Network(step))
    ensures Runs(env, s, events, s') && Projects(OnWire(w, Tunnel.Step(Ends(w), step)), s')
  {
    events, s' := Nowhere(env, s);
    events, s' := Then(env, s, events, s, step);
  }

  /** Every step of sender and wire is a piece of a run of the two-endpoint protocol. */
  lemma StepOnWire(env: Tunnel.Environment, w: Wire, e: WireEvent, s: Tunnel.State) returns (events: seq<Tunnel.Event>, s': Tunnel.State)
    requires Invariant(w.j) && Projects(w, s) && CanWire(env, w, e) && Matches(w, e) && !Overtakes(w, e)
    ensures Runs(env, s, events, s') && Projects(NextWire(w, e), s')
  {
    match e
    case Client(event) =>
      if event.SendBegins? {
        events, s' := SendBeginsOnWire(env, w, s);
      } else {
        events, s' := TunnelEventOnWire(env, w, event.event, s);
      }
    case TimesOut => events, s' := TryFailsOnWire(env, w, s, Tunnel.Timeout(false), s);
    case AckArrives => events, s' := AckOnWire(env, w, s);
    case Network(step) => events, s' := NetworkOnWire(env, w, step, s);
  }

  // ------------------------------------------------------------ main results

  lemma {:induction false} WireRunIsRun(env: Tunnel.Environment, w: Wire, run: seq<WireEvent>, s: Tunnel.State)
    returns (events: seq<Tunnel.Event>, s': Tunnel.State)
    requires Invariant(w.j) && Projects(w, s) && LegalWire(env, w, run) && AllMatch(env, w, run) && InTurn(env, w, run)
    ensures Runs(env, s, events, s') && Projects(ExecWire(env, w, run), s')
    decreases |run|
  {
    if run == [] {
      events, s' := Nowhere(env, s);
    } else {
      WireKeepsInvariant(env, w, run[0]);
      var first, middle := StepOnWire(env, w, run[0], s);
      var rest;
      rest, s' := WireRunIsRun(env, NextWire(w, run[0]), run[1..], middle);
      RunsConcat(env, s, first, middle, rest, s');
      events := first + rest;
    }
  }

  /** What a step is to the sender. */
  function Moves(w: Wire, e: WireEvent): seq<JointEvent>
    requires e.AckArrives? ==> w.toClient != []
  {
    match e
    case Client(event) => [event]
    case TimesOut => [TryFails]
    case AckArrives => if !w.j.sender.Trying? then [] else if w.toClient[0].noError then [TryAcked] else [TryFails]
    case Network(_) => []
  }

  lemma SenderStep(env: Tunnel.Environment, w: Wire, e: WireEvent)
    requires Invariant(w.j) && CanWire(env, w, e)
    ensures var moves := Moves(w, e);
            if moves == [] then NextWire(w, e).j == w.j
            else |moves| == 1 && Can(w.j, moves[0]) && NextWire(w, e).j == Next(w.j, moves[0])
  {
  }

  /** Without auto_reconnect there is no reconnect that a send could wait for. */
  predicate NoReconnects(j: Joint) {
    Named(j.tasks) && SenderNamed(j) && !j.tasks.autoReconnect && j.tasks.reconnectTask.None?
  }

  lemma TasksStartNoReconnect(t: Tasks.Tasks, event: Tasks.Event)
    requires Named(t) && Tasks.Enabled(t, event) && !t.autoReconnect && t.reconnectTask.None?
    ensures Tasks.Step(t, event).reconnectTask.None?
  {
  }

  lemma {:induction false} NoReconnectStarts(t: Tasks.Tasks, events: seq<Tasks.Event>)
    requires Named(t) && Tasks.Legal(t, events) && !t.autoReconnect && t.reconnectTask.None?
    ensures Tasks.Exec(t, events).reconnectTask.None? && !Tasks.Exec(t, events).autoReconnect
    decreases |events|
  {
    if events != [] {
      TasksStartNoReconnect(t, events[0]);
      TunnelStepKeepsNames(t, events[0]);
      Tasks.StepCounters(t, events[0]);
      NoReconnectStarts(Tasks.Step(t, events[0]), events[1..]);
    }
  }

  lemma NoReconnectsStay(j: Joint, e: JointEvent)
    requires NoReconnects(j) && Can(j, e)
    ensures NoReconnects(Next(j, e))
  {
    var events := StepIsTasks(j, e);
    NoReconnectStarts(j.tasks, events);
    TunnelSender.StepKeepsNames(j, e);
  }

  lemma {:induction false} InTurnWithoutReconnect(env: Tunnel.Environment, w: Wire, run: seq<WireEvent>)
    requires Invariant(w.j) && NoReconnects(w.j) && !w.closing && LegalWire(env, w, run)
    ensures InTurn(env, w, run)
    decreases |run|
  {
    if run != [] {
      WireKeepsInvariant(env, w, run[0]);
      SenderStep(env, w, run[0]);
      var moves := Moves(w, run[0]);
      if moves != [] {
        NoReconnectsStay(w.j, moves[0]);
      }
      InTurnWithoutReconnect(env, NextWire(w, run[0]), run[1..]);
    }
  }

  lemma StartProjects(autoReconnect: bool)
    ensures Projects(StartWire(autoReconnect), Tunnel.Init())
  {
  }

  /**
   send_cemi over FIFO channels that lose, delay and duplicate, interleaved with reconnects,
   timers, heartbeats and the user's connect() and disconnect(): every run whose accepted acks
   match is a run of the two-endpoint protocol, and correct.
   */
  lemma MatchedSendsAreCorrect(env: Tunnel.Environment, autoReconnect: bool, run: seq<WireEvent>)
    returns (events: seq<Tunnel.Event>, s: Tunnel.State)
    requires LegalWire(env, StartWire(autoReconnect), run) && AllMatch(env, StartWire(autoReconnect), run)
    requires autoReconnect ==> InTurn(env, StartWire(autoReconnect), run)
    ensures Runs(env, Tunnel.Init(), events, s) && Projects(ExecWire(env, StartWire(autoReconnect), run), s)
    ensures Tunnel.Correct(Ends(ExecWire(env, StartWire(autoReconnect), run)))
  {
    StartProjects(autoReconnect);
    if !autoReconnect {
      InTurnWithoutReconnect(env, StartWire(false), run);
    }
    events, s := WireRunIsRun(env, StartWire(autoReconnect), run, Tunnel.Init());
    Safety.MatchedRunsAreCorrect(env, events);
  }

  ghost predicate AlwaysCorrect(env: Tunnel.Environment, autoReconnect: bool, overtaking: bool) {
    forall run ::
      LegalWire(env, StartWire(autoReconnect), run) && (overtaking || InTurn(env, StartWire(autoReconnect), run)) ==>
        Tunnel.Correct(Ends(ExecWire(env, StartWire(autoReconnect), run)))
  }

  lemma {:induction false} PromptKeepsOneInFlight(env: Tunnel.Environment, s: Tunnel.State, events: seq<Tunnel.Event>)
    requires Environment.Prompt(env) && Environment.OneInFlight(s) && Tunnel.Legal(env, s, events)
    ensures Environment.OneInFlight(Tunnel.Exec(env, s, events))
    decreases |events|
  {
    if events != [] {
      Environment.PromptStep(env, s, events[0]);
      PromptKeepsOneInFlight(env, Tunnel.Step(s, events[0]), events[1..]);
    }
  }

  lemma {:induction false} PromptMatches(env: Tunnel.Environment, w: Wire, run: seq<WireEvent>, s: Tunnel.State)
    requires Environment.Prompt(env) && Environment.OneInFlight(s)
    requires Invariant(w.j) && Projects(w, s) && LegalWire(env, w, run) && InTurn(env, w, run)
    ensures AllMatch(env, w, run)
    decreases |run|
  {
    if run != [] {
      WireKeepsInvariant(env, w, run[0]);
      var events, s' := StepOnWire(env, w, run[0], s);
      PromptKeepsOneInFlight(env, s, events);
      PromptMatches(env, NextWire(w, run[0]), run[1..], s');
    }
  }

  /** What the sender does is a run of `TunnelSender`. */
  lemma {:induction false} SenderRun(env: Tunnel.Environment, w: Wire, run: seq<WireEvent>) returns (events: seq<JointEvent>)
    requires Invariant(w.j) && LegalWire(env, w, run)
    ensures Legal(w.j, events) && Exec(w.j, events) == ExecWire(env, w, run).j
    decreases |run|
  {
    if run == [] {
      events := [];
    } else {
      WireKeepsInvariant(env, w, run[0]);
      var rest := SenderRun(env, NextWire(w, run[0]), run[1..]);
      SenderStep(env, w, run[0]);
      var moves := Moves(w, run[0]);
      events := moves + rest;
      assert if moves == [] then events == rest else events[0] == moves[0] && events[1..] == rest;
    }
  }

  /**
   On every run whose accepted acks match, each send that is over was delivered, or met one of
   the reasons to be dropped that `DroppedIff` lists and did not return.
   */
  lemma DeliveredOrDropped(env: Tunnel.Environment, autoReconnect: bool, run: seq<WireEvent>) returns (sender: seq<JointEvent>)
    requires LegalWire(env, StartWire(autoReconnect), run) && AllMatch(env, StartWire(autoReconnect), run)
    requires autoReconnect ==> InTurn(env, StartWire(autoReconnect), run)
    ensures Legal(Start(autoReconnect), sender)
    ensures var w := ExecWire(env, StartWire(autoReconnect), run);
            && w.j == Exec(Start(autoReconnect), sender)
            && forall k: nat :: k + (if w.j.sender.Free? then 0 else 1) < w.j.sends ==>
                 || k in w.deliveredBefore + w.delivered
                 || (k in Dropped(Start(autoReconnect), sender) && k !in w.j.returned)
  {
    sender := SenderRun(env, StartWire(autoReconnect), run);
    var _, _ := MatchedSendsAreCorrect(env, autoReconnect, run);
    var w := ExecWire(env, StartWire(autoReconnect), run);
    forall k: nat | k + (if w.j.sender.Free? then 0 else 1) < w.j.sends && k !in w.deliveredBefore + w.delivered
      ensures k in Dropped(Start(autoReconnect), sender) && k !in w.j.returned
    {
      EverySendIsAccounted(autoReconnect, sender, k);
    }
  }

  lemma PromptSendsAreCorrect(env: Tunnel.Environment, autoReconnect: bool, run: seq<WireEvent>)
    requires Environment.Prompt(env) && LegalWire(env, StartWire(autoReconnect), run)
    requires autoReconnect ==> InTurn(env, StartWire(autoReconnect), run)
    ensures Tunnel.Correct(Ends(ExecWire(env, StartWire(autoReconnect), run)))
  {
    StartProjects(autoReconnect);
    if !autoReconnect {
      InTurnWithoutReconnect(env, StartWire(false), run);
    }
    PromptMatches(env, StartWire(autoReconnect), run, Tunnel.Init());
    var _, _ := MatchedSendsAreCorrect(env, autoReconnect, run);
  }

  // ---------------------------------------------------------------- witnesses

  /** A run from the beginning to w. */
  predicate Reaches(env: Tunnel.Environment, autoReconnect: bool, inTurn: bool, run: seq<WireEvent>, w: Wire) {
    && LegalWire(env, StartWire(autoReconnect), run) && ExecWire(env, StartWire(autoReconnect), run) == w
    && (inTurn ==> InTurn(env, StartWire(autoReconnect), run))
  }

  lemma {:induction false} ExecWireAppend(env: Tunnel.Environment, w: Wire, run: seq<WireEvent>, e: WireEvent)
    requires Invariant(w.j) && LegalWire(env, w, run) && CanWire(env, ExecWire(env, w, run), e)
    ensures LegalWire(env, w, run + [e]) && ExecWire(env, w, run + [e]) == NextWire(ExecWire(env, w, run), e)
    ensures InTurn(env, w, run) && !Overtakes(ExecWire(env, w, run), e) ==> InTurn(env, w, run + [e])
    decreases |run|
  {
    if run == [] {
      assert [] + [e] == [e] && [e][1..] == [];
      WireKeepsInvariant(env, w, e);
    } else {
      assert (run + [e])[1..] == run[1..] + [e];
      WireKeepsInvariant(env, w, run[0]);
      ExecWireAppend(env, NextWire(w, run[0]), run[1..], e);
    }
  }

  lemma CanAnywhere(env: Tunnel.Environment, w: Wire, e: WireEvent)
    requires CanWire(env, w, e)
    ensures CanWire(Tunnel.Environment(true, true, true), w, e)
  {
  }

  lemma ThenWire(env: Tunnel.Environment, autoReconnect: bool, inTurn: bool, run: seq<WireEvent>, w: Wire, e: WireEvent)
    returns (longer: seq<WireEvent>, w': Wire)
    requires Reaches(env, autoReconnect, inTurn, run, w) && CanWire(env, w, e) && (inTurn ==> !Overtakes(w, e))
    ensures SenderNamed(w.j) && Reaches(env, autoReconnect, inTurn, longer, w') && w' == NextWire(w, e)
  {
    CanAnywhere(env, w, e);
    ExecWireAppend(env, StartWire(autoReconnect), run, e);
    longer, w' := run + [e], NextWire(w, e);
  }

  /** The connection is up, with no reconnect pending, and the sender is at this point of this send. */
  predicate Open(j: Joint, sender: Sender, sends: nat) {
    && j.up && j.tasks.channel && j.tasks.transportOpen && j.tasks.reconnectTask.None? && j.sender == sender && j.sends == sends
    && j.tasks.sequenceNumber == (if sender.Free? then sends else sends - 1)
  }

  lemma SendBeginsOpen(j: Joint, sends: nat)
    requires Open(j, Free, sends)
    ensures Can(j, SendBegins)
    ensures var j' := Next(j, SendBegins);
            && Open(j', Trying(1), sends + 1) && |j'.log| == |j.log| + 1 && j'.returned == j.returned
            && j'.log[|j.log|].send == sends && j'.log[|j.log|].counter == sends
  {
  }

  lemma AckedOpen(j: Joint, sends: nat)
    requires j.sender.Trying? && Open(j, j.sender, sends) && 0 < sends < 256
    ensures Can(j, TryAcked)
    ensures var j' := Next(j, TryAcked); Open(j', Free, sends) && j'.log == j.log && j'.returned == j.returned + {sends - 1}
  {
  }

  lemma RepeatsOpen(j: Joint, sends: nat)
    requires Open(j, Trying(1), sends) && sends > 0
    ensures Can(j, TryFails)
    ensures var j' := Next(j, TryFails);
            && Open(j', Trying(2), sends) && |j'.log| == |j.log| + 1 && j'.returned == j.returned
            && j'.log[|j.log|].send == sends - 1 && j'.log[|j.log|].counter == sends - 1
  {
  }

  lemma ConnectsOpen(autoReconnect: bool)
    ensures Can(Start(autoReconnect), OfTunnel(Tasks.UserConnects))
    ensures var j := Next(Start(autoReconnect), OfTunnel(Tasks.UserConnects));
            && Can(j, OfTunnel(Tasks.UserConnectEnds(true))) && !j.up && j.log == [] && j.sender.Free?
            && var j' := Next(j, OfTunnel(Tasks.UserConnectEnds(true)));
               && Open(j', Free, 0) && j'.log == [] && j'.returned == {}
               && j'.tasks.autoReconnect == autoReconnect && !j'.tasks.userConnecting && j'.tasks.reconnects == map[]
  {
  }

  lemma ConnectsOnWire(env: Tunnel.Environment, autoReconnect: bool) returns (run: seq<WireEvent>, w: Wire)
    ensures Reaches(env, autoReconnect, true, run, w) && Open(w.j, Free, 0) && w.j.log == [] && w == StartWire(autoReconnect).(j := w.j)
    ensures w.j.tasks.autoReconnect == autoReconnect && !w.j.tasks.userConnecting && w.j.tasks.reconnects == map[]
  {
    run, w := [], StartWire(autoReconnect);
    StartProjects(autoReconnect);
    ConnectsOpen(autoReconnect);
    run, w := ThenWire(env, autoReconnect, true, run, w, Client(OfTunnel(Tasks.UserConnects)));
    run, w := ThenWire(env, autoReconnect, true, run, w, Client(OfTunnel(Tasks.UserConnectEnds(true))));
  }

  lemma FirstOnWire(env: Tunnel.Environment, autoReconnect: bool) returns (run: seq<WireEvent>, w: Wire)
    ensures Reaches(env, autoReconnect, true, run, w) && Open(w.j, Trying(1), 1) && !w.closing
    ensures w.toServer == [Tunnel.Request(0, 0, 0)] && w.toClient == [] && w.expected == 0
    ensures w.transmitted == [0] && w.delivered == [] && w.deliveredBefore == []
  {
    run, w := ConnectsOnWire(env, autoReconnect);
    SendBeginsOpen(w.j, 0);
    run, w := ThenWire(env, autoReconnect, true, run, w, Client(SendBegins));
    assert w.toServer == [Tunnel.Request(0, 0, 0)];
  }

  /** An ack ends the try that is under way. */
  lemma AckEndsTry(env: Tunnel.Environment, autoReconnect: bool, run0: seq<WireEvent>, w0: Wire, sends: nat)
    returns (run: seq<WireEvent>, w: Wire)
    requires Reaches(env, autoReconnect, true, run0, w0) && w0.j.sender.Trying? && Open(w0.j, w0.j.sender, sends) && 0 < sends < 256
    requires w0.toClient != [] && w0.toClient[0].noError && !w0.closing
    ensures Reaches(env, autoReconnect, true, run, w) && Open(w.j, Free, sends) && w.j.returned == w0.j.returned + {sends - 1}
    ensures w == w0.(j := w.j, toClient := w0.toClient[1..])
  {
    AckedOpen(w0.j, sends);
    run, w := ThenWire(env, autoReconnect, true, run0, w0, AckArrives);
  }

  lemma LosesNextSend(env: Tunnel.Environment, autoReconnect: bool, run0: seq<WireEvent>, w0: Wire, sends: nat)
    returns (run: seq<WireEvent>, w: Wire)
    requires Reaches(env, autoReconnect, true, run0, w0) && Open(w0.j, Free, sends) && w0.toServer == [] && !w0.closing
    ensures Reaches(env, autoReconnect, true, run, w) && Open(w.j, Trying(1), sends + 1)
    ensures w == w0.(j := w.j, transmitted := w.transmitted)
  {
    SendBeginsOpen(w0.j, sends);
    run, w := ThenWire(env, autoReconnect, true, run0, w0, Client(SendBegins));
    assert |w.toServer| == 1;
    run, w := ThenWire(env, autoReconnect, true, run, w, Network(Tunnel.LoseRequest(0)));
  }

  /** With two acks for request 0 on the way back, send 1 returns although its request is lost. */
  lemma StaleAckEndsNextSend(env: Tunnel.Environment, autoReconnect: bool, run0: seq<WireEvent>, w0: Wire)
    returns (run: seq<WireEvent>, w: Wire)
    requires Reaches(env, autoReconnect, true, run0, w0) && w0.j.sender.Trying? && Open(w0.j, w0.j.sender, 1) && !w0.closing
    requires w0.toServer == [] && w0.toClient == [Tunnel.Ack(0, true, 0), Tunnel.Ack(0, true, 0)]
    requires w0.delivered == [0] && w0.deliveredBefore == []
    ensures Reaches(env, autoReconnect, true, run, w) && !Tunnel.Correct(Ends(w))
  {
    run, w := AckEndsTry(env, autoReconnect, run0, w0, 1);
    run, w := LosesNextSend(env, autoReconnect, run, w, 1);
    run, w := AckEndsTry(env, autoReconnect, run, w, 2);
    assert 1 in w.j.returned;
    assert w.deliveredBefore + w.delivered == [0];
  }

  lemma ServerTakes(env: Tunnel.Environment, autoReconnect: bool, run0: seq<WireEvent>, w0: Wire) returns (run: seq<WireEvent>, w: Wire)
    requires Reaches(env, autoReconnect, true, run0, w0) && w0.toServer != []
    requires w0.toServer[0] == Tunnel.Request(0, 0, 0) && w0.expected == |w0.delivered| <= 1 && (w0.delivered == [] || w0.delivered == [0])
    ensures Reaches(env, autoReconnect, true, run, w) && w.expected == 1 && w.delivered == [0]
    ensures w == w0.(toServer := w0.toServer[1..], toClient := w0.toClient + [Tunnel.Ack(0, true, 0)], expected := 1, delivered := [0])
  {
    run, w := ThenWire(env, autoReconnect, true, run0, w0, Network(Tunnel.ServerReceives));
  }

  /** Two copies of request 0 are on the wire, by a duplication or by a late timeout. */
  lemma TwoRequests(env: Tunnel.Environment, autoReconnect: bool) returns (run: seq<WireEvent>, w: Wire)
    requires env.duplicatesRequests || env.late
    ensures Reaches(env, autoReconnect, true, run, w) && w.j.sender.Trying? && Open(w.j, w.j.sender, 1) && !w.closing
    ensures w.toServer == [Tunnel.Request(0, 0, 0), Tunnel.Request(0, 0, 0)] && w.toClient == []
    ensures w.expected == 0 && w.delivered == [] && w.deliveredBefore == []
  {
    run, w := FirstOnWire(env, autoReconnect);
    var first := w;
    if env.duplicatesRequests {
      run, w := ThenWire(env, autoReconnect, true, run, w, Network(Tunnel.DuplicateRequest(0)));
    } else {
      RepeatsOpen(w.j, 1);
      run, w := ThenWire(env, autoReconnect, true, run, w, TimesOut);
      assert w.transmitted == first.transmitted;
    }
    assert w.toServer == first.toServer + [Tunnel.Request(0, 0, 0)];
  }

  lemma TwoAcks(env: Tunnel.Environment, autoReconnect: bool) returns (run: seq<WireEvent>, w: Wire)
    requires !Environment.Prompt(env)
    ensures Reaches(env, autoReconnect, true, run, w) && w.j.sender.Trying? && Open(w.j, w.j.sender, 1) && !w.closing
    ensures w.toServer == [] && w.toClient == [Tunnel.Ack(0, true, 0), Tunnel.Ack(0, true, 0)]
    ensures w.delivered == [0] && w.deliveredBefore == []
  {
    if env.duplicatesAcks {
      run, w := FirstOnWire(env, autoReconnect);
      run, w := ServerTakes(env, autoReconnect, run, w);
      run, w := AckTwice(env, autoReconnect, run, w);
    } else {
      run, w := TwoRequests(env, autoReconnect);
      run, w := ServerTakes(env, autoReconnect, run, w);
      run, w := ServerTakes(env, autoReconnect, run, w);
    }
  }

  lemma AckTwice(env: Tunnel.Environment, autoReconnect: bool, run0: seq<WireEvent>, w0: Wire) returns (run: seq<WireEvent>, w: Wire)
    requires Reaches(env, autoReconnect, true, run0, w0) && env.duplicatesAcks && w0.toClient == [Tunnel.Ack(0, true, 0)]
    ensures Reaches(env, autoReconnect, true, run, w) && w == w0.(toClient := [Tunnel.Ack(0, true, 0), Tunnel.Ack(0, true, 0)])
  {
    run, w := ThenWire(env, autoReconnect, true, run0, w0, Network(Tunnel.DuplicateAck(0)));
  }

  /** The connection is up and left alone, with auto_reconnect and no task of a reconnect. */
  predicate Steady(j: Joint, sender: Sender, sends: nat, counter: nat) {
    && j.up && j.tasks.channel && j.tasks.transportOpen && !j.tasks.userConnecting && j.tasks.autoReconnect
    && j.sender == sender && j.sends == sends && j.tasks.sequenceNumber == counter
  }

  predicate NoTask(j: Joint) {
    j.tasks.reconnectTask.None? && j.tasks.reconnects == map[]
  }

  lemma SteadyBegins(j: Joint, sends: nat, counter: nat)
    requires Steady(j, Free, sends, counter) && NoTask(j)
    ensures Can(j, SendBegins)
    ensures var j' := Next(j, SendBegins);
            && Steady(j', Trying(1), sends + 1, counter) && NoTask(j') && |j'.log| == |j.log| + 1
            && j'.log[|j.log|].send == sends && j'.log[|j.log|].counter == counter
  {
  }

  lemma SteadyRepeats(j: Joint, sends: nat, counter: nat)
    requires Steady(j, Trying(1), sends, counter) && NoTask(j) && sends > 0
    ensures Can(j, TryFails)
    ensures var j' := Next(j, TryFails);
            && Steady(j', Trying(2), sends, counter) && NoTask(j') && |j'.log| == |j.log| + 1
            && j'.log[|j.log|].send == sends - 1 && j'.log[|j.log|].counter == counter
  {
  }

  lemma SteadyGivesUp(j: Joint, sends: nat, counter: nat)
    requires Steady(j, Trying(2), sends, counter) && NoTask(j) && sends > 0
    ensures Can(j, TryFails)
    ensures var j', id := Next(j, TryFails), j.tasks.created;
            && Steady(j', AwaitingReconnect(id), sends, counter) && j'.log == j.log
            && Reconnecting(j', AwaitingReconnect(id), id, Tasks.Scheduled)
  {
    assert map[][j.tasks.created := Tasks.Scheduled] == map[j.tasks.created := Tasks.Scheduled];
  }

  lemma SteadyDisconnects(j: Joint, id: nat, sends: nat, counter: nat)
    requires Steady(j, AwaitingReconnect(id), sends, counter) && Reconnecting(j, AwaitingReconnect(id), id, Tasks.Scheduled)
    ensures Can(j, OfTunnel(Tasks.UserDisconnects))
    ensures var j' := Next(j, OfTunnel(Tasks.UserDisconnects));
            && Steady(j', AwaitingReconnect(id), sends, counter) && j'.log == j.log
            && Reconnecting(j', AwaitingReconnect(id), id, Tasks.Cancelled)
  {
    assert map[id := Tasks.Scheduled][id := Tasks.Cancelled] == map[id := Tasks.Cancelled];
  }

  lemma SteadyEnds(j: Joint, id: nat, sends: nat, counter: nat)
    requires Steady(j, AwaitingReconnect(id), sends, counter) && Reconnecting(j, AwaitingReconnect(id), id, Tasks.Cancelled)
    ensures Can(j, OfTunnel(Tasks.ReconnectDone(id))) && SenderNamed(j)
    ensures var j' := Next(j, OfTunnel(Tasks.ReconnectDone(id)));
            Steady(j', Free, sends, Tunnel.NextCounter(counter)) && NoTask(j') && j'.log == j.log
  {
    assert j.tasks.reconnects - {id} == map[];
  }

  /** The server has refused the first `sends` sends, and expects counter 0 still. */
  predicate Refused(w: Wire, sends: nat) {
    && Steady(w.j, Free, sends, sends % 256) && NoTask(w.j)
    && w.toServer == [] && w.toClient == [] && w.expected == 0 && w.delivered == []
    && |w.transmitted| == sends && (sends > 0 ==> w.transmitted[0] == 0)
    && (sends > 0 ==> w.transmitted[sends - 1] == sends - 1)
  }

  /** Only the request of the send under way is on the wire. */
  predicate OneRequest(w: Wire, attempt: nat, sends: nat) {
    && Steady(w.j, Trying(attempt), sends + 1, sends % 256) && NoTask(w.j)
    && |w.toServer| == 1 && w.toClient == [] && w.expected == 0 && w.delivered == []
    && w.toServer[0].send == sends && w.toServer[0].counter == sends % 256
    && |w.transmitted| == sends + 1 && w.transmitted[0] == 0 && w.transmitted[sends] == sends
  }

  lemma BeginsRefused(env: Tunnel.Environment, run0: seq<WireEvent>, w0: Wire, sends: nat) returns (run: seq<WireEvent>, w: Wire)
    requires Reaches(env, true, false, run0, w0) && Refused(w0, sends)
    ensures Reaches(env, true, false, run, w) && OneRequest(w, 1, sends)
  {
    SteadyBegins(w0.j, sends, sends % 256);
    run, w := ThenWire(env, true, false, run0, w0, Client(SendBegins));
  }

  lemma RefusesRequest(env: Tunnel.Environment, run0: seq<WireEvent>, w0: Wire, attempt: nat, sends: nat)
    returns (run: seq<WireEvent>, w: Wire)
    requires Reaches(env, true, false, run0, w0) && OneRequest(w0, attempt, sends)
    ensures Reaches(env, true, false, run, w) && w == w0.(toServer := [], toClient := w.toClient)
    ensures |w.toClient| == 1 && !w.toClient[0].noError
  {
    run, w := ThenWire(env, true, false, run0, w0, Network(Tunnel.ServerRefuses));
  }

  lemma RepeatsRefused(env: Tunnel.Environment, run0: seq<WireEvent>, w0: Wire, sends: nat) returns (run: seq<WireEvent>, w: Wire)
    requires Reaches(env, true, false, run0, w0) && OneRequest(w0, 1, sends)
    ensures Reaches(env, true, false, run, w) && OneRequest(w, 2, sends)
  {
    run, w := RefusesRequest(env, run0, w0, 1, sends);
    SteadyRepeats(w.j, sends + 1, sends % 256);
    run, w := ThenWire(env, true, false, run, w, AckArrives);
  }

  lemma GivesUpRefused(env: Tunnel.Environment, run0: seq<WireEvent>, w0: Wire, sends: nat) returns (run: seq<WireEvent>, w: Wire)
    requires Reaches(env, true, false, run0, w0) && OneRequest(w0, 2, sends)
    ensures Reaches(env, true, false, run, w) && w.j.sender.AwaitingReconnect? && Steady(w.j, w.j.sender, sends + 1, sends % 256)
    ensures Reconnecting(w.j, w.j.sender, w.j.sender.id, Tasks.Scheduled)
    ensures w == w0.(j := w.j, toServer := [], closing := w.closing)
  {
    run, w := RefusesRequest(env, run0, w0, 2, sends);
    SteadyGivesUp(w.j, sends + 1, sends % 256);
    run, w := ThenWire(env, true, false, run, w, AckArrives);
  }

  /** A disconnect() cancels the reconnect that a send awaits, and the send ends before the connection is closed. */
  lemma EndsCancelled(env: Tunnel.Environment, run0: seq<WireEvent>, w0: Wire, sends: nat, counter: nat)
    returns (run: seq<WireEvent>, w: Wire)
    requires Reaches(env, true, false, run0, w0) && w0.j.sender.AwaitingReconnect? && Steady(w0.j, w0.j.sender, sends, counter)
    requires Reconnecting(w0.j, w0.j.sender, w0.j.sender.id, Tasks.Scheduled)
    ensures Reaches(env, true, false, run, w) && Steady(w.j, Free, sends, Tunnel.NextCounter(counter)) && NoTask(w.j)
    ensures w == w0.(j := w.j, closing := w.closing)
  {
    var id := w0.j.sender.id;
    SteadyDisconnects(w0.j, id, sends, counter);
    run, w := ThenWire(env, true, false, run0, w0, Client(OfTunnel(Tasks.UserDisconnects)));
    SteadyEnds(w.j, id, sends, counter);
    run, w := ThenWire(env, true, false, run, w, Client(OfTunnel(Tasks.ReconnectDone(id))));
  }

  /** The send has been refused twice and awaits the reconnect. */
  predicate GivenUp(w: Wire, sends: nat) {
    && w.j.sender.AwaitingReconnect? && Steady(w.j, w.j.sender, sends + 1, sends % 256)
    && Reconnecting(w.j, w.j.sender, w.j.sender.id, Tasks.Scheduled)
    && w.toServer == [] && w.toClient == [] && w.expected == 0 && w.delivered == []
    && |w.transmitted| == sends + 1 && w.transmitted[0] == 0 && w.transmitted[sends] == sends
  }

  lemma RefusedTwice(env: Tunnel.Environment, run0: seq<WireEvent>, w0: Wire, sends: nat) returns (run: seq<WireEvent>, w: Wire)
    requires Reaches(env, true, false, run0, w0) && Refused(w0, sends)
    ensures Reaches(env, true, false, run, w) && GivenUp(w, sends)
  {
    run, w := BeginsRefused(env, run0, w0, sends);
    run, w := RepeatsRefused(env, run, w, sends);
    run, w := GivesUpRefused(env, run, w, sends);
  }

  /** One more send is refused twice, and a disconnect() cancels the reconnect that it awaits. */
  lemma RefusedRound(env: Tunnel.Environment, run0: seq<WireEvent>, w0: Wire, sends: nat) returns (run: seq<WireEvent>, w: Wire)
    requires Reaches(env, true, false, run0, w0) && Refused(w0, sends)
    ensures Reaches(env, true, false, run, w) && Refused(w, sends + 1)
  {
    run, w := RefusedTwice(env, run0, w0, sends);
    run, w := EndsCancelled(env, run, w, sends + 1, sends % 256);
    Tasks.NextCounts(sends);
  }

  lemma ConnectsRefused(env: Tunnel.Environment) returns (run: seq<WireEvent>, w: Wire)
    ensures Reaches(env, true, false, run, w) && Refused(w, 0)
  {
    run, w := ConnectsOnWire(env, true);
  }

  lemma ManyRefused(env: Tunnel.Environment, sends: nat) returns (run: seq<WireEvent>, w: Wire)
    ensures Reaches(env, true, false, run, w) && Refused(w, sends)
  {
    if sends == 0 {
      run, w := ConnectsRefused(env);
    } else {
      run, w := ManyRefused(env, sends - 1);
      run, w := RefusedRound(env, run, w, sends - 1);
    }
  }

  lemma TakesWrapped(env: Tunnel.Environment, run0: seq<WireEvent>, w0: Wire) returns (run: seq<WireEvent>, w: Wire)
    requires Reaches(env, true, false, run0, w0) && OneRequest(w0, 1, 256)
    ensures Reaches(env, true, false, run, w) && w.delivered == [256] && w.transmitted == w0.transmitted
  {
    run, w := ThenWire(env, true, false, run0, w0, Network(Tunnel.ServerReceives));
  }

  /**
   256 sends that the server refuses and that end with a disconnect() while the connection stays
   up: then the counter has wrapped, and the next send is taken for the first.
   */
  lemma OvertakingSkipsPayloads(env: Tunnel.Environment) returns (run: seq<WireEvent>, w: Wire)
    ensures Reaches(env, true, false, run, w) && w.delivered == [256] && w.transmitted != [] && w.transmitted[0] == 0
  {
    run, w := ManyRefused(env, 256);
    run, w := BeginsRefused(env, run, w, 256);
    run, w := TakesWrapped(env, run, w);
  }

  /**
   The exact conditions for the whole client: every run of send_cemi with its reconnects is
   correct exactly when the network neither duplicates requests nor acks nor delivers later than
   the one-second timeout, and, with auto_reconnect, no send begins before a disconnect() that
   cancelled the reconnect of the one before it has closed the connection.
   */
  lemma SendsAlwaysCorrectIff(env: Tunnel.Environment, autoReconnect: bool, overtaking: bool)
    ensures AlwaysCorrect(env, autoReconnect, overtaking) <==> Environment.Prompt(env) && !(autoReconnect && overtaking)
  {
    if !Environment.Prompt(env) {
      var run, w := TwoAcks(env, autoReconnect);
      run, w := StaleAckEndsNextSend(env, autoReconnect, run, w);
    } else if autoReconnect && overtaking {
      var run, w := OvertakingSkipsPayloads(env);
    } else {
      forall run | LegalWire(env, StartWire(autoReconnect), run) && (overtaking || InTurn(env, StartWire(autoReconnect), run))
        ensures Tunnel.Correct(Ends(ExecWire(env, StartWire(autoReconnect), run)))
      {
        PromptSendsAreCorrect(env, autoReconnect, run);
      }
    }
  }
}
