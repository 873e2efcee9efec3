/**
 send_cemi of a UDP tunnel, interleaved with the tunnel's reconnect, timer and heartbeat tasks:
 the send lock, the tries of a request, and the reconnect that a send waits for.
 */
module TunnelSender {
  import opened Bytes
  import Tunnel
  import opened Tasks = TunnelTasks

  /** The holder of the send lock. */
  datatype Sender =
    | Free
      /** _send_ready awaits a reconnect that was pending when the lock was taken. */
    | AwaitingReady(id: nat)
      /** A try awaits its ack. */
    | Trying(attempt: nat)
      /** Two tries have failed. */
    | AwaitingReconnect(id: nat)

  /** A TunnellingRequest of the current connection; `place` sends had ended on the connection before. */
  datatype Request = Request(send: nat, attempt: nat, counter: nat, place: nat)

  datatype Joint = Joint(
    tasks: Tasks.Tasks,
    sender: Sender,
    /**
     Histories: sends begun and returned; whether the connection still has its channel and transport,
     and the requests sent on it.
     */
    sends: nat,
    returned: set<nat>,
    up: bool,
    log: seq<Request>,
    /** The current send has sent a request on the current connection. */
    tried: bool,
    /** A send that was under way when the connection was established ended without a request on it. */
    late: bool,
    /** A request was sent since a reconnect task ended whose callbacks have not run yet. */
    unsettled: bool)

  datatype JointEvent =
    | OfTunnel(event: Event)
    | SendBegins
      /** Any TunnellingAck without an error. */
    | TryAcked
      /** No ack within a second, or one with an error. */
    | TryFails

  function Start(autoReconnect: bool): Joint {
    Joint(Init(autoReconnect), Free, 0, {}, false, [], false, false, false)
  }

  /** A reconnect task has ended and its callbacks are about to run. */
  predicate Ending(t: Tasks.Tasks) {
    t.reconnectTask.Some? && t.reconnectTask.value in t.reconnects && t.reconnects[t.reconnectTask.value].Finished?
  }

  /** No request is answered before the callbacks that were queued when it was sent have run. */
  predicate CanEndTry(j: Joint) {
    j.sender.Trying? && !(j.unsettled && Ending(j.tasks))
  }

  predicate Can(j: Joint, e: JointEvent) {
    match e
    case OfTunnel(event) => Enabled(j.tasks, event) && !event.SendFailedTwice? && !event.SendEnds?
    case SendBegins => j.sender.Free?
    case TryAcked => CanEndTry(j)
    case TryFails => CanEndTry(j)
  }

  /** The finally clause and the release of the lock. */
  function End(j: Joint, ok: bool): Joint
    requires ok ==> j.sends > 0
  {
    j.(tasks := SendEnded(j.tasks), sender := Free, tried := false, late := j.late || (j.up && !j.tried),
       returned := if ok then j.returned + {j.sends - 1} else j.returned)
  }

  /** The tunnel's tasks have moved; a connection is over once its channel or its transport is gone. */
  function Moved(j: Joint, t: Tasks.Tasks): Joint {
    var up := j.up && t.channel && t.transportOpen;
    j.(tasks := t, up := up, tried := j.tried && up)
  }

  /**
   _tunnelling_request with the only or last try: it raises without a channel, and fails at once on
   a closed transport.
   */
  function Transmit(j: Joint, attempt: nat): Joint
    requires j.sends > 0
  {
    if !j.tasks.channel || !j.tasks.transportOpen then End(j, false)
    else
      j.(sender := Trying(attempt), tried := j.up, unsettled := Ending(j.tasks),
         log := if j.up then j.log + [Request(j.sends - 1, attempt, j.tasks.sequenceNumber, j.tasks.ended)] else j.log)
  }

  /** The second failed try. */
  function GiveUp(j: Joint): Joint
    requires j.sends > 0
  {
    var lost := if j.tasks.reconnectTask.None? then Moved(j, TunnelLost(j.tasks)) else j;
    if lost.tasks.reconnectTask.None? then End(lost, false)
    else if Ending(lost.tasks) then Transmit(lost, 3)
    else lost.(sender := AwaitingReconnect(lost.tasks.reconnectTask.value))
  }

  /** A try; the first two fail at once, one after the other, on a closed transport. */
  function Try(j: Joint, attempt: nat): Joint
    requires j.sends > 0
  {
    if j.tasks.channel && !j.tasks.transportOpen && attempt < 3 then GiveUp(j) else Transmit(j, attempt)
  }

  /** What happens once the lock is taken: a pending reconnect is awaited, unless it has ended already. */
  function Begin(j: Joint): Joint {
    var begun := j.(sends := j.sends + 1, tried := false);
    if j.tasks.reconnectTask.Some? && !Ending(j.tasks) then begun.(sender := AwaitingReady(j.tasks.reconnectTask.value))
    else Try(begun, 1)
  }

  predicate Awaits(s: Sender, id: nat) {
    (s.AwaitingReady? || s.AwaitingReconnect?) && s.id == id
  }

  /** The awaited reconnect has ended, by success or by cancellation. */
  function Resume(j: Joint, cancelled: bool): Joint
    requires j.sends > 0
  {
    if j.sender.AwaitingReady? then Try(j, 1)
    else if cancelled then End(j, false)
    else Transmit(j, 3)
  }

  function AfterTunnelEvent(j: Joint, event: Event): Joint
    requires Enabled(j.tasks, event)
  {
    var after := Moved(j, Tasks.Step(j.tasks, event));
    if Establishes(event) then after.(up := after.tasks.transportOpen, log := [], tried := false, late := false, unsettled := false)
    else if event.ReconnectDone? then
      var reaped := after.(unsettled := false);
      if Awaits(j.sender, event.id) && j.sends > 0 then Resume(reaped, j.tasks.reconnects[event.id].Cancelled?) else reaped
    else after
  }

  function Next(j: Joint, e: JointEvent): Joint
    requires Can(j, e) && (j.sender.Trying? ==> j.sends > 0)
  {
    match e
    case OfTunnel(event) => AfterTunnelEvent(j, event)
    case SendBegins => Begin(j)
    case TryAcked => End(j, true)
    case TryFails => if j.sender.attempt == 1 then Try(j, 2) else if j.sender.attempt == 2 then GiveUp(j) else End(j, false)
  }

  // ------------------------------------------------------------------- invariants

  /** The field names the one live reconnect. */
  predicate Named(t: Tasks.Tasks) {
    && t.reconnects.Keys == (if t.reconnectTask.Some? then {t.reconnectTask.value} else {})
    && (t.reconnectTask.Some? ==> t.reconnectTask.value < t.created)
  }

  predicate SenderNamed(j: Joint) {
    && (!j.sender.Free? ==> j.sends > 0)
    && (j.sender.Trying? ==> 1 <= j.sender.attempt <= 3)
    && (j.sender.AwaitingReady? || j.sender.AwaitingReconnect? ==> j.tasks.reconnectTask == Some(j.sender.id))
  }

  predicate Legal(j: Joint, run: seq<JointEvent>)
    requires SenderNamed(j) && Named(j.tasks)
    decreases |run|
  {
    run == [] || (Can(j, run[0]) && (StepKeepsNames(j, run[0]); Legal(Next(j, run[0]), run[1..])))
  }

  function Exec(j: Joint, run: seq<JointEvent>): (end: Joint)
    requires SenderNamed(j) && Named(j.tasks) && Legal(j, run)
    ensures SenderNamed(end) && Named(end.tasks)
    decreases |run|
  {
    if run == [] then j else (StepKeepsNames(j, run[0]); Exec(Next(j, run[0]), run[1..]))
  }

  lemma LostKeepsNames(t: Tasks.Tasks)
    requires Named(t)
    ensures Named(TunnelLost(t))
    ensures t.reconnectTask.Some? ==> TunnelLost(t).reconnectTask == t.reconnectTask
    ensures t.reconnectTask.None? && TunnelLost(t).reconnectTask.Some? ==> !Ending(TunnelLost(t))
  {
    if !t.autoReconnect {
      PreparingKeepsNames(t);
    }
  }

  lemma PreparingKeepsNames(t: Tasks.Tasks)
    requires Named(t)
    ensures Named(PrepareDisconnect(t)) && Named(ArmTimer(t)) && Named(CancelTimer(t)) && Named(SendEnded(t))
    ensures PrepareDisconnect(t).reconnectTask == t.reconnectTask && PrepareDisconnect(t).reconnects == t.reconnects
  {
  }

  lemma RoutinesKeepNames(t: Tasks.Tasks)
    requires Named(t)
    ensures Named(TunnelLost(t)) && Named(PrepareDisconnect(t)) && Named(ArmTimer(t)) && Named(CancelTimer(t)) && Named(SendEnded(t))
    ensures PrepareDisconnect(t).reconnectTask == t.reconnectTask && PrepareDisconnect(t).reconnects == t.reconnects
    ensures t.reconnectTask.Some? ==> TunnelLost(t).reconnectTask == t.reconnectTask
    ensures t.reconnectTask.None? && TunnelLost(t).reconnectTask.Some? ==> !Ending(TunnelLost(t))
  {
    LostKeepsNames(t);
    PreparingKeepsNames(t);
  }

  /** The field still names the one live reconnect, and one that was pending before. */
  predicate NamedOn(t: Tasks.Tasks, t': Tasks.Tasks) {
    Named(t') && (t.reconnectTask.Some? ==> t'.reconnectTask == t.reconnectTask)
  }

  lemma RequestStateKeepsNames(t: Tasks.Tasks, id: nat, failures: nat, results: seq<bool>)
    requires Named(t)
    ensures NamedOn(t, RequestState(t, id, failures, results)) && NamedOn(t, TunnelLost(MoveHeartbeat(t, id, Sleeping(results))))
  {
    RoutinesKeepNames(MoveHeartbeat(t, id, Sleeping(results)));
  }

  lemma HeartbeatKeepsNames(t: Tasks.Tasks, event: Event)
    requires Named(t) && Enabled(t, event) && (event.HeartbeatWakes? || event.StateResponse?)
    ensures NamedOn(t, Tasks.Step(t, event))
  {
    if event.HeartbeatWakes? {
      RequestStateKeepsNames(t, event.id, 0, t.heartbeats[event.id].results);
    } else {
      var failures, results := t.heartbeats[event.id].failures, t.heartbeats[event.id].results + [event.success];
      RequestStateKeepsNames(t, event.id, failures + 1, results);
    }
  }

  lemma LossKeepsNames(t: Tasks.Tasks, event: Event)
    requires Named(t) && Enabled(t, event) && (event.DisconnectRequestArrives? || event.TimerFires? || event.SendFailedTwice?)
    ensures NamedOn(t, Tasks.Step(t, event))
  {
    if event.DisconnectRequestArrives? {
      RoutinesKeepNames(if event.ownChannel then t.(channel := false) else t);
    } else if event.TimerFires? {
      RoutinesKeepNames(t.(timers := t.timers - {event.id}, invalidSequenceTask := None));
    } else {
      RoutinesKeepNames(t);
    }
  }

  lemma ReceptionKeepsNames(t: Tasks.Tasks, counter: nat)
    requires Named(t)
    ensures NamedOn(t, RequestReceived(t, counter))
  {
    match Tunnel.Receive(t.expected, counter)
    case Deliver => assert RequestReceived(t, counter).reconnects == t.reconnects;
    case AcknowledgeAgain =>
    case Drop => assert ArmTimer(t).reconnects == t.reconnects;
  }

  lemma ReconnectKeepsNames(t: Tasks.Tasks, event: Event)
    requires Named(t) && Enabled(t, event) && OfReconnect(event)
    ensures t.reconnectTask == Some(event.id)
    ensures if event.ReconnectDone? then Named(Tasks.Step(t, event)) && Tasks.Step(t, event).reconnectTask.None?
            else NamedOn(t, Tasks.Step(t, event))
  {
    if event.ReconnectRuns? {
      RoutinesKeepNames(t);
    }
  }

  lemma UserKeepsNames(t: Tasks.Tasks, event: Event)
    requires Named(t) && Enabled(t, event)
    requires event.UserConnects? || event.UserConnectEnds? || event.UserDisconnects? || event.UserDisconnectEnds? || event.SendEnds?
    ensures NamedOn(t, Tasks.Step(t, event))
  {
    if event.UserDisconnects? {
      RoutinesKeepNames(t);
    }
  }

  /** The reconnect that is pending stays pending until its callbacks run. */
  lemma TunnelStepKeepsNames(t: Tasks.Tasks, event: Event)
    requires Named(t) && Enabled(t, event)
    ensures if event.ReconnectDone? then t.reconnectTask == Some(event.id) && Named(Tasks.Step(t, event)) && Tasks.Step(t, event).reconnectTask.None?
            else NamedOn(t, Tasks.Step(t, event))
  {
    if event.HeartbeatWakes? || event.StateResponse? {
      HeartbeatKeepsNames(t, event);
    } else if OfReconnect(event) {
      ReconnectKeepsNames(t, event);
    } else if event.DisconnectRequestArrives? || event.TimerFires? || event.SendFailedTwice? {
      LossKeepsNames(t, event);
    } else if event.TunnellingRequestArrives? {
      ReceptionKeepsNames(t, event.counter);
    } else {
      UserKeepsNames(t, event);
    }
  }

  lemma TransmitKeepsNames(j: Joint, attempt: nat)
    requires Named(j.tasks) && j.sends > 0 && 1 <= attempt <= 3
    ensures SenderNamed(Transmit(j, attempt)) && Named(Transmit(j, attempt).tasks)
    ensures SenderNamed(End(j, true)) && Named(End(j, true).tasks) && SenderNamed(End(j, false)) && Named(End(j, false).tasks)
  {
    RoutinesKeepNames(j.tasks);
  }

  lemma GiveUpKeepsNames(j: Joint)
    requires Named(j.tasks) && j.sends > 0
    ensures SenderNamed(GiveUp(j)) && Named(GiveUp(j).tasks)
  {
    RoutinesKeepNames(j.tasks);
    var lost := if j.tasks.reconnectTask.None? then Moved(j, TunnelLost(j.tasks)) else j;
    TransmitKeepsNames(lost, 3);
  }

  lemma TryKeepsNames(j: Joint, attempt: nat)
    requires Named(j.tasks) && j.sends > 0 && 1 <= attempt <= 3
    ensures SenderNamed(Try(j, attempt)) && Named(Try(j, attempt).tasks)
  {
    TransmitKeepsNames(j, attempt);
    GiveUpKeepsNames(j);
  }

  lemma ResumeKeepsNames(j: Joint, cancelled: bool)
    requires Named(j.tasks) && j.sends > 0 && (j.sender.AwaitingReady? || j.sender.AwaitingReconnect?)
    ensures SenderNamed(Resume(j, cancelled)) && Named(Resume(j, cancelled).tasks)
  {
    TryKeepsNames(j, 1);
    TransmitKeepsNames(j, 3);
  }

  lemma TunnelEventKeepsNames(j: Joint, event: Event)
    requires SenderNamed(j) && Named(j.tasks) && Enabled(j.tasks, event)
    ensures SenderNamed(AfterTunnelEvent(j, event)) && Named(AfterTunnelEvent(j, event).tasks)
  {
    TunnelStepKeepsNames(j.tasks, event);
    if event.ReconnectDone? && Awaits(j.sender, event.id) {
      ResumeKeepsNames(Moved(j, Tasks.Step(j.tasks, event)).(unsettled := false), j.tasks.reconnects[event.id].Cancelled?);
    }
  }

  lemma StepKeepsNames(j: Joint, e: JointEvent)
    requires SenderNamed(j) && Named(j.tasks) && Can(j, e)
    ensures SenderNamed(Next(j, e)) && Named(Next(j, e).tasks)
  {
    match e
    case OfTunnel(event) => TunnelEventKeepsNames(j, event);
    case SendBegins => TryKeepsNames(j.(sends := j.sends + 1, tried := false), 1);
    case TryAcked => TransmitKeepsNames(j, 1);
    case TryFails =>
      TransmitKeepsNames(j, 3);
      TryKeepsNames(j, 2);
      GiveUpKeepsNames(j);
  }

  /** The next request on a connection is a repeat, or the first try of the next send, with the next place. */
  predicate Continues(r: Request, q: Request) {
    || (q.send == r.send && q.attempt == r.attempt + 1 && q.place == r.place)
    || (q.send == r.send + 1 && q.attempt == 1 && q.place == r.place + 1)
  }

  /** The requests of the connection, from the first on; a third try can only be the first of them. */
  predicate LogInOrder(log: seq<Request>, late: bool) {
    && (log != [] ==> log[0].place == if late then 1 else 0)
    && (forall i :: 0 <= i < |log| ==> log[i].counter == log[i].place % 256 && (log[i].attempt == 3 ==> i == 0))
    && (forall i :: 0 <= i < |log| - 1 ==> Continues(log[i], log[i + 1]))
  }

  /** While the connection is up the log agrees with the sender and the counter. */
  predicate Current(j: Joint) {
    j.up ==>
      if j.log == [] then j.tasks.ended == (if j.late then 1 else 0)
      else
        var last := j.log[|j.log| - 1];
        if j.tried then j.tasks.ended == last.place
        else
          && j.tasks.ended == last.place + 1
          && (j.sender.Free? || j.sender.AwaitingReady?)
          && last.send + 1 == (if j.sender.Free? then j.sends else j.sends - 1)
  }

  /** What the sender has sent on the current connection. */
  predicate Progress(j: Joint) {
    && (j.tried ==>
          && j.log != [] && j.log[|j.log| - 1].send + 1 == j.sends
          && (j.sender.Trying? || j.sender.AwaitingReconnect?)
          && (j.sender.Trying? ==> j.log[|j.log| - 1].attempt == j.sender.attempt)
          && (Ending(j.tasks) ==> j.unsettled))
    && ((j.sender.Trying? || j.sender.AwaitingReconnect?) && !j.tried && j.up ==> j.log == [] && !j.late)
    && (j.sender.AwaitingReconnect? && Ending(j.tasks) ==> !j.tried && j.log == [] && !j.late && j.tasks.ended == 0)
  }

  predicate Invariant(j: Joint) {
    && SenderNamed(j) && Named(j.tasks) && j.tasks.sequenceNumber == j.tasks.ended % 256
    && (j.up ==> j.tasks.channel && j.tasks.transportOpen) && (j.tried ==> j.up)
    && LogInOrder(j.log, j.late) && Current(j) && Progress(j)
  }

  lemma LogAppend(log: seq<Request>, late: bool, q: Request)
    requires LogInOrder(log, late) && q.counter == q.place % 256 && (q.attempt == 3 ==> log == [])
    requires if log == [] then q.place == (if late then 1 else 0) else Continues(log[|log| - 1], q)
    ensures LogInOrder(log + [q], late)
  {
  }

  lemma LateOfNothing(log: seq<Request>, late: bool)
    requires LogInOrder(log, late) && log == []
    ensures LogInOrder(log, true)
  {
  }

  /** Everything but the names, which a reconnect that has just ended breaks until the sender goes on. */
  predicate Numbers(j: Joint) {
    && j.sends > 0 && Named(j.tasks) && j.tasks.sequenceNumber == j.tasks.ended % 256 && LogInOrder(j.log, j.late)
    && (j.up ==> j.tasks.channel && j.tasks.transportOpen) && (j.tried ==> j.up)
  }

  lemma EndKeeps(j: Joint, ok: bool)
    requires Numbers(j) && Current(j) && Progress(j)
    requires j.up ==> !j.sender.Free? && !j.sender.AwaitingReady?
    ensures Invariant(End(j, ok))
  {
    NextCounts(j.tasks.ended);
    RoutinesKeepNames(j.tasks);
    if j.up && !j.tried {
      LateOfNothing(j.log, j.late);
    }
  }

  /** Where a request goes that is sent next, if the connection is up. */
  predicate MayTry(j: Joint, attempt: nat) {
    && Numbers(j) && 1 <= attempt <= 3
    && (j.up ==>
          if j.log == [] then j.tasks.ended == (if j.late then 1 else 0)
          else
            var last := j.log[|j.log| - 1];
            && attempt < 3
            && Continues(last, Request(j.sends - 1, attempt, j.tasks.sequenceNumber, j.tasks.ended)))
  }

  lemma TransmitKeeps(j: Joint, attempt: nat)
    requires MayTry(j, attempt)
    ensures Invariant(Transmit(j, attempt))
  {
    if j.up {
      LogAppend(j.log, j.late, Request(j.sends - 1, attempt, j.tasks.sequenceNumber, j.tasks.ended));
    } else if !j.tasks.channel || !j.tasks.transportOpen {
      NextCounts(j.tasks.ended);
      RoutinesKeepNames(j.tasks);
    }
  }

  lemma LossLeavesChannel(t: Tasks.Tasks)
    requires Named(t) && t.reconnectTask.None?
    ensures var t' := TunnelLost(t);
            && Named(t') && !Ending(t') && SameCounters(t, t') && t'.channel == t.channel
            && (t.autoReconnect ==> t'.transportOpen == t.transportOpen)
            && (t'.reconnectTask.None? <==> !t.autoReconnect) && (!t.autoReconnect ==> !t'.transportOpen)
  {
    RoutinesKeepNames(t);
    RoutinesLeaveCounters(t);
  }

  /** Two tries have failed: both on a connection that is not up, or the second with an answer that could come. */
  lemma GiveUpKeeps(j: Joint)
    requires Numbers(j) && (j.up ==> Current(j) && Progress(j) && j.sender == Trying(2) && CanEndTry(j))
    ensures Invariant(GiveUp(j))
  {
    if j.tasks.reconnectTask.None? {
      LossLeavesChannel(j.tasks);
      var lost := Moved(j, TunnelLost(j.tasks));
      if lost.tasks.reconnectTask.None? {
        NextCounts(j.tasks.ended);
        RoutinesKeepNames(lost.tasks);
      }
    } else if Ending(j.tasks) {
      TransmitKeeps(j, 3);
    }
  }

  lemma TryKeeps(j: Joint, attempt: nat)
    requires MayTry(j, attempt)
    ensures Invariant(Try(j, attempt))
  {
    if j.tasks.channel && !j.tasks.transportOpen && attempt < 3 {
      GiveUpKeeps(j);
    } else {
      TransmitKeeps(j, attempt);
    }
  }

  lemma BeginKeeps(j: Joint)
    requires Invariant(j) && j.sender.Free?
    ensures Invariant(Begin(j))
  {
    var begun := j.(sends := j.sends + 1, tried := false);
    if !(j.tasks.reconnectTask.Some? && !Ending(j.tasks)) {
      assert MayTry(begun, 1);
      TryKeeps(begun, 1);
    }
  }

  lemma ResumeKeeps(j: Joint, id: nat, cancelled: bool)
    requires Invariant(j) && Awaits(j.sender, id) && Enabled(j.tasks, ReconnectDone(id))
    requires cancelled <==> j.tasks.reconnects[id].Cancelled?
    ensures Invariant(Resume(Moved(j, Tasks.Step(j.tasks, ReconnectDone(id))).(unsettled := false), cancelled))
  {
    var reaped := Moved(j, Tasks.Step(j.tasks, ReconnectDone(id))).(unsettled := false);
    assert Named(reaped.tasks);
    if j.sender.AwaitingReady? {
      TryKeeps(reaped, 1);
    } else if cancelled {
      EndKeeps(reaped, false);
    } else {
      TransmitKeeps(reaped, 3);
    }
  }

  /** Only an establishment ends a reconnect with success or resets the counter. */
  predicate Calm(t: Tasks.Tasks, t': Tasks.Tasks) {
    && (Ending(t') ==> Ending(t))
    && t'.ended == t.ended && t'.sequenceNumber == t.sequenceNumber
  }

  lemma LossIsCalm(t: Tasks.Tasks)
    requires Named(t)
    ensures Calm(t, TunnelLost(t)) && Calm(t, PrepareDisconnect(t)) && Calm(t, CancelTimer(t)) && Calm(t, ArmTimer(t))
  {
    RoutinesLeaveCounters(t);
  }

  lemma HeartbeatIsCalm(t: Tasks.Tasks, event: Event)
    requires Named(t) && Enabled(t, event) && (event.HeartbeatWakes? || event.StateResponse?)
    ensures Calm(t, Tasks.Step(t, event))
  {
    HeartbeatLeavesCounters(t, event);
    var results := t.heartbeats[event.id].results + (if event.StateResponse? then [event.success] else []);
    assert t.heartbeats[event.id].results + [] == t.heartbeats[event.id].results;
    LossIsCalm(MoveHeartbeat(t, event.id, Sleeping(results)));
  }

  lemma ReceptionIsCalm(t: Tasks.Tasks, counter: nat)
    requires Named(t)
    ensures Calm(t, RequestReceived(t, counter))
  {
    match Tunnel.Receive(t.expected, counter)
    case Deliver => LossIsCalm(t.(expected := Tunnel.NextCounter(t.expected), taken := t.taken + 1));
    case AcknowledgeAgain =>
    case Drop => LossIsCalm(t);
  }

  lemma LossEventIsCalm(t: Tasks.Tasks, event: Event)
    requires Named(t) && Enabled(t, event) && (event.DisconnectRequestArrives? || event.TimerFires?)
    ensures Calm(t, Tasks.Step(t, event))
  {
    if event.DisconnectRequestArrives? {
      LossIsCalm(if event.ownChannel then t.(channel := false) else t);
    } else {
      LossIsCalm(t.(timers := t.timers - {event.id}, invalidSequenceTask := None));
    }
  }

  lemma ReconnectIsCalm(t: Tasks.Tasks, event: Event)
    requires Named(t) && Enabled(t, event) && OfReconnect(event) && !Establishes(event) && !event.ReconnectDone?
    ensures Calm(t, Tasks.Step(t, event))
  {
    if event.ReconnectRuns? {
      LossIsCalm(t);
    }
    ReconnectKeepsNames(t, event);
  }

  lemma UserIsCalm(t: Tasks.Tasks, event: Event)
    requires Named(t) && Enabled(t, event) && !Establishes(event)
    requires event.UserConnects? || event.UserConnectEnds? || event.UserDisconnects? || event.UserDisconnectEnds?
    ensures Calm(t, Tasks.Step(t, event))
  {
    if event.UserDisconnects? {
      LossIsCalm(t);
    }
  }

  lemma TunnelEventIsCalm(t: Tasks.Tasks, event: Event)
    requires Named(t) && Enabled(t, event) && !Establishes(event) && !event.ReconnectDone? && !event.SendEnds? && !event.SendFailedTwice?
    ensures Calm(t, Tasks.Step(t, event))
  {
    if event.HeartbeatWakes? || event.StateResponse? {
      HeartbeatIsCalm(t, event);
    } else if event.DisconnectRequestArrives? || event.TimerFires? {
      LossEventIsCalm(t, event);
    } else if event.TunnellingRequestArrives? {
      ReceptionIsCalm(t, event.counter);
    } else if OfReconnect(event) {
      ReconnectIsCalm(t, event);
    } else {
      UserIsCalm(t, event);
    }
  }

  lemma EstablishedCounter(t: Tasks.Tasks, event: Event)
    requires Enabled(t, event) && Establishes(event)
    ensures var t' := Tasks.Step(t, event); t'.ended == 0 && t'.sequenceNumber == 0 && t'.channel
  {
  }

  lemma EstablishmentKeeps(j: Joint, event: Event)
    requires Invariant(j) && Can(j, OfTunnel(event)) && Establishes(event)
    ensures Invariant(AfterTunnelEvent(j, event))
  {
    TunnelEventKeepsNames(j, event);
    EstablishedCounter(j.tasks, event);
  }

  lemma CalmMoveKeeps(j: Joint, t: Tasks.Tasks)
    requires Invariant(j) && Calm(j.tasks, t) && NamedOn(j.tasks, t)
    ensures Invariant(Moved(j, t))
  {
  }

  /** The callbacks of a reconnect that nobody waits for. */
  lemma ReapingKeeps(j: Joint, id: nat)
    requires Invariant(j) && Can(j, OfTunnel(ReconnectDone(id))) && !Awaits(j.sender, id)
    ensures Invariant(AfterTunnelEvent(j, ReconnectDone(id)))
  {
    TunnelEventKeepsNames(j, ReconnectDone(id));
  }

  lemma TunnelEventKeeps(j: Joint, event: Event)
    requires Invariant(j) && Can(j, OfTunnel(event))
    ensures Invariant(AfterTunnelEvent(j, event))
  {
    if Establishes(event) {
      EstablishmentKeeps(j, event);
    } else if !event.ReconnectDone? {
      TunnelEventIsCalm(j.tasks, event);
      TunnelStepKeepsNames(j.tasks, event);
      CalmMoveKeeps(j, Tasks.Step(j.tasks, event));
    } else if Awaits(j.sender, event.id) {
      ResumeKeeps(j, event.id, j.tasks.reconnects[event.id].Cancelled?);
    } else {
      ReapingKeeps(j, event.id);
    }
  }

  lemma StepKeeps(j: Joint, e: JointEvent)
    requires Invariant(j) && Can(j, e)
    ensures Invariant(Next(j, e))
  {
    match e
    case OfTunnel(event) => TunnelEventKeeps(j, event);
    case SendBegins => BeginKeeps(j);
    case TryAcked => EndKeeps(j, true);
    case TryFails =>
      if j.sender.attempt == 1 {
        TryKeeps(j, 2);
      } else if j.sender.attempt == 2 {
        GiveUpKeeps(j);
      } else {
        EndKeeps(j, false);
      }
  }

  lemma {:induction false} RunKeeps(j: Joint, run: seq<JointEvent>)
    requires Invariant(j) && Legal(j, run)
    ensures Invariant(Exec(j, run))
    decreases |run|
  {
    if run != [] {
      StepKeeps(j, run[0]);
      StepKeepsNames(j, run[0]);
      RunKeeps(Next(j, run[0]), run[1..]);
    }
  }

  // ----------------------------------------------------------------- main results

  lemma {:induction false} PlacesFollowSends(log: seq<Request>, late: bool, i: nat)
    requires LogInOrder(log, late) && i < |log|
    ensures log[i].send >= log[0].send && log[i].place == log[i].send - log[0].send + (if late then 1 else 0)
    decreases i
  {
    if i > 0 {
      PlacesFollowSends(log, late, i - 1);
      assert Continues(log[i - 1], log[(i - 1) + 1]);
    }
  }

  /**
   After every run of sends, reconnects, timers and heartbeats: the requests of the current
   connection belong to consecutive sends, each with its own counter, counted from zero, or
   from one exactly after a late end. A third try is the first request of its connection.
   */
  lemma CountersOnConnection(autoReconnect: bool, run: seq<JointEvent>, i: nat)
    requires Legal(Start(autoReconnect), run)
    requires i < |Exec(Start(autoReconnect), run).log|
    ensures var j := Exec(Start(autoReconnect), run);
            && j.log[0].send <= j.log[i].send
            && j.log[i].counter == (j.log[i].send - j.log[0].send + if j.late then 1 else 0) % 256
            && (j.log[i].attempt == 3 ==> i == 0)
            && (i > 0 && j.log[i].send == j.log[i - 1].send ==> j.log[i].attempt == j.log[i - 1].attempt + 1)
  {
    RunKeeps(Start(autoReconnect), run);
    var j := Exec(Start(autoReconnect), run);
    PlacesFollowSends(j.log, j.late, i);
    if i > 0 {
      assert Continues(j.log[i - 1], j.log[(i - 1) + 1]);
    }
  }

  /** The counters of the connection start from zero and go up with the sends, as the server expects them. */
  predicate InSequence(log: seq<Request>) {
    forall i :: 0 <= i < |log| ==> log[i].send >= log[0].send && log[i].counter == (log[i].send - log[0].send) % 256
  }

  /**
   On every run the requests of the current connection carry the counters that the server
   expects exactly unless one of them follows a late end: a send that was under way when the
   connection was established and ended without a request on it.
   */
  lemma InSequenceIff(autoReconnect: bool, run: seq<JointEvent>)
    requires Legal(Start(autoReconnect), run)
    ensures var j := Exec(Start(autoReconnect), run); InSequence(j.log) <==> !(j.late && j.log != [])
  {
    RunKeeps(Start(autoReconnect), run);
    var j := Exec(Start(autoReconnect), run);
    forall i | 0 <= i < |j.log| && !j.late
      ensures j.log[i].send >= j.log[0].send && j.log[i].counter == (j.log[i].send - j.log[0].send) % 256
    {
      PlacesFollowSends(j.log, j.late, i);
    }
  }

  lemma TriesAreNotLate(j: Joint, attempt: nat)
    requires j.sends > 0 && Named(j.tasks) && (j.up ==> j.tasks.channel && j.tasks.transportOpen)
    ensures Transmit(j, attempt).late == j.late && GiveUp(j).late == j.late && Try(j, attempt).late == j.late
  {
    if j.tasks.reconnectTask.None? {
      LossLeavesChannel(j.tasks);
    }
  }

  lemma TunnelEndsLateIff(j: Joint, event: Event)
    requires Invariant(j) && Can(j, OfTunnel(event))
    ensures Next(j, OfTunnel(event)).late && !j.late <==>
              && j.up && !j.tried && j.log == []
              && event.ReconnectDone? && j.sender == AwaitingReconnect(event.id) && j.tasks.reconnects[event.id].Cancelled?
  {
    if event.ReconnectDone? && Awaits(j.sender, event.id) {
      TunnelStepKeepsNames(j.tasks, event);
      var reaped := Moved(j, Tasks.Step(j.tasks, event)).(unsettled := false);
      TriesAreNotLate(reaped, 1);
      TriesAreNotLate(reaped, 3);
    }
  }

  lemma SenderEndsLateIff(j: Joint, e: JointEvent)
    requires Invariant(j) && Can(j, e) && !e.OfTunnel?
    ensures Next(j, e).late && !j.late <==> j.up && !j.tried && j.log == [] && (e.TryAcked? || (e.TryFails? && j.sender.attempt == 3))
  {
    if e.SendBegins? {
      TriesAreNotLate(j.(sends := j.sends + 1, tried := false), 1);
    } else {
      TriesAreNotLate(j, 2);
    }
  }

  /** Which steps end a send late. */
  lemma EndsLateIff(autoReconnect: bool, run: seq<JointEvent>, e: JointEvent)
    requires Legal(Start(autoReconnect), run) && Can(Exec(Start(autoReconnect), run), e)
    ensures var j := Exec(Start(autoReconnect), run);
            Next(j, e).late && !j.late <==>
              && j.up && !j.tried && j.log == []
              && match e
                 case TryAcked => true
                 case TryFails => j.sender.attempt == 3
                 case OfTunnel(event) => event.ReconnectDone? && j.sender == AwaitingReconnect(event.id) && j.tasks.reconnects[event.id].Cancelled?
                 case SendBegins => false
  {
    RunKeeps(Start(autoReconnect), run);
    if e.OfTunnel? {
      TunnelEndsLateIff(Exec(Start(autoReconnect), run), e.event);
    } else {
      SenderEndsLateIff(Exec(Start(autoReconnect), run), e);
    }
  }

  /** A send that waits for a reconnect waits for the one that is pending. */
  lemma AwaitsTheReconnect(autoReconnect: bool, run: seq<JointEvent>)
    requires Legal(Start(autoReconnect), run)
    ensures var j := Exec(Start(autoReconnect), run);
            j.sender.AwaitingReady? || j.sender.AwaitingReconnect? ==>
              j.tasks.reconnectTask == Some(j.sender.id) && j.tasks.reconnects.Keys == {j.sender.id}
  {
  }

  // --------------------------------------------------------------- no deadlock

  /** What a reconnect still needs, when the server answers. */
  function Rank(p: ReconnectPhase): nat {
    match p
    case Scheduled => 5
    case Disconnecting => 4
    case Waiting => 4
    case Connecting => 3
    case AwaitingConnectResponse => 2
    case Finished => 1
    case Cancelled => 1
  }

  /** What a send still needs, when the server answers. */
  function Distance(j: Joint): nat
    requires SenderNamed(j) && Named(j.tasks)
  {
    match j.sender
    case Free => 0
    case Trying(_) => if CanEndTry(j) then 1 else 2
    case AwaitingReady(id) => Rank(j.tasks.reconnects[id]) + 7
    case AwaitingReconnect(id) => Rank(j.tasks.reconnects[id]) + 1
  }

  function ReconnectEvent(p: ReconnectPhase, id: nat): Event {
    match p
    case Scheduled => ReconnectRuns(id)
    case Disconnecting => DisconnectEnds(id)
    case Waiting => RetryAfterWait(id)
    case Connecting => TransportConnects(id, true)
    case AwaitingConnectResponse => ConnectEnds(id, true)
    case Finished => ReconnectDone(id)
    case Cancelled => ReconnectDone(id)
  }

  lemma ReconnectGoesOn(t: Tasks.Tasks, id: nat)
    requires Named(t) && t.reconnectTask == Some(id)
    ensures var event := ReconnectEvent(t.reconnects[id], id);
            && Enabled(t, event) && !event.SendEnds? && !event.SendFailedTwice?
            && if event.ReconnectDone? then Named(Tasks.Step(t, event)) && !Ending(Tasks.Step(t, event))
               else NamedOn(t, Tasks.Step(t, event)) && Rank(Tasks.Step(t, event).reconnects[id]) < Rank(t.reconnects[id])
  {
    ReconnectKeepsNames(t, ReconnectEvent(t.reconnects[id], id));
  }

  lemma Resumed(j: Joint, cancelled: bool)
    requires Named(j.tasks) && j.sends > 0 && !j.unsettled && j.tasks.reconnectTask.None?
    requires j.sender.AwaitingReady? || j.sender.AwaitingReconnect?
    ensures var j' := Resume(j, cancelled);
            && SenderNamed(j') && Named(j'.tasks)
            && Distance(j') <= (if j.sender.AwaitingReady? then 6 else 1)
  {
    ResumeKeepsNames(j, cancelled);
    LossLeavesChannel(j.tasks);
  }

  lemma CallbacksBringNearer(j: Joint, id: nat)
    requires SenderNamed(j) && Named(j.tasks) && !j.sender.Free? && !CanEndTry(j) && Can(j, OfTunnel(ReconnectDone(id)))
    ensures var j' := Next(j, OfTunnel(ReconnectDone(id))); SenderNamed(j') && Named(j'.tasks) && Distance(j') < Distance(j)
  {
    TunnelEventKeepsNames(j, ReconnectDone(id));
    TunnelStepKeepsNames(j.tasks, ReconnectDone(id));
    if !j.sender.Trying? {
      Resumed(Moved(j, Tasks.Step(j.tasks, ReconnectDone(id))).(unsettled := false), j.tasks.reconnects[id].Cancelled?);
    }
  }

  lemma ReconnectBringsNearer(j: Joint, id: nat)
    requires SenderNamed(j) && Named(j.tasks) && Awaits(j.sender, id)
    requires var event := ReconnectEvent(j.tasks.reconnects[id], id); !event.ReconnectDone? && Can(j, OfTunnel(event))
    ensures var j' := Next(j, OfTunnel(ReconnectEvent(j.tasks.reconnects[id], id)));
            SenderNamed(j') && Named(j'.tasks) && Distance(j') < Distance(j)
  {
    TunnelEventKeepsNames(j, ReconnectEvent(j.tasks.reconnects[id], id));
    ReconnectGoesOn(j.tasks, id);
  }

  lemma Nearer(j: Joint) returns (e: JointEvent)
    requires SenderNamed(j) && Named(j.tasks) && !j.sender.Free?
    ensures Can(j, e) && SenderNamed(Next(j, e)) && Named(Next(j, e).tasks) && Distance(Next(j, e)) < Distance(j)
  {
    if CanEndTry(j) {
      e := TryAcked;
      TransmitKeepsNames(j, 1);
    } else {
      var id := j.tasks.reconnectTask.value;
      ReconnectGoesOn(j.tasks, id);
      var event := ReconnectEvent(j.tasks.reconnects[id], id);
      e := OfTunnel(event);
      if event.ReconnectDone? {
        CallbacksBringNearer(j, id);
      } else {
        ReconnectBringsNearer(j, id);
      }
    }
  }

  /**
   The lock, the reconnect and the heartbeat never block each other: from every state a send
   can end within twelve steps, by events of the reconnects it waits for and an ack.
   */
  lemma {:induction false} SendCanEnd(j: Joint) returns (run: seq<JointEvent>)
    requires SenderNamed(j) && Named(j.tasks)
    ensures Legal(j, run) && Exec(j, run).sender.Free? && |run| <= Distance(j) <= 12
    decreases Distance(j)
  {
    if j.sender.Free? {
      run := [];
    } else {
      var e := Nearer(j);
      var rest := SendCanEnd(Next(j, e));
      run := [e] + rest;
      assert run[1..] == rest;
    }
  }

  // ------------------------------------------------ the tunnel's tasks on such runs

  lemma {:induction false} TasksConcat(t: Tasks.Tasks, a: seq<Event>, b: seq<Event>)
    requires Tasks.Legal(t, a) && Tasks.Legal(Tasks.Exec(t, a), b)
    ensures Tasks.Legal(t, a + b) && Tasks.Exec(t, a + b) == Tasks.Exec(Tasks.Exec(t, a), b)
    decreases |a|
  {
    if a == [] {
      assert a + b == b;
    } else {
      assert (a + b)[1..] == a[1..] + b;
      TasksConcat(Tasks.Step(t, a[0]), a[1..], b);
    }
  }

  /** These events of the tunnel's tasks lead from one state of them to the other. */
  predicate Leads(t: Tasks.Tasks, events: seq<Event>, t': Tasks.Tasks) {
    Tasks.Legal(t, events) && Tasks.Exec(t, events) == t'
  }

  lemma OneEvent(t: Tasks.Tasks, event: Event)
    requires Enabled(t, event)
    ensures Leads(t, [event], Tasks.Step(t, event))
  {
    assert [event][1..] == [];
  }

  lemma TransmitIsTasks(j: Joint, attempt: nat) returns (events: seq<Event>)
    requires j.sends > 0
    ensures Leads(j.tasks, events, Transmit(j, attempt).tasks)
  {
    OneEvent(j.tasks, SendEnds);
    events := if !j.tasks.channel || !j.tasks.transportOpen then [SendEnds] else [];
  }

  lemma GiveUpIsTasks(j: Joint) returns (events: seq<Event>)
    requires j.sends > 0
    ensures Leads(j.tasks, events, GiveUp(j).tasks)
  {
    var lost := Moved(j, TunnelLost(j.tasks));
    if j.tasks.reconnectTask.Some? {
      lost, events := j, [];
    } else {
      OneEvent(j.tasks, SendFailedTwice);
      events := [SendFailedTwice];
    }
    var rest := [];
    if lost.tasks.reconnectTask.None? {
      OneEvent(lost.tasks, SendEnds);
      rest := [SendEnds];
    } else if Ending(lost.tasks) {
      rest := TransmitIsTasks(lost, 3);
    }
    TasksConcat(j.tasks, events, rest);
    events := events + rest;
  }

  lemma TryIsTasks(j: Joint, attempt: nat) returns (events: seq<Event>)
    requires j.sends > 0
    ensures Leads(j.tasks, events, Try(j, attempt).tasks)
  {
    if j.tasks.channel && !j.tasks.transportOpen && attempt < 3 {
      events := GiveUpIsTasks(j);
    } else {
      events := TransmitIsTasks(j, attempt);
    }
  }

  lemma TunnelEventIsTasks(j: Joint, event: Event) returns (events: seq<Event>)
    requires Can(j, OfTunnel(event))
    ensures Leads(j.tasks, events, AfterTunnelEvent(j, event).tasks)
  {
    OneEvent(j.tasks, event);
    events := [event];
    if event.ReconnectDone? && Awaits(j.sender, event.id) && j.sends > 0 {
      var reaped := Moved(j, Tasks.Step(j.tasks, event)).(unsettled := false);
      var rest;
      if j.sender.AwaitingReady? {
        rest := TryIsTasks(reaped, 1);
      } else if j.tasks.reconnects[event.id].Cancelled? {
        OneEvent(reaped.tasks, SendEnds);
        rest := [SendEnds];
      } else {
        rest := TransmitIsTasks(reaped, 3);
      }
      TasksConcat(j.tasks, events, rest);
      events := events + rest;
    }
  }

  lemma StepIsTasks(j: Joint, e: JointEvent) returns (events: seq<Event>)
    requires SenderNamed(j) && Can(j, e)
    ensures Leads(j.tasks, events, Next(j, e).tasks)
  {
    OneEvent(j.tasks, SendEnds);
    if e.OfTunnel? {
      events := TunnelEventIsTasks(j, e.event);
    } else if e.SendBegins? {
      if j.tasks.reconnectTask.Some? && !Ending(j.tasks) {
        events := [];
      } else {
        events := TryIsTasks(j.(sends := j.sends + 1, tried := false), 1);
      }
    } else if e.TryAcked? || j.sender.attempt == 3 {
      events := [SendEnds];
    } else if j.sender.attempt == 1 {
      events := TryIsTasks(j, 2);
    } else {
      events := GiveUpIsTasks(j);
    }
  }

  /** On every run the tunnel's tasks make a run of their own, so that every result about those holds. */
  lemma {:induction false} RunIsTasks(j: Joint, run: seq<JointEvent>) returns (events: seq<Event>)
    requires SenderNamed(j) && Named(j.tasks) && Legal(j, run)
    ensures Leads(j.tasks, events, Exec(j, run).tasks)
    decreases |run|
  {
    if run == [] {
      events := [];
    } else {
      StepKeepsNames(j, run[0]);
      var first := StepIsTasks(j, run[0]);
      var rest := RunIsTasks(Next(j, run[0]), run[1..]);
      events := first + rest;
      TasksConcat(j.tasks, first, rest);
    }
  }

  // ------------------------------------------------------------- dropped sends

  /** The step ends the send under way without an ack, or begins one and ends it at once. */
  predicate Drops(j: Joint, e: JointEvent)
    requires SenderNamed(j) && Can(j, e)
  {
    Next(j, e).sender.Free? && (e.SendBegins? || !j.sender.Free?) && !e.TryAcked?
  }

  /** The field names a reconnect that has neither succeeded nor been cancelled. */
  predicate Pending(t: Tasks.Tasks) {
    && t.reconnectTask.Some? && t.reconnectTask.value in t.reconnects
    && !t.reconnects[t.reconnectTask.value].Finished? && !t.reconnects[t.reconnectTask.value].Cancelled?
  }

  /** A first or second try is hopeless without a channel, and on a closed transport with no reconnect to come. */
  predicate Hopeless(t: Tasks.Tasks) {
    !t.channel || (!t.transportOpen && if t.reconnectTask.None? then !t.autoReconnect else Ending(t))
  }

  /** Why a send is dropped: the state of the tunnel at the end of a try, or of the reconnect that was awaited. */
  predicate MustDrop(j: Joint, e: JointEvent)
    requires Can(j, e)
  {
    match e
    case SendBegins => (j.tasks.reconnectTask.None? || Ending(j.tasks)) && Hopeless(j.tasks)
    case TryAcked => false
    case TryFails =>
      if j.sender.attempt == 1 then Hopeless(j.tasks)
      else if j.sender.attempt == 2 then
        if j.tasks.reconnectTask.None? then !j.tasks.autoReconnect
        else Ending(j.tasks) && (!j.tasks.channel || !j.tasks.transportOpen)
      else true
    case OfTunnel(event) =>
      if !event.ReconnectDone? then false
      else if j.sender == AwaitingReady(event.id) then
        !j.tasks.channel || (!j.tasks.transportOpen && !j.tasks.autoReconnect)
      else
        && j.sender == AwaitingReconnect(event.id)
        && (j.tasks.reconnects[event.id].Cancelled? || !j.tasks.channel || !j.tasks.transportOpen)
  }

  lemma TryEndsIff(j: Joint, attempt: nat)
    requires Named(j.tasks) && j.sends > 0
    ensures GiveUp(j).sender.Free? <==>
              if j.tasks.reconnectTask.None? then !j.tasks.autoReconnect
              else Ending(j.tasks) && (!j.tasks.channel || !j.tasks.transportOpen)
    ensures attempt < 3 ==> (Try(j, attempt).sender.Free? <==> Hopeless(j.tasks))
  {
    if j.tasks.reconnectTask.None? {
      LossLeavesChannel(j.tasks);
    }
  }

  /** Only an ack adds to what has returned. */
  predicate SameHistory(j: Joint, j': Joint) {
    j'.sends == j.sends && j'.returned == j.returned
  }

  lemma GiveUpKeepsHistory(j: Joint, attempt: nat)
    requires j.sends > 0
    ensures SameHistory(j, Transmit(j, attempt)) && SameHistory(j, GiveUp(j))
  {
    var lost := if j.tasks.reconnectTask.None? then Moved(j, TunnelLost(j.tasks)) else j;
    assert SameHistory(j, lost);
    assert SameHistory(lost, Transmit(lost, 3)) && SameHistory(j, Transmit(j, attempt));
  }

  lemma TriesKeepHistory(j: Joint, attempt: nat)
    requires j.sends > 0
    ensures SameHistory(j, Transmit(j, attempt)) && SameHistory(j, GiveUp(j)) && SameHistory(j, Try(j, attempt))
  {
    GiveUpKeepsHistory(j, attempt);
  }

  /** The end of the reconnect that the sender awaits. */
  lemma ResumeDropsIff(j: Joint, id: nat)
    requires SenderNamed(j) && Named(j.tasks) && Can(j, OfTunnel(ReconnectDone(id))) && Awaits(j.sender, id)
    ensures Drops(j, OfTunnel(ReconnectDone(id))) <==> MustDrop(j, OfTunnel(ReconnectDone(id)))
    ensures SameHistory(j, Next(j, OfTunnel(ReconnectDone(id))))
  {
    TunnelStepKeepsNames(j.tasks, ReconnectDone(id));
    var reaped := Moved(j, Tasks.Step(j.tasks, ReconnectDone(id))).(unsettled := false);
    if j.sender.AwaitingReady? {
      TryEndsIff(reaped, 1);
      TriesKeepHistory(reaped, 1);
    } else {
      GiveUpKeepsHistory(reaped, 3);
    }
  }

  /** When a tunnel event ends a send, and what it leaves alone. */
  lemma TunnelDropsIff(j: Joint, event: Event)
    requires SenderNamed(j) && Named(j.tasks) && Can(j, OfTunnel(event))
    ensures Drops(j, OfTunnel(event)) <==> MustDrop(j, OfTunnel(event))
    ensures SameHistory(j, Next(j, OfTunnel(event)))
    ensures j.sender.Free? ==> Next(j, OfTunnel(event)).sender.Free?
  {
    if event.ReconnectDone? && Awaits(j.sender, event.id) {
      ResumeDropsIff(j, event.id);
    }
  }

  lemma SenderDropsIff(j: Joint, e: JointEvent)
    requires SenderNamed(j) && Named(j.tasks) && Can(j, e) && !e.OfTunnel?
    ensures Drops(j, e) <==> MustDrop(j, e)
    ensures var j' := Next(j, e);
            && j'.sends == j.sends + (if e.SendBegins? then 1 else 0)
            && j'.returned == j.returned + (if e.TryAcked? then {j.sends - 1} else {})
            && (e.TryAcked? ==> j'.sender.Free?)
  {
    if e.SendBegins? {
      var begun := j.(sends := j.sends + 1, tried := false);
      TryEndsIff(begun, 1);
      TriesKeepHistory(begun, 1);
    } else {
      TryEndsIff(j, 2);
      TriesKeepHistory(j, 2);
    }
  }

  /** On every run and for every step: exactly when it drops a send. */
  lemma DroppedIff(autoReconnect: bool, run: seq<JointEvent>, e: JointEvent)
    requires Legal(Start(autoReconnect), run) && Can(Exec(Start(autoReconnect), run), e)
    ensures var j := Exec(Start(autoReconnect), run); Drops(j, e) <==> MustDrop(j, e)
  {
    var j := Exec(Start(autoReconnect), run);
    if e.OfTunnel? {
      TunnelDropsIff(j, e.event);
    } else {
      SenderDropsIff(j, e);
    }
  }

  /**
   While a reconnect is pending a send is dropped exactly when its first try fails and the
   channel is gone, or when its third try fails: it is not always kept until the reconnect.
   */
  lemma DroppedWhilePendingIff(autoReconnect: bool, run: seq<JointEvent>, e: JointEvent)
    requires Legal(Start(autoReconnect), run) && Can(Exec(Start(autoReconnect), run), e)
    requires Pending(Exec(Start(autoReconnect), run).tasks)
    ensures var j := Exec(Start(autoReconnect), run);
            Drops(j, e) <==> e.TryFails? && ((j.sender.attempt == 1 && !j.tasks.channel) || j.sender.attempt == 3)
  {
    DroppedIff(autoReconnect, run, e);
  }

  /** The send that meets a reason to be dropped in this step. */
  function DroppedBy(j: Joint, e: JointEvent): set<nat>
    requires SenderNamed(j) && Can(j, e)
  {
    if MustDrop(j, e) then {if e.SendBegins? then j.sends else j.sends - 1} else {}
  }

  /** The sends that met a reason to be dropped. */
  function Dropped(j: Joint, run: seq<JointEvent>): set<nat>
    requires SenderNamed(j) && Named(j.tasks) && Legal(j, run)
    decreases |run|
  {
    if run == [] then {}
    else
      StepKeepsNames(j, run[0]);
      DroppedBy(j, run[0]) + Dropped(Next(j, run[0]), run[1..])
  }

  /** A reconnect is pending from the beginning to the end of the run. */
  predicate StaysPending(j: Joint, run: seq<JointEvent>)
    requires SenderNamed(j) && Named(j.tasks) && Legal(j, run)
    decreases |run|
  {
    Pending(j.tasks) && (run == [] || (StepKeepsNames(j, run[0]); StaysPending(Next(j, run[0]), run[1..])))
  }

  lemma PendingStep(j: Joint, e: JointEvent)
    requires SenderNamed(j) && Named(j.tasks) && Can(j, e) && Pending(j.tasks)
    ensures var j' := Next(j, e);
            if !j.sender.Trying? then !MustDrop(j, e) && !j'.sender.Trying?
            else if MustDrop(j, e) then j'.sender.Free?
            else j'.sender.Trying? ==> j'.sends == j.sends
  {
    if e.OfTunnel? {
      TunnelDropsIff(j, e.event);
    } else {
      SenderDropsIff(j, e);
    }
  }

  /**
   While a reconnect is pending nothing is dropped but, if it fails, the send whose try was under
   way when it began: whatever is sent later waits for the reconnect.
   */
  lemma {:induction false} OnlyTheTryIsDropped(j: Joint, run: seq<JointEvent>)
    requires SenderNamed(j) && Named(j.tasks) && Legal(j, run) && StaysPending(j, run)
    ensures Dropped(j, run) <= if j.sender.Trying? then {j.sends - 1} else {}
    decreases |run|
  {
    if run != [] {
      PendingStep(j, run[0]);
      StepKeepsNames(j, run[0]);
      OnlyTheTryIsDropped(Next(j, run[0]), run[1..]);
    }
  }

  /** Every send before the one under way has returned or been dropped, and none both. */
  ghost predicate Accounted(j: Joint, dropped: set<nat>) {
    && (forall k: nat :: k in j.returned + dropped <==> k + (if j.sender.Free? then 0 else 1) < j.sends)
    && j.returned !! dropped
  }

  lemma StepAccounts(j: Joint, e: JointEvent, dropped: set<nat>)
    requires SenderNamed(j) && Named(j.tasks) && Can(j, e) && Accounted(j, dropped)
    ensures Accounted(Next(j, e), dropped + DroppedBy(j, e))
  {
    if e.OfTunnel? {
      TunnelDropsIff(j, e.event);
    } else {
      SenderDropsIff(j, e);
    }
    forall k: nat
      ensures k in Next(j, e).returned + (dropped + DroppedBy(j, e)) <==> k + (if Next(j, e).sender.Free? then 0 else 1) < Next(j, e).sends
      ensures !(k in Next(j, e).returned && k in dropped + DroppedBy(j, e))
    {
      assert k in j.returned + dropped <==> k + (if j.sender.Free? then 0 else 1) < j.sends;
    }
  }

  lemma {:induction false} RunAccounts(j: Joint, run: seq<JointEvent>, dropped: set<nat>)
    requires SenderNamed(j) && Named(j.tasks) && Legal(j, run) && Accounted(j, dropped)
    ensures Accounted(Exec(j, run), dropped + Dropped(j, run))
    decreases |run|
  {
    if run == [] {
      assert dropped + Dropped(j, run) == dropped;
    } else {
      StepAccounts(j, run[0], dropped);
      StepKeepsNames(j, run[0]);
      RunAccounts(Next(j, run[0]), run[1..], dropped + DroppedBy(j, run[0]));
      assert dropped + Dropped(j, run) == dropped + DroppedBy(j, run[0]) + Dropped(Next(j, run[0]), run[1..]);
    }
  }

  /**
   Over every run of sends, reconnects, timers and heartbeats: each send begun is under way, or
   has returned with an ack, or has met one of the reasons to be dropped, and only one of these.
   */
  lemma EverySendIsAccounted(autoReconnect: bool, run: seq<JointEvent>, send: nat)
    requires Legal(Start(autoReconnect), run)
    ensures var j, dropped := Exec(Start(autoReconnect), run), Dropped(Start(autoReconnect), run);
            && (send in dropped <==> send < j.sends && send !in j.returned && (j.sender.Free? || send + 1 < j.sends))
            && (send in j.returned ==> send + (if j.sender.Free? then 0 else 1) < j.sends)
  {
    RunAccounts(Start(autoReconnect), run, {});
    var j, dropped := Exec(Start(autoReconnect), run), Dropped(Start(autoReconnect), run);
    assert {} + dropped == dropped;
    assert send in j.returned + dropped <==> send + (if j.sender.Free? then 0 else 1) < j.sends;
  }

  // ------------------------------------------------------------------ witnesses

  lemma {:induction false} ExecAppend(j: Joint, run: seq<JointEvent>, e: JointEvent)
    requires SenderNamed(j) && Named(j.tasks) && Legal(j, run) && Can(Exec(j, run), e)
    ensures Legal(j, run + [e]) && Exec(j, run + [e]) == Next(Exec(j, run), e)
    decreases |run|
  {
    if run == [] {
      assert [] + [e] == [e] && [e][1..] == [];
    } else {
      assert (run + [e])[1..] == run[1..] + [e];
      StepKeepsNames(j, run[0]);
      ExecAppend(Next(j, run[0]), run[1..], e);
    }
  }

  lemma ThenJoint(run: seq<JointEvent>, j: Joint, e: JointEvent) returns (longer: seq<JointEvent>, j': Joint)
    requires Legal(Start(true), run) && Exec(Start(true), run) == j && Can(j, e)
    ensures SenderNamed(j) && Legal(Start(true), longer) && Exec(Start(true), longer) == j' == Next(j, e)
  {
    ExecAppend(Start(true), run, e);
    longer, j' := run + [e], Next(j, e);
  }

  /** The sender is left alone, and reconnect `id` is pending in this phase. */
  predicate Reconnecting(j: Joint, sender: Sender, id: nat, phase: ReconnectPhase) {
    j.sender == sender && j.sends > 0 && j.tasks.reconnectTask == Some(id) && j.tasks.reconnects == map[id := phase]
  }

  lemma CleanUpBegins(j: Joint, id: nat)
    requires Reconnecting(j, j.sender, id, Scheduled) && j.tasks.transportOpen && SenderNamed(j)
    ensures Can(j, OfTunnel(ReconnectRuns(id)))
    ensures var j' := Next(j, OfTunnel(ReconnectRuns(id))); Reconnecting(j', j.sender, id, Disconnecting) && j'.sends == j.sends
  {
    assert PrepareDisconnect(j.tasks).reconnects == j.tasks.reconnects;
    assert map[id := Scheduled][id := Disconnecting] == map[id := Disconnecting];
  }

  lemma CleanUpEnds(j: Joint, id: nat)
    requires Reconnecting(j, j.sender, id, Disconnecting) && SenderNamed(j)
    ensures Can(j, OfTunnel(DisconnectEnds(id)))
    ensures var j' := Next(j, OfTunnel(DisconnectEnds(id))); Reconnecting(j', j.sender, id, Connecting) && j'.sends == j.sends
  {
    assert map[id := Disconnecting][id := Connecting] == map[id := Connecting];
  }

  lemma CleanUp(run: seq<JointEvent>, j: Joint, id: nat) returns (longer: seq<JointEvent>, j': Joint)
    requires Legal(Start(true), run) && Exec(Start(true), run) == j
    requires Reconnecting(j, j.sender, id, Scheduled) && j.tasks.transportOpen
    ensures Legal(Start(true), longer) && Exec(Start(true), longer) == j' && Reconnecting(j', j.sender, id, Connecting)
    ensures j'.sends == j.sends
  {
    CleanUpBegins(j, id);
    longer, j' := ThenJoint(run, j, OfTunnel(ReconnectRuns(id)));
    CleanUpEnds(j', id);
    longer, j' := ThenJoint(longer, j', OfTunnel(DisconnectEnds(id)));
  }

  lemma TransportIsBack(j: Joint, id: nat)
    requires Reconnecting(j, j.sender, id, Connecting) && SenderNamed(j)
    ensures Can(j, OfTunnel(TransportConnects(id, true)))
    ensures var j' := Next(j, OfTunnel(TransportConnects(id, true)));
            Reconnecting(j', j.sender, id, AwaitingConnectResponse) && j'.tasks.transportOpen && j'.sends == j.sends
  {
    assert map[id := Connecting][id := AwaitingConnectResponse] == map[id := AwaitingConnectResponse];
  }

  lemma ChannelIsGranted(j: Joint, id: nat)
    requires Reconnecting(j, j.sender, id, AwaitingConnectResponse) && SenderNamed(j) && j.tasks.transportOpen
    ensures Can(j, OfTunnel(ConnectEnds(id, true)))
    ensures var j' := Next(j, OfTunnel(ConnectEnds(id, true)));
            && Reconnecting(j', j.sender, id, Finished)
            && j'.sends == j.sends && j'.up && j'.log == [] && !j'.tried && !j'.late && !j'.unsettled
            && j'.tasks.channel && j'.tasks.transportOpen && j'.tasks.sequenceNumber == 0 && j'.tasks.ended == 0
  {
    assert map[id := AwaitingConnectResponse][id := Finished] == map[id := Finished];
  }

  lemma NewConnection(run: seq<JointEvent>, j: Joint, id: nat) returns (longer: seq<JointEvent>, j': Joint)
    requires Legal(Start(true), run) && Exec(Start(true), run) == j && Reconnecting(j, j.sender, id, Connecting)
    ensures Legal(Start(true), longer) && Exec(Start(true), longer) == j' && Reconnecting(j', j.sender, id, Finished)
    ensures j'.sends == j.sends && j'.up && j'.log == [] && !j'.tried && !j'.late && !j'.unsettled
    ensures j'.tasks.channel && j'.tasks.transportOpen && j'.tasks.sequenceNumber == 0 && j'.tasks.ended == 0
  {
    TransportIsBack(j, id);
    longer, j' := ThenJoint(run, j, OfTunnel(TransportConnects(id, true)));
    ChannelIsGranted(j', id);
    longer, j' := ThenJoint(longer, j', OfTunnel(ConnectEnds(id, true)));
  }

  /** A reconnect that is pending and answered gives a new connection. */
  lemma Reconnects(run: seq<JointEvent>, j: Joint, id: nat) returns (longer: seq<JointEvent>, j': Joint)
    requires Legal(Start(true), run) && Exec(Start(true), run) == j
    requires Reconnecting(j, j.sender, id, Scheduled) && j.tasks.transportOpen
    ensures Legal(Start(true), longer) && Exec(Start(true), longer) == j' && Reconnecting(j', j.sender, id, Finished)
    ensures j'.sends == j.sends && j'.up && j'.log == [] && !j'.tried && !j'.late && !j'.unsettled
    ensures j'.tasks.channel && j'.tasks.transportOpen && j'.tasks.sequenceNumber == 0 && j'.tasks.ended == 0
  {
    longer, j' := CleanUp(run, j, id);
    longer, j' := NewConnection(longer, j', id);
  }

  /** A connection with no reconnect pending, and the try of send 0 on it. */
  predicate Serving(j: Joint, attempt: nat) {
    && j.sender == Trying(attempt) && j.sends == 1 && j.up && j.tasks.channel && j.tasks.transportOpen && !j.unsettled && !j.late
    && j.tasks.autoReconnect && j.tasks.reconnectTask.None? && j.tasks.reconnects == map[] && j.tasks.sequenceNumber == 0
  }

  lemma FirstSend() returns (run: seq<JointEvent>, j: Joint)
    ensures Legal(Start(true), run) && Exec(Start(true), run) == j && Serving(j, 1) && j.returned == {} && |j.log| == 1
  {
    run, j := [], Start(true);
    run, j := ThenJoint(run, j, OfTunnel(UserConnects));
    run, j := ThenJoint(run, j, OfTunnel(UserConnectEnds(true)));
    run, j := ThenJoint(run, j, SendBegins);
  }

  lemma ServerCloses(j: Joint, attempt: nat)
    requires Serving(j, attempt) && SenderNamed(j)
    ensures Can(j, OfTunnel(DisconnectRequestArrives(true)))
    ensures var j' := Next(j, OfTunnel(DisconnectRequestArrives(true)));
            && Reconnecting(j', j.sender, j.tasks.created, Scheduled) && j'.tasks.transportOpen && j'.sends == 1 && !j'.tasks.channel
            && j'.log == j.log && j'.returned == j.returned
  {
    assert map[][j.tasks.created := Scheduled] == map[j.tasks.created := Scheduled];
  }

  lemma CallbacksRun(j: Joint, id: nat)
    requires Reconnecting(j, j.sender, id, Finished) && j.sender.Trying? && SenderNamed(j)
    requires j.up && j.tasks.channel && j.tasks.transportOpen
    ensures Can(j, OfTunnel(ReconnectDone(id)))
    ensures var j' := Next(j, OfTunnel(ReconnectDone(id)));
            j' == j.(tasks := j.tasks.(reconnects := map[], reconnectTask := None), unsettled := false)
  {
    assert j.tasks.reconnects - {id} == map[];
  }

  /** auto_reconnect is never switched off. */
  lemma AutoReconnectStays(j: Joint, run: seq<JointEvent>)
    requires SenderNamed(j) && Named(j.tasks) && Legal(j, run)
    ensures Exec(j, run).tasks.autoReconnect == j.tasks.autoReconnect
  {
    var events := RunIsTasks(j, run);
    TasksLeaveAutoReconnect(j.tasks, events);
  }

  lemma {:induction false} TasksLeaveAutoReconnect(t: Tasks.Tasks, events: seq<Event>)
    requires Tasks.Legal(t, events)
    ensures Tasks.Exec(t, events).autoReconnect == t.autoReconnect
    decreases |events|
  {
    if events != [] {
      StepCounters(t, events[0]);
      TasksLeaveAutoReconnect(Tasks.Step(t, events[0]), events[1..]);
    }
  }

  /** The server closes the connection in the middle of a try, and the tunnel is back before the try ends. */
  lemma ClosedAndBack(run: seq<JointEvent>, j: Joint, attempt: nat) returns (longer: seq<JointEvent>, j': Joint)
    requires Legal(Start(true), run) && Exec(Start(true), run) == j && Serving(j, attempt)
    ensures Legal(Start(true), longer) && Exec(Start(true), longer) == j' && Serving(j', attempt) && j'.log == [] && !j'.tried
  {
    ServerCloses(j, attempt);
    longer, j' := ThenJoint(run, j, OfTunnel(DisconnectRequestArrives(true)));
    var id := j.tasks.created;
    longer, j' := Reconnects(longer, j', id);
    CallbacksRun(j', id);
    longer, j' := ThenJoint(longer, j', OfTunnel(ReconnectDone(id)));
    AutoReconnectStays(Start(true), longer);
  }

  lemma SecondFailure(j: Joint)
    requires Serving(j, 2) && SenderNamed(j)
    ensures Can(j, TryFails)
    ensures var j' := Next(j, TryFails);
            Reconnecting(j', AwaitingReconnect(j.tasks.created), j.tasks.created, Scheduled) && j'.tasks.transportOpen && j'.sends == 1
  {
    assert map[][j.tasks.created := Scheduled] == map[j.tasks.created := Scheduled];
  }

  lemma ThirdTry(j: Joint, id: nat)
    requires Reconnecting(j, AwaitingReconnect(id), id, Finished) && SenderNamed(j) && !j.tried && j.log == []
    requires j.up && j.tasks.channel && j.tasks.transportOpen
    ensures Can(j, OfTunnel(ReconnectDone(id)))
    ensures var j' := Next(j, OfTunnel(ReconnectDone(id)));
            && j'.sender == Trying(3) && j'.sends == j.sends && j'.up && !j'.unsettled && j'.late == j.late
            && j'.tasks == j.tasks.(reconnects := map[], reconnectTask := None)
  {
    assert j.tasks.reconnects - {id} == map[];
  }

  lemma ToThirdTry() returns (run: seq<JointEvent>, j: Joint)
    ensures Legal(Start(true), run) && Exec(Start(true), run) == j && Serving(j, 3)
  {
    run, j := FirstSend();
    run, j := ThenJoint(run, j, TryFails);
    AutoReconnectStays(Start(true), run);
    SecondFailure(j);
    var id := j.tasks.created;
    run, j := ThenJoint(run, j, TryFails);
    run, j := Reconnects(run, j, id);
    ThirdTry(j, id);
    run, j := ThenJoint(run, j, OfTunnel(ReconnectDone(id)));
    AutoReconnectStays(Start(true), run);
  }

  lemma LateEnd(j: Joint)
    requires Serving(j, 3) && SenderNamed(j) && j.log == [] && !j.tried && j.tasks.ended == 0
    ensures Can(j, TryFails)
    ensures var j1 := Next(j, TryFails);
            && j1.sender.Free? && Can(j1, SendBegins)
            && Next(j1, SendBegins).tasks.channel && Next(j1, SendBegins).log == [Request(1, 1, 1, 1)]
  {
    assert [] + [Request(1, 1, 1, 1)] == [Request(1, 1, 1, 1)];
  }

  /**
   A third try goes out on the new connection, the server closes it, and the tunnel is back
   within the second in which the try awaits its ack: the failing try counts on the third
   connection, whose first request then carries 1 where the server expects 0 and drops it.
   */
  lemma LateEndSkipsZero() returns (run: seq<JointEvent>)
    ensures Legal(Start(true), run)
    ensures var j := Exec(Start(true), run);
            j.tasks.channel && j.log == [Request(1, 1, 1, 1)] && Tunnel.Receive(0, j.log[0].counter).Drop?
  {
    var j;
    run, j := ToThirdTry();
    run, j := ClosedAndBack(run, j, 3);
    RunKeeps(Start(true), run);
    LateEnd(j);
    run, j := ThenJoint(run, j, TryFails);
    run, j := ThenJoint(run, j, SendBegins);
  }

  /** A send whose first try the server's DisconnectRequest overtakes is dropped while the reconnect is pending. */
  lemma DroppedWhileReconnecting() returns (run: seq<JointEvent>)
    ensures Legal(Start(true), run)
    ensures var j := Exec(Start(true), run);
            j.sender.Free? && j.sends == 1 && j.returned == {} && |j.log| == 1 && Pending(j.tasks)
  {
    var j;
    run, j := FirstSend();
    ServerCloses(j, 1);
    run, j := ThenJoint(run, j, OfTunnel(DisconnectRequestArrives(true)));
    run, j := ThenJoint(run, j, TryFails);
  }

  lemma FailsWhilePending(j: Joint, id: nat)
    requires Reconnecting(j, Trying(3), id, Scheduled) && SenderNamed(j)
    ensures Can(j, TryFails) && Drops(j, TryFails) && Pending(j.tasks) && Pending(Next(j, TryFails).tasks)
  {
  }

  /**
   Two tries fail on a connection that is up, the third goes out on the next one, which the
   server closes: when it fails the send is dropped while a reconnect is pending.
   */
  lemma ThirdTryDroppedWhileReconnecting() returns (run: seq<JointEvent>)
    ensures Legal(Start(true), run)
    ensures var j := Exec(Start(true), run);
            && j.sender == Trying(3) && Can(j, TryFails) && Drops(j, TryFails)
            && Pending(j.tasks) && Pending(Next(j, TryFails).tasks)
  {
    var j;
    run, j := ToThirdTry();
    ServerCloses(j, 3);
    var id := j.tasks.created;
    run, j := ThenJoint(run, j, OfTunnel(DisconnectRequestArrives(true)));
    FailsWhilePending(j, id);
  }

  // ------------------------------------------------------------------ the object

  /** send_cemi on a tunnel, one method for each piece of code between two awaits. */
  class CemiSender {
    const tunnel: UdpTunnel
    /** The holder of the send lock. */
    var sender: Sender
    ghost var sends: nat
    ghost var returned: set<nat>
    ghost var up: bool
    ghost var log: seq<Request>
    ghost var tried: bool
    ghost var late: bool
    ghost var unsettled: bool

    ghost function View(): Joint
      reads this, tunnel
    {
      Joint(tunnel.View(), sender, sends, returned, up, log, tried, late, unsettled)
    }

    constructor (tunnel: UdpTunnel)
      requires tunnel.View() == Init(tunnel.autoReconnect)
      ensures this.tunnel == tunnel && View() == Start(tunnel.autoReconnect)
    {
      this.tunnel := tunnel;
      sender := Free;
      sends, returned, up, log, tried, late, unsettled := 0, {}, false, [], false, false, false;
    }

    /** The finally clause, and the lock released. */
    method EndSend(ok: bool)
      requires sends > 0
      modifies this, tunnel`sequenceNumber, tunnel`ended
      ensures View() == End(old(View()), ok)
    {
      late, tried := late || (up && !tried), false;
      returned := if ok then returned + {sends - 1} else returned;
      tunnel.IncreaseSequenceNumber();
      sender := Free;
    }

    /** _tunnelling_request as the third try or on an open transport, up to its await. */
    method TunnellingRequest(attempt: nat)
      requires sends > 0
      modifies this, tunnel`sequenceNumber, tunnel`ended
      ensures View() == Transmit(old(View()), attempt)
    {
      if !tunnel.communicationChannel || !tunnel.transportOpen {
        EndSend(false);
        return;
      }
      if up {
        log := log + [Request(sends - 1, attempt, tunnel.sequenceNumber, tunnel.ended)];
      }
      tried, unsettled := up, Ending(tunnel.View());
      sender := Trying(attempt);
    }

    /** _tunnel_lost, and what it means for the connection. */
    method LoseTunnel()
      modifies this`up, this`tried, tunnel`timers, tunnel`invalidSequenceNumberReconnectTask, tunnel`heartbeats, tunnel`heartbeatTask,
               tunnel`reconnects, tunnel`reconnectTask, tunnel`created, tunnel`transportOpen, tunnel`disconnectsSent
      ensures View() == Moved(old(View()), TunnelLost(old(View().tasks)))
    {
      tunnel.DoTunnelLost();
      up := up && tunnel.communicationChannel && tunnel.transportOpen;
      tried := tried && up;
    }

    /** send_cemi after the second TunnellingAckError, up to its next await. */
    method AfterTwoFailures()
      requires sends > 0
      modifies this, tunnel
      ensures View() == GiveUp(old(View()))
      ensures tunnel.acksSent == old(tunnel.acksSent) && tunnel.received == old(tunnel.received)
    {
      if tunnel.reconnectTask.None? {
        LoseTunnel();
      }
      if tunnel.reconnectTask.None? {
        EndSend(false);
        return;
      }
      var task := tunnel.reconnectTask.value;
      if task in tunnel.reconnects && tunnel.reconnects[task].Finished? {
        TunnellingRequest(3);
      } else {
        sender := AwaitingReconnect(task);
      }
    }

    /** A first or second try, and the ones behind it that fail at once, up to the next await. */
    method TryFrom(attempt: nat)
      requires sends > 0
      modifies this, tunnel
      ensures View() == Try(old(View()), attempt)
      ensures tunnel.acksSent == old(tunnel.acksSent) && tunnel.received == old(tunnel.received)
    {
      if tunnel.communicationChannel && !tunnel.transportOpen && attempt < 3 {
        AfterTwoFailures();
      } else {
        TunnellingRequest(attempt);
      }
    }

    /** send_cemi with the lock taken, up to its first await. */
    method SendCemi()
      requires sender.Free?
      modifies this, tunnel
      ensures View() == Next(old(View()), SendBegins)
      ensures tunnel.acksSent == old(tunnel.acksSent) && tunnel.received == old(tunnel.received)
    {
      sends, tried := sends + 1, false;
      if tunnel.reconnectTask.Some? {
        var task := tunnel.reconnectTask.value;
        if !(task in tunnel.reconnects && tunnel.reconnects[task].Finished?) {
          sender := AwaitingReady(task);
          return;
        }
      }
      TryFrom(1);
    }

    /** An ack ends the try and the send. */
    method Acknowledged()
      requires CanEndTry(View()) && sends > 0
      modifies this, tunnel`sequenceNumber, tunnel`ended
      ensures View() == Next(old(View()), TryAcked)
    {
      EndSend(true);
    }

    /** TunnellingAckError, by an error status or after a second. */
    method TryFailed()
      requires CanEndTry(View()) && sends > 0
      modifies this, tunnel
      ensures View() == Next(old(View()), TryFails)
      ensures tunnel.acksSent == old(tunnel.acksSent) && tunnel.received == old(tunnel.received)
    {
      if sender.attempt == 1 {
        TryFrom(2);
      } else if sender.attempt == 2 {
        AfterTwoFailures();
      } else {
        EndSend(false);
      }
    }

    /** The awaited reconnect task has ended and its cleanup has run. */
    method ReconnectEnded(cancelled: bool)
      requires (sender.AwaitingReady? || sender.AwaitingReconnect?) && sends > 0
      modifies this, tunnel
      ensures View() == Resume(old(View()), cancelled)
      ensures tunnel.acksSent == old(tunnel.acksSent) && tunnel.received == old(tunnel.received)
    {
      if sender.AwaitingReady? {
        TryFrom(1);
      } else if cancelled {
        EndSend(false);
      } else {
        TunnellingRequest(3);
      }
    }
  }
}
