/**
 The tasks of one UDP tunnel: reconnect, the timer armed by an invalid sequence number and the
 heartbeat, interleaved at their awaits. A task is a number in the set of live tasks of its
 kind; the object's fields hold numbers of tasks.
 */
module TunnelTasks {
  import opened Bytes
  import Tunnel

  /** Where a reconnect task stands. */
  datatype ReconnectPhase =
    | Scheduled
    | Disconnecting
    | Connecting
    | AwaitingConnectResponse
    | Waiting
    | Finished
    | Cancelled

  /** Where a heartbeat stands; `results` are the outcomes of its state requests so far. */
  datatype HeartbeatPhase =
    | Sleeping(results: seq<bool>)
    | Requesting(failures: nat, results: seq<bool>)

  datatype Tasks = Tasks(
    autoReconnect: bool,
    reconnectTask: Option<nat>,
    invalidSequenceTask: Option<nat>,
    heartbeatTask: Option<nat>,
    channel: bool,
    transportOpen: bool,
    sequenceNumber: nat,
    expected: nat,
    reconnects: map<nat, ReconnectPhase>,
    timers: set<nat>,
    heartbeats: map<nat, HeartbeatPhase>,
    created: nat,
    /** A user's connect() that awaits the ConnectResponse. */
    userConnecting: bool,
    /** Histories: requests taken since the last ConnectRequest, sends ended since a connection was last established. */
    taken: nat,
    ended: nat)

  // ------------------------------------------------------- the code's routines

  function Without<T>(m: map<nat, T>, id: Option<nat>): map<nat, T> {
    if id.Some? then m - {id.value} else m
  }

  /** _cancel_invalid_sequence_number_reconnect_schedule */
  function CancelTimer(t: Tasks): Tasks {
    if t.invalidSequenceTask.Some? then t.(timers := t.timers - {t.invalidSequenceTask.value}, invalidSequenceTask := None) else t
  }

  /** _invalid_sequence_number_reconnect_schedule */
  function ArmTimer(t: Tasks): Tasks {
    if t.invalidSequenceTask.None? && t.reconnectTask.None?
    then t.(timers := t.timers + {t.created}, invalidSequenceTask := Some(t.created), created := t.created + 1)
    else t
  }

  /** stop_heartbeat */
  function StopHeartbeat(t: Tasks): Tasks {
    t.(heartbeats := Without(t.heartbeats, t.heartbeatTask), heartbeatTask := None)
  }

  /** start_heartbeat: a task that the field may still hold is not cancelled. */
  function StartHeartbeat(t: Tasks): Tasks {
    t.(heartbeats := t.heartbeats[t.created := Sleeping([])], heartbeatTask := Some(t.created), created := t.created + 1)
  }

  /** UDPTunnel._prepare_disconnect */
  function PrepareDisconnect(t: Tasks): Tasks {
    StopHeartbeat(CancelTimer(t))
  }

  /** _tunnel_lost */
  function TunnelLost(t: Tasks): Tasks {
    if !t.autoReconnect then PrepareDisconnect(t).(transportOpen := false)
    else if t.reconnectTask.None? then
      t.(reconnects := t.reconnects[t.created := Scheduled], reconnectTask := Some(t.created), created := t.created + 1)
    else t
  }

  /** _tunnel_established */
  function TunnelEstablished(t: Tasks): Tasks {
    StartHeartbeat(t.(sequenceNumber := 0, ended := 0))
  }

  /** UDPTunnel._tunnelling_request_received */
  function RequestReceived(t: Tasks, counter: nat): Tasks {
    match Tunnel.Receive(t.expected, counter)
    case Deliver => CancelTimer(t.(expected := Tunnel.NextCounter(t.expected), taken := t.taken + 1))
    case AcknowledgeAgain => t
    case Drop => ArmTimer(t)
  }

  /** setup_tunnel and the sending of the ConnectRequest, once the transport is connected. */
  function BeginConnect(t: Tasks): Tasks {
    t.(transportOpen := true, expected := 0, taken := 0)
  }

  /** The rest of connect: the response granted a channel, or it did not and the transport is stopped. */
  function EndConnect(t: Tasks, granted: bool): Tasks {
    if granted then TunnelEstablished(t.(channel := true)) else t.(transportOpen := false)
  }

  /** _increase_sequence_number, at the end of every send_cemi */
  function SendEnded(t: Tasks): Tasks {
    t.(sequenceNumber := Tunnel.NextCounter(t.sequenceNumber), ended := t.ended + 1)
  }

  // -------------------------------------------------------------------- events

  datatype Event =
    | UserConnects
    | UserConnectEnds(granted: bool)
    | UserDisconnects
    | UserDisconnectEnds
    | TunnellingRequestArrives(counter: nat)
    | DisconnectRequestArrives(ownChannel: bool)
    | SendFailedTwice
    | SendEnds
    | TimerFires(id: nat)
    | HeartbeatWakes(id: nat)
    | StateResponse(id: nat, success: bool)
    | ReconnectRuns(id: nat)
    | DisconnectEnds(id: nat)
    | TransportConnects(id: nat, success: bool)
    | ConnectEnds(id: nat, granted: bool)
    | RetryAfterWait(id: nat)
    | ReconnectDone(id: nat)

  predicate Enabled(t: Tasks, e: Event) {
    match e
    case UserConnects => t.created == 0 && !t.userConnecting
    case UserConnectEnds(_) => t.userConnecting
    case TunnellingRequestArrives(_) => t.transportOpen
    case DisconnectRequestArrives(_) => t.transportOpen
    // a ConnectRequest is answered or times out within 1 s, before a timer of 2 s armed meanwhile
    case TimerFires(id) => id in t.timers && !t.userConnecting
    case SendFailedTwice => true
    case SendEnds => true
    case HeartbeatWakes(id) => id in t.heartbeats && t.heartbeats[id].Sleeping?
    case StateResponse(id, _) => id in t.heartbeats && t.heartbeats[id].Requesting?
    case ReconnectRuns(id) => id in t.reconnects && t.reconnects[id].Scheduled?
    case DisconnectEnds(id) => id in t.reconnects && t.reconnects[id].Disconnecting?
    case TransportConnects(id, _) => id in t.reconnects && t.reconnects[id].Connecting?
    case ConnectEnds(id, _) => id in t.reconnects && t.reconnects[id].AwaitingConnectResponse?
    case RetryAfterWait(id) => id in t.reconnects && t.reconnects[id].Waiting?
    case ReconnectDone(id) => id in t.reconnects && (t.reconnects[id].Finished? || t.reconnects[id].Cancelled?)
    case _ => !t.userConnecting
  }

  function Move(t: Tasks, id: nat, phase: ReconnectPhase): Tasks {
    t.(reconnects := t.reconnects[id := phase])
  }

  function MoveHeartbeat(t: Tasks, id: nat, phase: HeartbeatPhase): Tasks {
    t.(heartbeats := t.heartbeats[id := phase])
  }

  /** The next state request, which raises at once when there is no channel. */
  function RequestState(t: Tasks, id: nat, failures: nat, results: seq<bool>): Tasks {
    if t.channel then MoveHeartbeat(t, id, Requesting(failures, results))
    else TunnelLost(MoveHeartbeat(t, id, Sleeping(results)))
  }

  /** do_heartbeat and _do_heartbeat_failed after a response or its timeout. */
  function AfterStateResponse(t: Tasks, id: nat, success: bool): Tasks
    requires id in t.heartbeats && t.heartbeats[id].Requesting?
  {
    var failures, results := t.heartbeats[id].failures, t.heartbeats[id].results + [success];
    if success then MoveHeartbeat(t, id, Sleeping(results))
    else if failures < 3 then RequestState(t, id, failures + 1, results)
    else TunnelLost(MoveHeartbeat(t, id, Sleeping(results)))
  }

  function CancelReconnect(t: Tasks): Tasks {
    if t.reconnectTask.Some? && t.reconnectTask.value in t.reconnects && !t.reconnects[t.reconnectTask.value].Finished?
    then Move(t, t.reconnectTask.value, Cancelled) else t
  }

  function Step(t: Tasks, e: Event): Tasks
    requires Enabled(t, e)
  {
    match e
    case UserConnects => BeginConnect(t).(userConnecting := true)
    case UserConnectEnds(granted) => EndConnect(t.(userConnecting := false), granted)
    case UserDisconnects => CancelReconnect(PrepareDisconnect(t))
    case UserDisconnectEnds => t.(channel := false, transportOpen := false)
    case TunnellingRequestArrives(counter) => RequestReceived(t, counter)
    case DisconnectRequestArrives(ownChannel) => TunnelLost(if ownChannel then t.(channel := false) else t)
    case SendFailedTwice => if t.reconnectTask.None? then TunnelLost(t) else t
    case SendEnds => SendEnded(t)
    case TimerFires(id) => TunnelLost(t.(timers := t.timers - {id}, invalidSequenceTask := None))
    case HeartbeatWakes(id) => RequestState(t, id, 0, t.heartbeats[id].results)
    case StateResponse(id, success) => AfterStateResponse(t, id, success)
    case ReconnectRuns(id) =>
      var prepared := PrepareDisconnect(t);
      Move(prepared, id, if prepared.transportOpen then Disconnecting else Connecting)
    case DisconnectEnds(id) => Move(t.(channel := false, transportOpen := false), id, Connecting)
    case TransportConnects(id, success) =>
      if success then Move(BeginConnect(t), id, AwaitingConnectResponse) else Move(t.(transportOpen := false), id, Waiting)
    case ConnectEnds(id, granted) => Move(EndConnect(t, granted), id, if granted then Finished else Waiting)
    case RetryAfterWait(id) => Move(t, id, Connecting)
    case ReconnectDone(id) => t.(reconnects := t.reconnects - {id}, reconnectTask := None)
  }

  function Init(autoReconnect: bool): Tasks {
    Tasks(autoReconnect, None, None, None, false, false, 0, 0, map[], {}, map[], 0, false, 0, 0)
  }

  /** A disconnect request, or a send given up, in the middle of a user's connect(). */
  predicate Disturbs(t: Tasks, e: Event) {
    (e.DisconnectRequestArrives? || e.SendFailedTwice?) && t.userConnecting
  }

  predicate Legal(t: Tasks, run: seq<Event>)
    decreases |run|
  {
    run == [] || (Enabled(t, run[0]) && Legal(Step(t, run[0]), run[1..]))
  }

  predicate Undisturbed(t: Tasks, run: seq<Event>)
    requires Legal(t, run)
    decreases |run|
  {
    run == [] || (!Disturbs(t, run[0]) && Undisturbed(Step(t, run[0]), run[1..]))
  }

  function Exec(t: Tasks, run: seq<Event>): Tasks
    requires Legal(t, run)
    decreases |run|
  {
    if run == [] then t else Exec(Step(t, run[0]), run[1..])
  }

  // ------------------------------------------------------------- the discipline

  function Members(id: Option<nat>): set<nat> {
    if id.Some? then {id.value} else {}
  }

  /** A reconnect that has begun its cleanup and has not yet ended. */
  predicate UnderWay(p: ReconnectPhase) {
    !p.Scheduled? && !p.Finished?
  }

  /**
   The fields name exactly the live tasks, so there is at most one of each kind; from the
   beginning of a reconnect's cleanup on neither the timer nor a heartbeat is there.
   */
  predicate Discipline(t: Tasks) {
    && t.reconnects.Keys == Members(t.reconnectTask)
    && t.timers == Members(t.invalidSequenceTask)
    && t.heartbeats.Keys == Members(t.heartbeatTask)
    && (forall id :: id in Members(t.reconnectTask) ==> id < t.created)
    && (forall id :: id in Members(t.invalidSequenceTask) ==> id < t.created)
    && (forall id :: id in Members(t.heartbeatTask) ==> id < t.created)
    && (t.reconnectTask.Some? && !t.reconnects[t.reconnectTask.value].Scheduled? ==> t.invalidSequenceTask.None?)
    && (t.reconnectTask.Some? && UnderWay(t.reconnects[t.reconnectTask.value]) ==> t.heartbeatTask.None?)
    && (t.userConnecting ==> t.reconnectTask.None? && t.heartbeatTask.None?)
  }

  lemma TimerRoutinesKeep(t: Tasks)
    requires Discipline(t)
    ensures Discipline(CancelTimer(t)) && CancelTimer(t).invalidSequenceTask.None?
    ensures Discipline(ArmTimer(t)) && ArmTimer(t).heartbeatTask == t.heartbeatTask
  {
  }

  lemma PrepareDisconnectKeeps(t: Tasks)
    requires Discipline(t)
    ensures Discipline(PrepareDisconnect(t))
    ensures PrepareDisconnect(t).heartbeatTask.None? && PrepareDisconnect(t).invalidSequenceTask.None?
  {
    TimerRoutinesKeep(t);
    var c := CancelTimer(t);
    assert Without(c.heartbeats, c.heartbeatTask).Keys == {};
  }

  lemma TunnelLostKeeps(t: Tasks)
    requires Discipline(t) && (t.userConnecting ==> !t.autoReconnect)
    ensures Discipline(TunnelLost(t))
  {
    PrepareDisconnectKeeps(t);
  }

  lemma HeartbeatMoves(t: Tasks, id: nat, phase: HeartbeatPhase)
    requires Discipline(t) && id in t.heartbeats
    ensures Discipline(MoveHeartbeat(t, id, phase))
  {
    assert t.heartbeats[id := phase].Keys == t.heartbeats.Keys;
  }

  lemma ReconnectMoves(t: Tasks, id: nat, phase: ReconnectPhase)
    requires Discipline(t) && id in t.reconnects
    requires !phase.Scheduled? ==> t.invalidSequenceTask.None?
    requires UnderWay(phase) ==> t.heartbeatTask.None?
    ensures Discipline(Move(t, id, phase))
  {
    assert t.reconnects[id := phase].Keys == t.reconnects.Keys;
  }

  lemma EstablishedKeeps(t: Tasks)
    requires Discipline(t) && t.heartbeatTask.None? && !t.userConnecting
    requires t.reconnectTask.Some? ==> t.reconnects[t.reconnectTask.value].Finished?
    ensures Discipline(TunnelEstablished(t))
  {
  }

  predicate OfReconnect(e: Event) {
    e.ReconnectRuns? || e.DisconnectEnds? || e.TransportConnects? || e.ConnectEnds? || e.RetryAfterWait? || e.ReconnectDone?
  }

  lemma ReconnectStepKeeps(t: Tasks, e: Event)
    requires Discipline(t) && Enabled(t, e) && OfReconnect(e)
    ensures Discipline(Step(t, e))
  {
    if e.ReconnectRuns? {
      PrepareDisconnectKeeps(t);
      ReconnectMoves(PrepareDisconnect(t), e.id, Step(t, e).reconnects[e.id]);
    } else if e.DisconnectEnds? {
      ReconnectMoves(t.(channel := false, transportOpen := false), e.id, Connecting);
    } else if e.TransportConnects? {
      ReconnectMoves(if e.success then BeginConnect(t) else t.(transportOpen := false), e.id, Step(t, e).reconnects[e.id]);
    } else if e.ConnectEnds? {
      ConnectEndKeeps(t, e.id, e.granted);
    } else if e.RetryAfterWait? {
      ReconnectMoves(t, e.id, Connecting);
    } else {
      assert (t.reconnects - {e.id}).Keys == {};
    }
  }

  lemma UserStepKeeps(t: Tasks, e: Event)
    requires Discipline(t) && Enabled(t, e)
    requires e.UserConnects? || e.UserConnectEnds? || e.UserDisconnects? || e.UserDisconnectEnds?
    ensures Discipline(Step(t, e))
  {
    if e.UserConnectEnds? && e.granted {
      EstablishedKeeps(t.(userConnecting := false, channel := true));
    } else if e.UserDisconnects? {
      PrepareDisconnectKeeps(t);
      var p := PrepareDisconnect(t);
      if p.reconnectTask.Some? {
        ReconnectMoves(p, p.reconnectTask.value, Cancelled);
      }
    }
  }

  lemma LossStepKeeps(t: Tasks, e: Event)
    requires Discipline(t) && Enabled(t, e) && (Disturbs(t, e) ==> !t.autoReconnect)
    requires e.DisconnectRequestArrives? || e.SendFailedTwice? || e.TimerFires?
    ensures Discipline(Step(t, e))
  {
    if e.DisconnectRequestArrives? {
      TunnelLostKeeps(if e.ownChannel then t.(channel := false) else t);
    } else if e.SendFailedTwice? {
      TunnelLostKeeps(t);
    } else {
      TunnelLostKeeps(t.(timers := t.timers - {e.id}, invalidSequenceTask := None));
    }
  }

  lemma CountersAreNoTasks(t: Tasks, t': Tasks)
    requires Discipline(t)
    requires t' == t.(expected := t'.expected, taken := t'.taken, sequenceNumber := t'.sequenceNumber, ended := t'.ended)
    ensures Discipline(t')
  {
  }

  lemma CountStepKeeps(t: Tasks, e: Event)
    requires Discipline(t) && Enabled(t, e) && (e.TunnellingRequestArrives? || e.SendEnds?)
    ensures Discipline(Step(t, e))
  {
    if e.SendEnds? {
      CountersAreNoTasks(t, SendEnded(t));
    } else if Tunnel.Receive(t.expected, e.counter).Deliver? {
      var taken := t.(expected := Tunnel.NextCounter(t.expected), taken := t.taken + 1);
      CountersAreNoTasks(t, taken);
      TimerRoutinesKeep(taken);
    } else {
      TimerRoutinesKeep(t);
    }
  }

  lemma StepKeepsDiscipline(t: Tasks, e: Event)
    requires Discipline(t) && Enabled(t, e) && (Disturbs(t, e) ==> !t.autoReconnect)
    ensures Discipline(Step(t, e))
  {
    if e.TunnellingRequestArrives? || e.SendEnds? {
      CountStepKeeps(t, e);
    } else if e.DisconnectRequestArrives? || e.SendFailedTwice? || e.TimerFires? {
      LossStepKeeps(t, e);
    } else if e.HeartbeatWakes? || e.StateResponse? {
      HeartbeatStepKeeps(t, e);
    } else if e.UserConnects? || e.UserConnectEnds? || e.UserDisconnects? || e.UserDisconnectEnds? {
      UserStepKeeps(t, e);
    } else {
      ReconnectStepKeeps(t, e);
    }
  }

  lemma HeartbeatStepKeeps(t: Tasks, e: Event)
    requires Discipline(t) && Enabled(t, e) && (e.HeartbeatWakes? || e.StateResponse?)
    ensures Discipline(Step(t, e))
  {
    var after := Step(t, e).heartbeats;
    var results := t.heartbeats[e.id].results + (if e.StateResponse? then [e.success] else []);
    assert t.heartbeats[e.id].results + [] == t.heartbeats[e.id].results;
    HeartbeatMoves(t, e.id, Sleeping(results));
    TunnelLostKeeps(MoveHeartbeat(t, e.id, Sleeping(results)));
    var failures := if e.HeartbeatWakes? then 0 else t.heartbeats[e.id].failures + 1;
    HeartbeatMoves(t, e.id, Requesting(failures, results));
  }

  lemma ConnectEndKeeps(t: Tasks, id: nat, granted: bool)
    requires Discipline(t) && Enabled(t, ConnectEnds(id, granted))
    ensures Discipline(Step(t, ConnectEnds(id, granted)))
  {
    assert t.reconnectTask == Some(id);
    if granted {
      ReconnectMoves(t, id, Finished);
      EstablishedKeeps(Move(t, id, Finished).(channel := true));
      assert Step(t, ConnectEnds(id, granted)) == TunnelEstablished(Move(t, id, Finished).(channel := true));
    } else {
      ReconnectMoves(t.(transportOpen := false), id, Waiting);
    }
  }

  lemma {:induction false} RunKeepsDiscipline(t: Tasks, run: seq<Event>)
    requires Discipline(t) && Legal(t, run) && (t.autoReconnect ==> Undisturbed(t, run))
    ensures Discipline(Exec(t, run))
    decreases |run|
  {
    if run != [] {
      StepKeepsDiscipline(t, run[0]);
      StepCounters(t, run[0]);
      RunKeepsDiscipline(Step(t, run[0]), run[1..]);
    }
  }

  /** At most one live task of each kind, and no timer from a reconnect's cleanup on. */
  predicate OneOfEach(t: Tasks) {
    && |t.reconnects| <= 1 && |t.timers| <= 1 && |t.heartbeats| <= 1
    && forall id :: id in t.reconnects && !t.reconnects[id].Scheduled? ==> t.timers == {}
  }

  lemma DisciplineIsOneOfEach(t: Tasks)
    requires Discipline(t)
    ensures OneOfEach(t)
  {
    assert |Members(t.reconnectTask)| <= 1 && |Members(t.invalidSequenceTask)| <= 1 && |Members(t.heartbeatTask)| <= 1;
    assert |t.reconnects.Keys| == |t.reconnects| && |t.heartbeats.Keys| == |t.heartbeats|;
  }

  ghost predicate AlwaysOneOfEach(autoReconnect: bool, disturbed: bool) {
    forall run ::
      Legal(Init(autoReconnect), run) && (disturbed || Undisturbed(Init(autoReconnect), run)) ==>
        OneOfEach(Exec(Init(autoReconnect), run))
  }

  lemma {:induction false} ExecThen(t: Tasks, run: seq<Event>, e: Event)
    requires Legal(t, run) && Enabled(Exec(t, run), e)
    ensures Legal(t, run + [e]) && Exec(t, run + [e]) == Step(Exec(t, run), e)
    decreases |run|
  {
    if run != [] {
      assert (run + [e])[1..] == run[1..] + [e];
      ExecThen(Step(t, run[0]), run[1..], e);
    } else {
      assert [e][1..] == [] && [] + [e] == [e];
    }
  }

  lemma Then(autoReconnect: bool, run: seq<Event>, e: Event) returns (longer: seq<Event>)
    requires Legal(Init(autoReconnect), run) && Enabled(Exec(Init(autoReconnect), run), e)
    ensures Legal(Init(autoReconnect), longer)
    ensures Exec(Init(autoReconnect), longer) == Step(Exec(Init(autoReconnect), run), e)
  {
    ExecThen(Init(autoReconnect), run, e);
    longer := run + [e];
  }

  /**
   Both the interrupted connect() and the reconnect it gave rise to take the one
   ConnectResponse for theirs, and both start a heartbeat.
   */
  lemma TwoHeartbeats() returns (run: seq<Event>)
    ensures Legal(Init(true), run) && |Exec(Init(true), run).heartbeats| == 2
  {
    run := [];
    run := Then(true, run, UserConnects);
    run := Then(true, run, DisconnectRequestArrives(false));
    run := Then(true, run, ReconnectRuns(0));
    run := Then(true, run, DisconnectEnds(0));
    run := Then(true, run, TransportConnects(0, true));
    run := Then(true, run, UserConnectEnds(true));
    run := Then(true, run, ConnectEnds(0, true));
    var t7 := Exec(Init(true), run);
    assert t7.heartbeats.Keys == {1, 2};
    assert |t7.heartbeats.Keys| == 2;
  }

  /**
   The discipline holds on all runs, except that with auto_reconnect a disconnect request may
   interrupt a user's connect(): exactly then it can be lost.
   */
  lemma AlwaysOneOfEachIff(autoReconnect: bool, disturbed: bool)
    ensures AlwaysOneOfEach(autoReconnect, disturbed) <==> !(autoReconnect && disturbed)
  {
    if autoReconnect && disturbed {
      var run := TwoHeartbeats();
      assert !OneOfEach(Exec(Init(true), run));
    } else {
      forall run | Legal(Init(autoReconnect), run) && (disturbed || Undisturbed(Init(autoReconnect), run))
        ensures OneOfEach(Exec(Init(autoReconnect), run))
      {
        RunKeepsDiscipline(Init(autoReconnect), run);
        DisciplineIsOneOfEach(Exec(Init(autoReconnect), run));
      }
    }
  }

  // ----------------------------------------------------------------- heartbeats

  predicate LastFailed(results: seq<bool>, n: nat) {
    n <= |results| && forall i :: |results| - n <= i < |results| ==> !results[i]
  }

  /** A heartbeat on its k-th retry has k failed responses directly behind it. */
  predicate HonestCounts(heartbeats: map<nat, HeartbeatPhase>) {
    forall id :: id in heartbeats && heartbeats[id].Requesting? ==>
      heartbeats[id].failures <= 3 && LastFailed(heartbeats[id].results, heartbeats[id].failures)
  }

  lemma RoutinesKeepCounts(t: Tasks)
    requires HonestCounts(t.heartbeats)
    ensures HonestCounts(PrepareDisconnect(t).heartbeats)
    ensures HonestCounts(TunnelLost(t).heartbeats)
    ensures HonestCounts(TunnelEstablished(t).heartbeats)
  {
  }

  lemma RequestStateKeepsCounts(t: Tasks, id: nat, failures: nat, results: seq<bool>)
    requires HonestCounts(t.heartbeats) && failures <= 3 && LastFailed(results, failures)
    ensures HonestCounts(RequestState(t, id, failures, results).heartbeats)
  {
    RoutinesKeepCounts(MoveHeartbeat(t, id, Sleeping(results)));
  }

  lemma HeartbeatStepKeepsCounts(t: Tasks, e: Event)
    requires HonestCounts(t.heartbeats) && Enabled(t, e) && (e.HeartbeatWakes? || e.StateResponse?)
    ensures HonestCounts(Step(t, e).heartbeats)
  {
    if e.HeartbeatWakes? {
      RequestStateKeepsCounts(t, e.id, 0, t.heartbeats[e.id].results);
    } else {
      var failures, results := t.heartbeats[e.id].failures, t.heartbeats[e.id].results + [e.success];
      RoutinesKeepCounts(MoveHeartbeat(t, e.id, Sleeping(results)));
      if !e.success && failures < 3 {
        RequestStateKeepsCounts(t, e.id, failures + 1, results);
      }
    }
  }

  lemma StepKeepsCounts(t: Tasks, e: Event)
    requires HonestCounts(t.heartbeats) && Enabled(t, e)
    ensures HonestCounts(Step(t, e).heartbeats)
  {
    if e.HeartbeatWakes? || e.StateResponse? {
      HeartbeatStepKeepsCounts(t, e);
    } else if e.TimerFires? || e.SendFailedTwice? || e.DisconnectRequestArrives? {
      LossKeepsCounts(t, e);
    } else if e.UserConnectEnds? || e.ConnectEnds? {
      ConnectKeepsCounts(t, e);
    } else {
      QuietStepKeepsCounts(t, e);
    }
  }

  lemma LossKeepsCounts(t: Tasks, e: Event)
    requires HonestCounts(t.heartbeats) && Enabled(t, e) && (e.TimerFires? || e.SendFailedTwice? || e.DisconnectRequestArrives?)
    ensures HonestCounts(Step(t, e).heartbeats)
  {
    if e.TimerFires? {
      RoutinesKeepCounts(t.(timers := t.timers - {e.id}, invalidSequenceTask := None));
    } else if e.DisconnectRequestArrives? {
      RoutinesKeepCounts(if e.ownChannel then t.(channel := false) else t);
    } else {
      RoutinesKeepCounts(t);
    }
  }

  lemma ConnectKeepsCounts(t: Tasks, e: Event)
    requires HonestCounts(t.heartbeats) && Enabled(t, e) && (e.UserConnectEnds? || e.ConnectEnds?)
    ensures HonestCounts(Step(t, e).heartbeats)
  {
    if e.UserConnectEnds? {
      RoutinesKeepCounts(t.(userConnecting := false, channel := true));
    } else {
      RoutinesKeepCounts(t.(channel := true));
    }
  }

  lemma QuietStepKeepsCounts(t: Tasks, e: Event)
    requires HonestCounts(t.heartbeats) && Enabled(t, e)
    requires !e.HeartbeatWakes? && !e.StateResponse? && !e.TimerFires? && !e.SendFailedTwice? && !e.DisconnectRequestArrives?
    requires !e.UserConnectEnds? && !e.ConnectEnds?
    ensures HonestCounts(Step(t, e).heartbeats)
  {
    if e.UserDisconnects? || e.ReconnectRuns? {
      RoutinesKeepCounts(t);
      assert Step(t, e).heartbeats == PrepareDisconnect(t).heartbeats;
    } else {
      assert Step(t, e).heartbeats == t.heartbeats;
    }
  }

  lemma {:induction false} RunKeepsCounts(t: Tasks, run: seq<Event>)
    requires HonestCounts(t.heartbeats) && Legal(t, run)
    ensures HonestCounts(Exec(t, run).heartbeats)
    decreases |run|
  {
    if run != [] {
      StepKeepsCounts(t, run[0]);
      RunKeepsCounts(Step(t, run[0]), run[1..]);
    }
  }

  /** The heartbeat starts a reconnect with this event. */
  predicate HeartbeatDeclaresLoss(t: Tasks, e: Event)
    requires Enabled(t, e)
  {
    (e.HeartbeatWakes? || e.StateResponse?) && t.autoReconnect && t.reconnectTask.None? && Step(t, e).reconnectTask.Some?
  }

  /**
   On every run: with auto_reconnect on and no reconnect pending, the heartbeat declares the
   tunnel lost exactly when there is no channel to ask about, unless it has just succeeded,
   or when the response makes it four failures in a row.
   */
  lemma LossAfterFourFailuresOrNoChannel(autoReconnect: bool, run: seq<Event>, e: Event)
    requires Legal(Init(autoReconnect), run)
    requires var t := Exec(Init(autoReconnect), run);
             Enabled(t, e) && (e.HeartbeatWakes? || e.StateResponse?) && t.autoReconnect && t.reconnectTask.None?
    ensures var t := Exec(Init(autoReconnect), run);
            var h := t.heartbeats[e.id];
            && (HeartbeatDeclaresLoss(t, e) <==>
                if e.HeartbeatWakes? then !t.channel else !e.success && (!t.channel || h.failures == 3))
            && (HeartbeatDeclaresLoss(t, e) && t.channel ==> e.StateResponse? && LastFailed(h.results + [e.success], 4))
  {
    RunKeepsCounts(Init(autoReconnect), run);
  }

  // ------------------------------------------------------------------- counters

  lemma NextCounts(n: nat)
    ensures Tunnel.NextCounter(n % 256) == (n + 1) % 256
  {
  }

  /** The connection attempts begin and end with these events. */
  predicate SendsConnectRequest(e: Event) {
    e.UserConnects? || (e.TransportConnects? && e.success)
  }

  predicate Establishes(e: Event) {
    (e.UserConnectEnds? || e.ConnectEnds?) && e.granted
  }

  /** The tunnelling request that arrives is the expected one. */
  predicate Takes(t: Tasks, e: Event) {
    e.TunnellingRequestArrives? && Tunnel.Receive(t.expected, e.counter).Deliver?
  }

  predicate SameCounters(t: Tasks, t': Tasks) {
    && t'.autoReconnect == t.autoReconnect && t'.taken == t.taken && t'.expected == t.expected
    && t'.ended == t.ended && t'.sequenceNumber == t.sequenceNumber
  }

  lemma RoutinesLeaveCounters(t: Tasks)
    ensures SameCounters(t, PrepareDisconnect(t)) && SameCounters(t, TunnelLost(t)) && SameCounters(t, ArmTimer(t))
    ensures SameCounters(t, CancelTimer(t)) && SameCounters(t, CancelReconnect(t))
  {
  }

  lemma HeartbeatLeavesCounters(t: Tasks, e: Event)
    requires Enabled(t, e) && (e.HeartbeatWakes? || e.StateResponse?)
    ensures SameCounters(t, Step(t, e))
  {
    var results := t.heartbeats[e.id].results + (if e.StateResponse? then [e.success] else []);
    assert t.heartbeats[e.id].results + [] == t.heartbeats[e.id].results;
    RoutinesLeaveCounters(MoveHeartbeat(t, e.id, Sleeping(results)));
  }

  lemma LossLeavesCounters(t: Tasks, e: Event)
    requires Enabled(t, e) && (e.DisconnectRequestArrives? || e.SendFailedTwice? || e.TimerFires?)
    ensures SameCounters(t, Step(t, e))
  {
    if e.DisconnectRequestArrives? {
      RoutinesLeaveCounters(if e.ownChannel then t.(channel := false) else t);
    } else if e.SendFailedTwice? {
      RoutinesLeaveCounters(t);
    } else {
      RoutinesLeaveCounters(t.(timers := t.timers - {e.id}, invalidSequenceTask := None));
    }
  }

  /** What each event does to the two counters and their histories. */
  predicate CountersStep(t: Tasks, e: Event, t': Tasks) {
    && t'.autoReconnect == t.autoReconnect
    && t'.taken == (if SendsConnectRequest(e) then 0 else if Takes(t, e) then t.taken + 1 else t.taken)
    && t'.expected == (if SendsConnectRequest(e) then 0 else if Takes(t, e) then Tunnel.NextCounter(t.expected) else t.expected)
    && t'.ended == (if Establishes(e) then 0 else if e.SendEnds? then t.ended + 1 else t.ended)
    && t'.sequenceNumber == (if Establishes(e) then 0 else if e.SendEnds? then Tunnel.NextCounter(t.sequenceNumber) else t.sequenceNumber)
  }

  lemma UserStepCounters(t: Tasks, e: Event)
    requires Enabled(t, e) && (e.UserConnects? || e.UserConnectEnds? || e.UserDisconnectEnds? || e.SendEnds?)
    ensures CountersStep(t, e, Step(t, e))
  {
  }

  lemma ReconnectStepCounters(t: Tasks, e: Event)
    requires Enabled(t, e) && OfReconnect(e)
    ensures CountersStep(t, e, Step(t, e))
  {
    if e.ReconnectRuns? {
      RoutinesLeaveCounters(t);
    }
  }

  lemma StepCounters(t: Tasks, e: Event)
    requires Enabled(t, e)
    ensures CountersStep(t, e, Step(t, e))
  {
    if e.HeartbeatWakes? || e.StateResponse? {
      HeartbeatLeavesCounters(t, e);
    } else if e.DisconnectRequestArrives? || e.SendFailedTwice? || e.TimerFires? {
      LossLeavesCounters(t, e);
    } else if e.TunnellingRequestArrives? {
      RoutinesLeaveCounters(t);
      RoutinesLeaveCounters(t.(expected := Tunnel.NextCounter(t.expected), taken := t.taken + 1));
    } else if e.UserDisconnects? {
      RoutinesLeaveCounters(t);
      RoutinesLeaveCounters(PrepareDisconnect(t));
    } else if OfReconnect(e) {
      ReconnectStepCounters(t, e);
    } else {
      UserStepCounters(t, e);
    }
  }

  /** The events since the last one that satisfies `reset`, or all. */
  function Since(run: seq<Event>, reset: Event -> bool): seq<Event> {
    if run == [] || reset(run[|run| - 1]) then []
    else Since(run[..|run| - 1], reset) + [run[|run| - 1]]
  }

  lemma {:induction false} ExecLast(t: Tasks, run: seq<Event>)
    requires Legal(t, run) && run != []
    ensures Legal(t, run[..|run| - 1]) && Enabled(Exec(t, run[..|run| - 1]), run[|run| - 1])
    ensures Exec(t, run) == Step(Exec(t, run[..|run| - 1]), run[|run| - 1])
    decreases |run|
  {
    if |run| > 1 {
      ExecLast(Step(t, run[0]), run[1..]);
      assert run[1..][..|run| - 2] == run[..|run| - 1][1..];
    } else {
      assert run[..0] == [] && run[1..] == [];
    }
  }

  function Sends(run: seq<Event>): nat {
    if run == [] then 0 else Sends(run[..|run| - 1]) + if run[|run| - 1].SendEnds? then 1 else 0
  }

  /** The requests taken since the last ConnectRequest, told from the events alone: those that carry the next number. */
  function TakenOn(run: seq<Event>): nat {
    if run == [] then 0
    else
      var before, last := TakenOn(run[..|run| - 1]), run[|run| - 1];
      if SendsConnectRequest(last) then 0
      else if last.TunnellingRequestArrives? && last.counter == before % 256 then before + 1
      else before
  }

  /**
   Each connection attempt sends its ConnectRequest with the receive counter at zero and ends
   with the send counter at zero: after every run the former counts the requests taken since
   the last ConnectRequest, and the latter the sends ended since a connection was last
   established, both modulo 256.
   */
  lemma {:induction false} ReconnectResetsCounters(autoReconnect: bool, run: seq<Event>)
    requires Legal(Init(autoReconnect), run)
    ensures var t := Exec(Init(autoReconnect), run);
            && t.taken == TakenOn(run) && t.expected == TakenOn(run) % 256
            && t.ended == Sends(Since(run, Establishes)) && t.sequenceNumber == Sends(Since(run, Establishes)) % 256
    decreases |run|
  {
    if run != [] {
      var front, last := run[..|run| - 1], run[|run| - 1];
      ExecLast(Init(autoReconnect), run);
      ReconnectResetsCounters(autoReconnect, front);
      var t := Exec(Init(autoReconnect), front);
      NextCounts(t.taken);
      NextCounts(t.ended);
      StepCounters(t, last);
      var since := Since(front, Establishes);
      assert (since + [last])[..|since|] == since;
    }
  }

  /**
   While a reconnect awaits its ConnectResponse the receive counter is still zero, unless
   requests were taken meanwhile, as here, where one arrives before the response.
   */
  lemma TakenBeforeResponse() returns (run: seq<Event>)
    ensures Legal(Init(true), run)
    ensures var t := Exec(Init(true), run);
            t.expected == 1 && (exists id :: id in t.reconnects && t.reconnects[id].AwaitingConnectResponse?)
  {
    run := [];
    run := Then(true, run, UserConnects);
    run := Then(true, run, UserConnectEnds(true));
    run := Then(true, run, DisconnectRequestArrives(true));
    run := Then(true, run, ReconnectRuns(1));
    run := Then(true, run, DisconnectEnds(1));
    run := Then(true, run, TransportConnects(1, true));
    run := Then(true, run, TunnellingRequestArrives(0));
    var t := Exec(Init(true), run);
    assert 1 in t.reconnects && t.reconnects[1].AwaitingConnectResponse?;
  }

  // ------------------------------------- the state, told from the events alone

  /** The events that _tunnel_lost is called on. */
  predicate Loses(t: Tasks, e: Event)
    requires Enabled(t, e)
  {
    || e.DisconnectRequestArrives? || e.SendFailedTwice? || e.TimerFires?
    || (e.HeartbeatWakes? && !t.channel)
    || (e.StateResponse? && !e.success && (!t.channel || t.heartbeats[e.id].failures >= 3))
  }

  /**
   The events after which neither the timer nor a heartbeat is left: cleanup, disconnect(), a loss
   without auto_reconnect.
   */
  predicate ClearsTasks(t: Tasks, e: Event)
    requires Enabled(t, e)
  {
    e.ReconnectRuns? || e.UserDisconnects? || (Loses(t, e) && !t.autoReconnect)
  }

  /** What each event does to channel, transport and fields. */
  predicate FieldsStep(t: Tasks, e: Event, t': Tasks)
    requires Enabled(t, e)
  {
    && (t'.channel <==> Establishes(e) || (t.channel && !ClosesChannel(e)))
    && (t'.transportOpen <==> SendsConnectRequest(e) || (t.transportOpen && !ClosesTransport(e) && !(Loses(t, e) && !t.autoReconnect)))
    && (t'.reconnectTask.Some? <==> !e.ReconnectDone? && (t.reconnectTask.Some? || (Loses(t, e) && t.autoReconnect)))
    && (t'.heartbeatTask.Some? <==> Establishes(e) || (t.heartbeatTask.Some? && !ClearsTasks(t, e)))
    && (t'.invalidSequenceTask.Some? <==>
          if ClearsTasks(t, e) || e.TimerFires? then false
          else if !e.TunnellingRequestArrives? || e.counter == Tunnel.PreviousCounter(t.expected) then t.invalidSequenceTask.Some?
          else e.counter != t.expected && (t.invalidSequenceTask.Some? || t.reconnectTask.None?))
  }

  predicate ClosesChannel(e: Event) {
    (e.DisconnectRequestArrives? && e.ownChannel) || e.DisconnectEnds? || e.UserDisconnectEnds?
  }

  predicate ClosesTransport(e: Event) {
    || e.DisconnectEnds? || e.UserDisconnectEnds? || (e.TransportConnects? && !e.success)
    || ((e.UserConnectEnds? || e.ConnectEnds?) && !e.granted)
  }

  lemma LossFields(t: Tasks)
    requires t.reconnectTask.Some? ==> t.autoReconnect
    ensures var t' := TunnelLost(t);
            && t'.channel == t.channel && t'.reconnectTask.Some? == t.autoReconnect && t'.autoReconnect == t.autoReconnect
            && t'.transportOpen == (t.transportOpen && t.autoReconnect)
            && t'.heartbeatTask.Some? == (t.heartbeatTask.Some? && t.autoReconnect)
            && t'.invalidSequenceTask.Some? == (t.invalidSequenceTask.Some? && t.autoReconnect)
    ensures var t' := PrepareDisconnect(t);
            && t'.channel == t.channel && t'.reconnectTask == t.reconnectTask && t'.transportOpen == t.transportOpen
            && t'.heartbeatTask.None? && t'.invalidSequenceTask.None? && t'.autoReconnect == t.autoReconnect
  {
  }

  lemma LossStepFields(t: Tasks, e: Event)
    requires Enabled(t, e) && (e.DisconnectRequestArrives? || e.SendFailedTwice? || e.TimerFires?)
    requires t.reconnectTask.Some? ==> t.autoReconnect
    ensures FieldsStep(t, e, Step(t, e))
  {
    if e.DisconnectRequestArrives? {
      LossFields(if e.ownChannel then t.(channel := false) else t);
    } else if e.SendFailedTwice? {
      LossFields(t);
    } else {
      LossFields(t.(timers := t.timers - {e.id}, invalidSequenceTask := None));
    }
  }

  lemma HeartbeatStepFields(t: Tasks, e: Event)
    requires Enabled(t, e) && (e.HeartbeatWakes? || e.StateResponse?) && (t.reconnectTask.Some? ==> t.autoReconnect)
    ensures FieldsStep(t, e, Step(t, e))
  {
    var results := t.heartbeats[e.id].results + (if e.StateResponse? then [e.success] else []);
    assert t.heartbeats[e.id].results + [] == t.heartbeats[e.id].results;
    LossFields(MoveHeartbeat(t, e.id, Sleeping(results)));
  }

  lemma ReceptionFields(t: Tasks, e: Event)
    requires Enabled(t, e) && e.TunnellingRequestArrives?
    ensures FieldsStep(t, e, Step(t, e))
  {
    PreviousIsOther(t.expected);
  }

  lemma PreviousIsOther(expected: nat)
    ensures Tunnel.PreviousCounter(expected) != expected
  {
  }

  lemma ReconnectStepFields(t: Tasks, e: Event)
    requires Enabled(t, e) && OfReconnect(e) && (t.reconnectTask.Some? ==> t.autoReconnect)
    ensures FieldsStep(t, e, Step(t, e))
  {
    if e.ReconnectRuns? {
      LossFields(t);
    }
  }

  lemma UserStepFields(t: Tasks, e: Event)
    requires Enabled(t, e) && (t.reconnectTask.Some? ==> t.autoReconnect)
    requires e.UserConnects? || e.UserConnectEnds? || e.UserDisconnects? || e.UserDisconnectEnds? || e.SendEnds?
    ensures FieldsStep(t, e, Step(t, e))
  {
    if e.UserDisconnects? {
      LossFields(t);
    }
  }

  lemma StepFields(t: Tasks, e: Event)
    requires Enabled(t, e) && (t.reconnectTask.Some? ==> t.autoReconnect)
    ensures FieldsStep(t, e, Step(t, e))
  {
    if e.HeartbeatWakes? || e.StateResponse? {
      HeartbeatStepFields(t, e);
    } else if e.DisconnectRequestArrives? || e.SendFailedTwice? || e.TimerFires? {
      LossStepFields(t, e);
    } else if e.TunnellingRequestArrives? {
      ReceptionFields(t, e);
    } else if OfReconnect(e) {
      ReconnectStepFields(t, e);
    } else {
      UserStepFields(t, e);
    }
  }

  /** A channel was granted, and since then neither given up nor closed by the server. */
  predicate ChannelOn(run: seq<Event>) {
    run != [] &&
    (var last := run[|run| - 1]; Establishes(last) || (ChannelOn(run[..|run| - 1]) && !ClosesChannel(last)))
  }

  /** The failed responses of a heartbeat since its last wake-up or success. */
  function FailuresOn(run: seq<Event>, id: nat): nat {
    if run == [] then 0
    else
      var before, last := FailuresOn(run[..|run| - 1], id), run[|run| - 1];
      if last == HeartbeatWakes(id) || last == StateResponse(id, true) then 0
      else if last == StateResponse(id, false) then before + 1
      else before
  }

  /** Losses as the events tell them: a heartbeat finds no channel, or its fourth response in a row failed. */
  predicate LosesOn(run: seq<Event>, e: Event) {
    || e.DisconnectRequestArrives? || e.SendFailedTwice? || e.TimerFires?
    || (e.HeartbeatWakes? && !ChannelOn(run))
    || (e.StateResponse? && !e.success && (!ChannelOn(run) || FailuresOn(run, e.id) >= 3))
  }

  predicate ClearsOn(autoReconnect: bool, run: seq<Event>, e: Event) {
    e.ReconnectRuns? || e.UserDisconnects? || (LosesOn(run, e) && !autoReconnect)
  }

  predicate OpenOn(autoReconnect: bool, run: seq<Event>) {
    run != [] &&
    (var front, last := run[..|run| - 1], run[|run| - 1];
     || SendsConnectRequest(last)
     || (OpenOn(autoReconnect, front) && !ClosesTransport(last) && !(LosesOn(front, last) && !autoReconnect)))
  }

  predicate HeartbeatOn(autoReconnect: bool, run: seq<Event>) {
    run != [] &&
    (var front, last := run[..|run| - 1], run[|run| - 1];
     Establishes(last) || (HeartbeatOn(autoReconnect, front) && !ClearsOn(autoReconnect, front, last)))
  }

  /** A loss with auto_reconnect came, and no end of a reconnect since. */
  predicate PendingOn(autoReconnect: bool, run: seq<Event>) {
    run != [] &&
    (var front, last := run[..|run| - 1], run[|run| - 1];
     !last.ReconnectDone? && (PendingOn(autoReconnect, front) || (LosesOn(front, last) && autoReconnect)))
  }

  /**
   A request that was neither the next nor the one before came while no reconnect was pending,
   and since then neither the next one, nor the firing, nor anything that clears the tasks.
   */
  predicate ArmedOn(autoReconnect: bool, run: seq<Event>) {
    run != [] &&
    (var front, last := run[..|run| - 1], run[|run| - 1];
     var before, next := ArmedOn(autoReconnect, front), TakenOn(front);
     if ClearsOn(autoReconnect, front, last) || last.TimerFires? then false
     else if !last.TunnellingRequestArrives? || last.counter == (next + 255) % 256 then before
     else last.counter != next % 256 && (before || !PendingOn(autoReconnect, front)))
  }

  /** A heartbeat that awaits a response has had so many failures. */
  predicate CountsFailures(t: Tasks, run: seq<Event>) {
    forall id :: id in t.heartbeats && t.heartbeats[id].Requesting? ==> t.heartbeats[id].failures == FailuresOn(run, id)
  }

  lemma LossKeepsFailures(t: Tasks)
    ensures forall id :: id in TunnelLost(t).heartbeats ==> id in t.heartbeats && TunnelLost(t).heartbeats[id] == t.heartbeats[id]
    ensures forall id :: id in PrepareDisconnect(t).heartbeats ==>
              id in t.heartbeats && PrepareDisconnect(t).heartbeats[id] == t.heartbeats[id]
  {
  }

  /** Only the events of a heartbeat move it, and what is new sleeps. */
  predicate NoneRequests(t: Tasks, t': Tasks) {
    forall id :: id in t'.heartbeats && t'.heartbeats[id].Requesting? ==> id in t.heartbeats && t'.heartbeats[id] == t.heartbeats[id]
  }

  lemma LossRequestsNothing(t: Tasks, e: Event)
    requires Enabled(t, e) && (e.DisconnectRequestArrives? || e.TimerFires? || e.SendFailedTwice?)
    ensures NoneRequests(t, Step(t, e))
  {
    LossKeepsFailures(t);
    if e.DisconnectRequestArrives? {
      LossKeepsFailures(t.(channel := false));
    } else if e.TimerFires? {
      LossKeepsFailures(t.(timers := t.timers - {e.id}, invalidSequenceTask := None));
    }
  }

  lemma EstablishedRequestsNothing(t: Tasks)
    ensures NoneRequests(t, TunnelEstablished(t)) && NoneRequests(t, PrepareDisconnect(t))
  {
    LossKeepsFailures(t);
    assert TunnelEstablished(t).heartbeats == t.heartbeats[t.created := Sleeping([])];
  }

  lemma ReconnectRequestsNothing(t: Tasks, e: Event)
    requires Enabled(t, e) && OfReconnect(e)
    ensures NoneRequests(t, Step(t, e))
  {
    EstablishedRequestsNothing(t);
    if Establishes(e) {
      EstablishedRequestsNothing(t.(channel := true));
    } else if !e.ReconnectRuns? {
      assert Step(t, e).heartbeats == t.heartbeats;
    }
  }

  lemma UserRequestsNothing(t: Tasks, e: Event)
    requires Enabled(t, e)
    requires e.UserConnects? || e.UserConnectEnds? || e.UserDisconnects? || e.UserDisconnectEnds? || e.SendEnds? || e.TunnellingRequestArrives?
    ensures NoneRequests(t, Step(t, e))
  {
    EstablishedRequestsNothing(t);
    if Establishes(e) {
      EstablishedRequestsNothing(t.(userConnecting := false, channel := true));
    } else if !e.UserDisconnects? {
      assert Step(t, e).heartbeats == t.heartbeats;
    }
  }

  lemma OthersRequestNothing(t: Tasks, e: Event)
    requires Enabled(t, e) && !e.HeartbeatWakes? && !e.StateResponse?
    ensures NoneRequests(t, Step(t, e))
  {
    if e.DisconnectRequestArrives? || e.TimerFires? || e.SendFailedTwice? {
      LossRequestsNothing(t, e);
    } else if OfReconnect(e) {
      ReconnectRequestsNothing(t, e);
    } else {
      UserRequestsNothing(t, e);
    }
  }

  lemma HeartbeatCountsFailures(t: Tasks, e: Event)
    requires Enabled(t, e) && (e.HeartbeatWakes? || e.StateResponse?)
    ensures var after := Step(t, e).heartbeats;
            forall id :: id in after && after[id].Requesting? ==>
              if id != e.id then id in t.heartbeats && after[id] == t.heartbeats[id]
              else if e.HeartbeatWakes? then after[id].failures == 0
              else !e.success && after[id].failures == t.heartbeats[id].failures + 1
  {
    var results := t.heartbeats[e.id].results + (if e.StateResponse? then [e.success] else []);
    assert t.heartbeats[e.id].results + [] == t.heartbeats[e.id].results;
    LossKeepsFailures(MoveHeartbeat(t, e.id, Sleeping(results)));
  }

  lemma StepCountsFailures(t: Tasks, front: seq<Event>, e: Event)
    requires Enabled(t, e) && CountsFailures(t, front)
    ensures CountsFailures(Step(t, e), front + [e])
  {
    var run := front + [e];
    assert run[..|run| - 1] == front && run[|run| - 1] == e;
    if e.HeartbeatWakes? || e.StateResponse? {
      HeartbeatCountsFailures(t, e);
    } else {
      OthersRequestNothing(t, e);
    }
  }

  /** The fields are what the events tell. */
  predicate FieldsFollow(t: Tasks, run: seq<Event>) {
    && (t.reconnectTask.Some? ==> t.autoReconnect)
    && (t.channel <==> ChannelOn(run)) && (t.transportOpen <==> OpenOn(t.autoReconnect, run))
    && (t.reconnectTask.Some? <==> PendingOn(t.autoReconnect, run))
    && (t.heartbeatTask.Some? <==> HeartbeatOn(t.autoReconnect, run))
    && (t.invalidSequenceTask.Some? <==> ArmedOn(t.autoReconnect, run))
  }

  lemma FieldsFollowStep(t: Tasks, front: seq<Event>, e: Event, t': Tasks)
    requires Enabled(t, e) && FieldsFollow(t, front) && FieldsStep(t, e, t') && t'.autoReconnect == t.autoReconnect
    requires t.expected == TakenOn(front) % 256 && CountsFailures(t, front)
    ensures FieldsFollow(t', front + [e])
  {
    var run := front + [e];
    assert run[..|run| - 1] == front && run[|run| - 1] == e;
    assert Loses(t, e) <==> LosesOn(front, e);
    PreviousOf(TakenOn(front));
  }

  /**
   After every run, disturbed or not, the events alone tell: whether there is a channel and the
   transport is open, whether a reconnect is pending, whether a heartbeat runs, and whether the
   timer that an invalid sequence number starts is armed.
   */
  lemma {:induction false} StateFollowsEvents(autoReconnect: bool, run: seq<Event>)
    requires Legal(Init(autoReconnect), run)
    ensures var t := Exec(Init(autoReconnect), run);
            t.autoReconnect == autoReconnect && FieldsFollow(t, run) && CountsFailures(t, run)
    decreases |run|
  {
    if run != [] {
      var front, last := run[..|run| - 1], run[|run| - 1];
      ExecLast(Init(autoReconnect), run);
      StateFollowsEvents(autoReconnect, front);
      var t := Exec(Init(autoReconnect), front);
      ReconnectResetsCounters(autoReconnect, front);
      StepCounters(t, last);
      StepFields(t, last);
      StepCountsFailures(t, front, last);
      FieldsFollowStep(t, front, last, Step(t, last));
      assert front + [last] == run;
    }
  }

  lemma PreviousOf(taken: nat)
    ensures Tunnel.PreviousCounter(taken % 256) == (taken + 255) % 256
  {
  }

  /**
   After every run, where a reconnect stands next: it disconnects first exactly when the transport
   is open, and tries until it is granted a channel.
   */
  lemma ReconnectGoesThrough(autoReconnect: bool, run: seq<Event>, e: Event)
    requires Legal(Init(autoReconnect), run) && Enabled(Exec(Init(autoReconnect), run), e) && OfReconnect(e)
    ensures var after := Step(Exec(Init(autoReconnect), run), e).reconnects;
            if e.ReconnectDone? then e.id !in after
            else
              && e.id in after
              && after[e.id] ==
                   match e
                   case ReconnectRuns(_) => if OpenOn(autoReconnect, run) then Disconnecting else Connecting
                   case TransportConnects(_, success) => if success then AwaitingConnectResponse else Waiting
                   case ConnectEnds(_, granted) => if granted then Finished else Waiting
                   case _ => Connecting
  {
    StateFollowsEvents(autoReconnect, run);
    LossFields(Exec(Init(autoReconnect), run));
  }

  /**
   So, while the discipline holds, the timer is there exactly when it should be: it fires for
   nothing that was settled.
   */
  lemma TimerIsArmedIff(autoReconnect: bool, run: seq<Event>)
    requires Legal(Init(autoReconnect), run) && (autoReconnect ==> Undisturbed(Init(autoReconnect), run))
    ensures Exec(Init(autoReconnect), run).timers != {} <==> ArmedOn(autoReconnect, run)
    ensures Exec(Init(autoReconnect), run).heartbeats != map[] <==> HeartbeatOn(autoReconnect, run)
    ensures Exec(Init(autoReconnect), run).reconnects != map[] <==> PendingOn(autoReconnect, run)
  {
    StateFollowsEvents(autoReconnect, run);
    RunKeepsDiscipline(Init(autoReconnect), run);
    var t := Exec(Init(autoReconnect), run);
    assert t.timers == Members(t.invalidSequenceTask);
    assert t.heartbeats == map[] <==> t.heartbeats.Keys == {};
    assert t.reconnects == map[] <==> t.reconnects.Keys == {};
  }

  // ------------------------------------------------------------------ the object

  class UdpTunnel {
    const autoReconnect: bool
    var reconnectTask: Option<nat>
    var invalidSequenceNumberReconnectTask: Option<nat>
    var heartbeatTask: Option<nat>
    var communicationChannel: bool
    var transportOpen: bool
    var sequenceNumber: nat
    var expectedSequenceNumber: nat
    /** The event loop's live tasks of this tunnel. */
    var reconnects: map<nat, ReconnectPhase>
    var timers: set<nat>
    var heartbeats: map<nat, HeartbeatPhase>
    var created: nat
    var taken: nat
    var ended: nat
    /** Counters of the acks sent, in order; payloads handed on; unanswered DisconnectRequests. */
    var disconnectsSent: nat
    var acksSent: seq<nat>
    var received: seq<Bytes>

    function View(): Tasks
      reads this
    {
      Tasks(autoReconnect, reconnectTask, invalidSequenceNumberReconnectTask, heartbeatTask, communicationChannel,
            transportOpen, sequenceNumber, expectedSequenceNumber, reconnects, timers, heartbeats, created, false, taken, ended)
    }

    constructor (autoReconnect: bool)
      ensures View() == Init(autoReconnect)
      ensures acksSent == [] && received == [] && disconnectsSent == 0
    {
      this.autoReconnect := autoReconnect;
      reconnectTask, invalidSequenceNumberReconnectTask, heartbeatTask := None, None, None;
      communicationChannel, transportOpen := false, false;
      sequenceNumber, expectedSequenceNumber := 0, 0;
      reconnects, timers, heartbeats, created := map[], {}, map[], 0;
      taken, ended, disconnectsSent := 0, 0, 0;
      acksSent, received := [], [];
    }

    method CancelInvalidSequenceSchedule()
      modifies this`timers, this`invalidSequenceNumberReconnectTask
      ensures View() == CancelTimer(old(View()))
    {
      if invalidSequenceNumberReconnectTask.Some? {
        timers := timers - {invalidSequenceNumberReconnectTask.value};
        invalidSequenceNumberReconnectTask := None;
      }
    }

    method ScheduleInvalidSequence()
      modifies this`timers, this`invalidSequenceNumberReconnectTask, this`created
      ensures View() == ArmTimer(old(View()))
    {
      if invalidSequenceNumberReconnectTask.None? && reconnectTask.None? {
        timers := timers + {created};
        invalidSequenceNumberReconnectTask := Some(created);
        created := created + 1;
      }
    }

    method TunnellingRequestReceived(counter: nat, rawCemi: Bytes)
      modifies this
      ensures View() == RequestReceived(old(View()), counter)
      ensures disconnectsSent == old(disconnectsSent)
      ensures var reception := Tunnel.Receive(old(expectedSequenceNumber), counter);
              && acksSent == old(acksSent) + (if reception.Drop? then [] else [counter])
              && received == old(received) + (if reception.Deliver? then [rawCemi] else [])
    {
      if counter == expectedSequenceNumber {
        expectedSequenceNumber := (expectedSequenceNumber + 1) % 256;
        taken := taken + 1;
        CancelInvalidSequenceSchedule();
        acksSent := acksSent + [counter];
        received := received + [rawCemi];
        return;
      }
      if counter == (expectedSequenceNumber + 255) % 256 {
        acksSent := acksSent + [counter];
        return;
      }
      ScheduleInvalidSequence();
    }

    method StopHeartbeatTask()
      modifies this`heartbeats, this`heartbeatTask
      ensures View() == StopHeartbeat(old(View()))
    {
      if heartbeatTask.Some? {
        heartbeats := heartbeats - {heartbeatTask.value};
        heartbeatTask := None;
      }
    }

    method StartHeartbeatTask()
      modifies this`heartbeats, this`heartbeatTask, this`created
      ensures View() == StartHeartbeat(old(View()))
    {
      heartbeats := heartbeats[created := Sleeping([])];
      heartbeatTask := Some(created);
      created := created + 1;
    }

    method DoPrepareDisconnect()
      modifies this`timers, this`invalidSequenceNumberReconnectTask, this`heartbeats, this`heartbeatTask
      ensures View() == PrepareDisconnect(old(View()))
    {
      CancelInvalidSequenceSchedule();
      StopHeartbeatTask();
    }

    method DoTunnelLost()
      modifies this`timers, this`invalidSequenceNumberReconnectTask, this`heartbeats, this`heartbeatTask,
               this`reconnects, this`reconnectTask, this`created, this`transportOpen, this`disconnectsSent
      ensures View() == TunnelLost(old(View()))
      ensures disconnectsSent == old(disconnectsSent) + if !autoReconnect && old(transportOpen && communicationChannel) then 1 else 0
    {
      if autoReconnect {
        if reconnectTask.None? {
          reconnects := reconnects[created := Scheduled];
          reconnectTask := Some(created);
          created := created + 1;
        }
        return;
      }
      DoPrepareDisconnect();
      if transportOpen {
        if communicationChannel {
          disconnectsSent := disconnectsSent + 1;
        }
        transportOpen := false;
      }
    }

    method DoTunnelEstablished()
      modifies this`sequenceNumber, this`ended, this`heartbeats, this`heartbeatTask, this`created
      ensures View() == TunnelEstablished(old(View()))
    {
      sequenceNumber, ended := 0, 0;
      StartHeartbeatTask();
    }

    method IncreaseSequenceNumber()
      modifies this`sequenceNumber, this`ended
      ensures View() == SendEnded(old(View()))
    {
      sequenceNumber := (sequenceNumber + 1) % 256;
      ended := ended + 1;
    }
  }
}
