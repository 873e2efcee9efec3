/**
 _RoutingFlowControl and its client Routing.send_cemi: the pause that RoutingBusy frames
 impose, the timer task that ends it and fades out the count of busy frames, and one sender
 that awaits readiness. One event is one piece of code between two awaits; times are
 milliseconds. One sender at a time is assumed.
 */
module RoutingFlowControl {
  import opened Bytes

  const BUSY_DECREMENT_TIME: real := 5.0
  const BUSY_INCREMENT_COOLDOWN: real := 10.0
  const BUSY_RANDOM_TIME_FACTOR: real := 50.0
  const BUSY_SLOWDURATION_TIME_FACTOR: real := 100.0
  const ROUTING_INDICATION_WAIT_TIME: real := 20.0

  /** Where _resume_sending stands; a cancelled task is gone. */
  datatype Timer =
    | NoTask
    | Created
    | Pausing(until: real, slowduration: real)
    | Slow(until: real)
    | Decrementing(until: real)
    | Finished

  /** Where the sender stands in throttle(): `Woken` once its wait for readiness has been answered. */
  datatype Sender =
    | Idle
    | Throttled(until: real)
    | Blocked
    | Woken(deadline: real)

  /**
   A RoutingIndication sent; `deadline` is the latest arrival + wait_time known when readiness was
   seen, `latest` when sent.
   */
  datatype Send = Send(at: real, deadline: real, latest: real)

  datatype BusyFrame = BusyFrame(at: real, waitTime: nat)

  datatype Flow = Flow(
    lastBusyFrameTime: real,
    lastSent: real,
    ready: bool,
    receivedBusyFrames: int,
    timer: Timer,
    waitStart: Option<real>,
    waitTime: nat,
    sender: Sender,
    now: real,
    /** Histories: the busy frames of the pause, all of them, increments of the count, indications sent. */
    pauseFrames: seq<BusyFrame>,
    frames: seq<BusyFrame>,
    increments: nat,
    sends: seq<Send>)

  function Init(now: real): Flow {
    Flow(0.0, 0.0, true, 0, NoTask, None, 0, Idle, now, [], [], 0, [])
  }

  function Deadline(f: BusyFrame): real {
    f.at + f.waitTime as real
  }

  /** The latest arrival + wait_time among the frames. */
  function Latest(frames: seq<BusyFrame>): (r: real)
    requires frames != []
    ensures forall f :: f in frames ==> Deadline(f) <= r
    ensures exists f :: f in frames && Deadline(f) == r
  {
    var last := frames[|frames| - 1];
    if |frames| == 1 then Deadline(last)
    else
      var before := Latest(frames[..|frames| - 1]);
      assert frames == frames[..|frames| - 1] + [last];
      if before >= Deadline(last) then before else Deadline(last)
  }

  /** With nothing received there is nothing to wait for. */
  function LatestOr(frames: seq<BusyFrame>, none: real): real {
    if frames == [] then none else Latest(frames)
  }

  datatype Event =
    | Tick(dt: real)
    | Busy(waitTime: nat)
    | TimerStarts(random: real)
    | PauseEnds
    | SlowEnds
    | Decrements
    | Enters
    | ThrottleEnds
    | Resumes

  predicate Enabled(prompt: bool, f: Flow, e: Event) {
    match e
    case Tick(dt) => dt >= 0.0
    // `prompt`: nothing comes between the end of a pause and the senders it wakes
    case Busy(waitTime) => waitTime < 0x1_0000 && (prompt ==> !f.sender.Woken?)
    case TimerStarts(random) => f.timer.Created? && 0.0 <= random < 1.0
    case PauseEnds => f.timer.Pausing? && f.now >= f.timer.until
    case SlowEnds => f.timer.Slow? && f.now >= f.timer.until
    case Decrements => f.timer.Decrementing? && f.now >= f.timer.until
    case Enters => f.sender.Idle?
    case ThrottleEnds => f.sender.Throttled? && f.now >= f.sender.until
    case Resumes => f.sender.Woken?
  }

  /** handle_routing_busy */
  function HandleBusy(f: Flow, waitTime: nat): Flow {
    var frame := BusyFrame(f.now, waitTime);
    var cleared := f.(ready := false, lastBusyFrameTime := f.now, frames := f.frames + [frame]);
    if f.waitStart.None? then
      cleared.(waitTime := waitTime, waitStart := Some(f.now), timer := Created, pauseFrames := [frame])
    else
      var more := if f.now - f.lastBusyFrameTime > BUSY_INCREMENT_COOLDOWN then 1 else 0;
      var counted := cleared.(receivedBusyFrames := f.receivedBusyFrames + more, increments := f.increments + more,
                              pauseFrames := f.pauseFrames + [frame]);
      var remaining := f.waitTime as real - (f.now - f.waitStart.value);
      if remaining >= waitTime as real then counted
      else counted.(waitTime := waitTime, waitStart := Some(f.now), timer := Created)
  }

  /** The wait for readiness at the end of throttle(), and the indication if there is nothing to wait for. */
  function AwaitReady(f: Flow): Flow {
    if f.ready then SendIndication(f, LatestOr(f.frames, f.now)) else f.(sender := Blocked)
  }

  function SendIndication(f: Flow, deadline: real): Flow {
    f.(sender := Idle, lastSent := f.now, sends := f.sends + [Send(f.now, deadline, LatestOr(f.frames, f.now))])
  }

  function Decrement(f: Flow): Flow {
    f.(timer := if f.receivedBusyFrames > 0 then Decrementing(f.now + BUSY_DECREMENT_TIME) else Finished)
  }

  function Extension(random: real, count: int): real {
    random * count as real * BUSY_RANDOM_TIME_FACTOR
  }

  function Step(f: Flow, e: Event): Flow
    requires Enabled(false, f, e)
  {
    match e
    case Tick(dt) => f.(now := f.now + dt)
    case Busy(waitTime) => HandleBusy(f, waitTime)
    case TimerStarts(random) =>
      var extension := Extension(random, f.receivedBusyFrames);
      f.(timer := Pausing(f.now + f.waitTime as real + extension, f.receivedBusyFrames as real * BUSY_SLOWDURATION_TIME_FACTOR))
    case PauseEnds =>
      f.(ready := true, waitStart := None, timer := Slow(f.now + f.timer.slowduration),
         sender := if f.sender.Blocked? then Woken(LatestOr(f.frames, f.now)) else f.sender)
    case SlowEnds => Decrement(f)
    case Decrements =>
      Decrement(f.(receivedBusyFrames := f.receivedBusyFrames - 1))
    case Enters =>
      var elapsed := f.now - f.lastSent;
      if elapsed < ROUTING_INDICATION_WAIT_TIME then f.(sender := Throttled(f.now + (ROUTING_INDICATION_WAIT_TIME - elapsed)))
      else AwaitReady(f)
    case ThrottleEnds => AwaitReady(f)
    case Resumes => SendIndication(f, f.sender.deadline)
  }

  predicate Legal(prompt: bool, f: Flow, run: seq<Event>)
    decreases |run|
  {
    run == [] || (Enabled(prompt, f, run[0]) && Enabled(false, f, run[0]) && Legal(prompt, Step(f, run[0]), run[1..]))
  }

  function Exec(prompt: bool, f: Flow, run: seq<Event>): Flow
    requires Legal(prompt, f, run)
    decreases |run|
  {
    if run == [] then f else Exec(prompt, Step(f, run[0]), run[1..])
  }

  // ------------------------------------------------------------------- invariants

  /** Not ready exactly while a wait start is recorded, and then the timer is yet to end the pause. */
  predicate PauseIsRecorded(f: Flow) {
    && (f.ready <==> f.waitStart.None?)
    && (f.waitStart.Some? <==> f.timer.Created? || f.timer.Pausing?)
  }

  /** The base deadline is the latest of the busy frames of the pause, which are the last ones received. */
  predicate DeadlineIsLatest(f: Flow) {
    f.waitStart.Some? ==>
      && f.pauseFrames != [] && f.frames != [] && f.waitStart.value <= f.now
      && f.waitStart.value + f.waitTime as real == Latest(f.pauseFrames) == Latest(f.frames)
      && (f.timer.Pausing? ==> f.timer.until >= Latest(f.pauseFrames))
  }

  /** When sending is allowed, every busy frame's time has passed. */
  predicate ReadyIsLate(f: Flow) {
    f.ready && f.frames != [] ==> Latest(f.frames) <= f.now
  }

  predicate CountFades(f: Flow) {
    && f.receivedBusyFrames >= 0
    && (f.receivedBusyFrames > 0 ==> !f.timer.NoTask? && !f.timer.Finished?)
    && (f.timer.Decrementing? ==> f.receivedBusyFrames > 0)
  }

  predicate SendsSpaced(f: Flow) {
    && (forall i :: 0 <= i < |f.sends| - 1 ==> f.sends[i + 1].at - f.sends[i].at >= ROUTING_INDICATION_WAIT_TIME)
    && (f.sends != [] ==> f.lastSent == f.sends[|f.sends| - 1].at)
    && (f.sender.Throttled? ==> f.sender.until >= f.lastSent + ROUTING_INDICATION_WAIT_TIME)
    && (f.sender.Blocked? || f.sender.Woken? ==> f.now >= f.lastSent + ROUTING_INDICATION_WAIT_TIME)
  }

  predicate SendsAwaitSeenFrames(f: Flow) {
    && (forall i :: 0 <= i < |f.sends| ==> f.sends[i].at >= f.sends[i].deadline)
    && (f.sender.Woken? ==> f.sender.deadline <= f.now)
  }

  /** Every indication was sent after the time of every busy frame received by then. */
  predicate OnTime(f: Flow) {
    forall i :: 0 <= i < |f.sends| ==> f.sends[i].at >= f.sends[i].latest
  }

  /** What holds in addition when nothing comes between the end of a pause and the woken sender. */
  predicate SendsAwaitAllFrames(f: Flow) {
    OnTime(f) && (f.sender.Woken? ==> f.ready)
  }

  predicate Invariant(f: Flow) {
    && PauseIsRecorded(f) && DeadlineIsLatest(f) && ReadyIsLate(f) && CountFades(f)
    && SendsSpaced(f) && SendsAwaitSeenFrames(f)
  }

  lemma LatestOfOneMore(frames: seq<BusyFrame>, x: BusyFrame)
    ensures Latest(frames + [x]) ==
            if frames == [] then Deadline(x) else if Latest(frames) >= Deadline(x) then Latest(frames) else Deadline(x)
  {
    assert (frames + [x])[..|frames|] == frames;
  }

  lemma BusyMovesDeadline(f: Flow, waitTime: nat)
    requires PauseIsRecorded(f) && DeadlineIsLatest(f) && ReadyIsLate(f)
    ensures DeadlineIsLatest(HandleBusy(f, waitTime))
  {
    var frame := BusyFrame(f.now, waitTime);
    LatestOfOneMore(f.frames, frame);
    if f.waitStart.None? {
      LatestOfOneMore([], frame);
      assert [] + [frame] == [frame];
    } else {
      LatestOfOneMore(f.pauseFrames, frame);
    }
  }

  lemma BusyKeeps(f: Flow, waitTime: nat)
    requires Invariant(f)
    ensures Invariant(HandleBusy(f, waitTime))
  {
    BusyMovesDeadline(f, waitTime);
    SendsUntouched(f, HandleBusy(f, waitTime));
    PauseOfBusy(f, waitTime);
  }

  lemma PauseOfBusy(f: Flow, waitTime: nat)
    requires PauseIsRecorded(f) && CountFades(f)
    ensures PauseIsRecorded(HandleBusy(f, waitTime)) && CountFades(HandleBusy(f, waitTime))
    ensures !HandleBusy(f, waitTime).ready
  {
  }

  lemma SendsUntouched(f: Flow, f': Flow)
    requires SendsSpaced(f) && SendsAwaitSeenFrames(f)
    requires f'.sends == f.sends && f'.sender == f.sender && f'.now == f.now && f'.lastSent == f.lastSent
    ensures SendsSpaced(f') && SendsAwaitSeenFrames(f')
  {
  }

  lemma TimerKeeps(f: Flow, e: Event)
    requires Invariant(f) && Enabled(false, f, e)
    requires e.TimerStarts? || e.PauseEnds? || e.SlowEnds? || e.Decrements?
    ensures Invariant(Step(f, e))
  {
    if e.TimerStarts? {
      assert Extension(e.random, f.receivedBusyFrames) >= 0.0;
    }
  }

  lemma LatestIsPast(f: Flow)
    requires ReadyIsLate(f) && f.ready
    ensures LatestOr(f.frames, f.now) <= f.now
  {
  }

  lemma SendKeeps(f: Flow, deadline: real)
    requires Invariant(f) && deadline <= f.now && f.now >= f.lastSent + ROUTING_INDICATION_WAIT_TIME
    ensures Invariant(SendIndication(f, deadline))
  {
    var f' := SendIndication(f, deadline);
    assert DeadlineIsLatest(f') && ReadyIsLate(f') && PauseIsRecorded(f') && CountFades(f');
    var sends, sends' := f.sends, f'.sends;
    assert forall i :: 0 <= i < |sends| ==> sends'[i] == sends[i];
    assert SendsSpaced(f') && SendsAwaitSeenFrames(f');
  }

  lemma AwaitReadyKeeps(f: Flow)
    requires Invariant(f) && f.now >= f.lastSent + ROUTING_INDICATION_WAIT_TIME
    ensures Invariant(AwaitReady(f))
  {
    if f.ready {
      LatestIsPast(f);
      SendKeeps(f, LatestOr(f.frames, f.now));
    }
  }

  lemma SenderKeeps(f: Flow, e: Event)
    requires Invariant(f) && Enabled(false, f, e)
    requires e.Enters? || e.ThrottleEnds? || e.Resumes? || e.Tick?
    ensures Invariant(Step(f, e))
  {
    if e.Resumes? {
      SendKeeps(f, f.sender.deadline);
    } else if e.ThrottleEnds? || (e.Enters? && f.now - f.lastSent >= ROUTING_INDICATION_WAIT_TIME) {
      AwaitReadyKeeps(f);
    }
  }

  lemma StepKeeps(f: Flow, e: Event)
    requires Invariant(f) && Enabled(false, f, e)
    ensures Invariant(Step(f, e))
  {
    if e.Busy? {
      BusyKeeps(f, e.waitTime);
    } else if e.TimerStarts? || e.PauseEnds? || e.SlowEnds? || e.Decrements? {
      TimerKeeps(f, e);
    } else {
      SenderKeeps(f, e);
    }
  }

  lemma {:induction false} RunKeeps(prompt: bool, f: Flow, run: seq<Event>)
    requires Invariant(f) && Legal(prompt, f, run)
    ensures Invariant(Exec(prompt, f, run))
    decreases |run|
  {
    if run != [] {
      StepKeeps(f, run[0]);
      RunKeeps(prompt, Step(f, run[0]), run[1..]);
    }
  }

  lemma InitHolds(now: real)
    ensures Invariant(Init(now))
  {
  }

  // ----------------------------------------------------------------- main results

  /**
   On every run: not ready exactly while a wait start is recorded; the base deadline is then
   the latest arrival + wait_time of the pause's busy frames; indications keep 20 ms distance,
   and none is sent before the time of a busy frame received before the sender saw readiness.
   */
  lemma PauseDiscipline(now: real, run: seq<Event>)
    requires Legal(false, Init(now), run)
    ensures var f := Exec(false, Init(now), run);
            && (f.ready <==> f.waitStart.None?)
            && (f.waitStart.Some? ==> f.pauseFrames != [] && f.waitStart.value + f.waitTime as real == Latest(f.pauseFrames))
            && (f.timer.Pausing? ==> f.pauseFrames != [] && f.timer.until >= Latest(f.pauseFrames))
            && (forall i :: 0 <= i < |f.sends| - 1 ==> f.sends[i + 1].at - f.sends[i].at >= ROUTING_INDICATION_WAIT_TIME)
            && (forall i :: 0 <= i < |f.sends| ==> f.sends[i].at >= f.sends[i].deadline)
  {
    InitHolds(now);
    RunKeeps(false, Init(now), run);
  }

  ghost predicate NeverSentInPause(prompt: bool) {
    forall now: real, run ::
      Legal(prompt, Init(now), run) ==> OnTime(Exec(prompt, Init(now), run))
  }

  lemma PromptStepAwaitsAll(f: Flow, e: Event)
    requires Invariant(f) && SendsAwaitAllFrames(f) && Enabled(true, f, e) && Enabled(false, f, e)
    ensures SendsAwaitAllFrames(Step(f, e))
  {
  }

  lemma {:induction false} PromptRunAwaitsAll(f: Flow, run: seq<Event>)
    requires Invariant(f) && SendsAwaitAllFrames(f) && Legal(true, f, run)
    ensures SendsAwaitAllFrames(Exec(true, f, run))
    decreases |run|
  {
    if run != [] {
      StepKeeps(f, run[0]);
      PromptStepAwaitsAll(f, run[0]);
      PromptRunAwaitsAll(Step(f, run[0]), run[1..]);
    }
  }

  lemma {:induction false} ExecThen(f: Flow, run: seq<Event>, e: Event)
    requires Legal(false, f, run) && Enabled(false, Exec(false, f, run), e)
    ensures Legal(false, f, run + [e]) && Exec(false, f, run + [e]) == Step(Exec(false, f, run), e)
    decreases |run|
  {
    if run == [] {
      assert [] + [e] == [e] && [e][1..] == [];
    } else {
      assert (run + [e])[1..] == run[1..] + [e];
      ExecThen(Step(f, run[0]), run[1..], e);
    }
  }

  lemma Then(run: seq<Event>, e: Event) returns (longer: seq<Event>)
    requires Legal(false, Init(20.0), run) && Enabled(false, Exec(false, Init(20.0), run), e)
    ensures Legal(false, Init(20.0), longer)
    ensures Exec(false, Init(20.0), longer) == Step(Exec(false, Init(20.0), run), e)
  {
    ExecThen(Init(20.0), run, e);
    longer := run + [e];
  }

  /** A busy frame handled between the end of a pause and the sender it wakes does not stop the sender. */
  lemma SentInPause() returns (run: seq<Event>)
    ensures Legal(false, Init(20.0), run)
    ensures var f := Exec(false, Init(20.0), run); !f.ready && !OnTime(f)
  {
    run := [];
    run := Then(run, Busy(100));
    run := Then(run, Enters);
    run := Then(run, TimerStarts(0.0));
    run := Then(run, Tick(100.0));
    run := Then(run, PauseEnds);
    run := Then(run, Busy(100));
    run := Then(run, Resumes);
    var f := Exec(false, Init(20.0), run);
    assert f.sends[0].at == 120.0;
    assert f.frames[1] == BusyFrame(120.0, 100) && f.frames[1] in f.frames;
    assert f.sends[0].latest == Latest(f.frames) >= Deadline(f.frames[1]);
  }

  /** Nothing is sent in a pause, on all runs, exactly when woken senders run before further busy frames. */
  lemma NeverSentInPauseIffPrompt(prompt: bool)
    ensures NeverSentInPause(prompt) <==> prompt
  {
    if prompt {
      forall now: real, run | Legal(true, Init(now), run) ensures OnTime(Exec(true, Init(now), run)) {
        InitHolds(now);
        PromptRunAwaitsAll(Init(now), run);
      }
    } else {
      var run := SentInPause();
      assert !OnTime(Exec(false, Init(20.0), run));
    }
  }

  /** Of the busy frames and ends of pauses, a busy frame came last. */
  predicate BusyIsLast(run: seq<Event>) {
    run != [] &&
    (var last := run[|run| - 1];
     last.Busy? || (!last.PauseEnds? && BusyIsLast(run[..|run| - 1])))
  }

  lemma {:induction false} ExecLast(prompt: bool, f: Flow, run: seq<Event>)
    requires Legal(prompt, f, run) && run != []
    ensures Legal(prompt, f, run[..|run| - 1])
    ensures var before := Exec(prompt, f, run[..|run| - 1]);
            Enabled(false, before, run[|run| - 1]) && Exec(prompt, f, run) == Step(before, run[|run| - 1])
    decreases |run|
  {
    if |run| > 1 {
      ExecLast(prompt, Step(f, run[0]), run[1..]);
      assert run[1..][..|run| - 2] == run[..|run| - 1][1..];
    } else {
      assert run[..0] == [] && run[1..] == [];
    }
  }

  lemma {:induction false} ReadyIff(now: real, run: seq<Event>)
    requires Legal(false, Init(now), run)
    ensures Exec(false, Init(now), run).ready <==> !BusyIsLast(run)
    decreases |run|
  {
    if run != [] {
      ExecLast(false, Init(now), run);
      ReadyIff(now, run[..|run| - 1]);
    }
  }

  /**
   In every run, an indication is sent in a pause exactly when a busy frame came between the
   pause's end that woke the sender, or the last one since, and its resuming.
   */
  lemma SentInPauseIff(now: real, run: seq<Event>, e: Event)
    requires Legal(false, Init(now), run) && Enabled(false, Exec(false, Init(now), run), e)
    requires |Step(Exec(false, Init(now), run), e).sends| > |Exec(false, Init(now), run).sends|
    ensures !Exec(false, Init(now), run).ready <==> e.Resumes? && BusyIsLast(run)
  {
    ReadyIff(now, run);
  }

  /** No sender resumes with a busy frame as the last word. */
  predicate Uninterrupted(run: seq<Event>) {
    forall i :: 0 <= i < |run| && run[i].Resumes? ==> !BusyIsLast(run[..i])
  }

  /**
   Every run in which no busy frame comes between a pause's end and the sender it wakes sends
   nothing before a busy frame's time.
   */
  lemma {:induction false} UninterruptedIsOnTime(now: real, run: seq<Event>)
    requires Legal(false, Init(now), run) && Uninterrupted(run)
    ensures OnTime(Exec(false, Init(now), run))
    decreases |run|
  {
    if run != [] {
      var front := run[..|run| - 1];
      ExecLast(false, Init(now), run);
      forall i | 0 <= i < |front| && front[i].Resumes? ensures !BusyIsLast(front[..i]) {
        assert front[..i] == run[..i] && run[i] == front[i];
      }
      UninterruptedIsOnTime(now, front);
      InitHolds(now);
      RunKeeps(false, Init(now), front);
      var before := Exec(false, Init(now), front);
      if run[|run| - 1].Resumes? {
        assert !BusyIsLast(run[..|run| - 1]);
      }
      ReadyIff(now, front);
      ReadySendIsOnTime(before, run[|run| - 1]);
    }
  }

  lemma ReadySendIsOnTime(f: Flow, e: Event)
    requires Invariant(f) && OnTime(f) && Enabled(false, f, e) && (e.Resumes? ==> f.ready)
    ensures OnTime(Step(f, e))
  {
    if e.Resumes? {
      LatestIsPast(f);
    }
  }

  /** n increments of the count take more than n * 10 ms. */
  lemma {:induction false} IncrementsTakeTime(prompt: bool, f: Flow, run: seq<Event>)
    requires Legal(prompt, f, run) && f.lastBusyFrameTime <= f.now
    ensures var end := Exec(prompt, f, run);
            var n := end.increments - f.increments;
            && n >= 0 && end.lastBusyFrameTime <= end.now
            && end.lastBusyFrameTime - f.lastBusyFrameTime >= n as real * BUSY_INCREMENT_COOLDOWN
            && (n > 0 ==> end.lastBusyFrameTime - f.lastBusyFrameTime > n as real * BUSY_INCREMENT_COOLDOWN)
    decreases |run|
  {
    if run != [] {
      IncrementsTakeTime(prompt, Step(f, run[0]), run[1..]);
    }
  }

  // ---------------------------------------------- the count, told from the events

  /** The time after the events of the run. */
  function Clock(now: real, run: seq<Event>): real {
    if run == [] then now
    else
      var last := run[|run| - 1];
      Clock(now, run[..|run| - 1]) + if last.Tick? then last.dt else 0.0
  }

  /** When the last busy frame came. */
  function LastBusy(now: real, run: seq<Event>): Option<real> {
    if run == [] then None
    else if run[|run| - 1].Busy? then Some(Clock(now, run))
    else LastBusy(now, run[..|run| - 1])
  }

  /** The busy frames that came in a pause more than 10 ms after the one before. */
  function Counted(now: real, run: seq<Event>): nat {
    if run == [] then 0
    else
      var front, last := run[..|run| - 1], run[|run| - 1];
      var previous := LastBusy(now, front);
      var counts := last.Busy? && BusyIsLast(front) && previous.Some? && Clock(now, front) - previous.value > 10.0;
      Counted(now, front) + if counts then 1 else 0
  }

  function Faded(run: seq<Event>): nat {
    if run == [] then 0 else Faded(run[..|run| - 1]) + if run[|run| - 1].Decrements? then 1 else 0
  }

  /** The frame that the pause is measured from: the first one, until one comes whose time ends later. */
  function Measured(now: real, run: seq<Event>): Option<BusyFrame> {
    if run == [] then None
    else
      var before, last := Measured(now, run[..|run| - 1]), run[|run| - 1];
      if last.PauseEnds? then None
      else if last.Busy? && (before.None? || Deadline(before.value) < Clock(now, run) + last.waitTime as real)
      then Some(BusyFrame(Clock(now, run), last.waitTime))
      else before
  }

  lemma {:induction false} ClockIsNow(now: real, run: seq<Event>)
    requires Legal(false, Init(now), run)
    ensures Exec(false, Init(now), run).now == Clock(now, run)
    decreases |run|
  {
    if run != [] {
      ExecLast(false, Init(now), run);
      ClockIsNow(now, run[..|run| - 1]);
    }
  }

  lemma {:induction false} LastBusyIsLast(now: real, run: seq<Event>)
    requires Legal(false, Init(now), run)
    ensures LastBusy(now, run).Some? ==> LastBusy(now, run) == Some(Exec(false, Init(now), run).lastBusyFrameTime)
    ensures BusyIsLast(run) ==> LastBusy(now, run).Some?
    decreases |run|
  {
    if run != [] {
      ExecLast(false, Init(now), run);
      LastBusyIsLast(now, run[..|run| - 1]);
      ClockIsNow(now, run);
    }
  }

  lemma StepCounts(f: Flow, e: Event)
    requires Enabled(false, f, e)
    ensures var more := if e.Busy? && f.waitStart.Some? && f.now - f.lastBusyFrameTime > 10.0 then 1 else 0;
            && Step(f, e).increments == f.increments + more
            && Step(f, e).receivedBusyFrames == f.receivedBusyFrames + more - if e.Decrements? then 1 else 0
  {
  }

  /**
   On every run the count is the number of busy frames that came in a pause more than 10 ms
   after the one before, less one for every step of the fade-out.
   */
  lemma {:induction false} CountIsExact(now: real, run: seq<Event>)
    requires Legal(false, Init(now), run)
    ensures var f := Exec(false, Init(now), run);
            f.increments == Counted(now, run) && f.receivedBusyFrames == Counted(now, run) - Faded(run)
    decreases |run|
  {
    if run != [] {
      var front := run[..|run| - 1];
      ExecLast(false, Init(now), run);
      CountIsExact(now, front);
      ClockIsNow(now, front);
      LastBusyIsLast(now, front);
      ReadyIff(now, front);
      InitHolds(now);
      RunKeeps(false, Init(now), front);
      StepCounts(Exec(false, Init(now), front), run[|run| - 1]);
    }
  }

  lemma StepMeasures(f: Flow, e: Event)
    requires Enabled(false, f, e) && PauseIsRecorded(f)
    ensures var f' := Step(f, e);
            if e.PauseEnds? then f'.waitStart.None?
            else if e.Busy? && (f.waitStart.None? || f.waitStart.value + f.waitTime as real < f.now + e.waitTime as real)
            then f'.waitStart == Some(f.now) && f'.waitTime == e.waitTime && f'.timer.Created?
            else f'.waitStart == f.waitStart && f'.waitTime == f.waitTime && (e.Busy? ==> f'.timer == f.timer)
  {
  }

  /** On every run the recorded wait is that of the frame that the pause is measured from. */
  lemma {:induction false} WaitIsMeasured(now: real, run: seq<Event>)
    requires Legal(false, Init(now), run)
    ensures var f, m := Exec(false, Init(now), run), Measured(now, run);
            && f.waitStart == (if m.Some? then Some(m.value.at) else None)
            && (m.Some? ==> f.waitTime == m.value.waitTime)
    decreases |run|
  {
    if run != [] {
      var front := run[..|run| - 1];
      ExecLast(false, Init(now), run);
      WaitIsMeasured(now, front);
      ClockIsNow(now, front);
      InitHolds(now);
      RunKeeps(false, Init(now), front);
      StepMeasures(Exec(false, Init(now), front), run[|run| - 1]);
    }
  }

  /** What an event does to the timer at this time, with this count and with the pause measured from frame `m`. */
  predicate TimerRule(time: real, count: int, m: Option<BusyFrame>, timer: Timer, e: Event, timer': Timer) {
    match e
    case TimerStarts(random) =>
      m.Some? && timer' == Pausing(time + m.value.waitTime as real + random * count as real * 50.0, 100.0 * count as real)
    case PauseEnds => timer.Pausing? && timer' == Slow(time + timer.slowduration)
    case SlowEnds => timer' == if count > 0 then Decrementing(time + 5.0) else Finished
    case Decrements => timer' == if count > 1 then Decrementing(time + 5.0) else Finished
    case Busy(waitTime) => timer' == if m.None? || Deadline(m.value) < time + waitTime as real then Created else timer
    case _ => timer' == timer
  }

  function Recorded(f: Flow): Option<BusyFrame> {
    if f.waitStart.Some? then Some(BusyFrame(f.waitStart.value, f.waitTime)) else None
  }

  lemma StepRules(f: Flow, e: Event)
    requires Enabled(false, f, e) && PauseIsRecorded(f)
    ensures TimerRule(f.now, f.receivedBusyFrames, Recorded(f), f.timer, e, Step(f, e).timer)
  {
  }

  /**
   On every run: the timer waits for the measured frame's time and up to 50 ms for each counted
   frame; then, with sending allowed, 100 ms for each frame counted when it started; and then
   it fades the count out. A busy frame starts it anew exactly when its time ends later.
   */
  lemma TimerFollowsCount(now: real, run: seq<Event>, e: Event)
    requires Legal(false, Init(now), run) && Enabled(false, Exec(false, Init(now), run), e)
    ensures var f := Exec(false, Init(now), run);
            && TimerRule(Clock(now, run), Counted(now, run) - Faded(run), Measured(now, run), f.timer, e, Step(f, e).timer)
            && (e.PauseEnds? ==> Step(f, e).ready)
  {
    ClockIsNow(now, run);
    CountIsExact(now, run);
    WaitIsMeasured(now, run);
    InitHolds(now);
    RunKeeps(false, Init(now), run);
    StepRules(Exec(false, Init(now), run), e);
    assert Recorded(Exec(false, Init(now), run)) == Measured(now, run);
  }

  /** When the fade-out last made a step. */
  function LastFade(now: real, run: seq<Event>): Option<real> {
    if run == [] then None
    else if run[|run| - 1].SlowEnds? || run[|run| - 1].Decrements? then Some(Clock(now, run))
    else LastFade(now, run[..|run| - 1])
  }

  lemma {:induction false} FadeIsTimed(now: real, run: seq<Event>)
    requires Legal(false, Init(now), run)
    ensures var timer, last := Exec(false, Init(now), run).timer, LastFade(now, run);
            timer.Decrementing? ==> last.Some? && timer.until == last.value + 5.0
    decreases |run|
  {
    if run != [] {
      ExecLast(false, Init(now), run);
      FadeIsTimed(now, run[..|run| - 1]);
      ClockIsNow(now, run);
    }
  }

  /** Each step of the fade-out comes at least 5 ms after the one before. */
  lemma FadesSlowly(now: real, run: seq<Event>)
    requires Legal(false, Init(now), run) && Enabled(false, Exec(false, Init(now), run), Decrements)
    ensures LastFade(now, run).Some? && Clock(now, run) - LastFade(now, run).value >= 5.0
  {
    FadeIsTimed(now, run);
    ClockIsNow(now, run);
  }

  /** When the last indication was sent, and at first the time 0. */
  function LastSend(f: Flow): real {
    if f.sends == [] then 0.0 else f.sends[|f.sends| - 1].at
  }

  lemma {:induction false} LastSendIsKept(now: real, run: seq<Event>)
    requires Legal(false, Init(now), run)
    ensures Exec(false, Init(now), run).lastSent == LastSend(Exec(false, Init(now), run))
    decreases |run|
  {
    if run != [] {
      ExecLast(false, Init(now), run);
      LastSendIsKept(now, run[..|run| - 1]);
    }
  }

  /**
   On every run a sender waits exactly as long as it must: until 20 ms after the last indication,
   and then, if a busy frame came since the last pause ended, until the next one ends.
   */
  lemma SenderWaits(now: real, run: seq<Event>, e: Event)
    requires Legal(false, Init(now), run) && Enabled(false, Exec(false, Init(now), run), e)
    ensures var f, time := Exec(false, Init(now), run), Clock(now, run);
            var f' := Step(f, e);
            match e
            case Enters =>
              if time - LastSend(f) < 20.0 then f'.sends == f.sends && f'.sender == Throttled(LastSend(f) + 20.0)
              else SendsOrBlocks(f, f', time, !BusyIsLast(run))
            case ThrottleEnds => SendsOrBlocks(f, f', time, !BusyIsLast(run))
            case Resumes => SendsOrBlocks(f, f', time, true)
            case PauseEnds => f'.sends == f.sends && f'.sender.Woken? == (f.sender.Blocked? || f.sender.Woken?)
            case _ => f'.sends == f.sends && f'.sender == f.sender
  {
    ClockIsNow(now, run);
    LastSendIsKept(now, run);
    ReadyIff(now, run);
  }

  predicate SendsOrBlocks(f: Flow, f': Flow, time: real, sends: bool) {
    if sends then f'.sender.Idle? && |f'.sends| == |f.sends| + 1 && f'.sends[..|f.sends|] == f.sends && f'.sends[|f.sends|].at == time
    else f'.sender.Blocked? && f'.sends == f.sends
  }

  // -------------------------------------------------------------- the count fades

  predicate OfTimer(e: Event) {
    e.TimerStarts? || e.PauseEnds? || e.SlowEnds? || e.Decrements?
  }

  /** At least the steps the timer task still takes. */
  function Measure(f: Flow): nat {
    var count: nat := if f.receivedBusyFrames > 0 then f.receivedBusyFrames else 0;
    match f.timer
    case NoTask => 0
    case Finished => 0
    case Decrementing(_) => 1 + count
    case Slow(_) => 2 + count
    case Pausing(_, _) => 3 + count
    case Created => 4 + count
  }

  predicate Quiet(run: seq<Event>) {
    forall i :: 0 <= i < |run| ==> !run[i].Busy?
  }

  function TimerSteps(run: seq<Event>): nat {
    if run == [] then 0 else (if OfTimer(run[0]) then 1 else 0) + TimerSteps(run[1..])
  }

  /**
   Without further busy frames the timer takes boundedly many steps, and at their end the count is
   0 and sending allowed.
   */
  lemma {:induction false} CountReturnsToZero(prompt: bool, f: Flow, run: seq<Event>)
    requires Invariant(f) && Legal(prompt, f, run) && Quiet(run)
    ensures var end := Exec(prompt, f, run);
            && TimerSteps(run) + Measure(end) <= Measure(f)
            && (Measure(end) == 0 ==> end.receivedBusyFrames == 0 && end.ready)
    decreases |run|
  {
    if run != [] {
      StepKeeps(f, run[0]);
      assert !run[0].Busy? && Quiet(run[1..]);
      assert Measure(Step(f, run[0])) + (if OfTimer(run[0]) then 1 else 0) <= Measure(f);
      CountReturnsToZero(prompt, Step(f, run[0]), run[1..]);
    }
  }

  /** Until then the timer can step once its current sleep is over. */
  lemma TimerProgresses(f: Flow) returns (dt: real, e: Event)
    requires Measure(f) > 0
    ensures dt >= 0.0 && OfTimer(e) && Enabled(false, Step(f, Tick(dt)), e)
  {
    dt := 0.0;
    if f.timer.Created? {
      e := TimerStarts(0.0);
    } else {
      dt := if f.timer.until > f.now then f.timer.until - f.now else 0.0;
      e := if f.timer.Pausing? then PauseEnds else if f.timer.Slow? then SlowEnds else Decrements;
    }
  }

  // ------------------------------------------------------------------- the object

  class FlowControl {
    var lastBusyFrameTime: real
    var lastSentRoutingIndicationTime: real
    var ready: bool
    var receivedBusyFrames: int
    var timerTask: Timer
    var waitStartTime: Option<real>
    var waitTimeMs: nat
    /** The sender in throttle(), and the clock. */
    var sender: Sender
    var now: real
    /** Histories, which the original does not keep. */
    var pauseFrames: seq<BusyFrame>
    var frames: seq<BusyFrame>
    var increments: nat
    var sends: seq<Send>

    function View(): Flow
      reads this
    {
      Flow(lastBusyFrameTime, lastSentRoutingIndicationTime, ready, receivedBusyFrames, timerTask, waitStartTime,
           waitTimeMs, sender, now, pauseFrames, frames, increments, sends)
    }

    constructor (now: real)
      ensures View() == Init(now)
    {
      lastBusyFrameTime, lastSentRoutingIndicationTime, ready := 0.0, 0.0, true;
      receivedBusyFrames, timerTask, waitStartTime, waitTimeMs := 0, NoTask, None, 0;
      sender, this.now := Idle, now;
      pauseFrames, frames, increments, sends := [], [], 0, [];
    }

    method HandleRoutingBusy(waitTime: nat)
      requires waitTime < 0x1_0000
      modifies this
      ensures View() == Step(old(View()), Busy(waitTime))
    {
      var frame := BusyFrame(now, waitTime);
      frames := frames + [frame];
      ready := false;
      var previous := lastBusyFrameTime;
      lastBusyFrameTime := now;
      if waitStartTime.None? {
        pauseFrames := [frame];
      } else {
        pauseFrames := pauseFrames + [frame];
        if now - previous > BUSY_INCREMENT_COOLDOWN {
          receivedBusyFrames := receivedBusyFrames + 1;
          increments := increments + 1;
        }
        var elapsed := now - waitStartTime.value;
        var remaining := waitTimeMs as real - elapsed;
        if remaining >= waitTime as real {
          return;
        }
      }
      waitTimeMs := waitTime;
      waitStartTime := Some(now);
      timerTask := Created;
    }

    /** _resume_sending up to its first await. */
    method ResumeSending(random: real)
      requires Enabled(false, View(), TimerStarts(random))
      modifies this`timerTask
      ensures View() == Step(old(View()), TimerStarts(random))
    {
      var extension := Extension(random, receivedBusyFrames);
      var slowduration := receivedBusyFrames as real * BUSY_SLOWDURATION_TIME_FACTOR;
      timerTask := Pausing(now + waitTimeMs as real + extension, slowduration);
    }

    method EndPause()
      requires Enabled(false, View(), PauseEnds)
      modifies this`timerTask, this`ready, this`waitStartTime, this`sender
      ensures View() == Step(old(View()), PauseEnds)
    {
      ready := true;
      if sender.Blocked? {
        sender := Woken(LatestOr(frames, now));
      }
      waitStartTime := None;
      timerTask := Slow(now + timerTask.slowduration);
    }

    /** The loop head of the fade-out. */
    method CheckCount()
      modifies this`timerTask
      ensures View() == Decrement(old(View()))
    {
      timerTask := if receivedBusyFrames > 0 then Decrementing(now + BUSY_DECREMENT_TIME) else Finished;
    }

    method DecrementCount()
      requires Enabled(false, View(), Decrements)
      modifies this`timerTask, this`receivedBusyFrames
      ensures View() == Step(old(View()), Decrements)
    {
      receivedBusyFrames := receivedBusyFrames - 1;
      CheckCount();
    }

    /** throttle(), up to its first await or the indication. */
    method EnterThrottle()
      requires sender.Idle?
      modifies this
      ensures View() == Step(old(View()), Enters)
    {
      var elapsed := now - lastSentRoutingIndicationTime;
      if elapsed < ROUTING_INDICATION_WAIT_TIME {
        sender := Throttled(now + (ROUTING_INDICATION_WAIT_TIME - elapsed));
        return;
      }
      WaitReady();
    }

    method WaitReady()
      modifies this
      ensures View() == AwaitReady(old(View()))
    {
      if !ready {
        sender := Blocked;
        return;
      }
      Transmit(LatestOr(frames, now));
    }

    method Transmit(deadline: real)
      modifies this
      ensures View() == SendIndication(old(View()), deadline)
    {
      sends := sends + [Send(now, deadline, LatestOr(frames, now))];
      lastSentRoutingIndicationTime := now;
      sender := Idle;
    }
  }
}
