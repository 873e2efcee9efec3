/**
 Cover as the client of its travel calculator: positions set, commanded and reported, the
 periodic updater and the auto stopper. A call happens at one clock value.
 */
module Cover {
  import opened Bytes
  import opened TravelCalculator

  datatype StopSupport = NoStop | StopAddress | StepAddress

  /** What the device sends. */
  datatype Command = MoveUp | MoveDown | StopMoving | StepUp | StepDown | TargetPosition(position: int)

  datatype Cover = Cover(
    calculator: Calculator,
    upDownWritable: bool,
    targetWritable: bool,
    stopSupport: StopSupport,
    /** The auto stopper's task, by the time at which it is due, and the periodic updater's. */
    autoStop: Option<real>,
    autoStopRequested: bool,
    periodicUpdate: bool,
    /** The direction of the last tilt, until the next move or stop. */
    tilt: Option<Direction>,
    sent: seq<Command>)

  function New(timeDown: real, timeUp: real, upDownWritable: bool, targetWritable: bool, stopSupport: StopSupport): Cover {
    Cover(Fresh(timeDown, timeUp), upDownWritable, targetWritable, stopSupport, None, false, false, None, [])
  }

  function Send(c: Cover, command: Command): Cover {
    c.(sent := c.sent + [command])
  }

  /** is_traveling */
  function Traveling(c: Cover, now: real): Result<bool> {
    var position :- Current(c.calculator, now);
    Ok(position != c.calculator.target)
  }

  /** _start_position_update */
  function StartUpdate(c: Cover, target: int, now: real): Result<Cover> {
    var calculator :- Start(c.calculator, target, now);
    var started := c.(calculator := calculator);
    var traveling :- Traveling(started, now);
    Ok(if traveling then started.(periodicUpdate := true) else started)
  }

  /** _stop_position_update */
  function StopUpdate(c: Cover, now: real): Result<Cover> {
    var traveling :- Traveling(c, now);
    if !traveling then Ok(c.(periodicUpdate := false))
    else
      var calculator :- Stop(c.calculator, now);
      Ok(c.(calculator := calculator, periodicUpdate := false))
  }

  /** What stop sends: a stop, or a step against the direction of travel or tilt. */
  function StopCommand(c: Cover): seq<Command> {
    if c.stopSupport.StopAddress? then [StopMoving]
    else if c.calculator.direction.Up? || c.tilt == Some(Up) then [StepUp]
    else if c.calculator.direction.Down? || c.tilt == Some(Down) then [StepDown]
    else []
  }

  /** stop */
  function StopCover(c: Cover, now: real): Result<Cover> {
    if c.stopSupport.NoStop? then Ok(c)
    else StopUpdate(c.(sent := c.sent + StopCommand(c), tilt := None), now)
  }

  function CancelAutoStop(c: Cover): Cover {
    c.(autoStop := None, autoStopRequested := false)
  }

  /** _start_auto_stopper */
  function StartAutoStop(c: Cover, current: int, target: int, now: real): Cover {
    if target == POSITION_OPEN || target == POSITION_CLOSED then c
    else c.(autoStop := Some(now + TravelTime(c.calculator, current, target)), autoStopRequested := true)
  }

  /** set_position */
  function SetCoverPosition(c: Cover, position: int, now: real): Result<Cover> {
    if c.targetWritable then Ok(Send(c, TargetPosition(position)))
    else
      var current :- Current(c.calculator, now);
      if current.None? then
        if position == POSITION_OPEN then StartUpdate(Send(c, MoveUp), position, now)
        else if position == POSITION_CLOSED then StartUpdate(Send(c, MoveDown), position, now)
        else Ok(c)
      else if position == current.value then Ok(c)
      else
        var started :- StartUpdate(Send(c, if position < current.value then MoveUp else MoveDown), position, now);
        Ok(if c.stopSupport.NoStop? then started else StartAutoStop(started, current.value, position, now))
  }

  /** set_up and set_down */
  function MoveToEnd(c: Cover, up: bool, now: real): Result<Cover> {
    var end := if up then POSITION_OPEN else POSITION_CLOSED;
    if c.upDownWritable then StartUpdate(Send(c, if up then MoveUp else MoveDown).(tilt := None), end, now)
    else if c.targetWritable then Ok(Send(c, TargetPosition(end)))
    else Ok(c)
  }

  /** _current_position_from_rv */
  function PositionReported(c: Cover, position: int, now: real): Result<Cover> {
    var before :- Current(c.calculator, now);
    var traveling :- Traveling(c, now);
    var updated := c.(calculator := if traveling then Update(c.calculator, position, now) else Set(c.calculator, position, now));
    var after :- Current(updated.calculator, now);
    Ok(if before != after && before.Some? then updated.(periodicUpdate := true) else updated)
  }

  /** The up/down part of process_group_write. */
  function UpDownTelegram(c: Cover, up: bool, now: real): Result<Cover> {
    var kept := if c.autoStopRequested then c.(autoStopRequested := false) else CancelAutoStop(c);
    var traveling :- Traveling(kept, now);
    var already := traveling && kept.calculator.direction == if up then Up else Down;
    if already then Ok(kept) else StartUpdate(kept, if up then POSITION_OPEN else POSITION_CLOSED, now)
  }

  /** The stop and step part of process_group_write. */
  function StopTelegram(c: Cover, now: real): Result<Cover> {
    var cancelled := CancelAutoStop(c);
    var traveling :- Traveling(cancelled, now);
    if traveling then StopUpdate(cancelled, now) else Ok(cancelled)
  }

  datatype Event =
    | UserSetsPosition(position: int)
    | UserMoves(up: bool)
    | UserStops
      /** set_angle */
    | UserTilts(down: bool)
    | TargetReported(position: int)
    | CurrentReported(position: int)
    | UpDownReceived(up: bool)
    | StopReceived
    | PeriodicWakes
    | AutoStopFires

  predicate Enabled(c: Cover, e: Event, now: real) {
    match e
    case PeriodicWakes => c.periodicUpdate
    case AutoStopFires => c.autoStop.Some? && now >= c.autoStop.value
    case _ => true
  }

  function Step(c: Cover, e: Event, now: real): Result<Cover> {
    match e
    case UserSetsPosition(position) => SetCoverPosition(c, position, now)
    case UserMoves(up) => MoveToEnd(c, up, now)
    case UserStops => StopCover(c, now)
    case UserTilts(down) => Ok(c.(tilt := Some(if down then Down else Up)))
    case TargetReported(position) => StartUpdate(c, position, now)
    case CurrentReported(position) => PositionReported(c, position, now)
    case UpDownReceived(up) => UpDownTelegram(c, up, now)
    case StopReceived => StopTelegram(c, now)
    case PeriodicWakes =>
      (var traveling :- Traveling(c, now);
       if traveling then Ok(c) else StopUpdate(c, now))
    case AutoStopFires => StopCover(c.(autoStop := None), now)
  }

  // ------------------------------------------------------------------ steps keep it

  /** The state a call finds when the clock has advanced past the timestamp. */
  predicate Ready(c: Cover, now: real) {
    Consistent(c.calculator) && c.calculator.timestamp < now
  }

  /** A call succeeds, keeps the invariants, and leaves a known position as it was. */
  predicate Smooth(c: Cover, now: real, r: Result<Cover>) {
    && r.Ok? && Consistent(r.value.calculator) && r.value.calculator.timestamp <= now
    && (c.calculator.last.Some? ==> Current(r.value.calculator, now) == Current(c.calculator, now))
  }

  lemma StartIsSmooth(c: Cover, target: int, now: real)
    requires Ready(c, now)
    ensures Smooth(c, now, StartUpdate(c, target, now))
    ensures var r := StartUpdate(c, target, now).value.calculator;
            r.target == Some(target) && r.timestamp == now && (c.calculator.last.Some? ==> Current(c.calculator, now) == Ok(r.last))
  {
    StartDoesNotJump(c.calculator, target, now);
    CurrentIsKnown(c.calculator, now);
    if c.calculator.last.Some? {
      StopDoesNotJump(c.calculator, now, now);
    }
  }

  lemma StopIsSmooth(c: Cover, now: real)
    requires Ready(c, now)
    ensures Smooth(c, now, StopUpdate(c, now))
  {
    CurrentIsKnown(c.calculator, now);
    StopDoesNotJump(c.calculator, now, now);
  }

  lemma StopCoverIsSmooth(c: Cover, now: real)
    requires Ready(c, now)
    ensures Smooth(c, now, StopCover(c, now))
  {
    if !c.stopSupport.NoStop? {
      StopIsSmooth(c.(sent := c.sent + StopCommand(c), tilt := None), now);
    } else {
      CurrentIsKnown(c.calculator, now);
    }
  }

  lemma SetPositionIsSmooth(c: Cover, position: int, now: real)
    requires Ready(c, now)
    ensures Smooth(c, now, SetCoverPosition(c, position, now))
  {
    CurrentIsKnown(c.calculator, now);
    StartIsSmooth(Send(c, MoveUp), position, now);
    StartIsSmooth(Send(c, MoveDown), position, now);
  }

  /** Everything but a reported position is smooth. */
  lemma StepIsSmooth(c: Cover, e: Event, now: real)
    requires Ready(c, now) && !e.CurrentReported?
    ensures Smooth(c, now, Step(c, e, now))
  {
    CurrentIsKnown(c.calculator, now);
    match e
    case UserSetsPosition(position) => SetPositionIsSmooth(c, position, now);
    case UserMoves(up) =>
      StartIsSmooth(Send(c, if up then MoveUp else MoveDown).(tilt := None), if up then POSITION_OPEN else POSITION_CLOSED, now);
    case UserTilts(_) =>
    case UserStops => StopCoverIsSmooth(c, now);
    case TargetReported(position) => StartIsSmooth(c, position, now);
    case UpDownReceived(up) =>
      StartIsSmooth(if c.autoStopRequested then c.(autoStopRequested := false) else CancelAutoStop(c),
                    if up then POSITION_OPEN else POSITION_CLOSED, now);
    case StopReceived => StopIsSmooth(CancelAutoStop(c), now);
    case PeriodicWakes => StopIsSmooth(c, now);
    case AutoStopFires => StopCoverIsSmooth(c.(autoStop := None), now);
  }

  lemma ReportKeeps(c: Cover, position: int, now: real)
    requires Ready(c, now)
    ensures var r := PositionReported(c, position, now);
            r.Ok? && Consistent(r.value.calculator) && r.value.calculator.timestamp <= now
  {
    CurrentIsKnown(c.calculator, now);
    RestsAtTargetOrMoves(c.calculator, now);
    var traveling := Traveling(c, now).value;
    var calculator := if traveling then Update(c.calculator, position, now) else Set(c.calculator, position, now);
    assert Consistent(calculator);
    DividesByZeroIff(calculator, now);
  }

  /** Only a moving cover is travelling. */
  lemma RestsAtTargetOrMoves(c: Calculator, now: real)
    requires Consistent(c) && c.timestamp < now
    ensures Current(c, now) != Ok(c.target) ==> Moving(c) && !c.direction.Stopped? && !c.confirmed
  {
    if !Moving(c) {
      RestsAtTarget(c, now);
    }
  }

  lemma StepKeeps(c: Cover, e: Event, now: real)
    requires Ready(c, now)
    ensures var r := Step(c, e, now);
            r.Ok? && Consistent(r.value.calculator) && r.value.calculator.timestamp <= now
  {
    if e.CurrentReported? {
      ReportKeeps(c, e.position, now);
    } else {
      StepIsSmooth(c, e, now);
    }
  }

  // ------------------------------------------------------------------------- runs

  datatype Call = Call(at: real, event: Event)

  /** Calls in the order of time; `advancing`: the clock advances between any two. */
  predicate Legal(advancing: bool, c: Cover, since: real, run: seq<Call>)
    decreases |run|
  {
    run == [] ||
    (var call := run[0];
     && (if advancing then since < call.at else since <= call.at)
     && Enabled(c, call.event, call.at)
     && (Step(c, call.event, call.at).Ok? ==> Legal(advancing, Step(c, call.event, call.at).value, call.at, run[1..])))
  }

  /** The state after the run, or the first exception. */
  function Exec(c: Cover, run: seq<Call>): Result<Cover>
    decreases |run|
  {
    if run == [] then Ok(c)
    else
      var next :- Step(c, run[0].event, run[0].at);
      Exec(next, run[1..])
  }

  function End(since: real, run: seq<Call>): real {
    if run == [] then since else run[|run| - 1].at
  }

  lemma {:induction false} RunKeeps(c: Cover, since: real, run: seq<Call>)
    requires Consistent(c.calculator) && c.calculator.timestamp <= since && Legal(true, c, since, run)
    ensures Exec(c, run).Ok? && Consistent(Exec(c, run).value.calculator)
    ensures Exec(c, run).value.calculator.timestamp <= End(since, run)
    decreases |run|
  {
    if run != [] {
      StepKeeps(c, run[0].event, run[0].at);
      var next := Step(c, run[0].event, run[0].at).value;
      RunKeeps(next, run[0].at, run[1..]);
      if |run| > 1 {
        assert run[1..][|run[1..]| - 1] == run[|run| - 1];
      }
    }
  }

  /**
   On every run with positive travel times and an advancing clock nothing raises; a confirmed
   position is the target, and so is the known position of a stopped cover.
   */
  lemma EveryRunIsConsistent(c: Cover, run: seq<Call>)
    requires PositiveTimes(c.calculator) && c.calculator == Fresh(c.calculator.timeDown, c.calculator.timeUp)
    requires Legal(true, c, 0.0, run)
    ensures Exec(c, run).Ok?
    ensures var k := Exec(c, run).value.calculator;
            && (k.confirmed ==> k.last.Some? && k.last == k.target)
            && (k.direction.Stopped? ==> k.last == k.target)
            && (k.last.Some? <==> k.target.Some?)
  {
    RunKeeps(c, 0.0, run);
  }

  /**
   After every such run, at any later times, the position is known exactly if it ever was, lies
   between the last known position and the target, and moves towards the target.
   */
  lemma PredictionAfterEveryRun(c: Cover, run: seq<Call>, t1: real, t2: real)
    requires PositiveTimes(c.calculator) && c.calculator == Fresh(c.calculator.timeDown, c.calculator.timeUp)
    requires Legal(true, c, 0.0, run) && End(0.0, run) < t1 <= t2
    ensures Exec(c, run).Ok?
    ensures var k := Exec(c, run).value.calculator;
            && Current(k, t1).Ok? && Current(k, t2).Ok?
            && (Current(k, t1).value.Some? <==> k.last.Some?) && (Current(k, t2).value.Some? <==> k.last.Some?)
            && (k.last.Some? <==> k.target.Some?)
            && (k.last.Some? ==>
                  var a, x, y, b := k.last.value, Current(k, t1).value.value, Current(k, t2).value.value, k.target.value;
                  a <= x <= y <= b || a >= x >= y >= b)
  {
    RunKeeps(c, 0.0, run);
    var k := Exec(c, run).value.calculator;
    CurrentIsKnown(k, t1);
    CurrentIsKnown(k, t2);
    if Moving(k) {
      PositionMoves(k, t1, t2);
    } else {
      RestsAtTarget(k, t1);
      RestsAtTarget(k, t2);
    }
  }

  /** In any state of such a run, no call but a position report makes a known position jump. */
  lemma OnlyReportsJump(c: Cover, run: seq<Call>, e: Event, now: real)
    requires PositiveTimes(c.calculator) && c.calculator == Fresh(c.calculator.timeDown, c.calculator.timeUp)
    requires Legal(true, c, 0.0, run) && End(0.0, run) < now && !e.CurrentReported?
    ensures Exec(c, run).Ok?
    ensures Smooth(Exec(c, run).value, now, Step(Exec(c, run).value, e, now))
  {
    RunKeeps(c, 0.0, run);
    StepIsSmooth(Exec(c, run).value, e, now);
  }

  ghost predicate NeverRaises(advancing: bool) {
    forall c: Cover, run ::
      (PositiveTimes(c.calculator) && c.calculator == Fresh(c.calculator.timeDown, c.calculator.timeUp)
       && Legal(advancing, c, 0.0, run)) ==> Exec(c, run).Ok?
  }

  lemma {:induction false} ExecThen(c: Cover, since: real, run: seq<Call>, call: Call)
    requires Legal(false, c, since, run) && Exec(c, run).Ok? && End(since, run) <= call.at
    requires Enabled(Exec(c, run).value, call.event, call.at)
    ensures Legal(false, c, since, run + [call]) && Exec(c, run + [call]) == Step(Exec(c, run).value, call.event, call.at)
    decreases |run|
  {
    if run == [] {
      assert [] + [call] == [call] && [call][1..] == [];
    } else {
      assert (run + [call])[0] == run[0] && (run + [call])[1..] == run[1..] + [call];
      if |run| > 1 {
        assert run[1..][|run[1..]| - 1] == run[|run| - 1];
      }
      ExecThen(Step(c, run[0].event, run[0].at).value, run[0].at, run[1..], call);
    }
  }

  lemma Then(c: Cover, run: seq<Call>, e: Event, at: real) returns (longer: seq<Call>)
    requires Legal(false, c, 0.0, run) && Exec(c, run).Ok? && End(0.0, run) <= at && Enabled(Exec(c, run).value, e, at)
    ensures Legal(false, c, 0.0, longer) && End(0.0, longer) == at
    ensures Exec(c, longer) == Step(Exec(c, run).value, e, at)
  {
    ExecThen(c, 0.0, run, Call(at, e));
    longer := run + [Call(at, e)];
  }

  /** A cover that travels down from 0 since 2 s, with 20 s for the whole way. */
  predicate GoesDown(k: Calculator, from: int, since: real) {
    k == Calculator(Down, 20.0, 20.0, Some(from), since, false, Some(100))
  }

  lemma StartsDown(c: Cover)
    requires c.calculator == Calculator(Stopped, 20.0, 20.0, Some(0), 1.0, true, Some(0))
    ensures StartUpdate(c, 100, 2.0).Ok? && GoesDown(StartUpdate(c, 100, 2.0).value.calculator, 0, 2.0)
  {
    StartIsSmooth(c, 100, 2.0);
    RestsAtTarget(c.calculator, 2.0);
  }

  lemma StillOnTheWay(k: Calculator, from: int, since: real, now: real)
    requires GoesDown(k, from, since) && 0 <= from <= 10 && since <= now <= 3.0 && since >= 2.0
    ensures Current(k, now).Ok? && Current(k, now) != Ok(Some(100))
    ensures now == since ==> Current(k, now) == Ok(Some(from))
  {
    ReachedIff(k, now);
    CurrentIsTruncated(k, now);
    if now == since {
      assert Travelled(k, 100 - from, 0.0) == 0.0;
      TruncOfInt(from);
    }
  }

  lemma ReportedOnTheWay(c: Cover)
    requires GoesDown(c.calculator, 0, 2.0)
    ensures PositionReported(c, 10, 3.0).Ok? && GoesDown(PositionReported(c, 10, 3.0).value.calculator, 10, 3.0)
  {
    StillOnTheWay(c.calculator, 0, 2.0, 3.0);
    StillOnTheWay(Update(c.calculator, 10, 3.0), 10, 3.0, 3.0);
  }

  lemma StoppedOnTheWay(c: Cover)
    requires GoesDown(c.calculator, 10, 3.0)
    ensures StopTelegram(c, 3.0).Ok?
    ensures StopTelegram(c, 3.0).value.calculator == Calculator(Stopped, 20.0, 20.0, Some(10), 3.0, false, Some(10))
  {
    StillOnTheWay(c.calculator, 10, 3.0, 3.0);
  }

  /** A report, a stop and a report in one instant of a travel: the last divides by zero. */
  lemma DividesByZero() returns (c: Cover, run: seq<Call>)
    ensures c == New(20.0, 20.0, true, false, StopAddress)
    ensures Legal(false, c, 0.0, run) && Exec(c, run) == Err(ZeroDivisionError)
  {
    c := New(20.0, 20.0, true, false, StopAddress);
    run := [];
    run := Then(c, run, CurrentReported(0), 1.0);
    StartsDown(Exec(c, run).value);
    run := Then(c, run, TargetReported(100), 2.0);
    ReportedOnTheWay(Exec(c, run).value);
    run := Then(c, run, CurrentReported(10), 3.0);
    StoppedOnTheWay(Exec(c, run).value);
    run := Then(c, run, StopReceived, 3.0);
    DividesByZeroIff(Exec(c, run).value.calculator, 3.0);
    run := Then(c, run, CurrentReported(10), 3.0);
  }

  /** With positive travel times no run raises exactly when the clock advances between calls. */
  lemma NeverRaisesIffAdvancing(advancing: bool)
    ensures NeverRaises(advancing) <==> advancing
  {
    if advancing {
      forall c: Cover, run |
        PositiveTimes(c.calculator) && c.calculator == Fresh(c.calculator.timeDown, c.calculator.timeUp)
        && Legal(true, c, 0.0, run)
        ensures Exec(c, run).Ok?
      {
        RunKeeps(c, 0.0, run);
      }
    } else {
      var c, run := DividesByZero();
      assert PositiveTimes(c.calculator) && c.calculator == Fresh(c.calculator.timeDown, c.calculator.timeUp);
    }
  }

  /**
   A cover that cannot position itself is stopped, unless it goes to an end, when its target is
   predicted to be reached; downwards not before.
   */
  lemma AutoStopMeetsPrediction(c: Cover, position: int, now: real)
    requires Ready(c, now) && !c.targetWritable && !c.stopSupport.NoStop? && c.calculator.last.Some?
    requires Current(c.calculator, now) != Ok(Some(position)) && position != POSITION_OPEN && position != POSITION_CLOSED
    ensures Current(c.calculator, now).Ok? && Current(c.calculator, now).value.Some?
    ensures SetCoverPosition(c, position, now).Ok?
    ensures var r := SetCoverPosition(c, position, now).value;
            && r.autoStop.Some? && r.autoStopRequested && r.autoStop.value > now
            && Current(r.calculator, r.autoStop.value) == Ok(Some(position))
            && (position > Current(c.calculator, now).value.value && position > 0 ==>
                  forall t: real :: now <= t < r.autoStop.value ==> Current(r.calculator, t) != Ok(Some(position)))
  {
    CurrentIsKnown(c.calculator, now);
    var current := Current(c.calculator, now).value.value;
    StartIsSmooth(Send(c, if position < current then MoveUp else MoveDown), position, now);
    var r := SetCoverPosition(c, position, now).value;
    var k := r.calculator;
    assert k.last == Some(current) && k.target == Some(position) && k.timestamp == now;
    StartedMoves(c.calculator, position, now);
    assert Moving(k);
    Proportions(1.0, FullTime(k, position - current), Abs(position - current) as real);
    TravelTimesGrow(k, current, position);
    ReachedIff(k, r.autoStop.value);
    forall t: real | now <= t < r.autoStop.value ensures position > current && position > 0 ==> Current(k, t) != Ok(Some(position)) {
      ReachedIff(k, t);
    }
  }

  /** Starting towards another position moves. */
  lemma StartedMoves(c: Calculator, target: int, now: real)
    requires Consistent(c) && c.timestamp < now && c.last.Some?
    requires Current(c, now) != Ok(Some(target))
    ensures Start(c, target, now).Ok? && Moving(Start(c, target, now).value)
  {
    StopDoesNotJump(c, now, now);
    CurrentIsKnown(c, now);
  }

  lemma TravelTimesGrow(c: Calculator, from: int, to: int)
    requires PositiveTimes(c) && from != to
    ensures TravelTime(c, from, to) > 0.0
    ensures from > to ==> TravelTime(c, from, to + 1) < TravelTime(c, from, to)
    ensures from < to ==> TravelTime(c, from, to - 1) < TravelTime(c, from, to)
  {
    Proportions(1.0, FullTime(c, to - from), Abs(to - from) as real);
    if from > to {
      assert c.timeUp * (from - to) as real == c.timeUp * (from - to - 1) as real + c.timeUp;
    } else {
      assert c.timeDown * (to - from) as real == c.timeDown * (to - from - 1) as real + c.timeDown;
    }
  }

  // ----------------------------------------------------------- what is sent

  /** StartUpdate and StopUpdate change the calculator and the updater alone. */
  predicate SameDevice(c: Cover, c': Cover) {
    c' == c.(calculator := c'.calculator, periodicUpdate := c'.periodicUpdate)
  }

  lemma UpdatesKeepDevice(c: Cover, target: int, now: real)
    ensures StartUpdate(c, target, now).Ok? ==> SameDevice(c, StartUpdate(c, target, now).value)
    ensures StopUpdate(c, now).Ok? ==> SameDevice(c, StopUpdate(c, now).value)
  {
  }

  /** What stops a cover: its stop address, or a step in the direction of travel or tilt, up before down. */
  function Stopping(c: Cover): seq<Command> {
    match c.stopSupport
    case NoStop => []
    case StopAddress => [StopMoving]
    case StepAddress =>
      if c.calculator.direction == Up || c.tilt == Some(Up) then [StepUp]
      else if c.calculator.direction == Down || c.tilt == Some(Down) then [StepDown]
      else []
  }

  /** What a call sends when the cover is predicted to be at `at`. */
  function Commands(c: Cover, at: Option<int>, e: Event): seq<Command> {
    match e
    case UserSetsPosition(position) =>
      if c.targetWritable then [TargetPosition(position)]
      else if at.None? then if position == 0 then [MoveUp] else if position == 100 then [MoveDown] else []
      else if position < at.value then [MoveUp]
      else if position > at.value then [MoveDown]
      else []
    case UserMoves(up) =>
      if c.upDownWritable then [if up then MoveUp else MoveDown]
      else if c.targetWritable then [TargetPosition(if up then 0 else 100)]
      else []
    case UserStops => Stopping(c)
    case AutoStopFires => Stopping(c)
    case _ => []
  }

  lemma PositionSends(c: Cover, position: int, now: real)
    requires Ready(c, now)
    ensures var at, r := Current(c.calculator, now), SetCoverPosition(c, position, now);
            at.Ok? && r.Ok? && r.value.sent == c.sent + Commands(c, at.value, UserSetsPosition(position))
  {
    CurrentIsKnown(c.calculator, now);
    SetPositionIsSmooth(c, position, now);
    UpdatesKeepDevice(Send(c, MoveUp), position, now);
    UpdatesKeepDevice(Send(c, MoveDown), position, now);
  }

  lemma MovesAndStopsSend(c: Cover, e: Event, now: real)
    requires Step(c, e, now).Ok? && (e.UserMoves? || e.UserStops? || e.AutoStopFires?)
    ensures Step(c, e, now).value.sent == c.sent + Commands(c, None, e)
  {
    if e.UserMoves? {
      UpdatesKeepDevice(Send(c, if e.up then MoveUp else MoveDown).(tilt := None), if e.up then 0 else 100, now);
    } else {
      UpdatesKeepDevice(c.(sent := c.sent + StopCommand(c), tilt := None), 0, now);
      UpdatesKeepDevice(c.(autoStop := None, sent := c.sent + StopCommand(c), tilt := None), 0, now);
    }
  }

  lemma OthersSendNothing(c: Cover, e: Event, now: real)
    requires Step(c, e, now).Ok? && !e.UserSetsPosition? && !e.UserMoves? && !e.UserStops? && !e.AutoStopFires?
    ensures Step(c, e, now).value.sent == c.sent
  {
    if e.TargetReported? {
      UpdatesKeepDevice(c, e.position, now);
    } else if e.UpDownReceived? {
      UpdatesKeepDevice(if c.autoStopRequested then c.(autoStopRequested := false) else CancelAutoStop(c), if e.up then 0 else 100, now);
    } else {
      UpdatesKeepDevice(CancelAutoStop(c), 0, now);
      UpdatesKeepDevice(c, 0, now);
    }
  }

  /**
   After every run with an advancing clock, what each call sends. A position below the current
   one sends up and one above it down; an unknown position leaves the two ends.
   */
  lemma CommandsSent(c: Cover, run: seq<Call>, e: Event, now: real)
    requires PositiveTimes(c.calculator) && c.calculator == Fresh(c.calculator.timeDown, c.calculator.timeUp)
    requires Legal(true, c, 0.0, run) && End(0.0, run) < now
    ensures Exec(c, run).Ok?
    ensures var s := Exec(c, run).value;
            && Current(s.calculator, now).Ok? && Step(s, e, now).Ok?
            && Step(s, e, now).value.sent == s.sent + Commands(s, Current(s.calculator, now).value, e)
  {
    RunKeeps(c, 0.0, run);
    var s := Exec(c, run).value;
    CurrentIsKnown(s.calculator, now);
    StepKeeps(s, e, now);
    if e.UserSetsPosition? {
      PositionSends(s, e.position, now);
    } else if e.UserMoves? || e.UserStops? || e.AutoStopFires? {
      MovesAndStopsSend(s, e, now);
    } else {
      OthersSendNothing(s, e, now);
      assert s.sent + [] == s.sent;
    }
  }

  /** The prediction after a command up or down: towards the target, in the direction in which that lies. */
  predicate Heads(at: Option<int>, target: int, now: real, k: Calculator) {
    && k.target == Some(target)
    && (at.Some? ==> k.last == at && k.timestamp == now && k.direction == if target > at.value then Down else Up)
  }

  lemma StartHeads(c: Cover, target: int, now: real)
    requires Ready(c, now)
    ensures StartUpdate(c, target, now).Ok? && Current(c.calculator, now).Ok?
    ensures Heads(Current(c.calculator, now).value, target, now, StartUpdate(c, target, now).value.calculator)
  {
    StartIsSmooth(c, target, now);
    CurrentIsKnown(c.calculator, now);
    if c.calculator.last.Some? {
      HeadsForTarget(c.calculator, target, now);
    }
  }

  /**
   After every such run, what sends up or down makes the prediction go to the position asked for,
   or to the end, and nothing else does.
   */
  lemma HeadsWhereSent(c: Cover, run: seq<Call>, e: Event, now: real)
    requires PositiveTimes(c.calculator) && c.calculator == Fresh(c.calculator.timeDown, c.calculator.timeUp)
    requires Legal(true, c, 0.0, run) && End(0.0, run) < now && (e.UserSetsPosition? || e.UserMoves?)
    ensures Exec(c, run).Ok?
    ensures var s := Exec(c, run).value;
            && Current(s.calculator, now).Ok? && Step(s, e, now).Ok?
            && var at, k := Current(s.calculator, now).value, Step(s, e, now).value.calculator;
               if MoveUp in Commands(s, at, e) || MoveDown in Commands(s, at, e)
               then Heads(at, if e.UserSetsPosition? then e.position else if e.up then 0 else 100, now, k)
               else k == s.calculator
  {
    RunKeeps(c, 0.0, run);
    var s := Exec(c, run).value;
    CurrentIsKnown(s.calculator, now);
    StepKeeps(s, e, now);
    if e.UserSetsPosition? {
      StartHeads(Send(s, MoveUp), e.position, now);
      StartHeads(Send(s, MoveDown), e.position, now);
    } else {
      StartHeads(Send(s, if e.up then MoveUp else MoveDown).(tilt := None), if e.up then 0 else 100, now);
    }
  }

  lemma HeadsForTarget(c: Calculator, target: int, now: real)
    requires Consistent(c) && c.timestamp < now && Start(c, target, now).Ok? && c.last.Some?
    ensures var k := Start(c, target, now).value;
            && k.target == Some(target) && k.timestamp == now && Current(c, now) == Ok(k.last) && k.last.Some?
            && k.direction == if target > k.last.value then Down else Up
  {
    CurrentIsKnown(c, now);
  }

  /** The prediction stands where it was, at its own target. */
  predicate Halts(at: Option<int>, k: Calculator) {
    at.Some? && k.last == at && k.target == at && k.direction == Stopped
  }

  /** What a call that is no command makes of the prediction `k` when the cover is predicted to be at `at`. */
  predicate PredictionAfter(c: Cover, at: Option<int>, e: Event, now: real, k: Calculator) {
    var travels := at != c.calculator.target;
    match e
    case TargetReported(position) => Heads(at, position, now, k)
    case UpDownReceived(up) =>
      if travels && c.calculator.direction == (if up then Up else Down) then k == c.calculator
      else Heads(at, if up then 0 else 100, now, k)
    case UserStops => if travels && !c.stopSupport.NoStop? then Halts(at, k) else k == c.calculator
    case AutoStopFires => if travels && !c.stopSupport.NoStop? then Halts(at, k) else k == c.calculator
    case StopReceived => if travels then Halts(at, k) else k == c.calculator
    case PeriodicWakes => k == c.calculator
    case UserTilts(_) => k == c.calculator
    case CurrentReported(position) =>
      k.last == Some(position) && k.timestamp == now && k.target == (if travels then c.calculator.target else Some(position))
    case _ => true
  }

  lemma StopHalts(c: Cover, now: real)
    requires Ready(c, now)
    ensures var at := Current(c.calculator, now);
            && at.Ok? && StopUpdate(c, now).Ok?
            && var k := StopUpdate(c, now).value.calculator;
               if at.value != c.calculator.target then Halts(at.value, k) else k == c.calculator
  {
    CurrentIsKnown(c.calculator, now);
    StopIsSmooth(c, now);
  }

  /** After every such run, where a report, a telegram or a stop makes the prediction go. */
  lemma PredictionFollows(c: Cover, run: seq<Call>, e: Event, now: real)
    requires PositiveTimes(c.calculator) && c.calculator == Fresh(c.calculator.timeDown, c.calculator.timeUp)
    requires Legal(true, c, 0.0, run) && End(0.0, run) < now
    ensures Exec(c, run).Ok?
    ensures var s := Exec(c, run).value;
            && Current(s.calculator, now).Ok? && Step(s, e, now).Ok?
            && PredictionAfter(s, Current(s.calculator, now).value, e, now, Step(s, e, now).value.calculator)
  {
    RunKeeps(c, 0.0, run);
    var s := Exec(c, run).value;
    CurrentIsKnown(s.calculator, now);
    StepKeeps(s, e, now);
    match e
    case TargetReported(position) => StartHeads(s, position, now);
    case UpDownReceived(up) =>
      StartHeads(if s.autoStopRequested then s.(autoStopRequested := false) else CancelAutoStop(s), if up then 0 else 100, now);
    case UserStops => StopHalts(s.(sent := s.sent + StopCommand(s), tilt := None), now);
    case AutoStopFires => StopHalts(s.(autoStop := None, sent := s.sent + StopCommand(s), tilt := None), now);
    case StopReceived => StopHalts(CancelAutoStop(s), now);
    case PeriodicWakes => StopHalts(s, now);
    case CurrentReported(position) => ReportKeeps(s, position, now);
    case _ =>
  }

  // -------------------------------------------------- updater, auto stopper, tilt

  /** Whenever the cover is predicted to travel the periodic updater runs. */
  ghost predicate Updating(c: Cover, since: real) {
    forall t: real :: t > since && Current(c.calculator, t) != Ok(c.calculator.target) ==> c.periodicUpdate
  }

  lemma ArrivedStays(c: Calculator, now: real, later: real)
    requires Consistent(c) && c.timestamp < now <= later && Current(c, now) == Ok(c.target)
    ensures Current(c, later) == Ok(c.target)
  {
    if Moving(c) {
      PositionMoves(c, now, later);
    } else {
      RestsAtTarget(c, later);
    }
  }

  lemma RestsWhere(c: Calculator, since: real)
    requires Consistent(c) && !Moving(c) && since >= c.timestamp
    ensures forall t: real :: t > since ==> Current(c, t) == Ok(c.target)
  {
    forall t: real | t > since ensures Current(c, t) == Ok(c.target) {
      RestsAtTarget(c, t);
    }
  }

  lemma StartUpdates(c: Cover, target: int, now: real)
    requires Ready(c, now)
    ensures StartUpdate(c, target, now).Ok? && Updating(StartUpdate(c, target, now).value, now)
  {
    StartIsSmooth(c, target, now);
    CurrentIsKnown(c.calculator, now);
    var k := StartUpdate(c, target, now).value.calculator;
    if c.calculator.last.Some? {
      HeadsForTarget(c.calculator, target, now);
      if Current(k, now) == Ok(k.target) {
        assert k.last == k.target;
        RestsWhere(k, now);
      }
    } else {
      RestsWhere(k, now);
    }
  }

  lemma StopUpdates(c: Cover, now: real)
    requires Ready(c, now)
    ensures StopUpdate(c, now).Ok? && Updating(StopUpdate(c, now).value, now)
  {
    StopIsSmooth(c, now);
    CurrentIsKnown(c.calculator, now);
    if Traveling(c, now).value {
      StopDoesNotJump(c.calculator, now, now);
      RestsWhere(StopUpdate(c, now).value.calculator, now);
    } else {
      forall t: real | t > now ensures Current(c.calculator, t) == Ok(c.calculator.target) {
        ArrivedStays(c.calculator, now, t);
      }
    }
  }

  lemma ReportUpdates(c: Cover, position: int, since: real, now: real)
    requires Ready(c, now) && since < now && Updating(c, since)
    ensures PositionReported(c, position, now).Ok? && Updating(PositionReported(c, position, now).value, now)
  {
    CurrentIsKnown(c.calculator, now);
    ReportKeeps(c, position, now);
    if !Traveling(c, now).value {
      RestsWhere(Set(c.calculator, position, now), now);
    }
  }

  lemma StepUpdates(c: Cover, e: Event, since: real, now: real)
    requires Ready(c, now) && since < now && Updating(c, since)
    ensures Step(c, e, now).Ok? && Updating(Step(c, e, now).value, now)
  {
    StepKeeps(c, e, now);
    match e
    case UserSetsPosition(position) =>
      StartUpdates(Send(c, MoveUp), position, now);
      StartUpdates(Send(c, MoveDown), position, now);
    case UserMoves(up) => StartUpdates(Send(c, if up then MoveUp else MoveDown).(tilt := None), if up then 0 else 100, now);
    case UserStops => StopUpdates(c.(sent := c.sent + StopCommand(c), tilt := None), now);
    case AutoStopFires => StopUpdates(c.(autoStop := None, sent := c.sent + StopCommand(c), tilt := None), now);
    case TargetReported(position) => StartUpdates(c, position, now);
    case CurrentReported(position) => ReportUpdates(c, position, since, now);
    case UpDownReceived(up) =>
      StartUpdates(if c.autoStopRequested then c.(autoStopRequested := false) else CancelAutoStop(c), if up then 0 else 100, now);
    case StopReceived => StopUpdates(CancelAutoStop(c), now);
    case PeriodicWakes => StopUpdates(c, now);
    case UserTilts(_) =>
  }

  lemma {:induction false} RunUpdates(c: Cover, since: real, run: seq<Call>)
    requires Consistent(c.calculator) && c.calculator.timestamp <= since && Legal(true, c, since, run) && Updating(c, since)
    ensures Exec(c, run).Ok? && Updating(Exec(c, run).value, End(since, run))
    decreases |run|
  {
    if run != [] {
      StepKeeps(c, run[0].event, run[0].at);
      StepUpdates(c, run[0].event, since, run[0].at);
      RunUpdates(Step(c, run[0].event, run[0].at).value, run[0].at, run[1..]);
      if |run| > 1 {
        assert run[1..][|run[1..]| - 1] == run[|run| - 1];
      }
    }
  }

  /** After every such run the periodic updater runs while the cover is predicted to travel. */
  lemma UpdaterRuns(c: Cover, run: seq<Call>, now: real)
    requires PositiveTimes(c.calculator) && c.calculator == Fresh(c.calculator.timeDown, c.calculator.timeUp)
    requires Legal(true, c, 0.0, run) && End(0.0, run) < now
    ensures Exec(c, run).Ok?
    ensures var s := Exec(c, run).value; Traveling(s, now).Ok? && (Traveling(s, now).value ==> s.periodicUpdate)
  {
    RestsWhere(c.calculator, 0.0);
    RunUpdates(c, 0.0, run);
    RunKeeps(c, 0.0, run);
    CurrentIsKnown(Exec(c, run).value.calculator, now);
  }

  /** A travel to the target would move a cover whose position is known. */
  predicate StartsTravel(c: Cover, target: int, now: real) {
    && Current(c.calculator, now).Ok? && Current(c.calculator, now).value.Some?
    && Current(c.calculator, now).value != Some(target)
  }

  lemma StartUpdatesIff(c: Cover, target: int, now: real)
    requires Ready(c, now)
    ensures StartUpdate(c, target, now).Ok?
    ensures StartUpdate(c, target, now).value.periodicUpdate <==> c.periodicUpdate || StartsTravel(c, target, now)
  {
    StartIsSmooth(c, target, now);
    CurrentIsKnown(c.calculator, now);
    if c.calculator.last.Some? {
      HeadsForTarget(c.calculator, target, now);
    } else {
      RestsWhere(Start(c.calculator, target, now).value, now);
    }
  }

  /** What a call does to the updater: a travel starts it, a stop ends it, and so does its own wake-up at rest. */
  predicate UpdaterAfter(c: Cover, e: Event, now: real, r: Cover) {
    match e
    case UserSetsPosition(position) =>
      r.periodicUpdate <==> c.periodicUpdate || (!c.targetWritable && StartsTravel(c, position, now))
    case UserMoves(up) =>
      r.periodicUpdate <==> c.periodicUpdate || (c.upDownWritable && StartsTravel(c, if up then 0 else 100, now))
    case TargetReported(position) => r.periodicUpdate <==> c.periodicUpdate || StartsTravel(c, position, now)
    case UpDownReceived(up) => r.periodicUpdate <==> c.periodicUpdate || StartsTravel(c, if up then 0 else 100, now)
    case CurrentReported(_) =>
      r.periodicUpdate <==>
        c.periodicUpdate || (Current(c.calculator, now) != Ok(None) && Current(r.calculator, now) != Current(c.calculator, now))
    case UserStops => r.periodicUpdate <==> c.periodicUpdate && c.stopSupport.NoStop?
    case AutoStopFires => r.periodicUpdate <==> c.periodicUpdate && c.stopSupport.NoStop?
    case StopReceived => r.periodicUpdate <==> c.periodicUpdate && Traveling(c, now) == Ok(false)
    case PeriodicWakes => r.periodicUpdate <==> c.periodicUpdate && Traveling(c, now) == Ok(true)
    case UserTilts(_) => r.periodicUpdate == c.periodicUpdate
  }

  lemma StopsEndUpdater(c: Cover, e: Event, now: real)
    requires Ready(c, now) && (e.UserStops? || e.AutoStopFires? || e.StopReceived? || e.PeriodicWakes?)
    ensures Step(c, e, now).Ok? && UpdaterAfter(c, e, now, Step(c, e, now).value)
  {
    StepKeeps(c, e, now);
    CurrentIsKnown(c.calculator, now);
  }

  lemma TravelsStartUpdater(c: Cover, e: Event, since: real, now: real)
    requires Ready(c, now) && since < now && Updating(c, since)
    requires e.UserSetsPosition? || e.UserMoves? || e.TargetReported? || e.UpDownReceived?
    ensures Step(c, e, now).Ok? && UpdaterAfter(c, e, now, Step(c, e, now).value)
  {
    StepKeeps(c, e, now);
    CurrentIsKnown(c.calculator, now);
    match e
    case UserSetsPosition(position) =>
      StartUpdatesIff(Send(c, MoveUp), position, now);
      StartUpdatesIff(Send(c, MoveDown), position, now);
    case UserMoves(up) => StartUpdatesIff(Send(c, if up then MoveUp else MoveDown).(tilt := None), if up then 0 else 100, now);
    case TargetReported(position) => StartUpdatesIff(c, position, now);
    case UpDownReceived(up) =>
      StartUpdatesIff(if c.autoStopRequested then c.(autoStopRequested := false) else CancelAutoStop(c), if up then 0 else 100, now);
  }

  /** After every such run, exactly when a call starts the updater and when one ends it. */
  lemma UpdaterIff(c: Cover, run: seq<Call>, e: Event, now: real)
    requires PositiveTimes(c.calculator) && c.calculator == Fresh(c.calculator.timeDown, c.calculator.timeUp)
    requires Legal(true, c, 0.0, run) && End(0.0, run) < now
    ensures Exec(c, run).Ok? && Step(Exec(c, run).value, e, now).Ok?
    ensures UpdaterAfter(Exec(c, run).value, e, now, Step(Exec(c, run).value, e, now).value)
  {
    RestsWhere(c.calculator, 0.0);
    RunUpdates(c, 0.0, run);
    RunKeeps(c, 0.0, run);
    var s := Exec(c, run).value;
    if e.UserStops? || e.AutoStopFires? || e.StopReceived? || e.PeriodicWakes? {
      StopsEndUpdater(s, e, now);
    } else if e.CurrentReported? {
      CurrentIsKnown(s.calculator, now);
      ReportKeeps(s, e.position, now);
    } else if !e.UserTilts? {
      TravelsStartUpdater(s, e, End(0.0, run), now);
    }
  }

  /**
   What the calls say: whether the auto stopper is armed, whether its own telegram is still to
   come, and the last tilt.
   */
  datatype Follow = Follow(armed: bool, own: bool, tilt: Option<Direction>)

  /** set_position towards a position in between that the cover cannot take by itself. */
  predicate Arms(c: Cover, e: Event, now: real) {
    && e.UserSetsPosition? && !c.targetWritable && !c.stopSupport.NoStop? && e.position != 0 && e.position != 100
    && Current(c.calculator, now).Ok? && Current(c.calculator, now).value.Some? && Current(c.calculator, now).value != Some(e.position)
  }

  function NextFollow(c: Cover, e: Event, now: real, f: Follow): Follow {
    match e
    case UserSetsPosition(_) => if Arms(c, e, now) then f.(armed := true, own := true) else f
    case UserMoves(_) => if c.upDownWritable then f.(tilt := None) else f
    case UserStops => if c.stopSupport.NoStop? then f else f.(tilt := None)
    case AutoStopFires => f.(armed := false, tilt := if c.stopSupport.NoStop? then f.tilt else None)
    case UserTilts(down) => f.(tilt := Some(if down then Down else Up))
    case UpDownReceived(_) => f.(armed := f.armed && f.own, own := false)
    case StopReceived => f.(armed := false, own := false)
    case _ => f
  }

  function FollowAfter(c: Cover, run: seq<Call>, f: Follow): Follow
    decreases |run|
  {
    if run == [] || Step(c, run[0].event, run[0].at).Err? then f
    else FollowAfter(Step(c, run[0].event, run[0].at).value, run[1..], NextFollow(c, run[0].event, run[0].at, f))
  }

  predicate Follows(c: Cover, f: Follow) {
    c.autoStop.Some? == f.armed && c.autoStopRequested == f.own && c.tilt == f.tilt
  }

  lemma UserFollows(c: Cover, e: Event, now: real, f: Follow)
    requires Step(c, e, now).Ok? && Follows(c, f) && (e.UserMoves? || e.UserStops? || e.AutoStopFires? || e.UserTilts?)
    ensures Follows(Step(c, e, now).value, NextFollow(c, e, now, f))
  {
    if e.UserMoves? {
      UpdatesKeepDevice(Send(c, if e.up then MoveUp else MoveDown).(tilt := None), if e.up then 0 else 100, now);
    } else if !e.UserTilts? {
      UpdatesKeepDevice(c.(sent := c.sent + StopCommand(c), tilt := None), 0, now);
      UpdatesKeepDevice(c.(autoStop := None, sent := c.sent + StopCommand(c), tilt := None), 0, now);
    }
  }

  lemma PositionFollows(c: Cover, e: Event, now: real, f: Follow)
    requires Step(c, e, now).Ok? && Follows(c, f) && e.UserSetsPosition?
    ensures Follows(Step(c, e, now).value, NextFollow(c, e, now, f))
  {
    UpdatesKeepDevice(Send(c, MoveUp), e.position, now);
    UpdatesKeepDevice(Send(c, MoveDown), e.position, now);
  }

  lemma TelegramFollows(c: Cover, e: Event, now: real, f: Follow)
    requires Step(c, e, now).Ok? && Follows(c, f) && (e.UpDownReceived? || e.StopReceived?)
    ensures Follows(Step(c, e, now).value, NextFollow(c, e, now, f))
  {
    if e.UpDownReceived? {
      UpdatesKeepDevice(if c.autoStopRequested then c.(autoStopRequested := false) else CancelAutoStop(c), if e.up then 0 else 100, now);
    } else {
      UpdatesKeepDevice(CancelAutoStop(c), 0, now);
    }
  }

  lemma StepFollows(c: Cover, e: Event, now: real, f: Follow)
    requires Step(c, e, now).Ok? && Follows(c, f)
    ensures Follows(Step(c, e, now).value, NextFollow(c, e, now, f))
  {
    if e.UserSetsPosition? {
      PositionFollows(c, e, now, f);
    } else if e.UpDownReceived? || e.StopReceived? {
      TelegramFollows(c, e, now, f);
    } else if e.TargetReported? {
      UpdatesKeepDevice(c, e.position, now);
    } else if e.CurrentReported? || e.PeriodicWakes? {
      UpdatesKeepDevice(c, 0, now);
    } else {
      UserFollows(c, e, now, f);
    }
  }

  /**
   On every run the auto stopper is armed exactly from such a set_position on until it fires, a
   stop comes, or an up or down telegram other than its own; and the tilt is the last one
   since the cover was moved or stopped.
   */
  lemma {:induction false} RunFollows(c: Cover, run: seq<Call>, f: Follow)
    requires Exec(c, run).Ok? && Follows(c, f)
    ensures Follows(Exec(c, run).value, FollowAfter(c, run, f))
    decreases |run|
  {
    if run != [] {
      StepFollows(c, run[0].event, run[0].at, f);
      RunFollows(Step(c, run[0].event, run[0].at).value, run[1..], NextFollow(c, run[0].event, run[0].at, f));
    }
  }

  // ------------------------------------------------------------------- the object

  /** How a method ends: `after` is the state it leaves, or the exception. */
  ghost predicate Ends(r: Result<()>, state: Cover, after: Result<Cover>) {
    if after.Ok? then r.Ok? && state == after.value else r.Err? && r.error == after.error
  }

  class CoverDevice {
    const travelcalculator: Calculation
    const upDownWritable: bool
    const targetWritable: bool
    const stopSupport: StopSupport
    var autoStop: Option<real>
    var autoStopRequested: bool
    var periodicUpdate: bool
    var tilt: Option<Direction>
    var sent: seq<Command>

    function View(): Cover
      reads this, travelcalculator
    {
      Cover(travelcalculator.View(), upDownWritable, targetWritable, stopSupport, autoStop, autoStopRequested, periodicUpdate, tilt, sent)
    }

    constructor (timeDown: real, timeUp: real, upDownWritable: bool, targetWritable: bool, stopSupport: StopSupport)
      ensures View() == New(timeDown, timeUp, upDownWritable, targetWritable, stopSupport)
      ensures fresh(travelcalculator)
    {
      travelcalculator := new Calculation(timeDown, timeUp);
      this.upDownWritable, this.targetWritable, this.stopSupport := upDownWritable, targetWritable, stopSupport;
      autoStop, autoStopRequested, periodicUpdate, tilt, sent := None, false, false, None, [];
    }

    method StartPositionUpdate(target: int, now: real) returns (r: Result<()>)
      modifies this`periodicUpdate, travelcalculator
      ensures Ends(r, View(), StartUpdate(old(View()), target, now))
    {
      r := travelcalculator.StartTravel(target, now);
      if r.Err? {
        return;
      }
      var position := Current(travelcalculator.View(), now);
      if position.Err? {
        return Err(position.error);
      }
      if position.value != travelcalculator.travelToPosition {
        periodicUpdate := true;
      }
    }

    method StopPositionUpdate(now: real) returns (r: Result<()>)
      modifies this`periodicUpdate, travelcalculator
      ensures Ends(r, View(), StopUpdate(old(View()), now))
    {
      var position := Current(travelcalculator.View(), now);
      if position.Err? {
        return Err(position.error);
      }
      if position.value != travelcalculator.travelToPosition {
        r := travelcalculator.StopTravel(now);
        if r.Err? {
          return;
        }
      }
      periodicUpdate := false;
      return Ok(());
    }

    method SetPosition(position: int, now: real) returns (r: Result<()>)
      modifies this, travelcalculator
      ensures Ends(r, View(), SetCoverPosition(old(View()), position, now))
    {
      if targetWritable {
        sent := sent + [TargetPosition(position)];
        return Ok(());
      }
      var current := Current(travelcalculator.View(), now);
      if current.Err? {
        return Err(current.error);
      }
      if current.value.None? {
        if position == POSITION_OPEN {
          sent := sent + [MoveUp];
        } else if position == POSITION_CLOSED {
          sent := sent + [MoveDown];
        } else {
          return Ok(());
        }
        r := StartPositionUpdate(position, now);
        return;
      }
      if position < current.value.value {
        sent := sent + [MoveUp];
      } else if position > current.value.value {
        sent := sent + [MoveDown];
      } else {
        return Ok(());
      }
      r := StartPositionUpdate(position, now);
      if r.Ok? && !stopSupport.NoStop? {
        StartAutoStopper(current.value.value, position, now);
      }
    }

    method StartAutoStopper(current: int, target: int, now: real)
      modifies this`autoStop, this`autoStopRequested
      ensures View() == StartAutoStop(old(View()), current, target, now)
    {
      if target == POSITION_OPEN || target == POSITION_CLOSED {
        return;
      }
      autoStop := Some(now + TravelTime(travelcalculator.View(), current, target));
      autoStopRequested := true;
    }

    method CurrentPositionFromRv(position: int, now: real) returns (r: Result<()>)
      modifies this`periodicUpdate, travelcalculator
      ensures Ends(r, View(), PositionReported(old(View()), position, now))
    {
      var before := Current(travelcalculator.View(), now);
      if before.Err? {
        return Err(before.error);
      }
      if before.value != travelcalculator.travelToPosition {
        travelcalculator.UpdatePosition(position, now);
      } else {
        travelcalculator.SetPosition(position, now);
      }
      var after := Current(travelcalculator.View(), now);
      if after.Err? {
        return Err(after.error);
      }
      if before.value != after.value && before.value.Some? {
        periodicUpdate := true;
      }
      return Ok(());
    }

    /** set_up and set_down */
    method MoveToEndPosition(up: bool, now: real) returns (r: Result<()>)
      modifies this, travelcalculator
      ensures Ends(r, View(), MoveToEnd(old(View()), up, now))
    {
      var end := if up then POSITION_OPEN else POSITION_CLOSED;
      if upDownWritable {
        sent, tilt := sent + [if up then MoveUp else MoveDown], None;
        r := StartPositionUpdate(end, now);
        return;
      }
      if targetWritable {
        sent := sent + [TargetPosition(end)];
      }
      return Ok(());
    }

    /** stop; the auto stopper calls it as well. */
    method StopMovement(now: real) returns (r: Result<()>)
      modifies this, travelcalculator
      ensures Ends(r, View(), StopCover(old(View()), now))
    {
      if stopSupport.NoStop? {
        return Ok(());
      }
      if stopSupport.StopAddress? {
        sent := sent + [StopMoving];
      } else if travelcalculator.travelDirection.Up? || tilt == Some(Up) {
        sent := sent + [StepUp];
      } else if travelcalculator.travelDirection.Down? || tilt == Some(Down) {
        sent := sent + [StepDown];
      }
      tilt := None;
      r := StopPositionUpdate(now);
    }

    method ProcessUpDown(up: bool, now: real) returns (r: Result<()>)
      modifies this, travelcalculator
      ensures Ends(r, View(), UpDownTelegram(old(View()), up, now))
    {
      if autoStopRequested {
        autoStopRequested := false;
      } else {
        autoStop, autoStopRequested := None, false;
      }
      var position := Current(travelcalculator.View(), now);
      if position.Err? {
        return Err(position.error);
      }
      var traveling := position.value != travelcalculator.travelToPosition;
      if up && !(traveling && travelcalculator.travelDirection.Up?) {
        r := StartPositionUpdate(POSITION_OPEN, now);
      } else if !up && !(traveling && travelcalculator.travelDirection.Down?) {
        r := StartPositionUpdate(POSITION_CLOSED, now);
      } else {
        r := Ok(());
      }
    }

    method ProcessStop(now: real) returns (r: Result<()>)
      modifies this, travelcalculator
      ensures Ends(r, View(), StopTelegram(old(View()), now))
    {
      autoStop, autoStopRequested := None, false;
      var position := Current(travelcalculator.View(), now);
      if position.Err? {
        return Err(position.error);
      }
      if position.value != travelcalculator.travelToPosition {
        r := StopPositionUpdate(now);
      } else {
        r := Ok(());
      }
    }
  }
}
