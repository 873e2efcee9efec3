/**
 SecureSequenceTimer: the timer of one device of a secure multicast group, event by event
 (AN159 v06, section 2.2.2.3). Times and delays are in milliseconds.
 */
module SecureTimer {
  import opened Bytes
  import opened Rounding

  const MIN_DELAY_TIME_KEEPER_PERIODIC_NOTIFY := 10000
  const MIN_DELAY_TIME_KEEPER_UPDATE_NOTIFY := 100
  const TIMER_LIMIT := 0x1_0000_0000_0000

  /** The message a scheduled update notify will answer. */
  datatype Update = Update(tag: Bytes, serial: Bytes)

  /** A pending call of _notify_timer_expired. */
  datatype Scheduled = Scheduled(due: real, update: Option<Update>)

  /** _expected_notify_handler: the awaited tag and the future, with its result once set. */
  datatype Expected = Expected(tag: Bytes, answer: Option<int>)

  datatype Timer = Timer(
    clockDifference: int,
    expected: Option<Expected>,
    notify: Option<Scheduled>,
    schedUpdate: bool,
    timekeeper: bool,
    authenticated: bool,
    latency: nat)

  // --------------------------------------------------------- delay windows

  /** sync_latency_tolerance_ms: ten per cent of the latency tolerance, rounded. */
  function Sync(latency: nat): (s: nat)
    ensures s <= latency && -5 <= 10 * s - latency <= 5
  {
    RoundHalfEven(latency as real / 10.0)
  }

  datatype Window = Window(min: int, max: int)

  /** The interval from which reschedule draws the delay. */
  function DelayWindow(latency: nat, timekeeper: bool, update: bool): (w: Window)
    ensures w.min <= w.max
  {
    var s := Sync(latency);
    var base := if update then MIN_DELAY_TIME_KEEPER_UPDATE_NOTIFY else MIN_DELAY_TIME_KEEPER_PERIODIC_NOTIFY;
    var keeperMax := base + (if update then s else 3 * s);
    if timekeeper then Window(base, keeperMax) else Window(keeperMax + s, keeperMax + s + 10 * s)
  }

  /** What random.random() returns. */
  type Fraction = u: real | 0.0 <= u <= 1.0

  /** random.uniform */
  function Uniform(lo: real, hi: real, u: Fraction): (d: real)
    requires lo <= hi
    ensures lo <= d <= hi
    ensures (u == 0.0 ==> d == lo) && (u == 1.0 ==> d == hi)
  {
    Proportion(hi - lo, u);
    lo + (hi - lo) * u
  }

  lemma Proportion(width: real, u: Fraction)
    requires width >= 0.0
    ensures 0.0 <= width * u <= width
  {
    NotNegative(width, u);
    NotNegative(width, 1.0 - u);
    assert width * (1.0 - u) == width - width * u;
  }

  lemma NotNegative(x: real, y: real)
    requires x >= 0.0 && y >= 0.0
    ensures x * y >= 0.0
  {
  }

  function Delay(latency: nat, timekeeper: bool, update: bool, u: Fraction): (d: real)
    ensures var w := DelayWindow(latency, timekeeper, update); w.min as real <= d <= w.max as real
  {
    var w := DelayWindow(latency, timekeeper, update);
    Uniform(w.min as real, w.max as real, u)
  }

  /** The delays in figures: s is the sync tolerance, and u what random.random() returns. */
  function Figures(s: real, timekeeper: bool, update: bool, u: Fraction): real {
    match (timekeeper, update)
    case (true, false) => 10000.0 + 3.0 * s * u
    case (false, false) => 10000.0 + 4.0 * s + 10.0 * s * u
    case (true, true) => 100.0 + s * u
    case (false, true) => 100.0 + 2.0 * s + 10.0 * s * u
  }

  lemma DelayInFigures(latency: nat, timekeeper: bool, update: bool, u: Fraction)
    ensures Delay(latency, timekeeper, update, u) == Figures(Sync(latency) as real, timekeeper, update, u)
  {
    var s, w := Sync(latency) as real, DelayWindow(latency, timekeeper, update);
    var width := if timekeeper then if update then s else 3.0 * s else 10.0 * s;
    assert w.max as real - w.min as real == width;
  }

  /**
   A timekeeper's notify always comes strictly before that of a follower of the same kind
   scheduled at the same instant, whatever is drawn, exactly when the rounded sync tolerance
   is positive, that is for latency tolerances above 5 ms.
   */
  lemma KeeperBeforeFollowerIff(latency: nat, update: bool)
    ensures (forall keeper: Fraction, follower: Fraction ::
               Delay(latency, true, update, keeper) < Delay(latency, false, update, follower))
       <==> Sync(latency) > 0
    ensures Sync(latency) > 0 <==> latency > 5
  {
    var k, f := DelayWindow(latency, true, update), DelayWindow(latency, false, update);
    assert k.max < f.min <==> Sync(latency) > 0;
    assert Delay(latency, true, update, 1.0) == k.max as real;
    assert Delay(latency, false, update, 0.0) == f.min as real;
  }

  // --------------------------------------------------------------- events

  /** reschedule */
  function Reschedule(t: Timer, update: Option<Update>, now: int, u: Fraction): Timer {
    t.(notify := Some(Scheduled(now as real + Delay(t.latency, t.timekeeper, update.Some?, u), update)), schedUpdate := update.Some?)
  }

  /** Reschedule a periodic notify unless an update notify is pending. */
  function RescheduleUnlessUpdate(t: Timer, update: Option<Update>, now: int, u: Fraction): Timer {
    if t.schedUpdate then t else Reschedule(t, update, now, u)
  }

  function CurrentValue(t: Timer, now: int): int {
    now + t.clockDifference
  }

  /** Whether a timer value fits six octets; sending another one raises OverflowError. */
  predicate Sendable(value: int) {
    0 <= value < TIMER_LIMIT
  }

  /** validate_secure_wrapper, events E5 to E8. */
  function Validate(t: Timer, value: int, from: Update, now: int, u: Fraction): (Timer, bool) {
    var local := CurrentValue(t, now);
    if value > local then
      (RescheduleUnlessUpdate(t.(clockDifference := t.clockDifference + (value - local)), None, now, u), true)
    else if value > local - Sync(t.latency) then
      (RescheduleUnlessUpdate(t, None, now, u), true)
    else if value > local - t.latency then (t, true)
    else (RescheduleUnlessUpdate(t, Some(from), now, u), false)
  }

  datatype NotifyOutcome = Processed | InvalidMac | SynchronizationAnswered | RaisedInvalidState

  predicate AnswersSynchronization(t: Timer, from: Update, ownSerial: Bytes) {
    t.expected.Some? && from.serial == ownSerial && from.tag == t.expected.value.tag
  }

  /** handle_timer_notify, events E1 to E4 and E11. */
  function HandleNotify(t: Timer, macValid: bool, value: int, from: Update, ownSerial: Bytes, now: int, u: Fraction)
    : (Timer, NotifyOutcome)
  {
    var local := CurrentValue(t, now);
    if !macValid then (t, InvalidMac)
    else if AnswersSynchronization(t, from, ownSerial) then
      if t.expected.value.answer.Some? then (t, RaisedInvalidState)
      else (t.(expected := Some(t.expected.value.(answer := Some(value)))), SynchronizationAnswered)
    else if value > local then
      (Reschedule(t.(clockDifference := t.clockDifference + (value - local), timekeeper := false), None, now, u), Processed)
    else if value > local - Sync(t.latency) then
      (Reschedule(t.(timekeeper := false), None, now, u), Processed)
    else if value > local - t.latency then (t, Processed)
    else (RescheduleUnlessUpdate(t, Some(from), now, u), Processed)
  }

  /** _notify_timer_expired when the current value can be sent: become timekeeper, schedule the next one. */
  function Expire(t: Timer, now: int, u: Fraction): Timer {
    Reschedule(t.(timekeeper := true), None, now, u)
  }

  function BeginSynchronize(t: Timer, tag: Bytes): Timer {
    t.(expected := Some(Expected(tag, None)))
  }

  /** The awaited notify was received: take its value as it was stamped. */
  function SynchronizeAnswered(t: Timer, now: int, u: Fraction): Timer
    requires t.expected.Some? && t.expected.value.answer.Some?
  {
    Reschedule(t.(clockDifference := t.expected.value.answer.value - now, expected := None, authenticated := true),
               None, now, u)
  }

  function SynchronizeTimedOut(t: Timer, now: int, u: Fraction): Timer {
    Reschedule(t.(timekeeper := true, expected := None, authenticated := true), None, now, u)
  }

  // ------------------------------------------------------------- the object

  class SecureSequenceTimer {
    const latencyToleranceMs: nat
    const ownSerial: Bytes
    var clockDifference: int
    var expectedNotifyHandler: Option<Expected>
    var notifyTimerHandle: Option<Scheduled>
    var schedUpdate: bool
    var timekeeper: bool
    var timerAuthenticated: bool

    function View(): Timer
      reads this
    {
      Timer(clockDifference, expectedNotifyHandler, notifyTimerHandle, schedUpdate, timekeeper, timerAuthenticated, latencyToleranceMs)
    }

    constructor (latencyMs: nat, serial: Bytes)
      ensures View() == Timer(0, None, None, false, false, false, latencyMs)
      ensures ownSerial == serial
    {
      latencyToleranceMs, ownSerial := latencyMs, serial;
      clockDifference, expectedNotifyHandler, notifyTimerHandle := 0, None, None;
      schedUpdate, timekeeper, timerAuthenticated := false, false, false;
    }

    method RescheduleNotify(update: Option<Update>, now: int, u: Fraction)
      modifies this
      ensures View() == Reschedule(old(View()), update, now, u)
    {
      notifyTimerHandle := None;
      schedUpdate := update.Some?;
      notifyTimerHandle := Some(Scheduled(now as real + Delay(latencyToleranceMs, timekeeper, schedUpdate, u), update));
    }

    method ValidateSecureWrapper(value: int, from: Update, now: int, u: Fraction) returns (valid: bool)
      modifies this
      ensures (View(), valid) == Validate(old(View()), value, from, now, u)
    {
      var local := now + clockDifference;
      if value > local {
        clockDifference := clockDifference + (value - local);
        if !schedUpdate {
          RescheduleNotify(None, now, u);
        }
        return true;
      }
      if value > local - Sync(latencyToleranceMs) {
        if !schedUpdate {
          RescheduleNotify(None, now, u);
        }
        return true;
      }
      if value > local - latencyToleranceMs {
        return true;
      }
      if !schedUpdate {
        RescheduleNotify(Some(from), now, u);
      }
      return false;
    }

    method HandleTimerNotify(macValid: bool, value: int, from: Update, now: int, u: Fraction) returns (outcome: NotifyOutcome)
      modifies this
      ensures (View(), outcome) == HandleNotify(old(View()), macValid, value, from, ownSerial, now, u)
    {
      var local := now + clockDifference;
      if !macValid {
        return InvalidMac;
      }
      if expectedNotifyHandler.Some? && from.serial == ownSerial && from.tag == expectedNotifyHandler.value.tag {
        if expectedNotifyHandler.value.answer.Some? {
          return RaisedInvalidState;
        }
        expectedNotifyHandler := Some(expectedNotifyHandler.value.(answer := Some(value)));
        return SynchronizationAnswered;
      }
      if value > local {
        clockDifference := clockDifference + (value - local);
        timekeeper := false;
        RescheduleNotify(None, now, u);
        return Processed;
      }
      if value > local - Sync(latencyToleranceMs) {
        timekeeper := false;
        RescheduleNotify(None, now, u);
        return Processed;
      }
      if value > local - latencyToleranceMs {
        return Processed;
      }
      if !schedUpdate {
        RescheduleNotify(Some(from), now, u);
      }
      return Processed;
    }

    /**
     _notify_timer_expired: an unsendable value raises before anything is changed, which leaves
     no notify pending; a handle that has fired counts as none.
     */
    method NotifyTimerExpired(now: int, u: Fraction) returns (sent: Result<int>)
      modifies this
      ensures sent == (if Sendable(CurrentValue(old(View()), now)) then Ok(CurrentValue(old(View()), now)) else Err(OverflowError))
      ensures View() == if sent.Ok? then Expire(old(View()), now, u) else old(View()).(notify := None)
    {
      notifyTimerHandle := None;
      var value := now + clockDifference;
      if !Sendable(value) {
        return Err(OverflowError);
      }
      if !timekeeper {
        timekeeper := true;
      }
      RescheduleNotify(None, now, u);
      return Ok(value);
    }

    /** get_for_outgoing_secure_wrapper, event E9. */
    method GetForOutgoingSecureWrapper(now: int, u: Fraction) returns (value: int)
      modifies this
      ensures View() == RescheduleUnlessUpdate(old(View()), None, now, u)
      ensures value == CurrentValue(old(View()), now)
    {
      if !schedUpdate {
        RescheduleNotify(None, now, u);
      }
      return now + clockDifference;
    }

    /** The first part of synchronize, up to its await. */
    method BeginSynchronization(tag: Bytes, now: int) returns (sent: Result<int>)
      modifies this
      ensures View() == BeginSynchronize(old(View()), tag)
      ensures sent == if Sendable(CurrentValue(old(View()), now)) then Ok(CurrentValue(old(View()), now)) else Err(OverflowError)
    {
      expectedNotifyHandler := Some(Expected(tag, None));
      var value := now + clockDifference;
      return if Sendable(value) then Ok(value) else Err(OverflowError);
    }

    /** The rest of synchronize, after the future was set or the timeout expired. */
    method EndSynchronization(now: int, u: Fraction)
      requires expectedNotifyHandler.Some?
      modifies this
      ensures View() == if old(View()).expected.value.answer.Some?
                        then SynchronizeAnswered(old(View()), now, u) else SynchronizeTimedOut(old(View()), now, u)
    {
      if expectedNotifyHandler.value.answer.Some? {
        clockDifference := expectedNotifyHandler.value.answer.value - now;
      } else {
        timekeeper := true;
      }
      expectedNotifyHandler := None;
      timerAuthenticated := true;
      RescheduleNotify(None, now, u);
    }
  }
}
