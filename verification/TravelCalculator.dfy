/**
 TravelCalculator: the predicted position of a cover. Positions are whole, 0 open and 100
 closed; times are real seconds, and one call reads one clock value.
 */
module TravelCalculator {
  import opened Bytes

  const POSITION_CLOSED := 100
  const POSITION_OPEN := 0

  datatype Direction = Up | Down | Stopped

  datatype Calculator = Calculator(
    direction: Direction,
    timeDown: real,
    timeUp: real,
    last: Option<int>,
    timestamp: real,
    confirmed: bool,
    target: Option<int>)

  function Fresh(timeDown: real, timeUp: real): Calculator {
    Calculator(Stopped, timeDown, timeUp, None, 0.0, false, None)
  }

  /** int(): rounded towards zero. */
  function Trunc(x: real): int {
    if x >= 0.0 then x.Floor else -((-x).Floor)
  }

  function Abs(n: int): nat {
    if n < 0 then -n else n
  }

  /** calculate_travel_time */
  function TravelTime(c: Calculator, from: int, to: int): real {
    var range := to - from;
    (if range > 0 then c.timeDown else c.timeUp) * Abs(range) as real / POSITION_CLOSED as real
  }

  /** position_reached_or_exceeded */
  predicate Exceeded(direction: Direction, range: int) {
    (range <= 0 && direction.Down?) || (range >= 0 && direction.Up?)
  }

  /** _calculate_position */
  function CalculatePosition(c: Calculator, now: real): Result<Option<int>> {
    if c.target.None? || c.last.None? then Ok(c.last)
    else
      var range := c.target.value - c.last.value;
      if Exceeded(c.direction, range) then Ok(c.target)
      else
        var remaining := TravelTime(c, c.last.value, c.target.value);
        if now > c.timestamp + remaining then Ok(c.target)
        else if remaining == 0.0 then Err(ZeroDivisionError)
        else Ok(Some(Trunc(Interpolated(c.last.value, range, now - c.timestamp, remaining))))
  }

  function Interpolated(last: int, range: int, elapsed: real, remaining: real): real
    requires remaining != 0.0
  {
    var progress := elapsed / remaining;
    last as real + range as real * progress
  }

  /** current_position */
  function Current(c: Calculator, now: real): Result<Option<int>> {
    if !c.confirmed then CalculatePosition(c, now) else Ok(c.last)
  }

  /** update_position */
  function Update(c: Calculator, position: int, now: real): Calculator {
    c.(last := Some(position), timestamp := now, confirmed := c.target == Some(position) || c.confirmed)
  }

  /** set_position */
  function Set(c: Calculator, position: int, now: real): Calculator {
    Update(c.(target := Some(position)), position, now)
  }

  /** stop */
  function Stop(c: Calculator, now: real): Result<Calculator> {
    var position :- Current(c, now);
    if position.None? then Ok(c)
    else Ok(c.(last := position, target := position, confirmed := false, direction := Stopped))
  }

  /** start_travel */
  function Start(c: Calculator, target: int, now: real): Result<Calculator> {
    if c.last.None? then Ok(Set(c, target, now))
    else
      var s :- Stop(c, now);
      Ok(s.(timestamp := now, target := Some(target), confirmed := false,
            direction := if s.last.Some? && target > s.last.value then Down else Up))
  }

  // ------------------------------------------------------------- linear movement

  predicate PositiveTimes(c: Calculator) {
    c.timeDown > 0.0 && c.timeUp > 0.0
  }

  /** Which of the two travel times applies. */
  function FullTime(c: Calculator, range: int): real {
    if range > 0 then c.timeDown else c.timeUp
  }

  /** Travelled so far, in positions, at constant speed. */
  function Travelled(c: Calculator, range: int, elapsed: real): real
    requires PositiveTimes(c)
  {
    elapsed / FullTime(c, range) * 100.0
  }

  lemma Proportions(elapsed: real, full: real, n: real)
    requires full > 0.0 && n > 0.0
    ensures full * n / 100.0 > 0.0
    ensures elapsed / (full * n / 100.0) * n == elapsed / full * 100.0
    ensures elapsed > full * n / 100.0 <==> elapsed / full * 100.0 > n
    ensures elapsed == full * n / 100.0 <==> elapsed / full * 100.0 == n
  {
    var r, t := elapsed / full, full * n / 100.0;
    assert r * full == elapsed;
    assert n * full > 0.0;
    assert elapsed - t == (r * 100.0 - n) * full / 100.0;
    Signs(r * 100.0 - n, full);
    var q := elapsed / t;
    assert q * t == elapsed;
    assert (q * n / 100.0) * full == r * full;
    Cancel(q * n / 100.0, r, full);
  }

  lemma Signs(x: real, full: real)
    requires full > 0.0
    ensures x * full > 0.0 <==> x > 0.0
    ensures x * full == 0.0 <==> x == 0.0
  {
  }

  lemma Cancel(x: real, y: real, full: real)
    requires full > 0.0 && x * full == y * full
    ensures x == y
  {
    Signs(x - y, full);
    assert (x - y) * full == 0.0;
  }

  lemma TravelledGrows(c: Calculator, range: int, e1: real, e2: real)
    requires PositiveTimes(c) && e1 <= e2
    ensures Travelled(c, range, e1) <= Travelled(c, range, e2)
    ensures 0.0 <= e1 ==> 0.0 <= Travelled(c, range, e1)
  {
    var full := FullTime(c, range);
    Quotients(e1, e2, full);
    Quotients(0.0, e1, full);
    assert 0.0 / full == 0.0;
  }

  lemma Quotients(x: real, y: real, full: real)
    requires full > 0.0
    ensures x <= y ==> x / full <= y / full
  {
    assert (y / full - x / full) * full == y - x;
    Signs(x / full - y / full, full);
  }

  /** A known position and a target, not both the same, in the direction of travel. */
  predicate Moving(c: Calculator) {
    && !c.confirmed && c.last.Some? && c.target.Some?
    && !Exceeded(c.direction, c.target.value - c.last.value)
    && c.last != c.target
  }

  /** The exact linear position of a moving cover, up to the target. */
  function Exact(c: Calculator, now: real): real
    requires PositiveTimes(c) && Moving(c)
  {
    var range := c.target.value - c.last.value;
    var way := Travelled(c, range, now - c.timestamp);
    if way >= Abs(range) as real then c.target.value as real
    else if range > 0 then c.last.value as real + way else c.last.value as real - way
  }

  lemma TimesAndWays(c: Calculator, elapsed: real)
    requires PositiveTimes(c) && Moving(c)
    ensures var range := c.target.value - c.last.value;
            var remaining, way := TravelTime(c, c.last.value, c.target.value), Travelled(c, range, elapsed);
            && remaining > 0.0 && (elapsed > remaining <==> way > Abs(range) as real)
            && elapsed / remaining * Abs(range) as real == way
  {
    var range := c.target.value - c.last.value;
    Proportions(elapsed, FullTime(c, range), Abs(range) as real);
  }

  lemma InterpolatedIs(last: int, range: int, elapsed: real, remaining: real, way: real)
    requires remaining != 0.0 && elapsed / remaining * Abs(range) as real == way
    ensures Interpolated(last, range, elapsed, remaining) == last as real + if range > 0 then way else -way
  {
    SignedProduct(range, elapsed / remaining, way);
  }

  /** The code's position is the exact linear one, rounded towards zero. */
  lemma CurrentIsTruncated(c: Calculator, now: real)
    requires PositiveTimes(c) && Moving(c)
    ensures Current(c, now) == Ok(Some(Trunc(Exact(c, now))))
  {
    var range := c.target.value - c.last.value;
    var elapsed := now - c.timestamp;
    var remaining, way := TravelTime(c, c.last.value, c.target.value), Travelled(c, range, elapsed);
    TimesAndWays(c, elapsed);
    if elapsed > remaining {
      TruncOfInt(c.target.value);
    } else {
      InterpolatedIs(c.last.value, range, elapsed, remaining, way);
      ExactUnfolds(c, now, way);
    }
  }

  lemma ExactUnfolds(c: Calculator, now: real, way: real)
    requires PositiveTimes(c) && Moving(c)
    requires way == Travelled(c, c.target.value - c.last.value, now - c.timestamp) <= Abs(c.target.value - c.last.value) as real
    ensures Exact(c, now) == c.last.value as real + if c.target.value > c.last.value then way else -way
  {
  }

  lemma SignedProduct(range: int, progress: real, way: real)
    requires progress * Abs(range) as real == way
    ensures range as real * progress == if range > 0 then way else -way
  {
    if range > 0 {
      assert Abs(range) as real == range as real;
    } else {
      assert Abs(range) as real == -(range as real);
    }
  }

  // ---------------------------------------------------- what the prediction satisfies

  lemma TruncIsMonotone(x: real, y: real)
    requires x <= y
    ensures Trunc(x) <= Trunc(y)
    ensures -1.0 < Trunc(x) as real - x < 1.0
  {
  }

  lemma TruncOfInt(n: int)
    ensures Trunc(n as real) == n
  {
  }

  /** Exact positions go from the last known position to the target. */
  lemma ExactMoves(c: Calculator, t1: real, t2: real)
    requires PositiveTimes(c) && Moving(c) && c.timestamp <= t1 <= t2
    ensures var a, x, y, b := c.last.value as real, Exact(c, t1), Exact(c, t2), c.target.value as real;
            a <= x <= y <= b || a >= x >= y >= b
  {
    var range := c.target.value - c.last.value;
    TravelledGrows(c, range, t1 - c.timestamp, t2 - c.timestamp);
  }

  /**
   The position stays between the last known position and the target and moves monotonically, never
   more than a unit from the exact one.
   */
  lemma PositionMoves(c: Calculator, t1: real, t2: real)
    requires PositiveTimes(c) && Moving(c) && c.timestamp <= t1 <= t2
    ensures Current(c, t1).Ok? && Current(c, t2).Ok? && Current(c, t1).value.Some? && Current(c, t2).value.Some?
    ensures var a, x, y, b := c.last.value, Current(c, t1).value.value, Current(c, t2).value.value, c.target.value;
            && (a <= x <= y <= b || a >= x >= y >= b)
            && -1.0 < x as real - Exact(c, t1) < 1.0
  {
    CurrentIsTruncated(c, t1);
    CurrentIsTruncated(c, t2);
    ExactMoves(c, t1, t2);
    var a, x, y, b := c.last.value as real, Exact(c, t1), Exact(c, t2), c.target.value as real;
    TruncOfInt(c.last.value);
    TruncOfInt(c.target.value);
    if a <= x {
      TruncIsMonotone(a, x);
    }
    if x <= a {
      TruncIsMonotone(x, a);
    }
    if x <= y {
      TruncIsMonotone(x, y);
    }
    if y <= x {
      TruncIsMonotone(y, x);
    }
    if y <= b {
      TruncIsMonotone(y, b);
    }
    if b <= y {
      TruncIsMonotone(b, y);
    }
  }

  /** Truncation towards zero delays a target further from zero until the full time, and brings any other forward. */
  predicate AwayFromZero(c: Calculator)
    requires c.last.Some? && c.target.Some?
  {
    (c.target.value > c.last.value && c.target.value > 0) || (c.target.value < c.last.value && c.target.value < 0)
  }

  /** The position one unit short of the target. */
  function OneShort(c: Calculator): int
    requires c.last.Some? && c.target.Some?
  {
    if c.target.value > c.last.value then c.target.value - 1 else c.target.value + 1
  }

  /**
   A target away from zero, as on the way down to any but the open end, is reached exactly
   with the full travel time; the truncation brings any other forward by less than the travel
   time of one unit.
   */
  lemma ReachedIff(c: Calculator, now: real)
    requires PositiveTimes(c) && Moving(c) && c.timestamp <= now
    ensures Current(c, now) == Ok(c.target) <==>
              if AwayFromZero(c) then now >= c.timestamp + TravelTime(c, c.last.value, c.target.value)
              else now > c.timestamp + TravelTime(c, c.last.value, OneShort(c))
  {
    CurrentIsTruncated(c, now);
    var range := c.target.value - c.last.value;
    var way := Travelled(c, range, now - c.timestamp);
    TravelledGrows(c, range, 0.0, now - c.timestamp);
    WayAndTime(c, now - c.timestamp, Abs(range) - 1);
    WayAndTime(c, now - c.timestamp, Abs(range));
    TruncatedTarget(c.last.value, c.target.value, way);
  }

  lemma WayAndTime(c: Calculator, elapsed: real, n: nat)
    requires PositiveTimes(c) && Moving(c) && elapsed >= 0.0
    ensures var range := c.target.value - c.last.value;
            var time, way := FullTime(c, range) * n as real / 100.0, Travelled(c, range, elapsed);
            && (elapsed > time <==> way > n as real) && (elapsed >= time <==> way >= n as real)
            && time == TravelTime(c, c.last.value, if range > 0 then c.last.value + n else c.last.value - n)
  {
    var range := c.target.value - c.last.value;
    var full := FullTime(c, range);
    if n > 0 {
      Proportions(elapsed, full, n as real);
    } else {
      assert full * 0.0 / 100.0 == 0.0;
      assert elapsed / full * full == elapsed;
      Signs(elapsed / full, full);
    }
  }

  lemma TruncatedTarget(last: int, target: int, way: real)
    requires last != target && way >= 0.0
    ensures var n := Abs(target - last) as real;
            var x := if way >= n then target as real else if target > last then last as real + way else last as real - way;
            Trunc(x) == target <==>
              if (target > last && target > 0) || (target < last && target < 0) then way >= n else way > n - 1.0
  {
    TruncOfInt(target);
  }

  // ------------------------------------------------------------- reachable states

  /** What every call of Cover keeps. */
  predicate Consistent(c: Calculator) {
    && PositiveTimes(c)
    && (c.last.None? <==> c.target.None?)
    && (c.confirmed ==> c.last.Some? && c.last == c.target)
    && (c.direction.Stopped? ==> c.last == c.target)
  }

  /** The one way to divide by zero: a stopped cover asked in the very instant of its timestamp, or before. */
  lemma DividesByZeroIff(c: Calculator, now: real)
    requires Consistent(c)
    ensures Current(c, now).Err? <==> c.last.Some? && c.direction.Stopped? && !c.confirmed && now <= c.timestamp
    ensures Current(c, now).Err? ==> Current(c, now).error == ZeroDivisionError
  {
    if c.last.Some? {
      if c.last == c.target {
        assert TravelTime(c, c.last.value, c.target.value) == 0.0;
      } else if Moving(c) {
        CurrentIsTruncated(c, now);
      }
    }
  }

  /** A cover that is known and not moving is at its target, once the clock has advanced. */
  lemma RestsAtTarget(c: Calculator, now: real)
    requires Consistent(c) && !Moving(c) && (now > c.timestamp || !c.direction.Stopped? || c.confirmed)
    ensures Current(c, now) == Ok(c.target)
  {
    if c.last.Some? && !c.confirmed {
      if c.last == c.target {
        assert TravelTime(c, c.last.value, c.target.value) == 0.0;
      }
    }
  }

  lemma CurrentIsKnown(c: Calculator, now: real)
    requires Consistent(c) && now > c.timestamp
    ensures Current(c, now).Ok? && (Current(c, now).value.Some? <==> c.last.Some?)
  {
    DividesByZeroIff(c, now);
  }

  /** Stopping keeps the position, at every later time. */
  lemma StopDoesNotJump(c: Calculator, now: real, later: real)
    requires Consistent(c) && c.timestamp < now <= later
    ensures Current(c, now).Ok? && Stop(c, now).Ok? && Consistent(Stop(c, now).value)
    ensures Current(Stop(c, now).value, later) == Current(c, now)
    ensures var s := Stop(c, now).value; s.last == s.target == Current(c, now).value && s.direction == (if c.last.Some? then Stopped else c.direction)
  {
    CurrentIsKnown(c, now);
    RestsAtTarget(Stop(c, now).value, later);
  }

  /** Starting keeps a known position; an unknown one becomes the target. */
  lemma StartDoesNotJump(c: Calculator, target: int, now: real)
    requires Consistent(c) && c.timestamp < now
    ensures Start(c, target, now).Ok? && Consistent(Start(c, target, now).value)
    ensures var s := Start(c, target, now).value;
            s.target == Some(target) && Current(s, now) == (if c.last.Some? then Current(c, now) else Ok(Some(target)))
  {
    CurrentIsKnown(c, now);
    if c.last.Some? {
      StopDoesNotJump(c, now, now);
      var s := Start(c, target, now).value;
      if Moving(s) {
        CurrentIsTruncated(s, now);
        ExactMoves(s, now, now);
        var range := target - s.last.value;
        assert Travelled(s, range, 0.0) == 0.0 by {
          assert 0.0 / FullTime(s, range) == 0.0;
        }
        TruncOfInt(s.last.value);
      } else {
        RestsAtTarget(s, now);
      }
    }
  }

  // ------------------------------------------------------------------- the object

  /** The methods read the clock as `now`. */
  class Calculation {
    const travelTimeDown: real
    const travelTimeUp: real
    var travelDirection: Direction
    var lastKnownPosition: Option<int>
    var lastKnownPositionTimestamp: real
    var positionConfirmed: bool
    var travelToPosition: Option<int>

    function View(): Calculator
      reads this
    {
      Calculator(travelDirection, travelTimeDown, travelTimeUp, lastKnownPosition, lastKnownPositionTimestamp,
                 positionConfirmed, travelToPosition)
    }

    constructor (timeDown: real, timeUp: real)
      ensures View() == Fresh(timeDown, timeUp)
    {
      travelTimeDown, travelTimeUp := timeDown, timeUp;
      travelDirection, lastKnownPosition, lastKnownPositionTimestamp := Stopped, None, 0.0;
      positionConfirmed, travelToPosition := false, None;
    }

    method UpdatePosition(position: int, now: real)
      modifies this
      ensures View() == Update(old(View()), position, now)
    {
      lastKnownPosition := Some(position);
      lastKnownPositionTimestamp := now;
      if travelToPosition == Some(position) {
        positionConfirmed := true;
      }
    }

    method SetPosition(position: int, now: real)
      modifies this
      ensures View() == Set(old(View()), position, now)
    {
      travelToPosition := Some(position);
      UpdatePosition(position, now);
    }

    method StopTravel(now: real) returns (r: Result<()>)
      modifies this
      ensures r == (if Stop(old(View()), now).Ok? then Ok(()) else Err(Stop(old(View()), now).error))
      ensures View() == (if r.Ok? then Stop(old(View()), now).value else old(View()))
    {
      var position := Current(View(), now);
      if position.Err? {
        return Err(position.error);
      }
      if position.value.None? {
        return Ok(());
      }
      lastKnownPosition := position.value;
      travelToPosition := position.value;
      positionConfirmed := false;
      travelDirection := Stopped;
      return Ok(());
    }

    method StartTravel(target: int, now: real) returns (r: Result<()>)
      modifies this
      ensures r == (if Start(old(View()), target, now).Ok? then Ok(()) else Err(Start(old(View()), target, now).error))
      ensures View() == (if r.Ok? then Start(old(View()), target, now).value else old(View()))
    {
      if lastKnownPosition.None? {
        SetPosition(target, now);
        return Ok(());
      }
      r := StopTravel(now);
      if r.Err? {
        return;
      }
      lastKnownPositionTimestamp := now;
      travelToPosition := Some(target);
      positionConfirmed := false;
      travelDirection := if lastKnownPosition.Some? && target > lastKnownPosition.value then Down else Up;
    }
  }
}
