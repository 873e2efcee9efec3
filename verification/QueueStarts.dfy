/**
 The rate limiter of a telegram queue that is started in any state, again and again: start()
 checks nothing, so any number of limiter loops may share the outgoing queue and the field
 _rate_limiter. What the consumers put into the outgoing queue is arbitrary here.
 */
module TelegramQueueStarts {
  import opened Bytes
  import opened Queue = TelegramQueue

  /** Where one limiter loop stands; `sleep` is the task that it took from the field and awaits. */
  datatype Loop = AtGet | AtSleep(telegram: Telegram, sleep: nat) | AtSend(telegram: Telegram) | HasExited | HasDied

  datatype Loops = Loops(
    outgoing: seq<Item>,
    loops: map<nat, Loop>,
    started: nat,
    /** All sleep tasks so far, and the one in _rate_limiter. */
    sleeps: seq<Sleep>,
    field: Option<nat>,
    now: real,
    /** History: times at which limited telegrams were sent. */
    limitedSends: seq<real>)

  datatype LoopEvent =
    | Starts
    | Fed(item: Item)
    | Passes(dt: real)
    | Takes(id: nat)
    | Resumes(id: nat)
      /** The awaited sleep was cancelled: CancelledError ends the loop. */
    | Dies(id: nat)
    | Finishes(id: nat)

  /** The loops and the tasks they refer to. */
  predicate Known(s: Loops) {
    && (s.field.Some? ==> s.field.value < |s.sleeps|)
    && (forall id :: id in s.loops ==> id < s.started)
    && (forall id :: id in s.loops && s.loops[id].AtSleep? ==> s.loops[id].sleep < |s.sleeps|)
  }

  predicate Can(s: Loops, e: LoopEvent)
    requires Known(s)
  {
    match e
    case Starts => true
    case Fed(_) => true
    case Passes(dt) => dt >= 0.0
    case Takes(id) => id in s.loops && s.loops[id].AtGet? && s.outgoing != []
    case Resumes(id) =>
      id in s.loops && s.loops[id].AtSleep? && !s.sleeps[s.loops[id].sleep].cancelled && s.sleeps[s.loops[id].sleep].until <= s.now
    case Dies(id) => id in s.loops && s.loops[id].AtSleep? && s.sleeps[s.loops[id].sleep].cancelled
    case Finishes(id) => id in s.loops && s.loops[id].AtSend?
  }

  function Move(s: Loops, id: nat, loop: Loop): Loops {
    s.(loops := s.loops[id := loop])
  }

  /** A limited send, with a new sleep task in the field. */
  function SendLimited(rate: nat, s: Loops, id: nat, t: Telegram): Loops {
    Move(s, id, AtSend(t)).(sleeps := s.sleeps + [Sleep(s.now + Interval(rate), false)], field := Some(|s.sleeps|),
                            limitedSends := s.limitedSends + [s.now])
  }

  function Take(rate: nat, s: Loops, id: nat): Loops
    requires Known(s) && s.outgoing != []
  {
    var taken := s.(outgoing := s.outgoing[1..]);
    match s.outgoing[0]
    case Sentinel =>
      Move(taken, id, HasExited).(
      sleeps := if s.field.Some? then s.sleeps[s.field.value := Cancel(s.sleeps[s.field.value], s.now)] else s.sleeps)
    case Item(t) =>
      if !Limited(rate, t) then Move(taken, id, AtSend(t))
      else if s.field.None? then SendLimited(rate, taken, id, t)
      else if s.sleeps[s.field.value].cancelled then Move(taken, id, HasDied)
      else Move(taken, id, AtSleep(t, s.field.value))
  }

  function Next(rate: nat, s: Loops, e: LoopEvent): (s': Loops)
    requires Known(s) && Can(s, e)
    ensures Known(s')
  {
    match e
    case Starts => s.(loops := s.loops[s.started := AtGet], started := s.started + 1)
    case Fed(item) => s.(outgoing := s.outgoing + [item])
    case Passes(dt) => s.(now := s.now + dt)
    case Takes(id) => Take(rate, s, id)
    case Resumes(id) => SendLimited(rate, s, id, s.loops[id].telegram)
    case Dies(id) => Move(s, id, HasDied)
    case Finishes(id) => Move(s, id, AtGet)
  }

  predicate Possible(rate: nat, s: Loops, run: seq<LoopEvent>)
    requires Known(s)
    decreases |run|
  {
    run == [] || (Can(s, run[0]) && Possible(rate, Next(rate, s, run[0]), run[1..]))
  }

  function After(rate: nat, s: Loops, run: seq<LoopEvent>): (end: Loops)
    requires Known(s) && Possible(rate, s, run)
    ensures Known(end)
    decreases |run|
  {
    if run == [] then s else After(rate, Next(rate, s, run[0]), run[1..])
  }

  // ---------------------------------------------------------- a cancelled sleep

  /** stop() has left a cancelled sleep in the field. */
  predicate Cancelled(s: Loops)
    requires Known(s)
  {
    s.field.Some? && s.sleeps[s.field.value].cancelled
  }

  /** A loop awaits a sleep that is not cancelled: an older one than that in the field. */
  predicate AwaitsOlder(s: Loops, id: nat)
    requires Known(s)
  {
    id in s.loops && s.loops[id].AtSleep? && !s.sleeps[s.loops[id].sleep].cancelled
  }

  predicate NoneAwaitsOlder(s: Loops)
    requires Known(s)
  {
    forall id :: id in s.loops ==> !AwaitsOlder(s, id)
  }

  lemma StaysCancelled(rate: nat, s: Loops, e: LoopEvent)
    requires Known(s) && Can(s, e) && Cancelled(s) && NoneAwaitsOlder(s)
    ensures var s' := Next(rate, s, e); Cancelled(s') && NoneAwaitsOlder(s') && s'.limitedSends == s.limitedSends
  {
    var s' := Next(rate, s, e);
    assert e.Resumes? ==> e.id in s.loops && AwaitsOlder(s, e.id);
    assert s'.sleeps == s.sleeps by {
      if e.Takes? && s.outgoing[0].Sentinel? {
        assert Cancel(s.sleeps[s.field.value], s.now) == s.sleeps[s.field.value];
      }
    }
    forall id | id in s'.loops ensures !AwaitsOlder(s', id) {
      if id in s.loops {
        assert !AwaitsOlder(s, id);
      }
    }
  }

  lemma {:induction false} NoLimitedSends(rate: nat, s: Loops, run: seq<LoopEvent>)
    requires Known(s) && Cancelled(s) && NoneAwaitsOlder(s) && Possible(rate, s, run)
    ensures After(rate, s, run).limitedSends == s.limitedSends
    decreases |run|
  {
    if run != [] {
      StaysCancelled(rate, s, run[0]);
      NoLimitedSends(rate, Next(rate, s, run[0]), run[1..]);
    }
  }

  ghost predicate NeverSendsLimited(rate: nat, s: Loops)
    requires Known(s)
  {
    forall run :: Possible(rate, s, run) ==> After(rate, s, run).limitedSends == s.limitedSends
  }

  /**
   Once stop() has left a cancelled sleep in the field, no limited telegram is ever sent again,
   however often and whenever start() is called and whatever is put, exactly when no loop
   still awaits an older sleep.
   */
  lemma NeverSendsLimitedIff(rate: nat, s: Loops)
    requires Known(s) && Cancelled(s)
    ensures NeverSendsLimited(rate, s) <==> NoneAwaitsOlder(s)
  {
    if NoneAwaitsOlder(s) {
      forall run | Possible(rate, s, run) ensures After(rate, s, run).limitedSends == s.limitedSends {
        NoLimitedSends(rate, s, run);
      }
    } else {
      var id :| id in s.loops && AwaitsOlder(s, id);
      var run := OlderSleepEnds(rate, s, id);
      assert |After(rate, s, run).limitedSends| == |s.limitedSends| + 1;
    }
  }

  lemma OlderSleepEnds(rate: nat, s: Loops, id: nat) returns (run: seq<LoopEvent>)
    requires Known(s) && AwaitsOlder(s, id)
    ensures Possible(rate, s, run) && |After(rate, s, run).limitedSends| == |s.limitedSends| + 1
  {
    var until := s.sleeps[s.loops[id].sleep].until;
    var dt := if until > s.now then until - s.now else 0.0;
    run := [Passes(dt), Resumes(id)];
    var later := Next(rate, s, Passes(dt));
    assert run[1..] == [Resumes(id)] && run[1..][1..] == [];
    assert Can(later, Resumes(id));
    assert Possible(rate, later, run[1..]);
    var end := Next(rate, later, Resumes(id));
    assert After(rate, later, run[1..]) == After(rate, end, []) == end;
  }

  /** What a loop then takes: a limited telegram ends it, others are still sent. */
  lemma TakesThen(rate: nat, s: Loops, id: nat)
    requires Known(s) && Cancelled(s) && Can(s, Takes(id))
    ensures var loop := Next(rate, s, Takes(id)).loops[id];
            && (loop.HasDied? <==> s.outgoing[0].Item? && Limited(rate, s.outgoing[0].telegram))
            && (loop.AtSend? <==> s.outgoing[0].Item? && !Limited(rate, s.outgoing[0].telegram))
  {
  }

  // ------------------------------------------------------- after a dead limiter

  /** Loop `id` is the limiter of the queue `s`, with the same field and outgoing queue; any others have exited. */
  predicate IsLimiter(s: State, r: Loops, id: nat) {
    && Known(r) && id in r.loops && r.outgoing == s.outgoing && r.now == s.now && r.limitedSends == s.starts
    && (forall other :: other in r.loops && other != id ==> r.loops[other].HasExited?)
    && s.rateLimiter == (if r.field.Some? then Some(r.sleeps[r.field.value]) else None)
    && match s.limiter
       case Idle => r.loops[id].AtGet?
       case AwaitingSleep(t) => r.loops[id].AtSleep? && r.loops[id].telegram == t && r.field == Some(r.loops[id].sleep)
       case Sending(t) => r.loops[id] == AtSend(t)
       case Exited => r.loops[id].HasExited?
       case Died(_) => r.loops[id].HasDied?
  }

  /** What an event of the queue is to its limiter loop. */
  function ToLoop(s: State, e: Event, id: nat): seq<LoopEvent>
    requires Enabled(s, e)
  {
    match e
    case Tick(dt) => [Passes(dt)]
    case ConsumerTakes => if s.telegrams[0].Item? && !s.telegrams[0].telegram.outgoing then [] else [Fed(s.telegrams[0])]
    case LimiterTakes => [Takes(id)]
    case LimiterResumes => [Resumes(id)]
    case LimiterFinishes(_) => [Finishes(id)]
    case Restart => [Starts]
    case _ => []
  }

  lemma LimiterIsLoop(rate: nat, s: State, e: Event, r: Loops, id: nat)
    requires Spaced(rate, s) && Enabled(s, e) && IsLimiter(s, r, id) && (e.LimiterTakes? || e.LimiterResumes? || e.LimiterFinishes?)
    ensures var es := ToLoop(s, e, id); Can(r, es[0]) && IsLimiter(Step(rate, s, e), Next(rate, r, es[0]), id)
  {
  }

  lemma OthersAreNoLoop(rate: nat, s: State, e: Event, r: Loops, id: nat)
    requires Enabled(s, e) && IsLimiter(s, r, id) && !e.LimiterTakes? && !e.LimiterResumes? && !e.LimiterFinishes?
    ensures var es := ToLoop(s, e, id);
            if es == [] then IsLimiter(Step(rate, s, e), r, id)
            else Can(r, es[0]) && IsLimiter(Step(rate, s, e), Next(rate, r, es[0]), if e.Restart? then r.started else id)
  {
  }

  /** Every step of a queue that is only started once both its loops had ended is a step of these loops. */
  lemma QueueIsLoops(rate: nat, s: State, e: Event, r: Loops, id: nat)
    requires Spaced(rate, s) && Enabled(s, e) && IsLimiter(s, r, id)
    ensures var es := ToLoop(s, e, id);
            if es == [] then IsLimiter(Step(rate, s, e), r, id)
            else Can(r, es[0]) && IsLimiter(Step(rate, s, e), Next(rate, r, es[0]), if e.Restart? then r.started else id)
  {
    if e.LimiterTakes? || e.LimiterResumes? || e.LimiterFinishes? {
      LimiterIsLoop(rate, s, e, r, id);
    } else {
      OthersAreNoLoop(rate, s, e, r, id);
    }
  }

  /** A queue that has just been started for the first time. */
  function FirstStart(): (r: Loops)
    ensures Known(r)
  {
    Loops([], map[0 := AtGet], 1, [], None, 0.0, [])
  }

  /** The loops that a run of the queue leaves, of which the last is its limiter. */
  lemma {:induction false} RunIsLoops(rate: nat, s: State, run: seq<Event>, r: Loops, id: nat) returns (events: seq<LoopEvent>, last: nat)
    requires Legal(rate, s, run) && Invariant(rate, s) && IsLimiter(s, r, id)
    ensures Possible(rate, r, events) && IsLimiter(Exec(rate, s, run), After(rate, r, events), last)
    decreases |run|
  {
    if run == [] {
      events, last := [], id;
    } else {
      var e := run[0];
      StepKeeps(rate, s, e);
      QueueIsLoops(rate, s, e, r, id);
      var es := ToLoop(s, e, id);
      if es == [] {
        events, last := RunIsLoops(rate, Step(rate, s, e), run[1..], r, id);
      } else {
        var rest;
        rest, last := RunIsLoops(rate, Step(rate, s, e), run[1..], Next(rate, r, es[0]), if e.Restart? then r.started else id);
        events := [es[0]] + rest;
        assert events[1..] == rest;
      }
    }
  }

  lemma {:induction false} DeadMeansCancelled(rate: nat, s: State, run: seq<Event>)
    requires Legal(rate, s, run)
    requires s.limiter.Died? ==> s.rateLimiter.Some? && s.rateLimiter.value.cancelled
    ensures var end := Exec(rate, s, run); end.limiter.Died? ==> end.rateLimiter.Some? && end.rateLimiter.value.cancelled
    decreases |run|
  {
    if run != [] {
      DeadMeansCancelled(rate, Step(rate, s, run[0]), run[1..]);
    }
  }

  /**
   Once the limiter of a queue has died no limited telegram is ever sent again, in whatever
   states and how often start() is called from then on.
   */
  lemma NoLimitedSendAfterDeath(rate: nat, run: seq<Event>) returns (events: seq<LoopEvent>, last: nat)
    requires Legal(rate, Init(), run) && Exec(rate, Init(), run).limiter.Died?
    ensures Possible(rate, FirstStart(), events)
    ensures IsLimiter(Exec(rate, Init(), run), After(rate, FirstStart(), events), last)
    ensures NeverSendsLimited(rate, After(rate, FirstStart(), events))
  {
    InitHolds(rate);
    events, last := RunIsLoops(rate, Init(), run, FirstStart(), 0);
    DeadMeansCancelled(rate, Init(), run);
    NeverSendsLimitedIff(rate, After(rate, FirstStart(), events));
  }

  // -------------------------------------------------- why one start at a time

  predicate Live(loop: Loop) {
    !loop.HasExited? && !loop.HasDied?
  }

  /** A start() beside a loop that has not ended. */
  predicate Overlaps(s: Loops, e: LoopEvent) {
    e.Starts? && exists id :: id in s.loops && Live(s.loops[id])
  }

  predicate NeverOverlaps(rate: nat, s: Loops, run: seq<LoopEvent>)
    requires Known(s) && Possible(rate, s, run)
    decreases |run|
  {
    run == [] || (!Overlaps(s, run[0]) && NeverOverlaps(rate, Next(rate, s, run[0]), run[1..]))
  }

  /** Consecutive limited sends are at least one interval apart. */
  predicate KeepsInterval(rate: nat, sends: seq<real>) {
    rate > 0 ==> forall i :: 0 <= i < |sends| - 1 ==> sends[i + 1] - sends[i] >= 1.0 / rate as real
  }

  /** The field holds the sleep of the last limited send. */
  predicate FieldIsLast(rate: nat, s: Loops)
    requires Known(s)
  {
    && (s.field.None? <==> s.limitedSends == [])
    && (s.field.Some? ==> s.sleeps[s.field.value].until == s.limitedSends[|s.limitedSends| - 1] + Interval(rate))
  }

  /** At most one loop lives, and the sleep that it may await is the one in the field. */
  predicate OneLoop(s: Loops) {
    && (forall a, b :: a in s.loops && b in s.loops && Live(s.loops[a]) && Live(s.loops[b]) ==> a == b)
    && (forall id :: id in s.loops && s.loops[id].AtSleep? ==> s.field == Some(s.loops[id].sleep))
  }

  lemma SendAppended(rate: nat, sends: seq<real>, now: real)
    requires KeepsInterval(rate, sends) && (sends != [] ==> now - sends[|sends| - 1] >= Interval(rate))
    ensures KeepsInterval(rate, sends + [now])
  {
  }

  lemma FieldStaysLast(rate: nat, s: Loops, e: LoopEvent)
    requires Known(s) && Can(s, e) && FieldIsLast(rate, s)
    ensures FieldIsLast(rate, Next(rate, s, e))
  {
  }

  lemma OneLoopStays(rate: nat, s: Loops, e: LoopEvent)
    requires Known(s) && Can(s, e) && OneLoop(s) && !Overlaps(s, e)
    ensures OneLoop(Next(rate, s, e))
  {
  }

  lemma OneLoopKeepsInterval(rate: nat, s: Loops, e: LoopEvent)
    requires Known(s) && Can(s, e) && FieldIsLast(rate, s) && OneLoop(s) && KeepsInterval(rate, s.limitedSends)
    ensures KeepsInterval(rate, Next(rate, s, e).limitedSends)
  {
    if s.limitedSends == [] || e.Resumes? {
      SendAppended(rate, s.limitedSends, s.now);
    }
  }

  lemma {:induction false} OneLoopKeepsRate(rate: nat, s: Loops, run: seq<LoopEvent>)
    requires Known(s) && Possible(rate, s, run) && NeverOverlaps(rate, s, run)
    requires FieldIsLast(rate, s) && OneLoop(s) && KeepsInterval(rate, s.limitedSends)
    ensures KeepsInterval(rate, After(rate, s, run).limitedSends)
    decreases |run|
  {
    if run != [] {
      FieldStaysLast(rate, s, run[0]);
      OneLoopStays(rate, s, run[0]);
      OneLoopKeepsInterval(rate, s, run[0]);
      OneLoopKeepsRate(rate, Next(rate, s, run[0]), run[1..]);
    }
  }

  lemma NothingLimited(rate: nat, s: Loops, e: LoopEvent)
    requires rate == 0 && Known(s) && Can(s, e) && s.limitedSends == [] && forall id :: id in s.loops ==> !s.loops[id].AtSleep?
    ensures var s' := Next(rate, s, e); s'.limitedSends == [] && forall id :: id in s'.loops ==> !s'.loops[id].AtSleep?
  {
  }

  lemma {:induction false} NothingIsLimited(rate: nat, s: Loops, run: seq<LoopEvent>)
    requires rate == 0 && Known(s) && Possible(rate, s, run) && s.limitedSends == []
    requires forall id :: id in s.loops ==> !s.loops[id].AtSleep?
    ensures After(rate, s, run).limitedSends == []
    decreases |run|
  {
    if run != [] {
      NothingLimited(rate, s, run[0]);
      NothingIsLimited(rate, Next(rate, s, run[0]), run[1..]);
    }
  }

  lemma ThenLoops(rate: nat, run: seq<LoopEvent>, s: Loops, e: LoopEvent) returns (longer: seq<LoopEvent>, s': Loops)
    requires Possible(rate, FirstStart(), run) && After(rate, FirstStart(), run) == s && Can(s, e)
    ensures Possible(rate, FirstStart(), longer) && After(rate, FirstStart(), longer) == s' == Next(rate, s, e)
  {
    AfterAppend(rate, FirstStart(), run, e);
    longer, s' := run + [e], Next(rate, s, e);
  }

  lemma {:induction false} AfterAppend(rate: nat, s: Loops, run: seq<LoopEvent>, e: LoopEvent)
    requires Known(s) && Possible(rate, s, run) && Can(After(rate, s, run), e)
    ensures Possible(rate, s, run + [e]) && After(rate, s, run + [e]) == Next(rate, After(rate, s, run), e)
    decreases |run|
  {
    if run == [] {
      assert [] + [e] == [e] && [e][1..] == [];
    } else {
      assert (run + [e])[1..] == run[1..] + [e];
      AfterAppend(rate, Next(rate, s, run[0]), run[1..], e);
    }
  }

  /** Two loops that await one sleep both send when it is over. */
  lemma SharedSleep(rate: nat, run: seq<LoopEvent>, s: Loops, a: nat, b: nat) returns (longer: seq<LoopEvent>, s': Loops)
    requires Possible(rate, FirstStart(), run) && After(rate, FirstStart(), run) == s
    requires a != b && AwaitsOlder(s, a) && AwaitsOlder(s, b) && s.loops[a].sleep == s.loops[b].sleep
    ensures Possible(rate, FirstStart(), longer) && After(rate, FirstStart(), longer) == s'
    ensures exists t: real :: s'.limitedSends == s.limitedSends + [t] + [t]
  {
    var until := s.sleeps[s.loops[a].sleep].until;
    longer, s' := ThenLoops(rate, run, s, Passes(if until > s.now then until - s.now else 0.0));
    longer, s' := ThenLoops(rate, longer, s', Resumes(a));
    longer, s' := ThenLoops(rate, longer, s', Resumes(b));
  }

  /** A second start() beside a running loop breaks the rate limit: two limited telegrams are sent in one instant. */
  lemma TwoLoopsSendAtOnce(rate: nat) returns (run: seq<LoopEvent>, s: Loops)
    requires rate > 0
    ensures Possible(rate, FirstStart(), run) && After(rate, FirstStart(), run) == s
    ensures exists t: real :: s.limitedSends == [0.0] + [t] + [t]
  {
    run, s := [], FirstStart();
    run, s := ThenLoops(rate, run, s, Starts);
    run, s := ThenLoops(rate, run, s, Fed(Item(Telegram(0, true, false))));
    run, s := ThenLoops(rate, run, s, Takes(0));
    run, s := ThenLoops(rate, run, s, Finishes(0));
    run, s := ThenLoops(rate, run, s, Fed(Item(Telegram(1, true, false))));
    run, s := ThenLoops(rate, run, s, Takes(0));
    run, s := ThenLoops(rate, run, s, Fed(Item(Telegram(2, true, false))));
    run, s := ThenLoops(rate, run, s, Takes(1));
    run, s := SharedSleep(rate, run, s, 0, 1);
  }

  ghost predicate AlwaysKeepsInterval(rate: nat, overlapping: bool) {
    forall run ::
      Possible(rate, FirstStart(), run) && (overlapping || NeverOverlaps(rate, FirstStart(), run)) ==>
        KeepsInterval(rate, After(rate, FirstStart(), run).limitedSends)
  }

  /**
   However often the queue is started and stopped and whatever is put, limited telegrams go out
   at least one interval apart on all runs exactly when there is no rate limit, or when no
   start() comes while a loop of an earlier one is alive.
   */
  lemma AlwaysKeepsIntervalIff(rate: nat, overlapping: bool)
    ensures AlwaysKeepsInterval(rate, overlapping) <==> rate == 0 || !overlapping
  {
    if rate == 0 {
      forall run | Possible(rate, FirstStart(), run) ensures KeepsInterval(rate, After(rate, FirstStart(), run).limitedSends) {
        NothingIsLimited(rate, FirstStart(), run);
      }
    } else if !overlapping {
      forall run | Possible(rate, FirstStart(), run) && NeverOverlaps(rate, FirstStart(), run)
        ensures KeepsInterval(rate, After(rate, FirstStart(), run).limitedSends)
      {
        OneLoopKeepsRate(rate, FirstStart(), run);
      }
    } else {
      var run, s := TwoLoopsSendAtOnce(rate);
      PositiveInterval(rate);
      assert s.limitedSends[1 + 1] - s.limitedSends[1] == 0.0;
    }
  }

  // ------------------------------------------------------------------ the object

  /** The rate limiter of a queue with all its loops, one method for each piece of a loop between two awaits. */
  class RateLimiters {
    const rateLimit: nat
    var outgoingQueue: seq<Item>
    /** Where each loop stands, by the order in which they were started. */
    var loops: map<nat, Loop>
    var started: nat
    /** The tasks asyncio.create_task(asyncio.sleep(...)) has made, and the clock. */
    var sleeps: seq<Sleep>
    var rateLimiter: Option<nat>
    var now: real
    ghost var limitedSends: seq<real>

    ghost function View(): Loops
      reads this
    {
      Loops(outgoingQueue, loops, started, sleeps, rateLimiter, now, limitedSends)
    }

    constructor (rateLimit: nat)
      ensures View() == FirstStart() && this.rateLimit == rateLimit
    {
      this.rateLimit := rateLimit;
      outgoingQueue, loops, started, sleeps := [], map[0 := AtGet], 1, [];
      rateLimiter, now, limitedSends := None, 0.0, [];
    }

    /** start(), in any state: it checks nothing. */
    method StartQueue()
      requires Known(View())
      modifies this
      ensures View() == Next(rateLimit, old(View()), Starts)
    {
      loops, started := loops[started := AtGet], started + 1;
    }

    /** From the return of get() to the next await. */
    method LoopGets(id: nat)
      requires Known(View()) && Can(View(), Takes(id))
      modifies this
      ensures View() == Next(rateLimit, old(View()), Takes(id))
    {
      var item := outgoingQueue[0];
      outgoingQueue := outgoingQueue[1..];
      if item.Sentinel? {
        if rateLimiter.Some? {
          var sleep := sleeps[rateLimiter.value];
          sleeps := sleeps[rateLimiter.value := sleep.(cancelled := sleep.cancelled || now < sleep.until)];
        }
        loops := loops[id := HasExited];
        return;
      }
      if rateLimit != 0 && !item.telegram.internal {
        if rateLimiter.Some? {
          loops := loops[id := if sleeps[rateLimiter.value].cancelled then HasDied else AtSleep(item.telegram, rateLimiter.value)];
          return;
        }
        CreateSleep();
      }
      loops := loops[id := AtSend(item.telegram)];
    }

    /** A new sleep of one interval in the field. */
    method CreateSleep()
      modifies this`sleeps, this`rateLimiter, this`limitedSends
      ensures sleeps == old(sleeps) + [Sleep(now + Interval(rateLimit), false)] && rateLimiter == Some(|old(sleeps)|)
      ensures limitedSends == old(limitedSends) + [now]
    {
      rateLimiter := Some(|sleeps|);
      sleeps := sleeps + [Sleep(now + Interval(rateLimit), false)];
      limitedSends := limitedSends + [now];
    }

    /** The awaited sleep is over. */
    method LoopWakes(id: nat)
      requires Known(View()) && Can(View(), Resumes(id))
      modifies this
      ensures View() == Next(rateLimit, old(View()), Resumes(id))
    {
      CreateSleep();
      loops := loops[id := AtSend(loops[id].telegram)];
    }

    /** The awaited sleep was cancelled. */
    method LoopIsCancelled(id: nat)
      requires Known(View()) && Can(View(), Dies(id))
      modifies this
      ensures View() == Next(rateLimit, old(View()), Dies(id))
    {
      loops := loops[id := HasDied];
    }

    /** Both task_done() calls, and back to get(). */
    method LoopOutgoingDone(id: nat)
      requires Known(View()) && Can(View(), Finishes(id))
      modifies this
      ensures View() == Next(rateLimit, old(View()), Finishes(id))
    {
      loops := loops[id := AtGet];
    }
  }
}
