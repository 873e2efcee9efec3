/**
 TelegramQueue: the consumer of xknx.telegrams and the outgoing rate limiter, two endless loops
 that interleave at their awaits with everybody who puts telegrams. One event is one piece of
 code between two awaits. Times are in seconds.
 */
module TelegramQueue {
  import opened Bytes

  /** `id` is the place of the telegram among all telegrams put. */
  datatype Telegram = Telegram(id: nat, outgoing: bool, internal: bool)

  /** What the queues hold: `Sentinel` is None. */
  datatype Item = Sentinel | Item(telegram: Telegram)

  datatype Consumer = Getting | Incoming(telegram: Telegram) | Joining | Ended

  datatype Limiter = Idle | AwaitingSleep(telegram: Telegram) | Sending(telegram: Telegram) | Exited | Died(telegram: Telegram)

  /** The task in _rate_limiter. */
  datatype Sleep = Sleep(until: real, cancelled: bool)

  datatype Outcome = Processed | RaisedCommunicationError | RaisedXknxException | RaisedOther

  datatype State = State(
    telegrams: seq<Item>,
    unfinished: int,
    outgoing: seq<Item>,
    outgoingUnfinished: int,
    consumer: Consumer,
    limiter: Limiter,
    rateLimiter: Option<Sleep>,
    now: real,
    /** Histories: telegrams put, how many before each stop(), sentinels the consumer took, telegrams finished. */
    put: seq<Telegram>,
    stops: seq<nat>,
    ends: nat,
    finishedIncoming: seq<Telegram>,
    finishedOutgoing: seq<Telegram>,
    /** Times of limited sends, and of the limiter's first exit since the last of them. */
    starts: seq<real>,
    firstExit: Option<real>)

  function Init(): State {
    State([], 0, [], 0, Getting, Idle, None, 0.0, [], [], 0, [], [], [], None)
  }

  datatype Event =
    | Put(outgoing: bool, internal: bool)
    | Stop
    | Tick(dt: real)
    | ConsumerTakes
    | ConsumerFinishes(outcome: Outcome)
    | ConsumerJoined
    | LimiterTakes
    | LimiterResumes
    | LimiterFinishes(outcome: Outcome)
      /** start() once both loops have ended: new tasks, the same fields. */
    | Restart

  predicate Enabled(s: State, e: Event) {
    match e
    case Put(_, _) => true
    case Stop => true
    case Tick(dt) => dt >= 0.0
    case ConsumerTakes => s.consumer.Getting? && s.telegrams != []
    case ConsumerFinishes(_) => s.consumer.Incoming?
    case ConsumerJoined => s.consumer.Joining? && s.outgoingUnfinished == 0
    case LimiterTakes => s.limiter.Idle? && s.outgoing != []
    case LimiterResumes => s.limiter.AwaitingSleep? && (s.rateLimiter.Some? ==> s.now >= s.rateLimiter.value.until)
    case LimiterFinishes(_) => s.limiter.Sending?
    case Restart => s.consumer.Ended? && s.limiter.Exited?
  }

  /** A rate limit is a number of telegrams per second; 0 switches it off. */
  function Interval(rate: nat): real {
    if rate == 0 then 0.0 else 1.0 / rate as real
  }

  predicate Limited(rate: nat, t: Telegram) {
    rate != 0 && !t.internal
  }

  /** The limiter passes the rate limit and starts to send. */
  function StartLimited(rate: nat, s: State, t: Telegram): State {
    s.(limiter := Sending(t), rateLimiter := Some(Sleep(s.now + Interval(rate), false)), starts := s.starts + [s.now],
       firstExit := None)
  }

  /** cancel() on the sleep: without effect once it is over. */
  function Cancel(sleep: Sleep, now: real): Sleep {
    sleep.(cancelled := sleep.cancelled || now < sleep.until)
  }

  function LimiterTake(rate: nat, s: State): State
    requires s.outgoing != []
  {
    var taken := s.(outgoing := s.outgoing[1..]);
    match s.outgoing[0]
    case Sentinel =>
      taken.(outgoingUnfinished := s.outgoingUnfinished - 1, limiter := Exited,
             firstExit := if s.firstExit.None? then Some(s.now) else s.firstExit,
             rateLimiter := if s.rateLimiter.Some? then Some(Cancel(s.rateLimiter.value, s.now)) else None)
    case Item(t) =>
      if !Limited(rate, t) then taken.(limiter := Sending(t))
      else if s.rateLimiter.None? then StartLimited(rate, taken, t)
      else if s.rateLimiter.value.cancelled then taken.(limiter := Died(t))
      else taken.(limiter := AwaitingSleep(t))
  }

  function ConsumerTake(s: State): State
    requires s.telegrams != []
  {
    var taken := s.(telegrams := s.telegrams[1..]);
    match s.telegrams[0]
    case Sentinel =>
      taken.(outgoing := s.outgoing + [Sentinel], outgoingUnfinished := s.outgoingUnfinished + 1, consumer := Joining,
             ends := s.ends + 1)
    case Item(t) =>
      if !t.outgoing then taken.(consumer := Incoming(t))
      else taken.(outgoing := s.outgoing + [Item(t)], outgoingUnfinished := s.outgoingUnfinished + 1)
  }

  function Step(rate: nat, s: State, e: Event): State
    requires Enabled(s, e)
  {
    match e
    case Put(outgoing, internal) =>
      var t := Telegram(|s.put|, outgoing, internal);
      s.(telegrams := s.telegrams + [Item(t)], unfinished := s.unfinished + 1, put := s.put + [t])
    case Stop =>
      s.(telegrams := s.telegrams + [Sentinel], unfinished := s.unfinished + 1, stops := s.stops + [|s.put|])
    case Tick(dt) => s.(now := s.now + dt)
    case ConsumerTakes => ConsumerTake(s)
    case ConsumerFinishes(_) =>
      s.(consumer := Getting, unfinished := s.unfinished - 1, finishedIncoming := s.finishedIncoming + [s.consumer.telegram])
    case ConsumerJoined => s.(consumer := Ended, unfinished := s.unfinished - 1)
    case LimiterTakes => LimiterTake(rate, s)
    case LimiterResumes => StartLimited(rate, s, s.limiter.telegram)
    case LimiterFinishes(_) =>
      s.(limiter := Idle, outgoingUnfinished := s.outgoingUnfinished - 1, unfinished := s.unfinished - 1,
         finishedOutgoing := s.finishedOutgoing + [s.limiter.telegram])
    case Restart => s.(consumer := Getting, limiter := Idle)
  }

  predicate Legal(rate: nat, s: State, run: seq<Event>)
    decreases |run|
  {
    run == [] || (Enabled(s, run[0]) && Legal(rate, Step(rate, s, run[0]), run[1..]))
  }

  function Exec(rate: nat, s: State, run: seq<Event>): State
    requires Legal(rate, s, run)
    decreases |run|
  {
    if run == [] then s else Exec(rate, Step(rate, s, run[0]), run[1..])
  }

  // ---------------------------------------------------------------- conservation

  function Telegrams(items: seq<Item>): seq<Telegram> {
    if items == [] then []
    else (if items[0].Item? then [items[0].telegram] else []) + Telegrams(items[1..])
  }

  /** How many telegrams have been put before each sentinel, `base` of them before the first item. */
  function Positions(items: seq<Item>, base: nat): seq<nat>
    decreases |items|
  {
    if items == [] then []
    else if items[0].Sentinel? then [base] + Positions(items[1..], base)
    else Positions(items[1..], base + 1)
  }

  function Direction(ts: seq<Telegram>, outgoing: bool): seq<Telegram> {
    if ts == [] then []
    else (if ts[0].outgoing == outgoing then [ts[0]] else []) + Direction(ts[1..], outgoing)
  }

  function HeldByConsumer(s: State): seq<Telegram> {
    if s.consumer.Incoming? then [s.consumer.telegram] else []
  }

  function HeldByLimiter(s: State): seq<Telegram> {
    if s.limiter.AwaitingSleep? || s.limiter.Sending? || s.limiter.Died? then [s.limiter.telegram] else []
  }

  /** Outgoing telegrams from the first put on: finished, with the limiter, in its queue. */
  function PastConsumer(s: State): seq<Telegram> {
    s.finishedOutgoing + HeldByLimiter(s) + Telegrams(s.outgoing)
  }

  function Received(s: State): seq<Telegram> {
    s.finishedIncoming + HeldByConsumer(s)
  }

  /**
   Of the telegrams `all`, in each direction and in order, some are past or with the consumer and
   the rest is `waiting`.
   */
  predicate Accounts(s: State, all: seq<Telegram>, waiting: seq<Telegram>) {
    && Direction(all, true) == PastConsumer(s) + Direction(waiting, true)
    && Direction(all, false) == Received(s) + Direction(waiting, false)
  }

  /** Every telegram put is in one place, and in each direction the order is kept. */
  predicate Conserved(s: State) {
    Accounts(s, s.put, Telegrams(s.telegrams))
  }

  /** How many telegrams the consumer has taken. */
  function Taken(s: State): nat
    requires |Telegrams(s.telegrams)| <= |s.put|
  {
    |s.put| - |Telegrams(s.telegrams)|
  }

  /** The queue holds the telegrams put last, and its sentinels stand where stop() was called. */
  predicate Queued(s: State) {
    && |Telegrams(s.telegrams)| <= |s.put| && s.put[Taken(s)..] == Telegrams(s.telegrams)
    && s.ends <= |s.stops| && Positions(s.telegrams, Taken(s)) == s.stops[s.ends..]
    && (s.consumer.Joining? || s.consumer.Ended? ==> s.ends > 0 && s.stops[s.ends - 1] == Taken(s))
  }

  /** The two unfinished counts; a draining sentinel counts until both loops have seen it. */
  predicate Counted(s: State) {
    && s.outgoingUnfinished == |s.outgoing| + |HeldByLimiter(s)|
    && s.unfinished == |s.telegrams| + |HeldByConsumer(s)| + |Telegrams(s.outgoing)| + |HeldByLimiter(s)| + (if s.consumer.Joining? then 1 else 0)
  }

  predicate AllItems(items: seq<Item>) {
    forall i :: 0 <= i < |items| ==> items[i].Item?
  }

  /**
   The sentinel goes to the outgoing queue last, and only while the consumer awaits it; a dead
   limiter takes nothing any more.
   */
  predicate Sentinels(s: State) {
    if s.limiter.Died? then !s.consumer.Ended?
    else if s.limiter.Exited? then (s.consumer.Joining? || s.consumer.Ended?) && s.outgoing == []
    else if s.consumer.Joining? then s.outgoing != [] && s.outgoing[|s.outgoing| - 1].Sentinel? && AllItems(s.outgoing[..|s.outgoing| - 1])
    else !s.consumer.Ended? && AllItems(s.outgoing)
  }

  /** Limited sends start at least an interval apart, and the current sleep covers the last of them. */
  predicate Spaced(rate: nat, s: State) {
    && (forall i :: 0 <= i < |s.starts| - 1 ==> s.starts[i + 1] - s.starts[i] >= Interval(rate))
    && (s.rateLimiter.Some? <==> s.starts != [])
    && (s.rateLimiter.Some? ==> s.rateLimiter.value.until == s.starts[|s.starts| - 1] + Interval(rate))
    && (s.limiter.AwaitingSleep? ==>
          s.rateLimiter.Some? && !s.rateLimiter.value.cancelled && Limited(rate, s.limiter.telegram))
    && (s.firstExit.Some? ==> s.firstExit.value <= s.now)
    && (s.rateLimiter.Some? ==>
          (s.rateLimiter.value.cancelled <==> s.firstExit.Some? && s.firstExit.value < s.rateLimiter.value.until))
  }

  predicate Invariant(rate: nat, s: State) {
    Conserved(s) && Queued(s) && Counted(s) && Sentinels(s) && Spaced(rate, s)
  }

  // ------------------------------------------------------------ sequences of items

  lemma {:induction false} TelegramsAppend(items: seq<Item>, x: Item)
    ensures Telegrams(items + [x]) == Telegrams(items) + Telegrams([x])
    ensures |Telegrams(items)| <= |items|
  {
    if items == [] {
      assert [] + [x] == [x];
    } else {
      var all := items + [x];
      var first := if items[0].Item? then [items[0].telegram] else [];
      assert all[0] == items[0] && all[1..] == items[1..] + [x];
      TelegramsAppend(items[1..], x);
      assert Telegrams(all) == first + (Telegrams(items[1..]) + Telegrams([x]));
    }
  }

  lemma {:induction false} DirectionAppend(ts: seq<Telegram>, t: Telegram, outgoing: bool)
    ensures Direction(ts + [t], outgoing) == Direction(ts, outgoing) + (if t.outgoing == outgoing then [t] else [])
  {
    var last := if t.outgoing == outgoing then [t] else [];
    if ts == [] {
      assert [] + [t] == [t] && [t][1..] == [];
    } else {
      var first := if ts[0].outgoing == outgoing then [ts[0]] else [];
      assert (ts + [t])[0] == ts[0] && (ts + [t])[1..] == ts[1..] + [t];
      DirectionAppend(ts[1..], t, outgoing);
      assert first + (Direction(ts[1..], outgoing) + last) == (first + Direction(ts[1..], outgoing)) + last;
    }
  }

  lemma {:induction false} PositionsAppend(items: seq<Item>, x: Item, base: nat)
    ensures Positions(items + [x], base) ==
            Positions(items, base) + if x.Sentinel? then [base + |Telegrams(items)|] else []
    decreases |items|
  {
    var all := items + [x];
    var last := if x.Sentinel? then [base + |Telegrams(items)|] else [];
    if items == [] {
      assert all == [x] && all[1..] == [];
    } else {
      var rest := items[1..];
      assert all[0] == items[0] && all[1..] == rest + [x];
      if items[0].Sentinel? {
        assert Telegrams(items) == Telegrams(rest);
        PositionsAppend(rest, x, base);
        assert [base] + (Positions(rest, base) + last) == ([base] + Positions(rest, base)) + last;
      } else {
        assert |Telegrams(items)| == 1 + |Telegrams(rest)|;
        PositionsAppend(rest, x, base + 1);
      }
    }
  }

  lemma {:induction false} DirectionOfSum(a: seq<Telegram>, b: seq<Telegram>, outgoing: bool)
    ensures Direction(a + b, outgoing) == Direction(a, outgoing) + Direction(b, outgoing)
  {
    if a == [] {
      assert a + b == b;
    } else {
      var first := if a[0].outgoing == outgoing then [a[0]] else [];
      assert (a + b)[0] == a[0] && (a + b)[1..] == a[1..] + b;
      DirectionOfSum(a[1..], b, outgoing);
      assert first + (Direction(a[1..], outgoing) + Direction(b, outgoing)) == first + Direction(a[1..], outgoing) + Direction(b, outgoing);
    }
  }

  // ------------------------------------------------------------- the steps keep it

  lemma AccountsForOneMore(s: State, s': State, all: seq<Telegram>, waiting: seq<Telegram>, t: Telegram)
    requires Accounts(s, all, waiting)
    requires PastConsumer(s') == PastConsumer(s) && Received(s') == Received(s)
    ensures Accounts(s', all + [t], waiting + [t])
  {
    DirectionAppend(all, t, true);
    DirectionAppend(all, t, false);
    DirectionAppend(waiting, t, true);
    DirectionAppend(waiting, t, false);
    assert PastConsumer(s) + (Direction(waiting, true) + Direction([t], true)) == PastConsumer(s) + Direction(waiting, true) + Direction([t], true);
    assert Received(s) + (Direction(waiting, false) + Direction([t], false)) == Received(s) + Direction(waiting, false) + Direction([t], false);
  }

  lemma PutKeepsConservation(rate: nat, s: State, e: Event)
    requires Conserved(s) && (e.Put? || e.Stop?)
    ensures Conserved(Step(rate, s, e))
  {
    var s' := Step(rate, s, e);
    var x := s'.telegrams[|s.telegrams|];
    TelegramsAppend(s.telegrams, x);
    assert s'.telegrams == s.telegrams + [x];
    assert Telegrams([x]) == if x.Item? then [x.telegram] else [];
    assert PastConsumer(s') == PastConsumer(s) && Received(s') == Received(s);
    if e.Put? {
      AccountsForOneMore(s, s', s.put, Telegrams(s.telegrams), x.telegram);
    } else {
      assert Telegrams(s'.telegrams) == Telegrams(s.telegrams);
    }
  }

  lemma PutKeepsQueued(rate: nat, s: State, e: Event)
    requires Queued(s) && (e.Put? || e.Stop?)
    ensures Queued(Step(rate, s, e))
  {
    var s' := Step(rate, s, e);
    var x := s'.telegrams[|s.telegrams|];
    TelegramsAppend(s.telegrams, x);
    PositionsAppend(s.telegrams, x, Taken(s));
    assert s'.telegrams == s.telegrams + [x];
    assert Telegrams([x]) == if x.Item? then [x.telegram] else [];
    if e.Put? {
      assert s'.put[Taken(s)..] == s.put[Taken(s)..] + [x.telegram];
    } else {
      assert Telegrams(s'.telegrams) == Telegrams(s.telegrams);
      assert s'.stops[s.ends..] == s.stops[s.ends..] + [|s.put|];
    }
  }

  lemma ConsumerTakeKeepsQueued(s: State)
    requires Queued(s) && s.consumer.Getting? && s.telegrams != []
    ensures Queued(ConsumerTake(s))
  {
    var s' := ConsumerTake(s);
    if s.telegrams[0].Sentinel? {
      assert Telegrams(s'.telegrams) == Telegrams(s.telegrams);
      assert s.stops[s.ends..] == [Taken(s)] + Positions(s'.telegrams, Taken(s));
      assert s.stops[s.ends..][0] == s.stops[s.ends] && s.stops[s.ends..][1..] == s.stops[s.ends + 1..];
    } else {
      assert Telegrams(s.telegrams) == [s.telegrams[0].telegram] + Telegrams(s'.telegrams);
      assert s.put[Taken(s)..][1..] == s.put[Taken(s) + 1..];
    }
  }

  /** What the consumer takes moves on by one place. */
  lemma TakenTelegramMoves(s: State, all: seq<Telegram>, waiting: seq<Telegram>)
    requires s.consumer.Getting? && s.telegrams != [] && s.telegrams[0].Item?
    requires Accounts(s, all, [s.telegrams[0].telegram] + waiting)
    ensures Accounts(ConsumerTake(s), all, waiting)
  {
    var t := s.telegrams[0].telegram;
    TelegramsAppend(s.outgoing, s.telegrams[0]);
    assert ([t] + waiting)[1..] == waiting;
    assert Telegrams([s.telegrams[0]]) == [t];
    if t.outgoing {
      assert PastConsumer(ConsumerTake(s)) == PastConsumer(s) + [t];
    } else {
      assert Received(ConsumerTake(s)) == Received(s) + [t];
    }
  }

  lemma TakenSentinelMoves(s: State)
    requires s.consumer.Getting? && s.telegrams != [] && s.telegrams[0].Sentinel?
    ensures PastConsumer(ConsumerTake(s)) == PastConsumer(s) && Received(ConsumerTake(s)) == Received(s)
    ensures Telegrams(s.telegrams) == Telegrams(s.telegrams[1..])
  {
    TelegramsAppend(s.outgoing, Sentinel);
    assert Telegrams([Sentinel]) == [];
  }

  lemma ConsumerTakeKeepsConservation(s: State)
    requires Conserved(s) && s.consumer.Getting? && s.telegrams != []
    ensures Conserved(ConsumerTake(s))
  {
    if s.telegrams[0].Item? {
      TakenTelegramMoves(s, s.put, Telegrams(s.telegrams[1..]));
    } else {
      TakenSentinelMoves(s);
    }
  }

  lemma LimiterTakeMoves(rate: nat, s: State)
    requires s.limiter.Idle? && s.outgoing != []
    ensures PastConsumer(LimiterTake(rate, s)) == PastConsumer(s) && Received(LimiterTake(rate, s)) == Received(s)
  {
    var s' := LimiterTake(rate, s);
    assert HeldByLimiter(s) == [];
    assert HeldByLimiter(s') + Telegrams(s'.outgoing) == Telegrams(s.outgoing);
    assert PastConsumer(s') == s.finishedOutgoing + (HeldByLimiter(s') + Telegrams(s'.outgoing));
  }

  lemma FinishMoves(rate: nat, s: State, e: Event)
    requires Enabled(s, e) && (e.ConsumerFinishes? || e.LimiterFinishes?)
    ensures PastConsumer(Step(rate, s, e)) == PastConsumer(s) && Received(Step(rate, s, e)) == Received(s)
  {
  }

  lemma OtherStepMoves(rate: nat, s: State, e: Event)
    requires Enabled(s, e) && !e.Put? && !e.Stop? && !e.ConsumerTakes?
    ensures PastConsumer(Step(rate, s, e)) == PastConsumer(s) && Received(Step(rate, s, e)) == Received(s)
  {
    if e.LimiterTakes? {
      LimiterTakeMoves(rate, s);
    } else if e.ConsumerFinishes? || e.LimiterFinishes? {
      FinishMoves(rate, s, e);
    }
  }

  /** The other steps of the two loops only move telegrams within a direction. */
  lemma OtherStepKeepsConservation(rate: nat, s: State, e: Event)
    requires Conserved(s) && Queued(s) && Enabled(s, e)
    requires !e.Put? && !e.Stop? && !e.ConsumerTakes?
    ensures Conserved(Step(rate, s, e)) && Queued(Step(rate, s, e))
  {
    OtherStepMoves(rate, s, e);
    var s' := Step(rate, s, e);
    assert s'.put == s.put && s'.telegrams == s.telegrams && s'.stops == s.stops && s'.ends == s.ends;
    SameAccounts(s, s', s.put, Telegrams(s.telegrams));
    SameQueue(s, s');
  }

  lemma SameAccounts(s: State, s': State, all: seq<Telegram>, waiting: seq<Telegram>)
    requires Accounts(s, all, waiting) && PastConsumer(s') == PastConsumer(s) && Received(s') == Received(s)
    ensures Accounts(s', all, waiting)
  {
  }

  lemma SameQueue(s: State, s': State)
    requires Queued(s)
    requires s'.put == s.put && s'.telegrams == s.telegrams && s'.stops == s.stops && s'.ends == s.ends
    requires s'.consumer.Joining? || s'.consumer.Ended? ==> s.consumer.Joining? || s.consumer.Ended?
    ensures Queued(s')
  {
  }

  lemma StepKeepsCounts(rate: nat, s: State, e: Event)
    requires Counted(s) && Enabled(s, e)
    ensures Counted(Step(rate, s, e))
  {
    if e.ConsumerTakes? {
      TelegramsAppend(s.outgoing, s.telegrams[0]);
    }
  }

  lemma ConsumerTakeKeepsSentinels(s: State)
    requires Sentinels(s) && s.consumer.Getting? && s.telegrams != []
    ensures Sentinels(ConsumerTake(s))
  {
    assert s.telegrams == [s.telegrams[0]] + s.telegrams[1..];
    assert (s.outgoing + [Sentinel])[..|s.outgoing|] == s.outgoing;
  }

  lemma LimiterTakeKeepsSentinels(rate: nat, s: State)
    requires Sentinels(s) && Spaced(rate, s) && s.limiter.Idle? && s.outgoing != []
    ensures Sentinels(LimiterTake(rate, s))
  {
    var rest := s.outgoing[1..];
    if s.consumer.Joining? {
      if |s.outgoing| > 1 {
        assert s.outgoing[0] == s.outgoing[..|s.outgoing| - 1][0];
        assert rest[..|rest| - 1] == s.outgoing[..|s.outgoing| - 1][1..];
      }
    } else {
      assert s.outgoing[0].Item?;
    }
  }

  lemma StepKeepsSentinels(rate: nat, s: State, e: Event)
    requires Sentinels(s) && Counted(s) && Spaced(rate, s) && Enabled(s, e)
    ensures Sentinels(Step(rate, s, e))
  {
    if e.ConsumerTakes? {
      ConsumerTakeKeepsSentinels(s);
    } else if e.LimiterTakes? {
      LimiterTakeKeepsSentinels(rate, s);
    }
  }

  lemma StepKeepsSpacing(rate: nat, s: State, e: Event)
    requires Spaced(rate, s) && Enabled(s, e)
    ensures Spaced(rate, Step(rate, s, e))
  {
  }

  lemma StepKeeps(rate: nat, s: State, e: Event)
    requires Invariant(rate, s) && Enabled(s, e)
    ensures Invariant(rate, Step(rate, s, e))
  {
    StepKeepsCounts(rate, s, e);
    StepKeepsSentinels(rate, s, e);
    StepKeepsSpacing(rate, s, e);
    if e.Put? || e.Stop? {
      PutKeepsConservation(rate, s, e);
      PutKeepsQueued(rate, s, e);
    } else if e.ConsumerTakes? {
      ConsumerTakeKeepsConservation(s);
      ConsumerTakeKeepsQueued(s);
    } else {
      OtherStepKeepsConservation(rate, s, e);
    }
  }

  lemma {:induction false} RunKeeps(rate: nat, s: State, run: seq<Event>)
    requires Invariant(rate, s) && Legal(rate, s, run)
    ensures Invariant(rate, Exec(rate, s, run))
    decreases |run|
  {
    if run != [] {
      StepKeeps(rate, s, run[0]);
      RunKeeps(rate, Step(rate, s, run[0]), run[1..]);
    }
  }

  // ------------------------------------------------- each telegram once, in order

  predicate Numbered(put: seq<Telegram>) {
    forall i :: 0 <= i < |put| ==> put[i].id == i
  }

  predicate Increasing(ts: seq<Telegram>) {
    forall i, j :: 0 <= i < j < |ts| ==> ts[i].id < ts[j].id
  }

  lemma {:induction false} DirectionSelects(ts: seq<Telegram>, outgoing: bool)
    ensures forall t :: t in Direction(ts, outgoing) <==> t in ts && t.outgoing == outgoing
  {
    if ts != [] {
      DirectionSelects(ts[1..], outgoing);
      assert ts == [ts[0]] + ts[1..];
    }
  }

  lemma PrependIncreases(t: Telegram, rest: seq<Telegram>)
    requires Increasing(rest) && forall u :: u in rest ==> t.id < u.id
    ensures Increasing([t] + rest)
  {
    var all := [t] + rest;
    forall i, j | 0 <= i < j < |all| ensures all[i].id < all[j].id {
      assert all[j] == rest[j - 1];
    }
  }

  lemma {:induction false} DirectionIncreases(ts: seq<Telegram>, outgoing: bool)
    requires Increasing(ts)
    ensures Increasing(Direction(ts, outgoing))
  {
    if ts != [] {
      DirectionIncreases(ts[1..], outgoing);
      DirectionSelects(ts[1..], outgoing);
      if ts[0].outgoing == outgoing {
        PrependIncreases(ts[0], Direction(ts[1..], outgoing));
      } else {
        assert Direction(ts, outgoing) == Direction(ts[1..], outgoing);
      }
    }
  }

  lemma PartIncreases(whole: seq<Telegram>, first: seq<Telegram>, rest: seq<Telegram>)
    requires whole == first + rest && Increasing(whole)
    ensures first <= whole && Increasing(first)
  {
    assert forall i :: 0 <= i < |first| ==> first[i] == whole[i];
  }

  lemma FirstOfFour(whole: seq<Telegram>, a: seq<Telegram>, b: seq<Telegram>, c: seq<Telegram>, d: seq<Telegram>)
    requires whole == a + b + c + d && Increasing(whole)
    ensures a <= whole && Increasing(a)
  {
    PartIncreases(whole, a, b + c + d);
  }

  lemma FinishedIncrease(s: State)
    requires Conserved(s) && Numbered(s.put)
    ensures s.finishedOutgoing <= Direction(s.put, true) && Increasing(s.finishedOutgoing)
    ensures s.finishedIncoming <= Direction(s.put, false) && Increasing(s.finishedIncoming)
  {
    DirectionIncreases(s.put, true);
    DirectionIncreases(s.put, false);
    var waiting := Telegrams(s.telegrams);
    FirstOfFour(Direction(s.put, true), s.finishedOutgoing, HeldByLimiter(s), Telegrams(s.outgoing), Direction(waiting, true));
    FirstOfFour(Direction(s.put, false), s.finishedIncoming, HeldByConsumer(s), [], Direction(waiting, false));
  }

  lemma {:induction false} RunKeepsNumbers(rate: nat, s: State, run: seq<Event>)
    requires Numbered(s.put) && Legal(rate, s, run)
    ensures Numbered(Exec(rate, s, run).put)
    decreases |run|
  {
    if run != [] {
      assert Numbered(Step(rate, s, run[0]).put);
      RunKeepsNumbers(rate, Step(rate, s, run[0]), run[1..]);
    }
  }

  lemma InitHolds(rate: nat)
    ensures Invariant(rate, Init())
  {
  }

  /**
   On every run the finished telegrams of each direction are a duplicate-free prefix of those
   put, whatever their processing raised, and both counts are exact and never negative.
   */
  lemma FinishedOnceAndInOrder(rate: nat, run: seq<Event>)
    requires Legal(rate, Init(), run)
    ensures var s := Exec(rate, Init(), run);
            && s.finishedOutgoing <= Direction(s.put, true) && Increasing(s.finishedOutgoing)
            && s.finishedIncoming <= Direction(s.put, false) && Increasing(s.finishedIncoming)
            && s.unfinished >= 0 && s.outgoingUnfinished >= 0 && Counted(s) && Conserved(s)
  {
    InitHolds(rate);
    RunKeeps(rate, Init(), run);
    RunKeepsNumbers(rate, Init(), run);
    FinishedIncrease(Exec(rate, Init(), run));
  }

  // -------------------------------------------------------------------- shutdown

  /**
   Whenever the consumer has ended, exactly what was put before the stop() that ended it is
   finished, and the counts cover the rest, across any number of restarts.
   */
  lemma EndedMeansDrained(rate: nat, run: seq<Event>)
    requires Legal(rate, Init(), run) && Exec(rate, Init(), run).consumer.Ended?
    ensures var s := Exec(rate, Init(), run);
            && 0 < s.ends <= |s.stops| && s.stops[s.ends - 1] <= |s.put| && s.limiter.Exited?
            && s.finishedOutgoing == Direction(s.put[..s.stops[s.ends - 1]], true)
            && s.finishedIncoming == Direction(s.put[..s.stops[s.ends - 1]], false)
            && s.outgoingUnfinished == 0 && s.unfinished == |s.telegrams|
            && Telegrams(s.telegrams) == s.put[s.stops[s.ends - 1]..]
  {
    InitHolds(rate);
    RunKeeps(rate, Init(), run);
    EndedStateIsDrained(Exec(rate, Init(), run));
  }

  lemma SameSuffix(a: seq<Telegram>, b: seq<Telegram>, c: seq<Telegram>)
    requires a + c == b + c
    ensures a == b
  {
    assert |a| == |b|;
    forall i | 0 <= i < |a| ensures a[i] == b[i] {
      assert (a + c)[i] == a[i] && (b + c)[i] == b[i];
    }
  }

  lemma EndedStateIsDrained(s: State)
    requires Conserved(s) && Queued(s) && Counted(s) && Sentinels(s) && s.consumer.Ended?
    ensures s.limiter.Exited? && s.outgoingUnfinished == 0 && s.unfinished == |s.telegrams|
    ensures s.finishedOutgoing == Direction(s.put[..Taken(s)], true) && s.finishedIncoming == Direction(s.put[..Taken(s)], false)
  {
    var early, late := s.put[..Taken(s)], Telegrams(s.telegrams);
    assert s.put == early + late;
    assert s.outgoing == [] && HeldByLimiter(s) == [] && HeldByConsumer(s) == [];
    assert PastConsumer(s) == s.finishedOutgoing && Received(s) == s.finishedIncoming;
    DirectionOfSum(early, late, true);
    DirectionOfSum(early, late, false);
    SameSuffix(Direction(early, true), s.finishedOutgoing, Direction(late, true));
    SameSuffix(Direction(early, false), s.finishedIncoming, Direction(late, false));
  }

  /** Steps the two loops still take for what the consumer will take up to its sentinel. */
  function ConsumerWork(items: seq<Item>): nat {
    if items == [] then 0
    else if items[0].Sentinel? then 3
    else (if items[0].telegram.outgoing then 4 else 2) + ConsumerWork(items[1..])
  }

  function LimiterWork(items: seq<Item>): nat {
    if items == [] then 0 else (if items[0].Sentinel? then 1 else 3) + LimiterWork(items[1..])
  }

  function Measure(s: State): nat {
    (match s.consumer
     case Getting => ConsumerWork(s.telegrams)
     case Incoming(_) => 1 + ConsumerWork(s.telegrams)
     case Joining => 1
     case Ended => 0)
    + LimiterWork(s.outgoing)
    + (if s.limiter.AwaitingSleep? then 2 else if s.limiter.Sending? then 1 else 0)
  }

  predicate OfTasks(e: Event) {
    !e.Put? && !e.Stop? && !e.Tick? && !e.Restart?
  }

  lemma {:induction false} ConsumerWorkAppend(items: seq<Item>, x: Item)
    requires Sentinel in items
    ensures ConsumerWork(items + [x]) == ConsumerWork(items) >= 3
  {
    assert (items + [x])[0] == items[0];
    if items[0].Item? {
      assert (items + [x])[1..] == items[1..] + [x];
      ConsumerWorkAppend(items[1..], x);
    }
  }

  lemma {:induction false} LimiterWorkAppend(items: seq<Item>, x: Item)
    ensures LimiterWork(items + [x]) == LimiterWork(items) + (if x.Sentinel? then 1 else 3)
  {
    if items == [] {
      assert [] + [x] == [x];
    } else {
      assert (items + [x])[1..] == items[1..] + [x];
      LimiterWorkAppend(items[1..], x);
    }
  }

  /** stop() has been called and the consumer has not been started again since. */
  predicate Stopping(s: State) {
    s.consumer.Joining? || s.consumer.Ended? || Sentinel in s.telegrams
  }

  lemma StoppingStays(rate: nat, s: State, e: Event)
    requires Stopping(s) && Enabled(s, e) && !e.Restart?
    ensures Stopping(Step(rate, s, e))
  {
    if e.ConsumerTakes? {
      assert s.telegrams == [s.telegrams[0]] + s.telegrams[1..];
    } else if e.Put? || e.Stop? {
      assert forall x :: x in s.telegrams ==> x in Step(rate, s, e).telegrams;
    }
  }

  /** After stop() every step of the loops brings the end nearer, and nothing puts it off. */
  lemma ShutdownDecreases(rate: nat, s: State, e: Event)
    requires Invariant(rate, s) && Stopping(s) && Enabled(s, e) && !e.Restart?
    ensures OfTasks(e) ==> Measure(Step(rate, s, e)) < Measure(s)
    ensures !OfTasks(e) ==> Measure(Step(rate, s, e)) == Measure(s)
  {
    if e.Put? || e.Stop? {
      if s.consumer.Getting? || s.consumer.Incoming? {
        ConsumerWorkAppend(s.telegrams, Step(rate, s, e).telegrams[|s.telegrams|]);
      }
    } else if e.ConsumerTakes? {
      LimiterWorkAppend(s.outgoing, s.telegrams[0]);
    }
  }

  /**
   Until both loops have ended one of them can step, if need be after the sleep of the rate
   limiter, unless the limiter has died.
   */
  lemma ShutdownProgresses(rate: nat, s: State) returns (dt: real, e: Event)
    requires Invariant(rate, s) && Stopping(s) && !s.limiter.Died? && !(s.consumer.Ended? && s.limiter.Exited?)
    ensures dt >= 0.0 && OfTasks(e) && Enabled(Step(rate, s, Tick(dt)), e)
  {
    dt := 0.0;
    if s.limiter.AwaitingSleep? {
      dt := if s.rateLimiter.value.until > s.now then s.rateLimiter.value.until - s.now else 0.0;
      e := LimiterResumes;
    } else if s.limiter.Sending? {
      e := LimiterFinishes(Processed);
    } else if s.limiter.Idle? && s.outgoing != [] {
      e := LimiterTakes;
    } else if s.consumer.Getting? {
      e := ConsumerTakes;
    } else if s.consumer.Incoming? {
      e := ConsumerFinishes(Processed);
    } else {
      e := ConsumerJoined;
    }
  }

  function TaskSteps(run: seq<Event>): nat {
    if run == [] then 0 else (if OfTasks(run[0]) then 1 else 0) + TaskSteps(run[1..])
  }

  /**
   After stop(), until the next start, the loops take at most Measure(s) more steps, whatever is
   put meanwhile, and end with the last of them.
   */
  lemma {:induction false} ShutdownIsBounded(rate: nat, s: State, run: seq<Event>)
    requires Invariant(rate, s) && Stopping(s) && Legal(rate, s, run)
    requires forall i :: 0 <= i < |run| ==> !run[i].Restart?
    ensures TaskSteps(run) + Measure(Exec(rate, s, run)) <= Measure(s)
    ensures var end := Exec(rate, s, run); end.consumer.Ended? && end.limiter.Exited? <==> Measure(end) == 0
    decreases |run|
  {
    if run == [] {
      if s.consumer.Getting? || s.consumer.Incoming? {
        ConsumerWorkAppend(s.telegrams, Sentinel);
      }
    } else {
      assert !run[0].Restart? && forall i :: 0 <= i < |run[1..]| ==> run[1..][i] == run[i + 1];
      ShutdownDecreases(rate, s, run[0]);
      StoppingStays(rate, s, run[0]);
      StepKeeps(rate, s, run[0]);
      ShutdownIsBounded(rate, Step(rate, s, run[0]), run[1..]);
    }
  }

  // ------------------------------------------------------------------ rate limit

  lemma {:induction false} StartsSpread(rate: nat, starts: seq<real>, i: nat, j: nat)
    requires forall k :: 0 <= k < |starts| - 1 ==> starts[k + 1] - starts[k] >= Interval(rate)
    requires i <= j < |starts|
    ensures starts[j] - starts[i] >= (j - i) as real * Interval(rate)
    decreases j - i
  {
    if i < j {
      StartsSpread(rate, starts, i, j - 1);
      assert starts[(j - 1) + 1] - starts[j - 1] >= Interval(rate);
    }
  }

  /** n intervals, in figures. */
  predicate Apart(earlier: real, later: real, n: nat, rate: nat) {
    if rate == 0 then later >= earlier else later - earlier >= n as real / rate as real
  }

  lemma ApartByIntervals(earlier: real, later: real, n: nat, rate: nat)
    requires later - earlier >= n as real * Interval(rate)
    ensures Apart(earlier, later, n, rate)
  {
  }

  lemma StartsAreApart(rate: nat, starts: seq<real>, i: nat, j: nat)
    requires forall k :: 0 <= k < |starts| - 1 ==> starts[k + 1] - starts[k] >= Interval(rate)
    requires i <= j < |starts|
    ensures Apart(starts[i], starts[j], j - i, rate)
  {
    StartsSpread(rate, starts, i, j);
    ApartByIntervals(starts[i], starts[j], j - i, rate);
  }

  /** On every run the j-th limited send starts at least (j - i) / rate_limit seconds after the i-th. */
  lemma SendsKeepTheRate(rate: nat, run: seq<Event>, i: nat, j: nat)
    requires Legal(rate, Init(), run)
    requires i <= j < |Exec(rate, Init(), run).starts|
    ensures var starts := Exec(rate, Init(), run).starts; Apart(starts[i], starts[j], j - i, rate)
  {
    InitHolds(rate);
    RunKeeps(rate, Init(), run);
    StartsAreApart(rate, Exec(rate, Init(), run).starts, i, j);
  }

  /**
   On every run: an internal telegram, and any without a rate limit, is sent as soon as it is
   taken and delays nothing. The first limited one is, too; every other one awaits a sleep that
   is over exactly one rate_limit-th of a second after the last limited send.
   */
  lemma LimiterFollowsRate(rate: nat, run: seq<Event>)
    requires Legal(rate, Init(), run)
    ensures var s := Exec(rate, Init(), run);
            && (Enabled(s, LimiterTakes) && s.outgoing[0].Item? ==>
                  var t, s' := s.outgoing[0].telegram, Step(rate, s, LimiterTakes);
                  && s'.outgoing == s.outgoing[1..]
                  && if t.internal || rate == 0 then s' == s.(limiter := Sending(t), outgoing := s'.outgoing)
                     else if s.starts == [] then s'.limiter == Sending(t) && s'.starts == [s.now]
                     else s'.starts == s.starts && (s'.limiter == AwaitingSleep(t) || s'.limiter == Died(t)))
            && (s.limiter.AwaitingSleep? ==>
                  && rate > 0 && !s.limiter.telegram.internal && s.starts != []
                  && (Enabled(s, LimiterResumes) <==> s.now >= s.starts[|s.starts| - 1] + 1.0 / rate as real)
                  && (Enabled(s, LimiterResumes) ==>
                        && Step(rate, s, LimiterResumes).limiter == Sending(s.limiter.telegram)
                        && Step(rate, s, LimiterResumes).starts == s.starts + [s.now]))
  {
    RunIsSpaced(rate, run);
  }

  // --------------------------------------------------------------------- restart

  /**
   stop() cancels the sleep of the rate limiter but keeps it in the field. After a restart the
   limiter awaits it: on every run, what it takes kills it exactly when the telegram is limited
   and the limiter had exited less than one interval after its last limited send.
   */
  lemma LimiterDiesIff(rate: nat, run: seq<Event>)
    requires Legal(rate, Init(), run) && Enabled(Exec(rate, Init(), run), LimiterTakes)
    requires Exec(rate, Init(), run).outgoing[0].Item?
    ensures var s := Exec(rate, Init(), run);
            Step(rate, s, LimiterTakes).limiter.Died? <==>
              && Limited(rate, s.outgoing[0].telegram) && s.starts != [] && s.firstExit.Some?
              && s.firstExit.value - s.starts[|s.starts| - 1] < Interval(rate)
  {
    RunIsSpaced(rate, run);
    TakeDiesIff(rate, Exec(rate, Init(), run));
  }

  lemma RunIsSpaced(rate: nat, run: seq<Event>)
    requires Legal(rate, Init(), run)
    ensures Spaced(rate, Exec(rate, Init(), run))
  {
    InitHolds(rate);
    RunKeeps(rate, Init(), run);
  }

  lemma TakeDiesIff(rate: nat, s: State)
    requires Spaced(rate, s) && Enabled(s, LimiterTakes) && s.outgoing[0].Item?
    ensures Step(rate, s, LimiterTakes).limiter.Died? <==>
              && Limited(rate, s.outgoing[0].telegram) && s.starts != [] && s.firstExit.Some?
              && s.firstExit.value - s.starts[|s.starts| - 1] < Interval(rate)
  {
  }

  /** A dead limiter sends and finishes nothing any more, and the consumer cannot end. */
  lemma {:induction false} DeadForever(rate: nat, s: State, more: seq<Event>)
    requires Counted(s) && s.limiter.Died? && !s.consumer.Ended? && Legal(rate, s, more)
    ensures var end := Exec(rate, s, more);
            && end.limiter == s.limiter && end.finishedOutgoing == s.finishedOutgoing && end.starts == s.starts
            && !end.consumer.Ended?
    decreases |more|
  {
    if more != [] {
      StepKeepsCounts(rate, s, more[0]);
      DeadForever(rate, Step(rate, s, more[0]), more[1..]);
    }
  }

  lemma {:induction false} ExecThen(rate: nat, s: State, run: seq<Event>, e: Event)
    requires Legal(rate, s, run) && Enabled(Exec(rate, s, run), e)
    ensures Legal(rate, s, run + [e]) && Exec(rate, s, run + [e]) == Step(rate, Exec(rate, s, run), e)
    decreases |run|
  {
    if run == [] {
      assert [] + [e] == [e] && [e][1..] == [];
    } else {
      assert (run + [e])[1..] == run[1..] + [e];
      ExecThen(rate, Step(rate, s, run[0]), run[1..], e);
    }
  }

  lemma Then(rate: nat, run: seq<Event>, s: State, e: Event) returns (longer: seq<Event>, s': State)
    requires Legal(rate, Init(), run) && Exec(rate, Init(), run) == s && Enabled(s, e)
    ensures Legal(rate, Init(), longer) && Exec(rate, Init(), longer) == s' == Step(rate, s, e)
  {
    ExecThen(rate, Init(), run, e);
    longer, s' := run + [e], Step(rate, s, e);
  }

  /**
   With any rate limit: one telegram sent, the queue stopped and started at once, and the next
   telegram kills the limiter.
   */
  lemma RestartKills(rate: nat) returns (run: seq<Event>, s: State)
    requires rate > 0
    ensures Legal(rate, Init(), run) && Exec(rate, Init(), run) == s && s.limiter.Died? && |s.put| == 2 && |s.finishedOutgoing| == 1
  {
    run, s := [], Init();
    run, s := Then(rate, run, s, Put(true, false));
    run, s := Then(rate, run, s, ConsumerTakes);
    run, s := Then(rate, run, s, LimiterTakes);
    run, s := Then(rate, run, s, LimiterFinishes(Processed));
    run, s := Then(rate, run, s, Stop);
    run, s := Then(rate, run, s, ConsumerTakes);
    run, s := Then(rate, run, s, LimiterTakes);
    assert s.rateLimiter.value.cancelled by {
      PositiveInterval(rate);
    }
    run, s := Then(rate, run, s, ConsumerJoined);
    run, s := Then(rate, run, s, Restart);
    run, s := Then(rate, run, s, Put(true, false));
    run, s := Then(rate, run, s, ConsumerTakes);
    run, s := Then(rate, run, s, LimiterTakes);
  }

  lemma PositiveInterval(rate: nat)
    requires rate > 0
    ensures Interval(rate) > 0.0
  {
  }

  // ------------------------------------------------------------------ the object

  /** Each method is one event; by RunKeeps, Invariant holds of View() after any number of them. */
  class TelegramQueue {
    const rateLimit: nat
    /** xknx.telegrams and the outgoing queue, with their unfinished counts. */
    var telegrams: seq<Item>
    var telegramsUnfinished: int
    var outgoingQueue: seq<Item>
    var outgoingUnfinished: int
    var rateLimiter: Option<Sleep>
    /** Where the two loops stand, and the clock. */
    var consumer: Consumer
    var limiter: Limiter
    var now: real
    ghost var put: seq<Telegram>
    ghost var stops: seq<nat>
    ghost var ends: nat
    ghost var finishedIncoming: seq<Telegram>
    ghost var finishedOutgoing: seq<Telegram>
    ghost var starts: seq<real>
    ghost var firstExit: Option<real>

    ghost function View(): State
      reads this
    {
      State(telegrams, telegramsUnfinished, outgoingQueue, outgoingUnfinished, consumer, limiter, rateLimiter, now,
            put, stops, ends, finishedIncoming, finishedOutgoing, starts, firstExit)
    }

    constructor (rateLimit: nat)
      ensures View() == Init() && this.rateLimit == rateLimit
    {
      this.rateLimit := rateLimit;
      telegrams, telegramsUnfinished, outgoingQueue, outgoingUnfinished := [], 0, [], 0;
      rateLimiter, consumer, limiter, now := None, Getting, Idle, 0.0;
      put, stops, ends, finishedIncoming, finishedOutgoing, starts, firstExit := [], [], 0, [], [], [], None;
    }

    /** xknx.telegrams.put */
    method PutTelegram(t: Telegram)
      requires t.id == |put|
      modifies this
      ensures View() == Step(rateLimit, old(View()), Put(t.outgoing, t.internal))
    {
      telegrams, telegramsUnfinished := telegrams + [Item(t)], telegramsUnfinished + 1;
      put := put + [t];
    }

    method StopQueue()
      modifies this
      ensures View() == Step(rateLimit, old(View()), Stop)
    {
      telegrams, telegramsUnfinished := telegrams + [Sentinel], telegramsUnfinished + 1;
      stops := stops + [|put|];
    }

    /** start() after the tasks of the last one have ended. */
    method StartQueue()
      requires Enabled(View(), Restart)
      modifies this
      ensures View() == Step(rateLimit, old(View()), Restart)
    {
      consumer, limiter := Getting, Idle;
    }

    /** _telegram_consumer from the return of get() to its next await. */
    method ConsumerGets()
      requires Enabled(View(), ConsumerTakes)
      modifies this
      ensures View() == Step(rateLimit, old(View()), ConsumerTakes)
    {
      var item := telegrams[0];
      telegrams := telegrams[1..];
      if item.Sentinel? {
        outgoingQueue, outgoingUnfinished := outgoingQueue + [Sentinel], outgoingUnfinished + 1;
        consumer := Joining;
        ends := ends + 1;
        return;
      }
      if !item.telegram.outgoing {
        consumer := Incoming(item.telegram);
      } else {
        outgoingQueue, outgoingUnfinished := outgoingQueue + [item], outgoingUnfinished + 1;
      }
    }

    /** The rest of an incoming telegram's turn: whatever was raised is logged, and task_done() is called. */
    method ConsumerIncomingDone(outcome: Outcome)
      requires Enabled(View(), ConsumerFinishes(outcome))
      modifies this
      ensures View() == Step(rateLimit, old(View()), ConsumerFinishes(outcome))
    {
      finishedIncoming := finishedIncoming + [consumer.telegram];
      telegramsUnfinished := telegramsUnfinished - 1;
      consumer := Getting;
    }

    /** join() on the outgoing queue returns. */
    method ConsumerJoins()
      requires Enabled(View(), ConsumerJoined)
      modifies this
      ensures View() == Step(rateLimit, old(View()), ConsumerJoined)
    {
      telegramsUnfinished := telegramsUnfinished - 1;
      consumer := Ended;
    }

    /** _outgoing_rate_limiter from the return of get() to its next await. */
    method LimiterGets()
      requires Enabled(View(), LimiterTakes)
      modifies this
      ensures View() == Step(rateLimit, old(View()), LimiterTakes)
    {
      var item := outgoingQueue[0];
      outgoingQueue := outgoingQueue[1..];
      if item.Sentinel? {
        outgoingUnfinished := outgoingUnfinished - 1;
        if rateLimiter.Some? {
          rateLimiter := Some(rateLimiter.value.(cancelled := rateLimiter.value.cancelled || now < rateLimiter.value.until));
        }
        limiter := Exited;
        firstExit := if firstExit.None? then Some(now) else firstExit;
        return;
      }
      if rateLimit != 0 && !item.telegram.internal {
        if rateLimiter.Some? {
          limiter := if rateLimiter.value.cancelled then Died(item.telegram) else AwaitingSleep(item.telegram);
          return;
        }
        rateLimiter := Some(Sleep(now + Interval(rateLimit), false));
        starts, firstExit := starts + [now], None;
      }
      limiter := Sending(item.telegram);
    }

    /** The awaited sleep is over. */
    method LimiterWakes()
      requires Enabled(View(), LimiterResumes)
      modifies this
      ensures View() == Step(rateLimit, old(View()), LimiterResumes)
    {
      rateLimiter := Some(Sleep(now + Interval(rateLimit), false));
      starts, firstExit := starts + [now], None;
      limiter := Sending(limiter.telegram);
    }

    /** The rest of an outgoing telegram's turn: both task_done() calls, whatever was raised. */
    method LimiterOutgoingDone(outcome: Outcome)
      requires Enabled(View(), LimiterFinishes(outcome))
      modifies this
      ensures View() == Step(rateLimit, old(View()), LimiterFinishes(outcome))
    {
      finishedOutgoing := finishedOutgoing + [limiter.telegram];
      outgoingUnfinished, telegramsUnfinished := outgoingUnfinished - 1, telegramsUnfinished - 1;
      limiter := Idle;
    }
  }
}
