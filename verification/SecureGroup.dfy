/**
 A group of devices that share one tick and exchange stamped frames over multicast.
 Every frame ever sent may be delivered at any time, any number of times, in any order, or
 never; frames that were not sent by the group fail their MAC check.
 */
module SecureGroup {
  import opened Bytes
  import opened SecureTimer

  /** `epoch` is what the device's monotonic clock is ahead of the group's common tick count. */
  datatype Device = Device(epoch: int, serial: Bytes, timer: Timer)

  datatype Kind = Notify | Wrapper

  /** A frame stamped with a timer value; sender and sentAt are history. */
  datatype Stamp = Stamp(kind: Kind, value: int, from: Update, sender: nat, sentAt: int)

  datatype Group = Group(now: int, devices: map<nat, Device>, sent: set<Stamp>, forwarded: seq<(nat, Stamp)>)

  datatype Event =
    | Tick(ticks: nat)
    | SendWrapper(i: nat, tag: Bytes, u: Fraction)
    | TimerExpires(i: nat, tag: Bytes, u: Fraction)
      /** A frame arrives; a wrapper whose content cannot be parsed is dropped after decryption. */
    | Receive(i: nat, m: Stamp, parses: bool, u: Fraction)
      /** A frame arrives that no member of the group made. */
    | ReceiveForged(i: nat, m: Stamp, u: Fraction)
    | StartSync(i: nat, tag: Bytes)
    | FinishSync(i: nat, u: Fraction)

  function Offset(d: Device): int {
    d.epoch + d.timer.clockDifference
  }

  /** The timer value that the device would stamp at tick count `now`. */
  function LocalValue(d: Device, now: int): int {
    now + Offset(d)
  }

  // ------------------------------------------------------------------ steps

  /** What one event does to the device it concerns. */
  datatype Effect = Effect(device: Device, sends: Option<Stamp>, forwards: bool)

  function Unchanged(d: Device): Effect {
    Effect(d, None, false)
  }

  /** SecureGroup.handle_knxipframe */
  function HandleFrame(d: Device, m: Stamp, genuine: bool, parses: bool, now: int, u: Fraction): Effect {
    match m.kind
    case Notify =>
      Effect(d.(timer := HandleNotify(d.timer, genuine, m.value, m.from, d.serial, now + d.epoch, u).0), None, false)
    case Wrapper =>
      if !d.timer.authenticated || !genuine || !parses then Unchanged(d)
      else
        var (timer, valid) := Validate(d.timer, m.value, m.from, now + d.epoch, u);
        Effect(d.(timer := timer), None, valid)
  }

  function StampNow(d: Device, kind: Kind, from: Update, sender: nat, now: int): Option<Stamp> {
    if Sendable(LocalValue(d, now)) then Some(Stamp(kind, LocalValue(d, now), from, sender, now)) else None
  }

  function DeviceStep(d: Device, now: int, e: Event): Effect
    requires !e.Tick?
    requires e.FinishSync? ==> d.timer.expected.Some?
  {
    var local := now + d.epoch;
    match e
    case SendWrapper(i, tag, u) =>
      Effect(d.(timer := RescheduleUnlessUpdate(d.timer, None, local, u)), StampNow(d, Wrapper, Update(tag, d.serial), i, now), false)
    case TimerExpires(i, tag, u) =>
      if !Sendable(LocalValue(d, now)) then Unchanged(d.(timer := d.timer.(notify := None)))
      else
        var from := if d.timer.notify.Some? && d.timer.notify.value.update.Some? then d.timer.notify.value.update.value
                    else Update(tag, d.serial);
        Effect(d.(timer := Expire(d.timer, local, u)), StampNow(d, Notify, from, i, now), false)
    case Receive(_, m, parses, u) => HandleFrame(d, m, true, parses, now, u)
    case ReceiveForged(_, m, u) => HandleFrame(d, m, false, true, now, u)
    case StartSync(i, tag) =>
      Effect(d.(timer := BeginSynchronize(d.timer, tag)), StampNow(d, Notify, Update(tag, d.serial), i, now), false)
    case FinishSync(_, u) =>
      if d.timer.expected.value.answer.Some?
      then Effect(d.(timer := SynchronizeAnswered(d.timer, local, u)), None, false)
      else Effect(d.(timer := SynchronizeTimedOut(d.timer, local, u)), None, false)
  }

  /** connect() runs synchronize once, before the timer is authenticated. */
  predicate Enabled(g: Group, e: Event) {
    if e.Tick? then true
    else
      && e.i in g.devices
      && var t := g.devices[e.i].timer;
         match e
         case TimerExpires(i, _, _) => t.notify.Some? && t.notify.value.due <= (g.now + g.devices[i].epoch) as real
         case Receive(_, m, _, _) => m in g.sent
         case StartSync(_, _) => !t.authenticated && t.expected.None?
         case FinishSync(_, _) => t.expected.Some?
         case _ => true
  }

  function Apply(g: Group, e: Event): Group
    requires Enabled(g, e)
  {
    if e.Tick? then g.(now := g.now + e.ticks)
    else
      var effect := DeviceStep(g.devices[e.i], g.now, e);
      Group(g.now,
            g.devices[e.i := effect.device],
            if effect.sends.Some? then g.sent + {effect.sends.value} else g.sent,
            if effect.forwards then g.forwarded + [(e.i, e.m)] else g.forwarded)
  }

  predicate Legal(g: Group, run: seq<Event>)
    decreases |run|
  {
    run == [] || (Enabled(g, run[0]) && Legal(Apply(g, run[0]), run[1..]))
  }

  function Exec(g: Group, run: seq<Event>): Group
    requires Legal(g, run)
    decreases |run|
  {
    if run == [] then g else Exec(Apply(g, run[0]), run[1..])
  }

  // ------------------------------------------------- the maximum is never raised

  /** A synchronization answer that has arrived but is not yet applied. */
  predicate AnswerWithin(d: Device, now: int, bound: int) {
    d.timer.expected.Some? && d.timer.expected.value.answer.Some? ==> d.timer.expected.value.answer.value - now <= bound
  }

  /** No device's offset, no stamp in flight and no pending answer lies above the bound. */
  ghost predicate Within(g: Group, bound: int) {
    && (forall i :: i in g.devices ==> Offset(g.devices[i]) <= bound && AnswerWithin(g.devices[i], g.now, bound))
    && (forall m :: m in g.sent ==> m.value - g.now <= bound)
  }

  lemma ReceiverStaysWithin(d: Device, m: Stamp, genuine: bool, parses: bool, now: int, u: Fraction, bound: int)
    requires Offset(d) <= bound && AnswerWithin(d, now, bound) && (genuine ==> m.value - now <= bound)
    ensures var effect := HandleFrame(d, m, genuine, parses, now, u);
            Offset(effect.device) <= bound && AnswerWithin(effect.device, now, bound) && effect.sends.None?
  {
  }

  lemma DeviceStaysWithin(d: Device, now: int, e: Event, bound: int)
    requires !e.Tick? && (e.FinishSync? ==> d.timer.expected.Some?)
    requires Offset(d) <= bound && AnswerWithin(d, now, bound)
    requires e.Receive? ==> e.m.value - now <= bound
    ensures var effect := DeviceStep(d, now, e);
            && Offset(effect.device) <= bound && AnswerWithin(effect.device, now, bound)
            && (effect.sends.Some? ==> effect.sends.value.value - now <= bound)
  {
    if e.Receive? {
      ReceiverStaysWithin(d, e.m, true, e.parses, now, e.u, bound);
    } else if e.ReceiveForged? {
      ReceiverStaysWithin(d, e.m, false, true, now, e.u, bound);
    }
  }

  lemma StepStaysWithin(g: Group, e: Event, bound: int)
    requires Enabled(g, e) && Within(g, bound)
    ensures Within(Apply(g, e), bound)
  {
    if e.Tick? {
      assert Within(Apply(g, e), bound);
    } else {
      DeviceStaysWithin(g.devices[e.i], g.now, e, bound);
    }
  }

  /** On every run the group's maximum clock offset, frames in flight included, is never raised. */
  lemma {:induction false} RunStaysWithin(g: Group, run: seq<Event>, bound: int)
    requires Legal(g, run) && Within(g, bound)
    ensures Within(Exec(g, run), bound)
    decreases |run|
  {
    if run != [] {
      StepStaysWithin(g, run[0], bound);
      RunStaysWithin(Apply(g, run[0]), run[1..], bound);
    }
  }

  // ------------------------------------------- authenticated devices move forward

  /** Connected devices have finished their one synchronization. */
  predicate Settled(d: Device) {
    d.timer.authenticated && d.timer.expected.None?
  }

  /** The only event that turns a device's timer back is an answer older than its timer. */
  lemma OffsetDecreasesIff(d: Device, now: int, e: Event)
    requires !e.Tick? && (e.FinishSync? ==> d.timer.expected.Some?)
    ensures Offset(DeviceStep(d, now, e).device) < Offset(d)
       <==> e.FinishSync? && d.timer.expected.value.answer.Some? && d.timer.expected.value.answer.value < LocalValue(d, now)
  {
  }

  lemma SettledStep(g: Group, e: Event, i: nat)
    requires Enabled(g, e) && i in g.devices && Settled(g.devices[i])
    ensures var g' := Apply(g, e);
            && i in g'.devices && Settled(g'.devices[i])
            && Offset(g'.devices[i]) >= Offset(g.devices[i]) && g'.now >= g.now
            && g'.devices[i].timer.latency == g.devices[i].timer.latency
  {
    if !e.Tick? && e.i == i {
      OffsetDecreasesIff(g.devices[i], g.now, e);
    }
  }

  /** On every run an authenticated device stays authenticated and its offset never decreases. */
  lemma {:induction false} SettledRun(g: Group, run: seq<Event>, i: nat)
    requires Legal(g, run) && i in g.devices && Settled(g.devices[i])
    ensures var g' := Exec(g, run);
            && i in g'.devices && Settled(g'.devices[i])
            && Offset(g'.devices[i]) >= Offset(g.devices[i]) && g'.now >= g.now
            && g'.devices[i].timer.latency == g.devices[i].timer.latency
    decreases |run|
  {
    if run != [] {
      SettledStep(g, run[0], i);
      SettledRun(Apply(g, run[0]), run[1..], i);
    }
  }

  // --------------------------------------------------------------- freshness

  /** A wrapper is forwarded exactly when its stamp exceeds the local timer minus the latency tolerance. */
  lemma ForwardedIff(d: Device, m: Stamp, now: int, u: Fraction)
    requires m.kind == Wrapper && d.timer.authenticated
    ensures HandleFrame(d, m, true, true, now, u).forwards <==> m.value > LocalValue(d, now) - d.timer.latency
  {
  }

  /** A wrapper once refused as too old is refused at every later time. */
  lemma RefusedForever(g: Group, run: seq<Event>, i: nat, m: Stamp, u: Fraction, later: Fraction)
    requires Legal(g, run) && i in g.devices && Settled(g.devices[i]) && m.kind == Wrapper
    requires !HandleFrame(g.devices[i], m, true, true, g.now, u).forwards
    ensures var g' := Exec(g, run);
            i in g'.devices && !HandleFrame(g'.devices[i], m, true, true, g'.now, later).forwards
  {
    SettledRun(g, run, i);
    ForwardedIff(g.devices[i], m, g.now, u);
    var g' := Exec(g, run);
    ForwardedIff(g'.devices[i], m, g'.now, later);
  }

  // ------------------------------------------------------------- convergence

  /** The frames that h sent from tick count `since` on carry its offset. */
  ghost predicate StampsCarry(g: Group, h: nat, since: int, offset: int) {
    forall m :: m in g.sent && m.sender == h && m.sentAt >= since ==> m.value - m.sentAt == offset && m.sentAt <= g.now
  }

  /** h is authenticated and holds the maximum offset of the group. */
  ghost predicate HoldsMaximum(g: Group, h: nat, maximum: int) {
    h in g.devices && Settled(g.devices[h]) && Offset(g.devices[h]) == maximum && Within(g, maximum)
  }

  lemma HolderStep(g: Group, e: Event, h: nat, since: int, maximum: int)
    requires Enabled(g, e) && HoldsMaximum(g, h, maximum) && StampsCarry(g, h, since, maximum)
    ensures HoldsMaximum(Apply(g, e), h, maximum) && StampsCarry(Apply(g, e), h, since, maximum)
  {
    StepStaysWithin(g, e, maximum);
    SettledStep(g, e, h);
    var g' := Apply(g, e);
    assert g'.now >= g.now;
    forall m | m in g'.sent && m.sender == h && m.sentAt >= since
      ensures m.value - m.sentAt == maximum && m.sentAt <= g'.now
    {
      if m !in g.sent {
        assert e.i == h;
      }
    }
  }

  lemma {:induction false} HolderRun(g: Group, run: seq<Event>, h: nat, since: int, maximum: int)
    requires Legal(g, run) && HoldsMaximum(g, h, maximum) && StampsCarry(g, h, since, maximum)
    ensures HoldsMaximum(Exec(g, run), h, maximum) && StampsCarry(Exec(g, run), h, since, maximum)
    decreases |run|
  {
    if run != [] {
      HolderStep(g, run[0], h, since, maximum);
      HolderRun(Apply(g, run[0]), run[1..], h, since, maximum);
    }
  }

  /** A frame that reaches a settled device pulls it up to the frame's stamp, aged by the time in flight. */
  lemma ReceiptPullsForward(d: Device, m: Stamp, now: int, parses: bool, u: Fraction)
    requires Settled(d) && (m.kind == Wrapper ==> parses)
    ensures var d' := HandleFrame(d, m, true, parses, now, u).device;
            Offset(d') == if m.value - now > Offset(d) then m.value - now else Offset(d)
  {
  }

  /**
   Convergence. While h holds the maximum, a settled device that receives, after delay d, a
   frame that h sent is within d of the maximum then and for the rest of the run, and the
   maximum itself does not move.
   */
  lemma GroupConverges(g: Group, before: seq<Event>, e: Event, after: seq<Event>, h: nat, maximum: int)
    requires HoldsMaximum(g, h, maximum) && (forall m :: m in g.sent ==> m.sentAt < g.now)
    requires Legal(g, before)
    requires e.Receive? && Enabled(Exec(g, before), e) && (e.m.kind == Wrapper ==> e.parses)
    requires e.m.sender == h && e.m.sentAt >= g.now
    requires Settled(Exec(g, before).devices[e.i])
    requires Legal(Apply(Exec(g, before), e), after)
    ensures var end := Exec(Apply(Exec(g, before), e), after);
            var delay := Exec(g, before).now - e.m.sentAt;
            && delay >= 0 && e.i in end.devices && h in end.devices
            && maximum - delay <= Offset(end.devices[e.i]) <= maximum == Offset(end.devices[h])
  {
    assert StampsCarry(g, h, g.now, maximum);
    HolderRun(g, before, h, g.now, maximum);
    var g1 := Exec(g, before);
    HolderStep(g1, e, h, g.now, maximum);
    ReceiptPullsForward(g1.devices[e.i], e.m, g1.now, e.parses, e.u);
    var g2 := Apply(g1, e);
    SettledStep(g1, e, e.i);
    SettledRun(g2, after, e.i);
    HolderRun(g2, after, h, g.now, maximum);
  }

  // ---------------------------------------------------- roles and schedules

  /** The device's own clock, which its notifies are scheduled on. */
  function Clock(d: Device, now: int): real {
    (now + d.epoch) as real
  }

  /** A periodic notify is pending that was scheduled at this time. */
  predicate PeriodicSince(t: Timer, clock: real, u: Fraction) {
    && !t.schedUpdate
    && t.notify == Some(Scheduled(clock + Figures(Sync(t.latency) as real, t.timekeeper, false, u), None))
  }

  /** So is an update notify that answers this message. */
  predicate UpdateSince(t: Timer, clock: real, from: Update, u: Fraction) {
    && t.schedUpdate
    && t.notify == Some(Scheduled(clock + Figures(Sync(t.latency) as real, t.timekeeper, true, u), Some(from)))
  }

  lemma ScheduledInFigures(latency: nat)
    ensures forall timekeeper: bool, update: bool, u: Fraction ::
              Delay(latency, timekeeper, update, u) == Figures(Sync(latency) as real, timekeeper, update, u)
  {
    forall timekeeper: bool, update: bool, u: Fraction
      ensures Delay(latency, timekeeper, update, u) == Figures(Sync(latency) as real, timekeeper, update, u)
    {
      DelayInFigures(latency, timekeeper, update, u);
    }
  }

  /** Nothing but the pending notify differs. */
  predicate OnlyRescheduled(t: Timer, t': Timer) {
    t' == t.(notify := t'.notify, schedUpdate := t'.schedUpdate)
  }

  /** The notify answers the device's own synchronization. */
  predicate IsOwnAnswer(d: Device, m: Stamp) {
    d.timer.expected.Some? && m.from == Update(d.timer.expected.value.tag, d.serial)
  }

  /** A stamp ahead of the local timer, or behind it by less than the tenth of the tolerance. */
  predicate IsFresh(d: Device, m: Stamp, now: int) {
    m.value > LocalValue(d, now) - Sync(d.timer.latency)
  }

  /**
   After every run, a genuine notify that arrives: a fresh one makes the device a follower with
   a new periodic notify; one that is too old makes it answer with an update notify, unless one
   is pending already; one in between changes nothing. The answer to the own synchronization
   is only kept for it.
   */
  lemma NotifyArrives(g: Group, run: seq<Event>, e: Event)
    requires Legal(g, run) && Enabled(Exec(g, run), e) && e.Receive? && e.m.kind == Notify
    ensures var now, d, m := Exec(g, run).now, Exec(g, run).devices[e.i], e.m;
            var d' := Apply(Exec(g, run), e).devices[e.i];
            var t, t', clock := d.timer, d'.timer, Clock(d, now);
            && d' == d.(timer := t')
            && Apply(Exec(g, run), e).forwarded == Exec(g, run).forwarded && Apply(Exec(g, run), e).sent == Exec(g, run).sent
            && if IsOwnAnswer(d, m) then
                 t' == if t.expected.value.answer.Some? then t else t.(expected := Some(Expected(m.from.tag, Some(m.value))))
               else if IsFresh(d, m, now) then
                 && !t'.timekeeper && PeriodicSince(t', clock, e.u)
                 && OnlyRescheduled(t.(timekeeper := false, clockDifference := t'.clockDifference), t')
                 && LocalValue(d', now) == (if m.value > LocalValue(d, now) then m.value else LocalValue(d, now))
               else if m.value > LocalValue(d, now) - t.latency || t.schedUpdate then t' == t
               else UpdateSince(t', clock, m.from, e.u) && OnlyRescheduled(t, t')
  {
    ScheduledInFigures(Exec(g, run).devices[e.i].timer.latency);
  }

  /**
   After every run, a genuine wrapper that arrives and parses: the same schedules, unless an
   update notify is pending, with the role unchanged; and it is forwarded unless it is too old.
   */
  lemma WrapperArrives(g: Group, run: seq<Event>, e: Event)
    requires Legal(g, run) && Enabled(Exec(g, run), e) && e.Receive? && e.m.kind == Wrapper
    ensures var now, d, m := Exec(g, run).now, Exec(g, run).devices[e.i], e.m;
            var d' := Apply(Exec(g, run), e).devices[e.i];
            var t, t', clock := d.timer, d'.timer, Clock(d, now);
            && d' == d.(timer := t')
            && Apply(Exec(g, run), e).forwarded ==
                 Exec(g, run).forwarded
                 + (if t.authenticated && e.parses && m.value > LocalValue(d, now) - t.latency then [(e.i, m)] else [])
            && if !t.authenticated || !e.parses then t' == t
               else
                 && LocalValue(d', now) == (if m.value > LocalValue(d, now) then m.value else LocalValue(d, now))
                 && OnlyRescheduled(t.(clockDifference := t'.clockDifference), t')
                 && if t.schedUpdate || (!IsFresh(d, m, now) && m.value > LocalValue(d, now) - t.latency)
                    then t'.notify == t.notify && t'.schedUpdate == t.schedUpdate
                    else if IsFresh(d, m, now) then PeriodicSince(t', clock, e.u) else UpdateSince(t', clock, m.from, e.u)
  {
    ScheduledInFigures(Exec(g, run).devices[e.i].timer.latency);
  }

  /**
   After every run, a notify that is due: what was scheduled is sent, with the local timer value,
   and the device is keeper.
   */
  lemma NotifyFires(g: Group, run: seq<Event>, e: Event)
    requires Legal(g, run) && Enabled(Exec(g, run), e) && e.TimerExpires?
    requires Sendable(LocalValue(Exec(g, run).devices[e.i], Exec(g, run).now))
    ensures var now, d := Exec(g, run).now, Exec(g, run).devices[e.i];
            var g' := Apply(Exec(g, run), e);
            var t, t' := d.timer, g'.devices[e.i].timer;
            var from := if t.notify.value.update.Some? then t.notify.value.update.value else Update(e.tag, d.serial);
            && t.notify.value.due <= Clock(d, now) && g'.forwarded == Exec(g, run).forwarded
            && g'.sent == Exec(g, run).sent + {Stamp(Notify, LocalValue(d, now), from, e.i, now)}
            && t'.timekeeper && PeriodicSince(t', Clock(d, now), e.u) && OnlyRescheduled(t.(timekeeper := true), t')
  {
    ScheduledInFigures(Exec(g, run).devices[e.i].timer.latency);
  }

  /**
   After every run, the synchronization: its own notify goes out; answered, the timer shows the
   value answered; not answered, the device is keeper.
   */
  lemma Synchronizes(g: Group, run: seq<Event>, e: Event)
    requires Legal(g, run) && Enabled(Exec(g, run), e) && (e.StartSync? || e.FinishSync?)
    ensures var now, d := Exec(g, run).now, Exec(g, run).devices[e.i];
            var g' := Apply(Exec(g, run), e);
            var t, d' := d.timer, g'.devices[e.i];
            var t' := d'.timer;
            if e.StartSync? then
              && t' == t.(expected := Some(Expected(e.tag, None)))
              && g'.sent ==
                   Exec(g, run).sent
                   + (if Sendable(LocalValue(d, now)) then {Stamp(Notify, LocalValue(d, now), Update(e.tag, d.serial), e.i, now)} else {})
            else
              && t'.authenticated && t'.expected.None? && PeriodicSince(t', Clock(d, now), e.u)
              && if t.expected.value.answer.Some?
                 then LocalValue(d', now) == t.expected.value.answer.value && t'.timekeeper == t.timekeeper
                 else LocalValue(d', now) == LocalValue(d, now) && t'.timekeeper
  {
    ScheduledInFigures(Exec(g, run).devices[e.i].timer.latency);
  }

  /**
   After every run, a wrapper sent carries the local timer value, and puts the periodic notify off
   unless an update notify is pending.
   */
  lemma WrapperSent(g: Group, run: seq<Event>, e: Event)
    requires Legal(g, run) && Enabled(Exec(g, run), e) && e.SendWrapper?
    ensures var now, d := Exec(g, run).now, Exec(g, run).devices[e.i];
            var g' := Apply(Exec(g, run), e);
            var t, t' := d.timer, g'.devices[e.i].timer;
            && g'.sent ==
                 Exec(g, run).sent
                 + (if Sendable(LocalValue(d, now)) then {Stamp(Wrapper, LocalValue(d, now), Update(e.tag, d.serial), e.i, now)} else {})
            && (if t.schedUpdate then t' == t else PeriodicSince(t', Clock(d, now), e.u) && OnlyRescheduled(t, t'))
  {
    ScheduledInFigures(Exec(g, run).devices[e.i].timer.latency);
  }

  function Ticks(run: seq<Event>): nat {
    if run == [] then 0 else (if run[0].Tick? then run[0].ticks else 0) + Ticks(run[1..])
  }

  /** The common clock goes on by the ticks alone, and with it every device's timer value. */
  lemma {:induction false} ClockGoesOn(g: Group, run: seq<Event>)
    requires Legal(g, run)
    ensures Exec(g, run).now == g.now + Ticks(run) && Exec(g, run).devices.Keys == g.devices.Keys
    ensures forall i :: i in g.devices ==>
              Exec(g, run).devices[i].epoch == g.devices[i].epoch && Exec(g, run).devices[i].serial == g.devices[i].serial
    decreases |run|
  {
    if run != [] {
      ClockGoesOn(Apply(g, run[0]), run[1..]);
    }
  }

  /**
   What makes a device timekeeper: a notify of its own that goes out when due, or a synchronization
   that nobody answers.
   */
  predicate TakesOver(d: Device, now: int, e: Event)
    requires e.FinishSync? ==> d.timer.expected.Some?
  {
    || (e.TimerExpires? && Sendable(LocalValue(d, now)))
    || (e.FinishSync? && d.timer.expected.value.answer.None?)
  }

  /** What makes it a follower: a fresh notify of another. */
  predicate StepsBack(d: Device, now: int, e: Event) {
    e.Receive? && e.m.kind == Notify && !IsOwnAnswer(d, e.m) && IsFresh(d, e.m, now)
  }

  /**
   What the events say of a device: its role, whether it last scheduled an update notify, and
   when, in which role and as what the pending notify was scheduled.
   */
  datatype Plan = Plan(keeper: bool, updating: bool, pending: Option<Planned>)

  datatype Planned = Planned(clock: real, keeper: bool, update: Option<Update>)

  /** A genuine frame that is handled, is not the own answer and is too old. */
  predicate IsTooOld(d: Device, now: int, e: Event) {
    && e.Receive? && e.m.value <= LocalValue(d, now) - d.timer.latency
    && if e.m.kind == Notify then !IsOwnAnswer(d, e.m) else d.timer.authenticated && e.parses
  }

  /** A wrapper goes out, or a fresh one comes in. */
  predicate PutsOff(d: Device, now: int, e: Event) {
    e.SendWrapper? || (e.Receive? && e.m.kind == Wrapper && d.timer.authenticated && e.parses && IsFresh(d, e.m, now))
  }

  function NextPlan(d: Device, now: int, e: Event, plan: Plan): Plan
    requires e.FinishSync? ==> d.timer.expected.Some?
  {
    var keeper := TakesOver(d, now, e) || (plan.keeper && !StepsBack(d, now, e));
    var clock := Clock(d, now);
    if e.TimerExpires? && !TakesOver(d, now, e) then Plan(keeper, plan.updating, None)
    else if e.TimerExpires? || e.FinishSync? || StepsBack(d, now, e) || (PutsOff(d, now, e) && !plan.updating)
    then Plan(keeper, false, Some(Planned(clock, keeper, None)))
    else if IsTooOld(d, now, e) && !plan.updating then Plan(keeper, true, Some(Planned(clock, keeper, Some(e.m.from))))
    else plan.(keeper := keeper)
  }

  function PlanAfter(g: Group, run: seq<Event>, i: nat, plan: Plan): Plan
    requires Legal(g, run) && i in g.devices
    decreases |run|
  {
    if run == [] then plan
    else
      var e := run[0];
      PlanAfter(Apply(g, e), run[1..], i, if e.Tick? || e.i != i then plan else NextPlan(g.devices[i], g.now, e, plan))
  }

  /** The pending notify is due in the window of its kind and of the role it was scheduled in. */
  predicate InWindow(p: Planned, due: real, s: real) {
    match (p.update.Some?, p.keeper)
    case (false, true) => p.clock + 10000.0 <= due <= p.clock + 10000.0 + 3.0 * s
    case (false, false) => p.clock + 10000.0 + 4.0 * s <= due <= p.clock + 10000.0 + 14.0 * s
    case (true, true) => p.clock + 100.0 <= due <= p.clock + 100.0 + s
    case (true, false) => p.clock + 100.0 + 2.0 * s <= due <= p.clock + 100.0 + 12.0 * s
  }

  predicate Follows(t: Timer, plan: Plan) {
    && t.timekeeper == plan.keeper && t.schedUpdate == plan.updating && (t.notify.Some? <==> plan.pending.Some?)
    && (t.notify.Some? ==>
          && t.notify.value.update == plan.pending.value.update && (plan.updating <==> t.notify.value.update.Some?)
          && InWindow(plan.pending.value, t.notify.value.due, Sync(t.latency) as real))
  }

  lemma RescheduledFollows(t: Timer, update: Option<Update>, d: Device, now: int, u: Fraction, keeper: bool)
    requires t.timekeeper == keeper && t.latency == d.timer.latency
    ensures Follows(Reschedule(t, update, now + d.epoch, u), Plan(keeper, update.Some?, Some(Planned(Clock(d, now), keeper, update))))
    ensures Reschedule(t, update, now + d.epoch, u).latency == t.latency
  {
    var due := Reschedule(t, update, now + d.epoch, u).notify.value.due;
    var w := DelayWindow(t.latency, t.timekeeper, update.Some?);
    assert Clock(d, now) + w.min as real <= due <= Clock(d, now) + w.max as real;
  }

  lemma FreshNotifyFollows(d: Device, now: int, e: Event, plan: Plan)
    requires e.Receive? && StepsBack(d, now, e) && Follows(d.timer, plan)
    ensures Follows(DeviceStep(d, now, e).device.timer, NextPlan(d, now, e, plan))
  {
    var t, m, local := d.timer, e.m, LocalValue(d, now);
    var t' := if m.value > local then t.(clockDifference := t.clockDifference + (m.value - local), timekeeper := false)
              else t.(timekeeper := false);
    RescheduledFollows(t', None, d, now, e.u, false);
    assert DeviceStep(d, now, e).device.timer == Reschedule(t', None, now + d.epoch, e.u);
  }

  lemma OldNotifyFollows(d: Device, now: int, e: Event, plan: Plan)
    requires e.Receive? && e.m.kind == Notify && !StepsBack(d, now, e) && Follows(d.timer, plan)
    ensures Follows(DeviceStep(d, now, e).device.timer, NextPlan(d, now, e, plan))
  {
    if IsTooOld(d, now, e) && !d.timer.schedUpdate {
      RescheduledFollows(d.timer, Some(e.m.from), d, now, e.u, d.timer.timekeeper);
      assert DeviceStep(d, now, e).device.timer == Reschedule(d.timer, Some(e.m.from), now + d.epoch, e.u);
    }
  }

  lemma WrapperFollows(d: Device, now: int, e: Event, plan: Plan)
    requires e.Receive? && e.m.kind == Wrapper && Follows(d.timer, plan)
    ensures Follows(DeviceStep(d, now, e).device.timer, NextPlan(d, now, e, plan))
  {
    var t, m := d.timer, e.m;
    var local := LocalValue(d, now);
    if t.authenticated && e.parses && !t.schedUpdate {
      if m.value > local {
        RescheduledFollows(t.(clockDifference := t.clockDifference + (m.value - local)), None, d, now, e.u, t.timekeeper);
      } else if IsFresh(d, m, now) {
        RescheduledFollows(t, None, d, now, e.u, t.timekeeper);
      } else if m.value <= local - t.latency {
        RescheduledFollows(t, Some(m.from), d, now, e.u, t.timekeeper);
      }
    }
  }

  lemma OwnEventFollows(d: Device, now: int, e: Event, plan: Plan)
    requires e.SendWrapper? || e.TimerExpires? || e.StartSync? || e.ReceiveForged?
    requires Follows(d.timer, plan)
    ensures Follows(DeviceStep(d, now, e).device.timer, NextPlan(d, now, e, plan))
  {
    if e.SendWrapper? {
      RescheduledFollows(d.timer, None, d, now, e.u, d.timer.timekeeper);
    } else if e.TimerExpires? {
      RescheduledFollows(d.timer.(timekeeper := true), None, d, now, e.u, true);
    }
  }

  lemma SyncFollows(d: Device, now: int, e: Event, plan: Plan)
    requires e.FinishSync? && d.timer.expected.Some? && Follows(d.timer, plan)
    ensures Follows(DeviceStep(d, now, e).device.timer, NextPlan(d, now, e, plan))
  {
    var t := d.timer.(expected := None, authenticated := true);
    if d.timer.expected.value.answer.Some? {
      var answered := t.(clockDifference := d.timer.expected.value.answer.value - (now + d.epoch));
      RescheduledFollows(answered, None, d, now, e.u, t.timekeeper);
    } else {
      RescheduledFollows(t.(timekeeper := true), None, d, now, e.u, true);
    }
  }

  lemma StepFollows(d: Device, now: int, e: Event, plan: Plan)
    requires !e.Tick? && (e.FinishSync? ==> d.timer.expected.Some?) && Follows(d.timer, plan)
    ensures Follows(DeviceStep(d, now, e).device.timer, NextPlan(d, now, e, plan))
  {
    if e.FinishSync? {
      SyncFollows(d, now, e, plan);
    } else if !e.Receive? {
      OwnEventFollows(d, now, e, plan);
    } else if StepsBack(d, now, e) {
      FreshNotifyFollows(d, now, e, plan);
    } else if e.m.kind == Notify {
      OldNotifyFollows(d, now, e, plan);
    } else {
      WrapperFollows(d, now, e, plan);
    }
  }

  /**
   On every run a device is timekeeper exactly by the last event that made it one or stepped it
   back, and its pending notify is the one that the last event scheduled that could: in the
   window of its kind and of the role the device had then.
   */
  lemma {:induction false} RunFollowsPlan(g: Group, run: seq<Event>, i: nat, plan: Plan)
    requires Legal(g, run) && i in g.devices && Follows(g.devices[i].timer, plan)
    ensures i in Exec(g, run).devices && Follows(Exec(g, run).devices[i].timer, PlanAfter(g, run, i, plan))
    decreases |run|
  {
    if run != [] {
      var e := run[0];
      if !e.Tick? && e.i == i {
        StepFollows(g.devices[i], g.now, e, plan);
        RunFollowsPlan(Apply(g, e), run[1..], i, NextPlan(g.devices[i], g.now, e, plan));
      } else {
        RunFollowsPlan(Apply(g, e), run[1..], i, plan);
      }
    }
  }

  // -------------------------------------------------- a notify is always pending

  /** The flag tells the kind of the pending notify, and an authenticated device always has one. */
  predicate Consistent(t: Timer) {
    && (t.schedUpdate <==> t.notify.Some? && t.notify.value.update.Some?)
    && (t.authenticated ==> t.notify.Some?)
  }

  /** The notify fires with a value that six octets cannot hold. */
  predicate FiresUnsendable(d: Device, now: int, e: Event)
    requires !e.Tick?
  {
    e.TimerExpires? && !Sendable(LocalValue(d, now))
  }

  /** An event keeps this exactly unless the OverflowError of a fired notify leaves none pending. */
  lemma ConsistentStepIff(d: Device, now: int, e: Event)
    requires !e.Tick? && (e.FinishSync? ==> d.timer.expected.Some?)
    requires Consistent(d.timer)
    ensures Consistent(DeviceStep(d, now, e).device.timer) <==>
              !(FiresUnsendable(d, now, e) && (d.timer.authenticated || d.timer.schedUpdate))
  {
  }

  ghost predicate AllConsistent(g: Group) {
    forall i :: i in g.devices ==> Consistent(g.devices[i].timer)
  }

  /** No timer value leaves the 48 bits before its notify fires. */
  predicate SendableRun(g: Group, run: seq<Event>)
    requires Legal(g, run)
    decreases |run|
  {
    run == [] ||
    (&& (!run[0].Tick? ==> !FiresUnsendable(g.devices[run[0].i], g.now, run[0]))
     && SendableRun(Apply(g, run[0]), run[1..]))
  }

  /** On every run whose timers stay within 48 bits every device keeps its schedule consistent. */
  lemma {:induction false} ConsistentRun(g: Group, run: seq<Event>)
    requires Legal(g, run) && SendableRun(g, run) && AllConsistent(g)
    ensures AllConsistent(Exec(g, run))
    decreases |run|
  {
    if run != [] {
      var e := run[0];
      if !e.Tick? {
        ConsistentStepIff(g.devices[e.i], g.now, e);
      }
      assert AllConsistent(Apply(g, e));
      ConsistentRun(Apply(g, e), run[1..]);
    }
  }

  /** Where it fires, the device is left authenticated with nothing pending. */
  lemma OverflowLeavesNothingPending(g: Group, e: Event)
    requires Enabled(g, e) && e.TimerExpires? && FiresUnsendable(g.devices[e.i], g.now, e) && g.devices[e.i].timer.authenticated
    ensures var t := Apply(g, e).devices[e.i].timer; t.authenticated && t.notify.None? && !AllConsistent(Apply(g, e))
  {
    assert !Consistent(Apply(g, e).devices[e.i].timer);
  }
}
