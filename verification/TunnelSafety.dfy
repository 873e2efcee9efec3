/** What the tunnel protocol keeps on every run in which each accepted ack matches its request. */
module TunnelSafety {
  import opened Bytes
  import opened Tunnel

  /** A request in flight is the current transmission or the one before it, with that place's counter. */
  predicate RequestOk(s: State, base: nat, q: Request) {
    && q.at < |s.transmitted| <= q.at + 2
    && s.transmitted[q.at] == q.send
    && q.counter == (q.at + base) % 256
  }

  /** So is the request that an ack in flight answers; a positive ack answers a delivered one. */
  predicate AckOk(s: State, base: nat, a: Ack) {
    && a.at < |s.transmitted| <= a.at + 2
    && a.counter == (a.at + base) % 256
    && (a.noError ==> a.at < |s.delivered|)
  }

  /** Acks on their way back and requests behind them, front to back, never go down in place. */
  predicate InOrder(s: State) {
    && (forall i, j :: 0 <= i < j < |s.toServer| ==> s.toServer[i].at <= s.toServer[j].at)
    && (forall i, j :: 0 <= i < j < |s.toClient| ==> s.toClient[i].at <= s.toClient[j].at)
    && (forall i, j :: 0 <= i < |s.toClient| && 0 <= j < |s.toServer| ==> s.toClient[i].at <= s.toServer[j].at)
  }

  /** Everything in flight belongs to the last transmission. */
  predicate Settled(s: State) {
    && (forall i :: 0 <= i < |s.toServer| ==> s.toServer[i].at + 1 == |s.transmitted|)
    && (forall i :: 0 <= i < |s.toClient| ==> s.toClient[i].at + 1 == |s.transmitted|)
    && |s.delivered| + 1 >= |s.transmitted|
  }

  /** The connection as the two endpoints see it; the k-th transmission has counter k + base. */
  predicate ConnectionInv(s: State, base: nat) {
    && base <= 1
    && |s.transmitted| <= |s.delivered| + 2
    && s.expected == |s.delivered| % 256
    && (base == 1 ==> s.delivered == [] && |s.transmitted| <= 1)
    && (forall i :: 0 <= i < |s.toServer| ==> RequestOk(s, base, s.toServer[i]))
    && (forall i :: 0 <= i < |s.toClient| ==> AckOk(s, base, s.toClient[i]))
    && InOrder(s)
  }

  /** The sender's phase and counter fit the connection. */
  predicate SenderInv(s: State, base: nat) {
    var n := |s.transmitted|;
    match s.phase
    case Idle => s.sequenceNumber == (n + base) % 256 && Settled(s) && (base == 1 ==> n == 0)
    case Waiting(attempt, _, counter) =>
      && (if n == 0 then base == 0 && s.sequenceNumber == 0
          else s.sequenceNumber == counter == (n - 1 + base) % 256)
      && (attempt >= 3 ==> n <= 1 && base == 0)
    case AwaitingReconnect(_, reconnected) => reconnected ==> n == 0 && base == 0 && s.sequenceNumber == 0
  }

  /** The histories. */
  predicate HistoryInv(s: State) {
    && s.delivered <= s.transmitted
    && StrictlyAscending(s.transmitted)
    && Ascending(s.deliveredBefore)
    && (forall i :: 0 <= i < |s.transmitted| ==> s.transmitted[i] < s.sends)
    && (forall i :: 0 <= i < |s.deliveredBefore| ==> s.deliveredBefore[i] < s.sends)
    && (forall i, j :: 0 <= i < |s.deliveredBefore| && 0 <= j < |s.transmitted| ==> s.deliveredBefore[i] <= s.transmitted[j])
    && (forall i :: i in s.returned ==> i in s.deliveredBefore + s.delivered)
    && (s.phase.Waiting? ==> s.phase.send + 1 == s.sends)
    && (s.phase.AwaitingReconnect? ==> s.phase.resend + 1 == s.sends)
    && (s.phase.Waiting? && s.transmitted != [] ==> s.transmitted[|s.transmitted| - 1] == s.phase.send)
  }

  predicate Inv(s: State, base: nat) {
    && HistoryInv(s)
    && (if s.up then ConnectionInv(s, base) && SenderInv(s, base)
        else s.toServer == [] && s.toClient == [] && s.transmitted == [] && s.delivered == [])
  }

  lemma InvIsCorrect(s: State, base: nat)
    requires Inv(s, base)
    ensures Correct(s)
  {
    forall i, j | 0 <= i < j < |s.deliveredBefore + s.delivered|
      ensures (s.deliveredBefore + s.delivered)[i] <= (s.deliveredBefore + s.delivered)[j]
    {
      var m := |s.deliveredBefore|;
      if i < m <= j {
        assert s.delivered[j - m] == s.transmitted[j - m];
      } else if m <= i {
        assert s.delivered[i - m] == s.transmitted[i - m] && s.delivered[j - m] == s.transmitted[j - m];
      }
    }
  }

  lemma RemoveIndices<T>(s: seq<T>, at: nat)
    requires at < |s|
    ensures |Remove(s, at)| == |s| - 1
    ensures forall i :: 0 <= i < |s| - 1 ==> Remove(s, at)[i] == s[if i < at then i else i + 1]
  {
  }

  lemma DoubleIndices<T>(s: seq<T>, at: nat)
    requires at < |s|
    ensures |Double(s, at)| == |s| + 1
    ensures forall i :: 0 <= i < |s| + 1 ==> Double(s, at)[i] == s[if i <= at then i else i - 1]
  {
  }

  /** The network changes one of the two directions to `kept[i] == old[index(i)]` with ascending indices. */
  lemma RequestsThinned(s: State, base: nat, toServer: seq<Request>, index: seq<nat>)
    requires s.up && Inv(s, base) && |index| == |toServer| && Ascending(index)
    requires forall i :: 0 <= i < |index| ==> index[i] < |s.toServer| && toServer[i] == s.toServer[index[i]]
    ensures Inv(s.(toServer := toServer), base)
  {
    var s' := s.(toServer := toServer);
    assert forall i :: 0 <= i < |toServer| ==> RequestOk(s, base, s.toServer[index[i]]);
    assert forall i :: 0 <= i < |toServer| ==> RequestOk(s', base, toServer[i]);
    assert forall i :: 0 <= i < |s.toClient| ==> AckOk(s, base, s.toClient[i]) && AckOk(s', base, s.toClient[i]);
    assert InOrder(s') by {
      forall i, j | 0 <= i < j < |toServer|
        ensures toServer[i].at <= toServer[j].at
      {
        assert index[i] <= index[j];
      }
    }
    assert Settled(s) ==> Settled(s');
  }

  lemma AcksThinned(s: State, base: nat, toClient: seq<Ack>, index: seq<nat>)
    requires s.up && Inv(s, base) && |index| == |toClient| && Ascending(index)
    requires forall i :: 0 <= i < |index| ==> index[i] < |s.toClient| && toClient[i] == s.toClient[index[i]]
    ensures Inv(s.(toClient := toClient), base)
  {
    var s' := s.(toClient := toClient);
    assert forall i :: 0 <= i < |toClient| ==> AckOk(s, base, s.toClient[index[i]]);
    assert forall i :: 0 <= i < |toClient| ==> AckOk(s', base, toClient[i]);
    assert forall i :: 0 <= i < |s.toServer| ==> RequestOk(s, base, s.toServer[i]) && RequestOk(s', base, s.toServer[i]);
    assert InOrder(s') by {
      forall i, j | 0 <= i < j < |toClient|
        ensures toClient[i].at <= toClient[j].at
      {
        assert index[i] <= index[j];
      }
    }
    assert Settled(s) ==> Settled(s');
  }

  /** The network loses or duplicates something in place. */
  lemma NetworkKeeps(s: State, e: Event, base: nat)
    requires s.up && Inv(s, base) && Enabled(Environment(true, true, true), s, e)
    requires e.LoseRequest? || e.LoseAck? || e.DuplicateRequest? || e.DuplicateAck?
    ensures Inv(Step(s, e), base)
  {
    match e
    case LoseRequest(at) =>
      RemoveIndices(s.toServer, at);
      RequestsThinned(s, base, Remove(s.toServer, at), seq(|s.toServer| - 1, i => if i < at then i else i + 1));
    case LoseAck(at) =>
      RemoveIndices(s.toClient, at);
      AcksThinned(s, base, Remove(s.toClient, at), seq(|s.toClient| - 1, i => if i < at then i else i + 1));
    case DuplicateRequest(at) =>
      DoubleIndices(s.toServer, at);
      RequestsThinned(s, base, Double(s.toServer, at),
                      seq(|s.toServer| + 1, i requires 0 <= i <= |s.toServer| => if i <= at then i else i - 1));
    case DuplicateAck(at) =>
      DoubleIndices(s.toClient, at);
      AcksThinned(s, base, Double(s.toClient, at),
                  seq(|s.toClient| + 1, i requires 0 <= i <= |s.toClient| => if i <= at then i else i - 1));
  }

  /** Places less than 256 apart have equal counters only when they are equal. */
  lemma CountersAgree(k: nat, r: nat)
    requires k <= r + 3 && r <= k + 3
    ensures k % 256 == r % 256 <==> k == r
  {
  }

  /** The server takes the request of the next undelivered place and acknowledges the one before again. */
  lemma ServerDecides(s: State, base: nat)
    requires s.up && Inv(s, base) && s.toServer != []
    ensures var (place, r) := (s.toServer[0].at + base, |s.delivered|);
            && (place == r ==> Receive(s.expected, s.toServer[0].counter) == Deliver)
            && (place + 1 == r ==> Receive(s.expected, s.toServer[0].counter) == AcknowledgeAgain)
            && (place != r && place + 1 != r ==> Receive(s.expected, s.toServer[0].counter) == Drop)
  {
    var q, r := s.toServer[0], |s.delivered|;
    assert RequestOk(s, base, q);
    CountersAgree(q.at + base, r);
    CountersAgree(q.at + base + 1, r);
  }

  /** An ack is put at the end of the way back. */
  lemma AckAppended(s: State, base: nat, ack: Ack)
    requires s.up && Inv(s, base) && AckOk(s, base, ack)
    requires forall i :: 0 <= i < |s.toClient| ==> s.toClient[i].at <= ack.at
    requires forall i :: 0 <= i < |s.toServer| ==> ack.at <= s.toServer[i].at
    requires s.phase.Idle? ==> ack.at + 1 == |s.transmitted|
    ensures Inv(s.(toClient := s.toClient + [ack]), base)
  {
    var s' := s.(toClient := s.toClient + [ack]);
    HistoryUntouched(s, s');
    AckAppendedToConnection(s, base, ack);
    assert s.phase.Idle? ==> Settled(s');
  }

  lemma AckAppendedToConnection(s: State, base: nat, ack: Ack)
    requires ConnectionInv(s, base) && AckOk(s, base, ack)
    requires forall i :: 0 <= i < |s.toClient| ==> s.toClient[i].at <= ack.at
    requires forall i :: 0 <= i < |s.toServer| ==> ack.at <= s.toServer[i].at
    ensures ConnectionInv(s.(toClient := s.toClient + [ack]), base)
  {
    var s' := s.(toClient := s.toClient + [ack]);
    assert forall i :: 0 <= i < |s.toClient| ==> AckOk(s, base, s.toClient[i]) && AckOk(s', base, s'.toClient[i]);
    assert forall i :: 0 <= i < |s.toServer| ==> RequestOk(s, base, s.toServer[i]) && RequestOk(s', base, s'.toServer[i]);
    assert InOrder(s');
  }

  lemma HistoryUntouched(s: State, s': State)
    requires HistoryInv(s)
    requires s' == s.(toClient := s'.toClient, toServer := s'.toServer)
    ensures HistoryInv(s')
  {
  }

  /** The request at the front leaves and its ack is put on the way back. */
  lemma FrontAnswered(s: State, base: nat, ack: Ack)
    requires s.up && Inv(s, base) && s.toServer != []
    requires ack.at == s.toServer[0].at && AckOk(s, base, ack)
    ensures Inv(s.(toServer := s.toServer[1..], toClient := s.toClient + [ack]), base)
  {
    assert RequestOk(s, base, s.toServer[0]);
    RequestsThinned(s, base, s.toServer[1..], seq(|s.toServer| - 1, i => i + 1));
    AckAppended(s.(toServer := s.toServer[1..]), base, ack);
  }

  /** The channels and transmissions are as they were, and at least as much is delivered. */
  lemma SameChannels(s: State, s': State, base: nat)
    requires ConnectionInv(s, base)
    requires s'.transmitted == s.transmitted && s'.toServer == s.toServer && s'.toClient == s.toClient
    requires |s.delivered| <= |s'.delivered| && s'.expected == |s'.delivered| % 256
    requires base == 1 ==> s'.delivered == []
    ensures ConnectionInv(s', base)
    ensures Settled(s) ==> Settled(s')
  {
    forall i | 0 <= i < |s.toServer|
      ensures RequestOk(s', base, s'.toServer[i])
    {
      assert RequestOk(s, base, s.toServer[i]);
    }
    forall i | 0 <= i < |s.toClient|
      ensures AckOk(s', base, s'.toClient[i])
    {
      assert AckOk(s, base, s.toClient[i]);
    }
  }

  lemma HistoryOfDelivery(s: State, send: nat)
    requires HistoryInv(s) && |s.delivered| < |s.transmitted| && s.transmitted[|s.delivered|] == send
    ensures HistoryInv(s.(expected := NextCounter(s.expected), delivered := s.delivered + [send]))
  {
    var s' := s.(expected := NextCounter(s.expected), delivered := s.delivered + [send]);
    assert s'.delivered == s.transmitted[..|s.delivered| + 1];
    forall i | i in s.returned
      ensures i in s.deliveredBefore + s'.delivered
    {
      assert i in s.deliveredBefore + s.delivered;
    }
  }

  /** The server takes a payload. */
  lemma DeliveryKeeps(s: State, base: nat)
    requires s.up && Inv(s, base) && s.toServer != [] && s.toServer[0].at + base == |s.delivered|
    ensures Inv(s.(expected := NextCounter(s.expected), delivered := s.delivered + [s.toServer[0].send]), base)
  {
    var q := s.toServer[0];
    var s' := s.(expected := NextCounter(s.expected), delivered := s.delivered + [q.send]);
    assert RequestOk(s, base, q);
    HistoryOfDelivery(s, q.send);
    DeliveredCount(|s.delivered|);
    SameChannels(s, s', base);
    SameSender(s, s', base);
  }

  lemma DeliveredCount(n: nat)
    ensures NextCounter(n % 256) == (n + 1) % 256
  {
  }

  /** The sender sees nothing of what the server takes. */
  lemma SameSender(s: State, s': State, base: nat)
    requires SenderInv(s, base) && (Settled(s) ==> Settled(s'))
    requires s'.phase == s.phase && s'.sequenceNumber == s.sequenceNumber && s'.transmitted == s.transmitted
    ensures SenderInv(s', base)
  {
  }

  lemma ServerReceivesKeeps(s: State, base: nat)
    requires s.up && Inv(s, base) && s.toServer != []
    ensures Inv(Step(s, ServerReceives), base)
  {
    var q := s.toServer[0];
    assert RequestOk(s, base, q);
    ServerDecides(s, base);
    var ack := Ack(q.counter, true, q.at);
    if q.at + base == |s.delivered| {
      DeliveryKeeps(s, base);
      FrontAnswered(s.(expected := NextCounter(s.expected), delivered := s.delivered + [q.send]), base, ack);
    } else if q.at + base + 1 == |s.delivered| {
      FrontAnswered(s, base, ack);
    } else {
      RequestsThinned(s, base, s.toServer[1..], seq(|s.toServer| - 1, i => i + 1));
    }
  }

  lemma ServerRefusesKeeps(s: State, base: nat)
    requires s.up && Inv(s, base) && s.toServer != []
    ensures Inv(Step(s, ServerRefuses), base)
  {
    assert RequestOk(s, base, s.toServer[0]);
    FrontAnswered(s, base, Ack(s.toServer[0].counter, false, s.toServer[0].at));
  }

  // ------------------------------------------------------------ the client's steps

  /** A payload not yet transmitted on this connection goes out in the next place. */
  lemma NewPlace(s: State, base: nat, attempt: nat, send: nat)
    requires s.up && HistoryInv(s) && ConnectionInv(s, base) && Settled(s)
    requires s.sequenceNumber == (|s.transmitted| + base) % 256
    requires base == 1 || attempt >= 3 ==> s.transmitted == []
    requires attempt >= 3 ==> base == 0
    requires send + 1 == s.sends
    requires forall i :: 0 <= i < |s.transmitted| ==> s.transmitted[i] < send
    ensures Inv(Transmit(s, attempt, send), base)
  {
    var s' := Transmit(s, attempt, send);
    var n := |s.transmitted|;
    assert s'.transmitted == s.transmitted + [send];
    assert HistoryInv(s');
    assert ConnectionInv(s', base) by {
      assert forall i :: 0 <= i < |s.toServer| ==> RequestOk(s, base, s.toServer[i]) && RequestOk(s', base, s'.toServer[i]);
      assert RequestOk(s', base, s'.toServer[|s.toServer|]);
      assert forall i :: 0 <= i < |s.toClient| ==> AckOk(s, base, s.toClient[i]) && AckOk(s', base, s'.toClient[i]);
      assert InOrder(s');
    }
  }

  /** The last transmission is repeated in its own place. */
  lemma SamePlace(s: State, base: nat)
    requires s.up && Inv(s, base) && s.phase.Waiting? && s.phase.attempt == 1 && s.transmitted != []
    ensures Inv(Transmit(s, 2, s.phase.send), base)
  {
    var s' := Transmit(s, 2, s.phase.send);
    assert s'.transmitted == s.transmitted;
    assert ConnectionInv(s', base) by {
      assert forall i :: 0 <= i < |s.toServer| ==> RequestOk(s, base, s.toServer[i]) && RequestOk(s', base, s'.toServer[i]);
      assert RequestOk(s', base, s'.toServer[|s.toServer|]);
      assert forall i :: 0 <= i < |s.toClient| ==> AckOk(s, base, s.toClient[i]) && AckOk(s', base, s'.toClient[i]);
      assert InOrder(s');
    }
  }

  /** Nothing is in flight on a connection that has not transmitted anything. */
  lemma FreshIsSettled(s: State, base: nat)
    requires s.up && Inv(s, base) && s.transmitted == []
    ensures Settled(s) && s.toServer == [] && s.toClient == []
  {
    assert s.toServer == [] || RequestOk(s, base, s.toServer[0]);
    assert s.toClient == [] || AckOk(s, base, s.toClient[0]);
  }

  lemma ClosedKeeps(s: State, base: nat)
    requires Inv(s, base)
    ensures Inv(Close(s), base) && Inv(Finish(Close(s)), base)
  {
    InvIsCorrect(s, base);
    var before := s.deliveredBefore + s.delivered;
    assert before + [] == before;
    forall i | 0 <= i < |before|
      ensures before[i] < s.sends
    {
      if i >= |s.deliveredBefore| {
        assert s.delivered[i - |s.deliveredBefore|] == s.transmitted[i - |s.deliveredBefore|];
      }
    }
  }

  lemma TryFailedKeeps(s: State, base: nat, raises: bool) returns (base': nat)
    requires Inv(s, base) && s.phase.Waiting?
    ensures Inv(TryFailed(s, raises), base')
  {
    base' := base;
    if s.phase.attempt == 1 && s.up {
      if s.transmitted == [] {
        FreshIsSettled(s, base);
        NewPlace(s, base, 2, s.phase.send);
      } else {
        SamePlace(s, base);
      }
    } else if s.phase.attempt >= 3 {
      if s.up && s.transmitted == [] {
        FreshIsSettled(s, base);
        base' := 1;
      } else if s.up {
        ThirdFailure(s, base);
      }
    } else if raises {
      ClosedKeeps(s, base);
    }
  }

  /** After a third failure the connection carries just the one transmission. */
  lemma ThirdFailure(s: State, base: nat)
    requires s.up && Inv(s, base) && s.phase.Waiting? && s.phase.attempt >= 3 && s.transmitted != []
    ensures Inv(Finish(s), base)
  {
    assert forall i :: 0 <= i < |s.toServer| ==> RequestOk(s, base, s.toServer[i]) && RequestOk(Finish(s), base, s.toServer[i]);
    assert forall i :: 0 <= i < |s.toClient| ==> AckOk(s, base, s.toClient[i]) && AckOk(Finish(s), base, s.toClient[i]);
    assert Settled(Finish(s));
    assert InOrder(Finish(s));
  }

  lemma AckPopped(s: State, base: nat)
    requires s.up && Inv(s, base) && s.toClient != []
    ensures Inv(s.(toClient := s.toClient[1..]), base)
  {
    AcksThinned(s, base, s.toClient[1..], seq(|s.toClient| - 1, i => i + 1));
  }

  /** A matching positive ack answers the outstanding request, which is therefore delivered. */
  lemma MatchingAck(s: State, base: nat)
    requires s.up && Inv(s, base) && s.toClient != [] && s.phase.Waiting?
    requires s.toClient[0].noError && s.toClient[0].counter == s.phase.counter
    ensures base == 0 && s.transmitted != []
    ensures s.toClient[0].at + 1 == |s.transmitted| == |s.delivered|
    ensures Settled(s)
  {
    var a, n := s.toClient[0], |s.transmitted|;
    assert AckOk(s, base, a);
    CountersAgree(a.at + base, n - 1 + base);
    forall i | 0 <= i < |s.toClient|
      ensures s.toClient[i].at + 1 == n
    {
      assert AckOk(s, base, s.toClient[i]);
    }
    forall i | 0 <= i < |s.toServer|
      ensures s.toServer[i].at + 1 == n
    {
      assert RequestOk(s, base, s.toServer[i]);
    }
  }

  lemma HistoryOfReturn(s: State)
    requires HistoryInv(s) && s.phase.Waiting? && s.delivered != []
    requires |s.delivered| == |s.transmitted|
    ensures HistoryInv(Finish(s).(returned := s.returned + {s.phase.send}))
  {
    assert s.delivered[|s.delivered| - 1] == s.phase.send;
    assert s.phase.send in s.deliveredBefore + s.delivered;
  }

  lemma CounterAdvances(n: nat)
    requires n > 0
    ensures NextCounter((n - 1) % 256) == n % 256
  {
  }

  lemma ReturnKeeps(s: State, base: nat)
    requires s.up && Inv(s, base) && s.toClient != [] && s.phase.Waiting?
    requires s.toClient[0].noError && s.toClient[0].counter == s.phase.counter
    ensures Inv(Step(s, ClientReceivesAck), base)
  {
    MatchingAck(s, base);
    AckPopped(s, base);
    var rest := s.(toClient := s.toClient[1..]);
    var s' := Step(s, ClientReceivesAck);
    HistoryOfReturn(rest);
    CounterAdvances(|s.transmitted|);
    SameChannels(rest, s', base);
    assert Settled(rest) by {
      assert forall i :: 0 <= i < |rest.toClient| ==> rest.toClient[i] == s.toClient[i + 1];
    }
  }

  lemma HistoryOfStart(s: State)
    requires HistoryInv(s) && s.phase.Idle?
    ensures HistoryInv(s.(sends := s.sends + 1))
    ensures forall i :: 0 <= i < |s.transmitted| ==> s.transmitted[i] < s.sends
  {
  }

  lemma StartSendKeeps(s: State, base: nat)
    requires s.up && s.phase.Idle? && Inv(s, base)
    ensures Inv(Step(s, StartSend), base)
  {
    var s0 := s.(sends := s.sends + 1);
    SameChannels(s, s0, base);
    HistoryOfStart(s);
    NewPlace(s0, base, 1, s.sends);
    assert Transmitted(s, s.sends) == Transmitted(s0, s.sends);
    assert Step(s, StartSend) == Transmit(s0, 1, s.sends);
  }

  lemma AckKeeps(s: State, base: nat) returns (base': nat)
    requires s.up && Inv(s, base) && s.toClient != [] && AckMatches(s, ClientReceivesAck)
    ensures Inv(Step(s, ClientReceivesAck), base')
  {
    base' := base;
    if s.phase.Waiting? && s.toClient[0].noError {
      ReturnKeeps(s, base);
    } else {
      AckPopped(s, base);
      if s.phase.Waiting? {
        base' := TryFailedKeeps(s.(toClient := s.toClient[1..]), base, false);
      }
    }
  }

  lemma ThirdTryKeeps(s: State, base: nat)
    requires Inv(s, base) && s.phase.AwaitingReconnect? && s.phase.reconnected
    ensures Inv(Step(s, ThirdTry), base)
  {
    if s.up {
      FreshIsSettled(s, base);
      NewPlace(s, base, 3, s.phase.resend);
    }
  }

  lemma EstablishedKeeps(s: State, base: nat)
    requires !s.up && Inv(s, base)
    ensures Inv(Step(s, ConnectionEstablished), 0)
  {
  }

  // ------------------------------------------------------------------ all runs

  lemma StepKeeps(s: State, e: Event, base: nat) returns (base': nat)
    requires Inv(s, base) && Enabled(Environment(true, true, true), s, e) && AckMatches(s, e)
    ensures Inv(Step(s, e), base')
  {
    base' := base;
    match e
    case ServerReceives => ServerReceivesKeeps(s, base);
    case ServerRefuses => ServerRefusesKeeps(s, base);
    case LoseRequest(_) => NetworkKeeps(s, e, base);
    case LoseAck(_) => NetworkKeeps(s, e, base);
    case DuplicateRequest(_) => NetworkKeeps(s, e, base);
    case DuplicateAck(_) => NetworkKeeps(s, e, base);
    case ConnectionLost => ClosedKeeps(s, base);
    case ConnectionEstablished =>
      EstablishedKeeps(s, base);
      base' := 0;
    case StartSend => StartSendKeeps(s, base);
    case SendWithoutConnection =>
    case Timeout(raises) => base' := TryFailedKeeps(s, base, raises);
    case ThirdTry => ThirdTryKeeps(s, base);
    case ReconnectCancelled => ClosedKeeps(s, base);
    case ClientReceivesAck => base' := AckKeeps(s, base);
  }

  lemma {:induction false} RunKeeps(env: Environment, s: State, run: seq<Event>, base: nat) returns (base': nat)
    requires Inv(s, base) && Legal(env, s, run) && AllAcksMatch(env, s, run)
    ensures Inv(Exec(env, s, run), base')
    decreases |run|
  {
    if run == [] {
      base' := base;
    } else {
      var b := StepKeeps(s, run[0], base);
      base' := RunKeeps(env, Step(s, run[0]), run[1..], b);
    }
  }

  /**
   A second failure, or a first one without a connection: without auto_reconnect the send ends
   and the connection with it; otherwise both go on until the reconnect.
   */
  lemma SecondFailure(s: State, raises: bool)
    requires s.phase.Waiting? && (s.phase.attempt == 2 || (s.phase.attempt == 1 && !s.up))
    ensures var s' := Step(s, Timeout(raises));
            if raises then
              && s'.phase.Idle? && !s'.up && s'.toServer == [] && s'.toClient == [] && s'.transmitted == [] && s'.delivered == []
              && s'.deliveredBefore == s.deliveredBefore + s.delivered && s'.returned == s.returned
            else s' == s.(phase := AwaitingReconnect(s.phase.send, false))
  {
  }

  /** A loss takes one frame off the wire and changes nothing else; a duplication adds one. */
  lemma OneFrame(s: State, e: Event)
    requires Enabled(Environment(true, true, true), s, e) && (e.LoseRequest? || e.LoseAck? || e.DuplicateRequest? || e.DuplicateAck?)
    ensures var s' := Step(s, e);
            && s' == s.(toServer := s'.toServer, toClient := s'.toClient)
            && |s'.toServer| == |s.toServer| + (if e.LoseRequest? then -1 else if e.DuplicateRequest? then 1 else 0)
            && |s'.toClient| == |s.toClient| + (if e.LoseAck? then -1 else if e.DuplicateAck? then 1 else 0)
  {
  }

  /**
   Over FIFO channels that lose, delay and duplicate, through any number of reconnects and any
   number of wraps of the counter, every run whose accepted acks match is correct.
   */
  lemma MatchedRunsAreCorrect(env: Environment, run: seq<Event>)
    requires Legal(env, Init(), run) && AllAcksMatch(env, Init(), run)
    ensures Correct(Exec(env, Init(), run))
  {
    var base := RunKeeps(env, Init(), run, 0);
    InvIsCorrect(Exec(env, Init(), run), base);
  }
}
