/**
 Exactly which networks make the tunnel reliable. An acknowledgement is accepted without
 comparing its counter, so a second ack for an old request ends the next send.
 */
module TunnelEnvironment {
  import opened Tunnel
  import opened TunnelSafety

  ghost predicate AlwaysCorrect(env: Environment) {
    forall run: seq<Event> :: Legal(env, Init(), run) ==> Correct(Exec(env, Init(), run))
  }

  /** No duplication, and no timeout while the request or its ack is still under way. */
  predicate Prompt(env: Environment) {
    !env.duplicatesRequests && !env.duplicatesAcks && !env.late
  }

  // --------------------------------------------------- a prompt network is safe

  /** At most one frame is in flight, only during a try, and it belongs to that try. */
  predicate OneInFlight(s: State) {
    && |s.toServer| + |s.toClient| <= 1
    && (!s.phase.Waiting? ==> s.toServer == [] && s.toClient == [])
    && (s.toServer != [] ==> s.toServer[0].counter == s.phase.counter)
    && (s.toClient != [] ==> s.toClient[0].counter == s.phase.counter)
  }

  lemma PromptStep(env: Environment, s: State, e: Event)
    requires Prompt(env) && OneInFlight(s) && Enabled(env, s, e)
    ensures AckMatches(s, e) && OneInFlight(Step(s, e))
  {
  }

  lemma {:induction false} PromptRun(env: Environment, s: State, run: seq<Event>)
    requires Prompt(env) && OneInFlight(s) && Legal(env, s, run)
    ensures AllAcksMatch(env, s, run)
    decreases |run|
  {
    if run != [] {
      PromptStep(env, s, run[0]);
      PromptRun(env, Step(s, run[0]), run[1..]);
    }
  }

  // ------------------------------------------------------- building concrete runs

  /** The run leads from the initial state to s. */
  ghost predicate Leads(env: Environment, run: seq<Event>, s: State) {
    Legal(env, Init(), run) && Exec(env, Init(), run) == s
  }

  lemma {:induction false} ExecAppend(env: Environment, s: State, run: seq<Event>, e: Event)
    requires Legal(env, s, run) && Enabled(env, Exec(env, s, run), e)
    ensures Legal(env, s, run + [e]) && Exec(env, s, run + [e]) == Step(Exec(env, s, run), e)
    decreases |run|
  {
    if run == [] {
      assert [] + [e] == [e] && [e][1..] == [];
    } else {
      ExecAppend(env, Step(s, run[0]), run[1..], e);
      assert (run + [e])[1..] == run[1..] + [e];
    }
  }

  lemma Then(env: Environment, run: seq<Event>, s: State, e: Event) returns (run': seq<Event>, s': State)
    requires Leads(env, run, s) && Enabled(env, s, e)
    ensures Leads(env, run', s') && s' == Step(s, e)
  {
    ExecAppend(env, Init(), run, e);
    run', s' := run + [e], Step(s, e);
  }

  /** The first send is on the wire. */
  lemma FirstRequest(env: Environment) returns (run: seq<Event>, s: State)
    ensures Leads(env, run, s)
    ensures s == State(Waiting(1, 0, 0), 0, 1, true, [Request(0, 0, 0)], [], 0, [0], [], [], {})
  {
    run, s := [], Init();
    run, s := Then(env, run, s, ConnectionEstablished);
    run, s := Then(env, run, s, StartSend);
    assert [] + [Request(0, 0, 0)] == [Request(0, 0, 0)];
  }

  /** With two acks for request 0 on the way back, send 1 returns although its request is lost. */
  lemma StaleAckEndsNextSend(env: Environment, run0: seq<Event>, s0: State) returns (run: seq<Event>, s: State)
    requires Leads(env, run0, s0)
    requires s0.phase.Waiting? && s0.phase.send == 0 && s0.phase.counter == 0 && s0.up && s0.toServer == [] && s0.sends == 1
    requires s0.toClient == [Ack(0, true, 0), Ack(0, true, 0)]
    requires s0.delivered == [0] && s0.deliveredBefore == []
    ensures Leads(env, run, s)
    ensures 1 in s.returned && s.delivered == [0] && s.deliveredBefore == [] && !Correct(s)
  {
    run, s := Then(env, run0, s0, ClientReceivesAck);
    assert s.toClient == [Ack(0, true, 0)];
    run, s := Then(env, run, s, StartSend);
    assert |s.toServer| == 1;
    run, s := Then(env, run, s, LoseRequest(0));
    run, s := Then(env, run, s, ClientReceivesAck);
    assert s.deliveredBefore + s.delivered == [0];
  }

  lemma DuplicatedAckBreaks(env: Environment) returns (run: seq<Event>, s: State)
    requires env.duplicatesAcks
    ensures Leads(env, run, s) && !Correct(s)
  {
    run, s := FirstRequest(env);
    run, s := Then(env, run, s, ServerReceives);
    run, s := Then(env, run, s, DuplicateAck(0));
    assert s.toClient == [Ack(0, true, 0), Ack(0, true, 0)];
    run, s := StaleAckEndsNextSend(env, run, s);
  }

  lemma DuplicatedRequestBreaks(env: Environment) returns (run: seq<Event>, s: State)
    requires env.duplicatesRequests
    ensures Leads(env, run, s) && !Correct(s)
  {
    run, s := FirstRequest(env);
    run, s := Then(env, run, s, DuplicateRequest(0));
    assert s.toServer == [Request(0, 0, 0), Request(0, 0, 0)];
    run, s := Then(env, run, s, ServerReceives);
    run, s := Then(env, run, s, ServerReceives);
    assert s.toClient == [Ack(0, true, 0), Ack(0, true, 0)];
    run, s := StaleAckEndsNextSend(env, run, s);
  }

  lemma LateTimeoutBreaks(env: Environment) returns (run: seq<Event>, s: State)
    requires env.late
    ensures Leads(env, run, s) && !Correct(s)
  {
    run, s := FirstRequest(env);
    run, s := Then(env, run, s, Timeout(false));
    assert s.toServer == [Request(0, 0, 0), Request(0, 0, 0)];
    run, s := Then(env, run, s, ServerReceives);
    run, s := Then(env, run, s, ServerReceives);
    assert s.toClient == [Ack(0, true, 0), Ack(0, true, 0)];
    run, s := StaleAckEndsNextSend(env, run, s);
  }

  /**
   Every run over a network is correct exactly when the network neither duplicates requests
   nor acks nor delivers later than the one-second timeout. Loss and reconnects are harmless.
   */
  lemma AlwaysCorrectIffPrompt(env: Environment)
    ensures AlwaysCorrect(env) <==> Prompt(env)
  {
    if Prompt(env) {
      forall run: seq<Event> | Legal(env, Init(), run)
        ensures Correct(Exec(env, Init(), run))
      {
        PromptRun(env, Init(), run);
        MatchedRunsAreCorrect(env, run);
      }
    } else {
      var run, s;
      if env.duplicatesAcks {
        run, s := DuplicatedAckBreaks(env);
      } else if env.duplicatesRequests {
        run, s := DuplicatedRequestBreaks(env);
      } else {
        run, s := LateTimeoutBreaks(env);
      }
    }
  }

  // ----------------------------------------------- the wrap skips 256 payloads

  /** n stale acks for request 0 are waiting. */
  predicate Stale(s: State, j: nat, n: nat) {
    && s.phase.Idle? && s.up && s.toServer == [] && s.expected == 1
    && s.sequenceNumber == (j + 1) % 256 && s.sends == j + 1
    && |s.toClient| == n && (forall i :: 0 <= i < n ==> s.toClient[i].noError)
    && |s.transmitted| == j + 1 && (forall k :: 0 <= k <= j ==> s.transmitted[k] == k)
    && s.delivered == [0]
  }

  lemma {:induction false} ManyDuplicates(env: Environment, n: nat) returns (run: seq<Event>, s: State)
    requires env.duplicatesAcks
    ensures Leads(env, run, s) && Stale(s, 0, n)
  {
    var r0, s0 := FirstRequest(env);
    run, s := Then(env, r0, s0, ServerReceives);
    var i := 0;
    while i < n
      invariant 0 <= i <= n
      invariant Leads(env, run, s)
      invariant s.phase == Waiting(1, 0, 0) && s.up && s.toServer == [] && s.expected == 1
      invariant s.sequenceNumber == 0 && s.sends == 1 && s.transmitted == [0] && s.delivered == [0]
      invariant |s.toClient| == i + 1 && forall k :: 0 <= k < |s.toClient| ==> s.toClient[k].noError
    {
      var before := s;
      run, s := Then(env, run, s, DuplicateAck(0));
      DoubleIndices(before.toClient, 0);
      i := i + 1;
    }
    run, s := Then(env, run, s, ClientReceivesAck);
  }

  /** A stale ack lets one more send return with its request lost. */
  lemma OneStaleRound(env: Environment, run0: seq<Event>, s0: State, j: nat, n: nat) returns (run: seq<Event>, s: State)
    requires Leads(env, run0, s0) && Stale(s0, j, n) && n > 0
    ensures Leads(env, run, s) && Stale(s, j + 1, n - 1) && j + 1 in s.returned
  {
    run, s := Then(env, run0, s0, StartSend);
    assert |s.toServer| == 1 && s.transmitted == s0.transmitted + [j + 1];
    run, s := Then(env, run, s, LoseRequest(0));
    run, s := Then(env, run, s, ClientReceivesAck);
  }

  /**
   256 stale acks let 256 sends return undelivered, after which the counter has wrapped and
   the next request is taken for the one the server still waits for.
   */
  lemma WrapSkipsPayloads(env: Environment) returns (run: seq<Event>, s: State)
    requires env.duplicatesAcks
    ensures Leads(env, run, s)
    ensures s.delivered == [0, 257] && |s.transmitted| == 258 && !(s.delivered <= s.transmitted)
  {
    run, s := ManyDuplicates(env, 256);
    var j := 0;
    while j < 256
      invariant 0 <= j <= 256
      invariant Leads(env, run, s) && Stale(s, j, 256 - j)
    {
      run, s := OneStaleRound(env, run, s, j, 256 - j);
      j := j + 1;
    }
    run, s := Then(env, run, s, StartSend);
    assert s.toServer[0] == Request(1, 257, 257);
    run, s := Then(env, run, s, ServerReceives);
    assert s.delivered[1] == 257 && s.transmitted[1] == 1;
  }
}
