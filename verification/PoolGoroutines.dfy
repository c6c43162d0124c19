/** What becomes of the goroutines of web/wasm/sshclient/client.go: handshakes that give up, the keepalive
    of every client, the wait of a command for its predecessor. */
module PoolGoroutines {
  import opened Common
  import opened PoolEviction
  import opened PoolLeftovers
  import opened PoolRuns
  import PF = PoolFates
  import PM = PoolModel

  // ------------------------------------------------------------------ handshakes that give up

  // The step by which a handshake ends without a client: it notices that its record was cancelled, or
  // fails.
  ghost predicate GivesUp(s: State, t: nat, outcome: Outcome) {
    && t < |s.threads| && s.threads[t].Handshake? && s.threads[t].r < |s.shared.recs|
    && var at := s.threads[t].at;
       if at == Queued || at == AwaitingCert then outcome.Cancelled? && s.shared.recs[s.threads[t].r].cancelled
       else if at == Checking then s.shared.recs[s.threads[t].r].cancelled
       else !outcome.Fine? && (at == Dialing || at == AwaitingInfo || at == Negotiating)
  }

  lemma GivingUpSpends(s: State, t: nat, outcome: Outcome)
    requires Inv(s) && GivesUp(s, t, outcome)
    ensures Spent(Step(s, Advance(t, outcome)), s.threads[t].r)
  {
    var r, s' := s.threads[t].r, Step(s, Advance(t, outcome));
    HandshakeMoves(s, t, outcome);
    assert Unconnected(s.threads[t]);
    assert !Unconnected(s'.threads[t]);
    forall u | 0 <= u < |s'.threads| && Unconnected(s'.threads[u]) ensures s'.threads[u].r != r {
      assert u < |s.threads| && u != t && s.threads[u] == s'.threads[u];
    }
  }

  lemma StepSpends(s: State, e: Event, r: nat)
    requires Inv(s) && Removed(s.shared) && Spent(s, r)
    ensures Spent(Step(s, e), r)
  {
    NoneUnderWay(s, e, r);
    if e.Advance? {
      AdvanceWorks(s, e.t, e.outcome, r);
      EstablishesFromAHandshake(s, e, r);
    } else if !e.StartExec? {
      CallTakesOut(s.shared, e);
      assert Step(s, e).shared == Call(s.shared, e);
    }
  }

  ghost predicate SpentRun(es: seq<Event>, r: nat) {
    Spent(Run(es), r)
  }

  lemma SpentRunGoesOn(es: seq<Event>, e: Event, r: nat)
    requires SpentRun(es, r)
    ensures SpentRun(es + [e], r)
  {
    RunKeepsInv(es);
    RunRemoves(es);
    StepSpends(Run(es), e, r);
    PF.OneMore(es, e);
  }

  lemma {:induction false} Lasts(p: seq<Event> -> bool, es: seq<Event>, more: seq<Event>)
    requires p(es) && forall run, e :: p(run) ==> p(run + [e])
    ensures p(es + more)
  {
    if more == [] {
      assert es + more == es;
    } else {
      Lasts(p, es, more[..|more| - 1]);
      assert es + more[..|more| - 1] + [more[|more| - 1]] == es + more;
    }
  }

  lemma StaysSpent(es: seq<Event>, more: seq<Event>, r: nat)
    requires SpentRun(es, r)
    ensures SpentRun(es + more, r)
  {
    var p := run => SpentRun(run, r);
    forall run, e | p(run) ensures p(run + [e]) {
      SpentRunGoesOn(run, e, r);
    }
    Lasts(p, es, more);
  }

  /** A handshake that gives up, because it fails or because it notices while it queues, before it dials or
      while it waits for the certificate that its record was cancelled, has ended for good: whatever happens
      afterwards, that record never gets a client. */
  lemma WhoGivesUpIsDone(es: seq<Event>, t: nat, outcome: Outcome, more: seq<Event>)
    requires GivesUp(Run(es), t, outcome)
    ensures var r, s := Run(es).threads[t].r, Run(es + [Advance(t, outcome)] + more);
      r < |s.shared.recs| && s.shared.recs[r].client.None?
  {
    RunKeepsInv(es);
    GivingUpSpends(Run(es), t, outcome);
    PF.OneMore(es, Advance(t, outcome));
    StaysSpent(es + [Advance(t, outcome)], more, Run(es).threads[t].r);
    assert SpentRun(es + [Advance(t, outcome)] + more, Run(es).threads[t].r);
  }

  // ------------------------------------------------------------------ keepalives

  predicate Probes(th: Thread, r: nat, client: nat) {
    th.Keepalive? && th.r == r && th.client == client && !th.over
  }

  ghost predicate Probed(s: State, r: nat, client: nat) {
    exists t :: 0 <= t < |s.threads| && Probes(s.threads[t], r, client)
  }

  // Every client has a number of its own and a keepalive of its own.
  ghost predicate Keepalives(s: State) {
    && (forall t :: 0 <= t < |s.threads| && s.threads[t].Keepalive? ==> s.threads[t].client < s.clients)
    && (forall t, u :: 0 <= t < u < |s.threads| && s.threads[t].Keepalive? && s.threads[u].Keepalive? ==>
          s.threads[t].client != s.threads[u].client)
    && (forall r :: 0 <= r < |s.shared.recs| && s.shared.recs[r].client.Some? ==>
          Probed(s, r, s.shared.recs[r].client.value))
  }

  // Threads but for one that is no keepalive, or no keepalive any more that is needed.
  lemma KeepaliveElsewhere(s: State, s': State, t: nat)
    requires Keepalives(s) && t < |s.threads| == |s'.threads| && s'.clients == s.clients
    requires forall u :: 0 <= u < |s.threads| && u != t ==> s'.threads[u] == s.threads[u]
    requires s'.threads[t].Keepalive? <==> s.threads[t].Keepalive?
    requires s.threads[t].Keepalive? ==> s'.threads[t].client == s.threads[t].client
    requires |s'.shared.recs| == |s.shared.recs|
    requires forall r :: 0 <= r < |s.shared.recs| && s'.shared.recs[r].client.Some? ==>
      s'.shared.recs[r].client == s.shared.recs[r].client &&
      (Probes(s.threads[t], r, s.shared.recs[r].client.value) ==>
         Probes(s'.threads[t], r, s.shared.recs[r].client.value))
    ensures Keepalives(s')
  {
    forall r | 0 <= r < |s'.shared.recs| && s'.shared.recs[r].client.Some?
      ensures Probed(s', r, s'.shared.recs[r].client.value)
    {
      var c := s.shared.recs[r].client.value;
      assert Probed(s, r, c);
      var u :| 0 <= u < |s.threads| && Probes(s.threads[u], r, c);
      assert Probes(s'.threads[u], r, c);
    }
  }

  lemma HandshakeLeavesClients(s: State, t: nat, outcome: Outcome)
    requires t < |s.threads| && s.threads[t].Handshake? && s.threads[t].r < |s.shared.recs|
    requires !(s.threads[t].at.Negotiating? && outcome.Fine?)
    ensures var s' := StepHandshake(s, t, s.threads[t].r, s.threads[t].at, outcome);
      && |s'.threads| == |s.threads| && s'.clients == s.clients && |s'.shared.recs| == |s.shared.recs|
      && forall r :: 0 <= r < |s.shared.recs| ==> s'.shared.recs[r].client == s.shared.recs[r].client
  {
  }

  lemma HandshakeKeepsAlive(s: State, t: nat, outcome: Outcome)
    requires Inv(s) && Keepalives(s) && t < |s.threads| && s.threads[t].Handshake?
    requires !(s.threads[t].at.Negotiating? && outcome.Fine?)
    ensures Keepalives(StepHandshake(s, t, s.threads[t].r, s.threads[t].at, outcome))
  {
    HandshakeLeavesClients(s, t, outcome);
    HandshakeMoves(s, t, outcome);
    KeepaliveElsewhere(s, StepHandshake(s, t, s.threads[t].r, s.threads[t].at, outcome), t);
  }

  lemma EstablishKeepsAlive(s: State, t: nat)
    requires Inv(s) && Keepalives(s) && t < |s.threads| && s.threads[t].Handshake? && s.threads[t].at.Negotiating?
    ensures Keepalives(StepHandshake(s, t, s.threads[t].r, Negotiating, Fine))
  {
    var q, s' := s.threads[t].r, StepHandshake(s, t, s.threads[t].r, Negotiating, Fine);
    assert Probes(s'.threads[|s.threads|], q, s.clients);
    forall r | 0 <= r < |s'.shared.recs| && s'.shared.recs[r].client.Some?
      ensures Probed(s', r, s'.shared.recs[r].client.value)
    {
      if r != q {
        var c := s.shared.recs[r].client.value;
        assert Probed(s, r, c);
        var u :| 0 <= u < |s.threads| && Probes(s.threads[u], r, c);
        assert u != t && s'.threads[u] == s.threads[u];
      }
    }
  }

  lemma KeepaliveKeepsAlive(s: State, t: nat, outcome: Outcome)
    requires Inv(s) && Keepalives(s) && t < |s.threads| && s.threads[t].Keepalive? && !s.threads[t].over
    ensures var th := s.threads[t]; Keepalives(StepKeepalive(s, t, th.r, th.client, th.probing, outcome))
  {
    var th := s.threads[t];
    KeepaliveElsewhere(s, StepKeepalive(s, t, th.r, th.client, th.probing, outcome), t);
  }

  lemma ExecKeepsAlive(s: State, t: nat, outcome: Outcome)
    requires Inv(s) && Keepalives(s) && t < |s.threads| && s.threads[t].Exec?
    ensures Keepalives(StepExec(s, t, s.threads[t].r, s.threads[t].step, outcome))
  {
    var r, s' := s.threads[t].r, StepExec(s, t, s.threads[t].r, s.threads[t].step, outcome);
    ExecMoves(s, t, outcome);
    ExecWorks(s, t, r, s.threads[t].step, outcome);
    KeepaliveElsewhere(s, s', t);
  }

  // Goroutines as they were, and perhaps one more that is no keepalive; no record with another client.
  lemma KeptAlive(s: State, s': State)
    requires Keepalives(s) && s'.clients == s.clients
    requires |s.threads| <= |s'.threads| && s'.threads[..|s.threads|] == s.threads
    requires forall t :: |s.threads| <= t < |s'.threads| ==> !s'.threads[t].Keepalive?
    requires forall r :: 0 <= r < |s'.shared.recs| && s'.shared.recs[r].client.Some? ==>
      r < |s.shared.recs| && s.shared.recs[r].client == s'.shared.recs[r].client
    ensures Keepalives(s')
  {
    assert forall t :: 0 <= t < |s.threads| ==> s'.threads[t] == s.threads[t];
    forall r | 0 <= r < |s'.shared.recs| && s'.shared.recs[r].client.Some?
      ensures Probed(s', r, s'.shared.recs[r].client.value)
    {
      var c := s.shared.recs[r].client.value;
      assert Probed(s, r, c);
      var u :| 0 <= u < |s.threads| && Probes(s.threads[u], r, c);
      assert Probes(s'.threads[u], r, c);
    }
  }

  lemma NoOtherClient(a: PM.Shared, b: PM.Shared)
    requires TakesOut(a, b)
    ensures forall r :: 0 <= r < |b.recs| && b.recs[r].client.Some? ==> r < |a.recs| && a.recs[r].client == b.recs[r].client
  {
  }

  lemma CallKeepsAlive(s: State, e: Event)
    requires Inv(s) && Removed(s.shared) && Keepalives(s) && !e.Advance?
    ensures Keepalives(Step(s, e))
  {
    if !e.StartExec? {
      CallTakesOut(s.shared, e);
      assert Step(s, e).shared == Call(s.shared, e);
      NoOtherClient(s.shared, Step(s, e).shared);
    }
    KeptAlive(s, Step(s, e));
  }

  lemma StepKeepsAlive(s: State, e: Event)
    requires Inv(s) && Removed(s.shared) && Keepalives(s)
    ensures Keepalives(Step(s, e))
  {
    if !e.Advance? {
      CallKeepsAlive(s, e);
    } else if e.t < |s.threads| {
      match s.threads[e.t]
      case Handshake(_, at) =>
        if at.Negotiating? && e.outcome.Fine? {
          EstablishKeepsAlive(s, e.t);
        } else {
          HandshakeKeepsAlive(s, e.t, e.outcome);
        }
      case Keepalive(_, _, _, over) =>
        if !over {
          KeepaliveKeepsAlive(s, e.t, e.outcome);
        }
      case Exec(_, _) => ExecKeepsAlive(s, e.t, e.outcome);
    }
  }

  lemma {:induction false} RunKeepsAlive(es: seq<Event>)
    ensures Keepalives(Run(es))
  {
    if es != [] {
      RunKeepsAlive(es[..|es| - 1]);
      RunKeepsInv(es[..|es| - 1]);
      RunRemoves(es[..|es| - 1]);
      StepKeepsAlive(Run(es[..|es| - 1]), es[|es| - 1]);
    }
  }

  /** In every run each client that a record has is probed by exactly one keepalive that has not ended. */
  lemma EveryClientIsProbed(es: seq<Event>, r: nat)
    requires r < |Run(es).shared.recs| && Run(es).shared.recs[r].client.Some?
    ensures exists t :: 0 <= t < |Run(es).threads| && Probes(Run(es).threads[t], r, Run(es).shared.recs[r].client.value)
    ensures forall t, u ::
      0 <= t < u < |Run(es).threads| && Probes(Run(es).threads[t], r, Run(es).shared.recs[r].client.value) ==>
        !Probes(Run(es).threads[u], r, Run(es).shared.recs[r].client.value)
  {
    RunKeepsAlive(es);
    assert Probed(Run(es), r, Run(es).shared.recs[r].client.value);
  }

  lemma KeepaliveStepEnds(s: State, t: nat, outcome: Outcome)
    requires t < |s.threads| && s.threads[t].Keepalive? && s.threads[t].r < |s.shared.recs|
    ensures var th, s' := s.threads[t], Step(s, Advance(t, outcome));
      && t < |s'.threads| && s'.threads[t].Keepalive?
      && (th.over ==> s' == s)
      && (!th.over ==>
            (s'.threads[t].over <==> if th.probing then outcome != Fine else s.shared.recs[th.r].client != Some(th.client)))
      && (!th.over && !s'.threads[t].over ==> s'.threads[t].probing == !th.probing)
  {
  }

  /** A keepalive ends exactly when a tick finds that its record no longer has its client, or a probe fails;
      and what has ended stays as it is. */
  lemma KeepaliveEndsExactly(es: seq<Event>, t: nat, outcome: Outcome)
    requires t < |Run(es).threads| && Run(es).threads[t].Keepalive?
    ensures var s := Run(es);
      var th, s' := s.threads[t], Step(s, Advance(t, outcome));
      && th.r < |s.shared.recs| && t < |s'.threads| && s'.threads[t].Keepalive?
      && (th.over ==> s' == s)
      && (!th.over ==>
            (s'.threads[t].over <==> if th.probing then outcome != Fine else s.shared.recs[th.r].client != Some(th.client)))
      && (!th.over && !s'.threads[t].over ==> s'.threads[t].probing == !th.probing)
  {
    RunKeepsInv(es);
    KeepaliveStepEnds(Run(es), t, outcome);
  }

  // ------------------------------------------------------------------ a command's wait

  lemma PollsStep(s: State, e: Event, t: nat)
    requires ThreadsInRange(s) && t < |Step(s, e).threads|
    requires Step(s, e).threads[t].Exec? && Step(s, e).threads[t].step.Polling?
    ensures var n := Step(s, e).threads[t].step.n;
      n == 0 || (t < |s.threads| && s.threads[t].Exec? && s.threads[t].step.Polling? &&
                 (s.threads[t].step.n == n || (s.threads[t].step.n == n - 1 && n <= 300)))
  {
    if e.Advance? && e.t < |s.threads| {
      match s.threads[e.t]
      case Handshake(_, _) => HandshakeMoves(s, e.t, e.outcome);
      case Keepalive(_, _, _, _) =>
      case Exec(_, _) => ExecMoves(s, e.t, e.outcome);
    }
  }

  /** A command waits for the one before it, and for no more than 300 looks at it in every run; then, and as
      soon as nothing runs, it goes on. */
  lemma {:induction false} WaitsFor300Looks(es: seq<Event>, t: nat)
    requires t < |Run(es).threads| && Run(es).threads[t].Exec? && Run(es).threads[t].step.Polling?
    ensures Run(es).threads[t].step.n <= 300
    decreases |es|
  {
    RunKeepsInv(es[..|es| - 1]);
    PollsStep(Run(es[..|es| - 1]), es[|es| - 1], t);
    if Run(es).threads[t].step.n != 0 {
      WaitsFor300Looks(es[..|es| - 1], t);
    }
  }

  lemma PollGoesOn(s: State, t: nat, r: nat, n: nat, outcome: Outcome)
    requires t < |s.threads| && s.threads[t] == Exec(r, Polling(n)) && r < |s.shared.recs| && n <= 300
    ensures var s' := Step(s, Advance(t, outcome));
      && t < |s'.threads| && s'.shared == s.shared
      && (s'.threads[t] == Exec(r, Acquiring) <==> !s.shared.recs[r].executing || n == 300)
  {
  }

  lemma GoesOnWhenFree(es: seq<Event>, t: nat, r: nat, n: nat, outcome: Outcome)
    requires t < |Run(es).threads| && Run(es).threads[t] == Exec(r, Polling(n))
    ensures var s := Run(es);
      var s' := Step(s, Advance(t, outcome));
      && r < |s.shared.recs| && t < |s'.threads| && s'.shared == s.shared
      && (s'.threads[t] == Exec(r, Acquiring) <==> !s.shared.recs[r].executing || n == 300)
  {
    var s := Run(es);
    RunKeepsInv(es);
    WaitsFor300Looks(es, t);
    PollGoesOn(s, t, r, n, outcome);
  }

  // ------------------------------------------------------------------ what would be a panic

  /** Sending on a closed channel, or closing one again, is what the runs above never do: it is just these
      sections that send and close. */
  lemma PanicsExactly(s: PM.Shared, r: nat, ch: nat)
    requires !s.panicked && r < |s.recs| && s.recs[r].stdin == Some(ch) && ch < |s.closes|
    ensures PM.CloseStdin(s, r).panicked <==> s.closes[ch] > 0
    ensures PM.CloseStdin(s, r).closes == s.closes[ch := s.closes[ch] + 1]
    ensures PM.Finish(s, r).panicked <==> s.closes[ch] > 0
    ensures s.active in s.pool && s.pool[s.active] == r ==> (PM.SendInput(s).panicked <==> s.closes[ch] > 0)
    ensures PM.CloseCancel(s, r).panicked <==> !s.recs[r].cancelled && s.recs[r].cancelCloses > 0
  {
  }

  // ------------------------------------------------------------------ the shown host's stamp

  // The latest Connect of the run.
  function LatestConnect(es: seq<Event>): Option<(string, Time)> {
    if es == [] then None
    else
      var e := es[|es| - 1];
      if e.Connect? then Some((e.key, e.now)) else LatestConnect(es[..|es| - 1])
  }

  lemma EnterStampsItsHost(s: PM.Shared, key: string, now: Time)
    requires PM.Safe(s)
    ensures var s1 := PM.Enter(s, key, now);
      key in s1.pool && s1.pool[key] < |s1.recs| && s1.recs[s1.pool[key]].lastActive == now
  {
    EnterActivates(s, key, now);
    PM.EnterIsSafe(s, key, now);
    PM.DropIsSafe(s, key);
  }

  lemma ConnectStampsItsHost(es: seq<Event>, key: string, now: Time)
    ensures var s' := Step(Run(es), Connect(key, now)).shared;
      s'.active == key && key in s'.pool && s'.pool[key] < |s'.recs| && s'.recs[s'.pool[key]].lastActive == now
  {
    var s := Run(es).shared;
    RunKeepsInv(es);
    EnterStampsItsHost(s, key, now);
    PM.EnterIsSafe(s, key, now);
    ConnectShowsItsHost(es, key, now);
    var s1 := PM.Enter(s, key, now);
    PM.CloseAllIsSafe(s1, PM.InKeyOrder(Evicted(PM.SlotsOf(s1), PM.SweepQuery(s1, now))));
  }

  lemma OthersLeaveTheShown(s: State, e: Event)
    requires Inv(s) && !e.Connect? && Step(s, e).shared.active != ""
    requires Step(s, e).shared.active in Step(s, e).shared.pool
    ensures var a, b := s.shared, Step(s, e).shared;
      && b.active == a.active && b.active in a.pool && b.pool[b.active] == a.pool[b.active] < |a.recs|
      && a.pool[b.active] < |b.recs| && b.recs[b.pool[b.active]].lastActive == a.recs[a.pool[b.active]].lastActive
  {
    if e.Advance? {
      AdvanceIsNotShowing(s, e.t, e.outcome);
    } else if !e.StartExec? {
      CallKeepsStamps(s.shared, e);
      OthersShowNothing(s.shared, e);
      assert Step(s, e).shared == Call(s.shared, e);
    }
  }

  lemma OthersShowNothing(s: PM.Shared, e: Event)
    requires PM.Safe(s) && !e.StartExec? && !e.Advance? && !e.Connect?
    ensures Call(s, e).active == s.active || Call(s, e).active == ""
  {
    match e
    case Disconnect(key) => PM.DropIsSafe(s, key);
    case DisconnectAll(order) => PM.CloseAllIsSafe(s, order);
    case DisconnectPending => PM.CloseAllIsSafe(s, PM.InKeyOrder(Pending(PM.SlotsOf(s))));
    case SendInput =>
    case Sweep(now) => PM.CloseAllIsSafe(s, PM.InKeyOrder(Evicted(PM.SlotsOf(s), PM.SweepQuery(s, now))));
  }

  /** The shown host, if pooled, is that of the latest Connect, and its stamp is when that came. */
  lemma {:induction false} ShownIsStamped(es: seq<Event>)
    requires var s := Run(es).shared; s.active != "" && s.active in s.pool
    ensures var s := Run(es).shared;
      s.pool[s.active] < |s.recs| && LatestConnect(es) == Some((s.active, s.recs[s.pool[s.active]].lastActive))
  {
    if es != [] {
      var init, e := es[..|es| - 1], es[|es| - 1];
      RunKeepsInv(init);
      if e.Connect? {
        ConnectStampsItsHost(init, e.key, e.now);
      } else {
        OthersLeaveTheShown(Run(init), e);
        ShownIsStamped(init);
      }
    }
  }
}
