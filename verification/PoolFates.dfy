/** What becomes of every stdin channel over whole runs of the pool (web/wasm/sshclient/client.go). */
module PoolFates {
  import opened Common
  import opened PoolEviction
  import opened PoolRuns
  import PM = PoolModel

  // ------------------------------------------------------------------ channels

  ghost predicate Stored(s: PM.Shared, ch: nat) {
    exists r :: 0 <= r < |s.recs| && s.recs[r].stdin == Some(ch)
  }

  // Open, and in no record: nothing can ever close it.
  ghost predicate Lost(s: PM.Shared, ch: nat) {
    ch < |s.closes| && s.closes[ch] == 0 && !Stored(s, ch)
  }

  ghost predicate SameLost(a: PM.Shared, b: PM.Shared) {
    forall ch: nat :: Lost(a, ch) <==> Lost(b, ch)
  }

  // The stored channels are open and stored once.
  ghost predicate Owned(s: PM.Shared) {
    && PM.OwnChannels(s.recs)
    && (forall r :: 0 <= r < |s.recs| && s.recs[r].stdin.Some? ==>
          s.recs[r].stdin.value < |s.closes| && s.closes[s.recs[r].stdin.value] == 0)
  }

  lemma SafeIsOwned(s: PM.Shared)
    requires PM.Safe(s)
    ensures Owned(s)
  {
    forall r | 0 <= r < |s.recs| ensures PM.RecInv(s, s.recs[r]) {
    }
  }

  lemma SetKeepsLost(s: PM.Shared, r: nat, c: PM.Rec)
    requires r < |s.recs| && c.stdin == s.recs[r].stdin
    ensures SameLost(s, PM.Set(s, r, c)) && (Owned(s) ==> Owned(PM.Set(s, r, c)))
  {
    var t := PM.Set(s, r, c);
    forall ch: nat ensures Stored(s, ch) <==> Stored(t, ch) {
      if i :| 0 <= i < |s.recs| && s.recs[i].stdin == Some(ch) {
        assert t.recs[i].stdin == Some(ch);
      }
    }
  }

  lemma SameRecsSameLost(a: PM.Shared, b: PM.Shared)
    requires a.recs == b.recs && a.closes == b.closes
    ensures SameLost(a, b) && (Owned(a) ==> Owned(b))
  {
    forall ch: nat ensures Stored(a, ch) <==> Stored(b, ch) {
    }
  }

  lemma CloseStdinKeepsLost(s: PM.Shared, r: nat)
    requires Owned(s) && r < |s.recs|
    ensures SameLost(s, PM.CloseStdin(s, r))
  {
    var t := PM.CloseStdin(s, r);
    if s.recs[r].stdin.Some? {
      var gone := s.recs[r].stdin.value;
      assert Stored(s, gone);
      forall ch: nat | ch != gone ensures Stored(s, ch) <==> Stored(t, ch) {
        if i :| 0 <= i < |s.recs| && s.recs[i].stdin == Some(ch) {
          assert t.recs[i].stdin == Some(ch);
        }
      }
    }
  }

  lemma CloseConnKeepsLost(s: PM.Shared, r: nat)
    requires Owned(s) && r < |s.recs|
    ensures SameLost(s, PM.CloseConn(s, r))
  {
    var c := s.recs[r];
    var s0 := PM.CloseCancel(s, r);
    if !c.cancelled {
      SetKeepsLost(s, r, c.(cancelled := true, cancelCloses := c.cancelCloses + 1));
      SameRecsSameLost(PM.Set(s, r, c.(cancelled := true, cancelCloses := c.cancelCloses + 1)), s0);
    }
    var s1 := PM.CloseStdin(s0, r);
    CloseStdinKeepsLost(s0, r);
    SetKeepsLost(s1, r, s1.recs[r].(session := None, client := None, transport := None, connected := false,
                                    connecting := false));
  }

  lemma DropKeepsLost(s: PM.Shared, key: string)
    requires PM.Safe(s)
    ensures SameLost(s, PM.Drop(s, key))
  {
    SafeIsOwned(s);
    if PM.Pooled(s, key) {
      CloseConnKeepsLost(s, s.pool[key]);
      SameRecsSameLost(PM.CloseConn(s, s.pool[key]), PM.Drop(s, key));
    }
  }

  lemma {:induction false} CloseAllKeepsLost(s: PM.Shared, keys: seq<string>)
    requires PM.Safe(s)
    ensures SameLost(s, PM.CloseAll(s, keys))
  {
    if keys != [] {
      var init := keys[..|keys| - 1];
      PM.CloseAllIsSafe(s, init);
      CloseAllKeepsLost(s, init);
      DropKeepsLost(PM.CloseAll(s, init), keys[|keys| - 1]);
    }
  }

  lemma TouchKeepsLost(s: PM.Shared, key: string, now: Time)
    ensures SameLost(s, PM.Touch(s, key, now))
  {
    if PM.Pooled(s, key) {
      SetKeepsLost(s, s.pool[key], s.recs[s.pool[key]].(lastActive := now));
    }
  }

  lemma MakeActiveKeepsLost(s: PM.Shared, key: string, now: Time)
    ensures SameLost(s, PM.MakeActive(s, key, now))
  {
    TouchKeepsLost(s, s.active, now);
    var s1 := if s.active != key then PM.Touch(s, s.active, now) else s;
    SameRecsSameLost(s1, s1.(active := key));
    TouchKeepsLost(s1.(active := key), key, now);
  }

  lemma AddKeepsLost(s: PM.Shared, key: string, now: Time)
    ensures SameLost(s, PM.Add(s, key, now))
  {
    var t := PM.Add(s, key, now);
    forall ch: nat ensures Stored(s, ch) <==> Stored(t, ch) {
      if i :| 0 <= i < |s.recs| && s.recs[i].stdin == Some(ch) {
        assert t.recs[i].stdin == Some(ch);
      }
    }
  }

  lemma ConnectKeepsLost(s: PM.Shared, key: string, now: Time)
    requires PM.Safe(s)
    ensures SameLost(s, PM.Connect(s, key, now))
  {
    var entered := PM.Enter(s, key, now);
    if PM.Reuses(s, key, now) {
      MakeActiveKeepsLost(s, key, now);
    } else {
      var dropped := PM.Drop(s, key);
      DropKeepsLost(s, key);
      AddKeepsLost(dropped, key, now);
      MakeActiveKeepsLost(PM.Add(dropped, key, now), key, now);
    }
    PM.EnterIsSafe(s, key, now);
    CloseAllKeepsLost(entered, PM.InKeyOrder(Evicted(PM.SlotsOf(entered), PM.SweepQuery(entered, now))));
  }

  lemma CallKeepsLost(s: PM.Shared, e: Event)
    requires PM.Safe(s) && !e.StartExec? && !e.Advance?
    ensures SameLost(s, Call(s, e))
  {
    match e
    case Connect(key, now) => ConnectKeepsLost(s, key, now);
    case Disconnect(key) =>
      DropKeepsLost(s, key);
      SameRecsSameLost(PM.Drop(s, key), PM.Disconnect(s, key));
    case DisconnectAll(order) =>
      CloseAllKeepsLost(s, order);
      SameRecsSameLost(PM.CloseAll(s, order), PM.DisconnectAll(s, order));
    case DisconnectPending => CloseAllKeepsLost(s, PM.InKeyOrder(Pending(PM.SlotsOf(s))));
    case SendInput => SameRecsSameLost(s, PM.SendInput(s));
    case Sweep(now) => CloseAllKeepsLost(s, PM.InKeyOrder(Evicted(PM.SlotsOf(s), PM.SweepQuery(s, now))));
  }

  // Publishing on a record whose stdin is still set loses exactly that channel.
  lemma PublishLoses(s: PM.Shared, r: nat, client: nat, ch: nat)
    requires Owned(s) && r < |s.recs| && PM.CanPublish(s, r, client)
    ensures Lost(PM.Publish(s, r, client), ch) <==> Lost(s, ch) || s.recs[r].stdin == Some(ch)
  {
    var t := PM.Publish(s, r, client);
    assert t.recs[r].stdin == Some(|s.closes|);
    if i :| 0 <= i < |s.recs| && s.recs[i].stdin == Some(ch) {
      assert i != r ==> t.recs[i].stdin == Some(ch);
    }
    if ch == |s.closes| {
      assert Stored(t, ch);
    }
  }

  // The channel a step overwrites: that of the record on which it publishes another.
  ghost function Overwrites(s: State, e: Event): set<nat> {
    if e.Advance? && e.outcome.Fine? && e.t < |s.threads| && s.threads[e.t].Exec? && s.threads[e.t].step.Publishing? &&
       s.threads[e.t].r < |s.shared.recs| && s.shared.recs[s.threads[e.t].r].stdin.Some? &&
       PM.CanPublish(s.shared, s.threads[e.t].r, s.threads[e.t].step.client)
    then {s.shared.recs[s.threads[e.t].r].stdin.value}
    else {}
  }

  lemma HandshakeLosesNothing(s: State, t: nat, outcome: Outcome)
    requires t < |s.threads| && s.threads[t].Handshake? && s.threads[t].r < |s.shared.recs|
    ensures SameLost(s.shared, StepHandshake(s, t, s.threads[t].r, s.threads[t].at, outcome).shared)
  {
    var r := s.threads[t].r;
    SetKeepsLost(s.shared, r, s.shared.recs[r].(connecting := false));
    SetKeepsLost(s.shared, r, s.shared.recs[r].(transport := Some(s.transports)));
    SetKeepsLost(s.shared, r, s.shared.recs[r].(client := Some(s.clients), connected := true, connecting := false));
  }

  lemma KeepaliveLosesNothing(s: State, t: nat, outcome: Outcome)
    requires t < |s.threads| && s.threads[t].Keepalive? && s.threads[t].r < |s.shared.recs|
    ensures var th := s.threads[t];
      SameLost(s.shared, StepKeepalive(s, t, th.r, th.client, th.probing, outcome).shared)
  {
    var r := s.threads[t].r;
    SetKeepsLost(s.shared, r, s.shared.recs[r].(connected := false, client := None, transport := None));
  }

  lemma FinishLosesNothing(s: PM.Shared, r: nat)
    requires Owned(s) && r < |s.recs|
    ensures SameLost(s, PM.Finish(s, r))
  {
    CloseStdinKeepsLost(s, r);
    var s1 := PM.CloseStdin(s, r);
    SetKeepsLost(s1, r, s1.recs[r].(switching := false, session := None));
  }

  // Exec's sections other than the publishing one, on the shared state.
  lemma SectionsLoseNothing(s: PM.Shared, r: nat)
    requires Owned(s) && r < |s.recs|
    ensures SameLost(s, PM.Preempt(s, r)) && SameLost(s, PM.Acquire(s, r)) && SameLost(s, PM.Finish(s, r))
    ensures SameLost(s, PM.Teardown(s, r)) && SameLost(s, PM.Leave(s, r))
  {
    var c := s.recs[r];
    FinishLosesNothing(s, r);
    SetKeepsLost(s, r, c.(switching := true));
    SetKeepsLost(s, r, c.(executing := true));
    SetKeepsLost(s, r, c.(connected := false, client := None, transport := None));
    SetKeepsLost(s, r, c.(executing := false));
  }

  lemma ExecSection(s: State, t: nat, outcome: Outcome)
    requires t < |s.threads| && s.threads[t].Exec? && s.threads[t].r < |s.shared.recs|
    requires !s.threads[t].step.Publishing?
    ensures var r := s.threads[t].r; var b := StepExec(s, t, r, s.threads[t].step, outcome).shared;
      b == s.shared || b == PM.Preempt(s.shared, r) || b == PM.Acquire(s.shared, r) || b == PM.Finish(s.shared, r) ||
      b == PM.Teardown(s.shared, r) || b == PM.Leave(s.shared, r)
  {
  }

  lemma ExecLoses(s: State, t: nat, outcome: Outcome, ch: nat)
    requires t < |s.threads| && s.threads[t].Exec? && s.threads[t].r < |s.shared.recs| && Owned(s.shared)
    ensures Lost(StepExec(s, t, s.threads[t].r, s.threads[t].step, outcome).shared, ch) <==>
            Lost(s.shared, ch) || ch in Overwrites(s, Advance(t, outcome))
  {
    var r, step := s.threads[t].r, s.threads[t].step;
    if step.Publishing? {
      if outcome.Fine? && PM.CanPublish(s.shared, r, step.client) {
        PublishLoses(s.shared, r, step.client, ch);
      }
    } else {
      ExecSection(s, t, outcome);
      SectionsLoseNothing(s.shared, r);
    }
  }

  lemma StepLoses(s: State, e: Event, ch: nat)
    requires Inv(s)
    ensures Lost(Step(s, e).shared, ch) <==> Lost(s.shared, ch) || ch in Overwrites(s, e)
  {
    SafeIsOwned(s.shared);
    if e.Advance? {
      if e.t < |s.threads| {
        match s.threads[e.t]
        case Handshake(_, _) => HandshakeLosesNothing(s, e.t, e.outcome);
        case Keepalive(_, _, _, _) => KeepaliveLosesNothing(s, e.t, e.outcome);
        case Exec(_, _) => ExecLoses(s, e.t, e.outcome, ch);
      }
    } else if !e.StartExec? {
      CallKeepsLost(s.shared, e);
      assert Step(s, e).shared == Call(s.shared, e);
    }
  }

  // Every channel that was overwritten in a run.
  ghost function Overwritten(es: seq<Event>): set<nat> {
    if es == [] then {}
    else Overwritten(es[..|es| - 1]) + Overwrites(Run(es[..|es| - 1]), es[|es| - 1])
  }

  lemma {:induction false} LostIsOverwritten(es: seq<Event>, ch: nat)
    ensures Lost(Run(es).shared, ch) <==> ch in Overwritten(es)
  {
    if es != [] {
      LostIsOverwritten(es[..|es| - 1], ch);
      RunKeepsInv(es[..|es| - 1]);
      StepLoses(Run(es[..|es| - 1]), es[|es| - 1], ch);
    }
  }

  /** Every channel ever published is exactly one of these: closed, once; open and stored, in one record;
      or overwritten, by a session published on a record whose channel was still set, and then it is open
      and stored nowhere, for good. */
  lemma ChannelFates(es: seq<Event>, ch: nat)
    requires ch < |Run(es).shared.closes|
    ensures var s := Run(es).shared;
      && s.closes[ch] <= 1
      && (s.closes[ch] == 1 ==> !Stored(s, ch) && ch !in Overwritten(es))
      && (s.closes[ch] == 0 ==> (Stored(s, ch) <==> ch !in Overwritten(es)))
      && (forall r, q :: 0 <= r < q < |s.recs| && s.recs[r].stdin == Some(ch) ==> s.recs[q].stdin != Some(ch))
  {
    RunKeepsInv(es);
    SafeIsOwned(Run(es).shared);
    LostIsOverwritten(es, ch);
  }

  // ------------------------------------------------------------------ runs that get there

  lemma OneMore(es: seq<Event>, e: Event)
    ensures Run(es + [e]) == Step(Run(es), e)
    ensures Overwritten(es + [e]) == Overwritten(es) + Overwrites(Run(es), e)
  {
    assert (es + [e])[..|es|] == es;
  }

  // A handshake of the record pooled under a key, holding the semaphore.
  ghost predicate Shaking(s: State, t: nat, r: nat, key: string, at: HandshakeAt) {
    && t < |s.threads| && s.threads[t] == Handshake(r, at) && r < |s.shared.recs|
    && key in s.shared.pool && s.shared.pool[key] == r
    && !s.shared.recs[r].cancelled && !s.shared.recs[r].executing
  }

  function NextAt(at: HandshakeAt): HandshakeAt {
    match at
    case Queued => Checking
    case Checking => Dialing
    case Dialing => AwaitingInfo
    case AwaitingInfo => AwaitingCert
    case AwaitingCert => Negotiating
    case Negotiating => Unlocking
    case Unlocking => Finished
    case Finished => Finished
  }

  lemma ShakesOn(s: State, t: nat, r: nat, key: string, at: HandshakeAt)
    requires Shaking(s, t, r, key, at) && (at.Queued? ==> s.sem.None?)
    ensures Shaking(Step(s, Advance(t, Fine)), t, r, key, NextAt(at))
    ensures at.Negotiating? ==> Step(s, Advance(t, Fine)).shared.recs[r].client.Some?
  {
  }

  // The steps of an undisturbed handshake, up to the last one before the connection stands.
  ghost function StepsLeft(at: HandshakeAt): nat {
    match at
    case Queued => 5
    case Checking => 4
    case Dialing => 3
    case AwaitingInfo => 2
    case AwaitingCert => 1
    case _ => 0
  }

  // From the empty pool to any of these.
  lemma ShakesUpTo(key: string, goal: HandshakeAt) returns (es: seq<Event>)
    requires !goal.Unlocking? && !goal.Finished?
    ensures Shaking(Run(es), 0, 0, key, goal) && Overwritten(es) == {}
  {
    var connect := [Connect(key, 0)];
    StartsToShake(key);
    es := ShakesFrom(connect, key, Queued, goal);
  }

  lemma StartsToShake(key: string)
    ensures var es := [Connect(key, 0)];
      Shaking(Run(es), 0, 0, key, Queued) && Run(es).sem.None? && Overwritten(es) == {}
  {
    ConnectShowsItsHost([], key, 0);
    ConnectIsCalm(PM.INITIAL, key, 0);
    OneMore([], Connect(key, 0));
    assert [] + [Connect(key, 0)] == [Connect(key, 0)];
    RunKeepsInv([Connect(key, 0)]);
  }

  lemma ShakesOneStep(es: seq<Event>, key: string, at: HandshakeAt)
    requires Shaking(Run(es), 0, 0, key, at) && (at.Queued? ==> Run(es).sem.None?)
    ensures var more := es + [Advance(0, Fine)];
      Shaking(Run(more), 0, 0, key, NextAt(at)) && Overwritten(more) == Overwritten(es)
  {
    ShakesOn(Run(es), 0, 0, key, at);
    OneMore(es, Advance(0, Fine));
  }

  lemma {:induction false} ShakesFrom(es: seq<Event>, key: string, at: HandshakeAt, goal: HandshakeAt)
    returns (more: seq<Event>)
    requires Shaking(Run(es), 0, 0, key, at) && Overwritten(es) == {} && (at.Queued? ==> Run(es).sem.None?)
    requires !at.Unlocking? && !at.Finished? && !goal.Unlocking? && !goal.Finished? && StepsLeft(at) >= StepsLeft(goal)
    ensures Shaking(Run(more), 0, 0, key, goal) && Overwritten(more) == {}
    decreases StepsLeft(at)
  {
    if at == goal {
      more := es;
    } else {
      ShakesOneStep(es, key, at);
      more := ShakesFrom(es + [Advance(0, Fine)], key, NextAt(at), goal);
    }
  }

  // A connection that stands, pooled under a key, with nothing running on it.
  ghost predicate Standing(s: State, key: string, client: nat, stdin: Option<nat>) {
    && key in s.shared.pool && s.shared.pool[key] < |s.shared.recs|
    && var c := s.shared.recs[s.shared.pool[key]];
    && c.client == Some(client) && c.stdin == stdin && !c.executing
  }

  lemma Connects(key: string) returns (es: seq<Event>, client: nat, stdin: Option<nat>)
    ensures Standing(Run(es), key, client, stdin) && Overwritten(es) == {}
  {
    var before := ShakesUpTo(key, Negotiating);
    ShakesOn(Run(before), 0, 0, key, Negotiating);
    OneMore(before, Advance(0, Fine));
    es := before + [Advance(0, Fine)];
    client := Run(es).shared.recs[0].client.value;
    stdin := Run(es).shared.recs[0].stdin;
  }

  // An Exec goroutine at a step, on a connection that stands.
  ghost predicate Executing(s: State, u: nat, step: ExecAt, key: string, client: nat, stdin: Option<nat>) {
    && key in s.shared.pool && s.shared.pool[key] < |s.shared.recs|
    && u < |s.threads| && s.threads[u] == Exec(s.shared.pool[key], step)
    && var c := s.shared.recs[s.shared.pool[key]];
    && c.client == Some(client) && c.stdin == stdin && c.executing == HoldsExec(s.threads[u])
  }

  lemma ExecStarts(s: State, key: string, client: nat, stdin: Option<nat>)
    requires Standing(s, key, client, stdin)
    ensures Executing(Step(s, StartExec(key)), |s.threads|, Preempting, key, client, stdin)
    ensures Overwrites(s, StartExec(key)) == {}
  {
  }

  lemma ExecMovesOn(s: State, u: nat, step: ExecAt, key: string, client: nat, stdin: Option<nat>)
    requires Executing(s, u, step, key, client, stdin)
    requires step == Preempting || step == Polling(0) || step == Acquiring || step == Opening
    ensures Executing(Step(s, Advance(u, Fine)), u,
                      if step == Preempting then Polling(0) else if step == Polling(0) then Acquiring
                      else if step == Acquiring then Opening else Publishing(client), key, client, stdin)
    ensures Overwrites(s, Advance(u, Fine)) == {}
  {
  }

  lemma ExecPublishes(s: State, u: nat, key: string, client: nat, stdin: Option<nat>)
    requires Executing(s, u, Publishing(client), key, client, stdin)
    ensures Executing(Step(s, Advance(u, Fine)), u, Starting, key, client, Some(|s.shared.closes|))
    ensures Overwrites(s, Advance(u, Fine)) == if stdin.Some? then {stdin.value} else {}
  {
  }

  // session.Start fails: `executing` is given back, and the channel stays where it is.
  lemma StartFails(s: State, u: nat, key: string, client: nat, stdin: Option<nat>)
    requires Executing(s, u, Starting, key, client, stdin)
    ensures var s1 := Step(s, Advance(u, Failed)); var s2 := Step(s1, Advance(u, Fine));
      Standing(s2, key, client, stdin) && Overwrites(s, Advance(u, Failed)) == {} && Overwrites(s1, Advance(u, Fine)) == {}
  {
  }

  // A command is run up to its publication.
  lemma Publishes(es: seq<Event>, key: string, client: nat, stdin: Option<nat>)
    returns (more: seq<Event>, u: nat, now: nat)
    requires Standing(Run(es), key, client, stdin)
    ensures es <= more && Executing(Run(more), u, Starting, key, client, Some(now))
    ensures Overwritten(more) == Overwritten(es) + if stdin.Some? then {stdin.value} else {}
  {
    u := |Run(es).threads|;
    ExecStarts(Run(es), key, client, stdin);
    OneMore(es, StartExec(key));
    more := es + [StartExec(key)];
    var step := Preempting;
    while step != Publishing(client)
      invariant es <= more && Executing(Run(more), u, step, key, client, stdin)
      invariant Overwritten(more) == Overwritten(es)
      invariant step == Preempting || step == Polling(0) || step == Acquiring || step == Opening ||
                step == Publishing(client)
      decreases if step == Preempting then 4 else if step == Polling(0) then 3 else if step == Acquiring then 2
                else if step == Opening then 1 else 0
    {
      ExecMovesOn(Run(more), u, step, key, client, stdin);
      OneMore(more, Advance(u, Fine));
      more := more + [Advance(u, Fine)];
      step := if step == Preempting then Polling(0) else if step == Polling(0) then Acquiring
              else if step == Acquiring then Opening else Publishing(client);
    }
    ExecPublishes(Run(more), u, key, client, stdin);
    OneMore(more, Advance(u, Fine));
    now := |Run(more).shared.closes|;
    more := more + [Advance(u, Fine)];
  }

  /** A command whose session cannot be started leaves its channel in the record, and whenever another is
      run there, that overwrites it: every run that gets to such a state has a continuation that loses the
      channel. */
  lemma FailedStartThenExecLoses(es: seq<Event>, u: nat, key: string, client: nat, ch: nat) returns (more: seq<Event>)
    requires Executing(Run(es), u, Starting, key, client, Some(ch))
    ensures es <= more && Lost(Run(more).shared, ch) && Overwritten(more) == Overwritten(es) + {ch}
  {
    StartFails(Run(es), u, key, client, Some(ch));
    OneMore(es, Advance(u, Failed));
    var failed := es + [Advance(u, Failed)];
    OneMore(failed, Advance(u, Fine));
    var left := failed + [Advance(u, Fine)];
    var v, now;
    more, v, now := Publishes(left, key, client, Some(ch));
    LostIsOverwritten(more, ch);
  }

  /** And such a run exists, for any host, from the empty pool: connect, run a command that cannot be
      started, run another. */
  lemma AChannelCanBeLost(key: string)
    ensures exists es, ch: nat :: Lost(Run(es).shared, ch) && ch in Overwritten(es)
  {
    var es, client, stdin := Connects(key);
    var first, u, ch := Publishes(es, key, client, stdin);
    var more := FailedStartThenExecLoses(first, u, key, client, ch);
    assert Lost(Run(more).shared, ch);
  }
}
