/** What the fields of a connection's record mean over whole runs, and with that what Connect, the three
    disconnects and the idle sweeper do, said of clients, handshakes and times alone
    (web/wasm/sshclient/client.go and pool.go). */
module PoolPolicy {
  import opened Common
  import opened PoolEviction
  import opened PoolLeftovers
  import opened PoolRuns
  import opened Sorting
  import PF = PoolFates
  import PM = PoolModel

  // The record's handshake has not ended.
  ghost predicate UnderWay(s: State, r: nat) {
    exists t :: 0 <= t < |s.threads| && Unconnected(s.threads[t]) && s.threads[t].r == r
  }

  // A record is connected as long as it has a client, and connecting from its making until its handshake
  // ends or closeConn goes through it. It has a session and a channel for its input together or not at all.
  ghost predicate Means(s: State, r: nat) {
    r < |s.shared.recs| ==>
      var c := s.shared.recs[r];
      && (c.connected <==> c.client.Some?)
      && (c.connecting <==> !c.cancelled && UnderWay(s, r))
      && (c.session.Some? <==> c.stdin.Some?)
  }

  // ------------------------------------------------------------------ one step

  // A goroutine's step on its record, seen at the fields in question.
  ghost predicate Coherent(c: PM.Rec, c': PM.Rec) {
    && ((c.connected <==> c.client.Some?) ==> (c'.connected <==> c'.client.Some?))
    && ((c.session.Some? <==> c.stdin.Some?) ==> (c'.session.Some? <==> c'.stdin.Some?))
    && c'.connectingSince == c.connectingSince && c'.cancelled == c.cancelled
  }

  lemma HandshakeOnlyRec(s: State, t: nat, r: nat, at: HandshakeAt, outcome: Outcome)
    requires t < |s.threads| && r < |s.shared.recs|
    ensures var b := StepHandshake(s, t, r, at, outcome).shared;
      |b.recs| == |s.shared.recs| && b.recs == s.shared.recs[r := b.recs[r]]
  {
  }

  lemma HandshakeIsCoherent(s: State, t: nat, r: nat, at: HandshakeAt, outcome: Outcome)
    requires t < |s.threads| && r < |s.shared.recs|
    ensures var b := StepHandshake(s, t, r, at, outcome).shared;
      |b.recs| == |s.shared.recs| && b.recs == s.shared.recs[r := b.recs[r]] && Coherent(s.shared.recs[r], b.recs[r])
  {
    HandshakeOnlyRec(s, t, r, at, outcome);
  }

  lemma KeepaliveIsCoherent(s: State, t: nat, r: nat, client: nat, probing: bool, outcome: Outcome)
    requires t < |s.threads| && r < |s.shared.recs|
    ensures var b := StepKeepalive(s, t, r, client, probing, outcome).shared;
      && |b.recs| == |s.shared.recs| && b.recs == s.shared.recs[r := b.recs[r]]
      && Coherent(s.shared.recs[r], b.recs[r]) && b.recs[r].connecting == s.shared.recs[r].connecting
  {
  }

  lemma SectionsAreCoherent(s: PM.Shared, r: nat, client: nat)
    requires r < |s.recs|
    ensures forall b | b in {PM.Preempt(s, r), PM.Acquire(s, r), PM.Finish(s, r), PM.Leave(s, r), PM.Teardown(s, r),
                             PM.Publish(s, r, client)} ::
      && |b.recs| == |s.recs| && b.recs == s.recs[r := b.recs[r]]
      && Coherent(s.recs[r], b.recs[r]) && b.recs[r].connecting == s.recs[r].connecting
  {
  }

  lemma ExecIsCoherent(s: State, t: nat, r: nat, step: ExecAt, outcome: Outcome)
    requires t < |s.threads| && s.threads[t] == Exec(r, step) && r < |s.shared.recs|
    ensures var b := StepExec(s, t, r, step, outcome).shared;
      && |b.recs| == |s.shared.recs| && b.recs == s.shared.recs[r := b.recs[r]]
      && Coherent(s.shared.recs[r], b.recs[r]) && b.recs[r].connecting == s.shared.recs[r].connecting
  {
    SectionsAreCoherent(s.shared, r, if step.Publishing? then step.client else 0);
    if !step.Publishing? {
      PF.ExecSection(s, t, outcome);
    }
  }

  lemma AdvanceIsCoherent(s: State, t: nat, outcome: Outcome, r: nat)
    requires r < |s.shared.recs|
    ensures var b := Step(s, Advance(t, outcome)).shared;
      |b.recs| == |s.shared.recs| && Coherent(s.shared.recs[r], b.recs[r])
  {
    if t < |s.threads| && s.threads[t].r < |s.shared.recs| {
      match s.threads[t]
      case Handshake(q, at) => HandshakeIsCoherent(s, t, q, at, outcome);
      case Keepalive(q, client, probing, over) => KeepaliveIsCoherent(s, t, q, client, probing, outcome);
      case Exec(q, step) => ExecIsCoherent(s, t, q, step, outcome);
    }
  }

  // The same handshakes are under way.
  lemma SameHandshakes(s: State, s': State, r: nat)
    requires |s.threads| <= |s'.threads|
    requires forall t :: 0 <= t < |s.threads| ==>
      (Unconnected(s'.threads[t]) <==> Unconnected(s.threads[t])) && s'.threads[t].r == s.threads[t].r
    requires forall t :: |s.threads| <= t < |s'.threads| ==> !Unconnected(s'.threads[t]) || s'.threads[t].r != r
    ensures UnderWay(s', r) <==> UnderWay(s, r)
  {
    if t :| 0 <= t < |s.threads| && Unconnected(s.threads[t]) && s.threads[t].r == r {
      assert Unconnected(s'.threads[t]);
    }
    if t :| 0 <= t < |s'.threads| && Unconnected(s'.threads[t]) && s'.threads[t].r == r {
      assert t < |s.threads|;
    }
  }

  // A record has one handshake.
  lemma OnlyHandshake(s: State, t: nat)
    requires Handshakes(s) && t < |s.threads| && s.threads[t].Handshake?
    ensures UnderWay(s, s.threads[t].r) <==> Unconnected(s.threads[t])
  {
    if u :| 0 <= u < |s.threads| && Unconnected(s.threads[u]) && s.threads[u].r == s.threads[t].r {
      assert s.threads[u].Handshake? && u == t;
    }
  }

  // A handshake clears `connecting` exactly as it ends.
  lemma HandshakeConnecting(s: State, t: nat, outcome: Outcome)
    requires t < |s.threads| && s.threads[t].Handshake? && s.threads[t].r < |s.shared.recs|
    requires ConnectingIsRight(s, t)
    ensures ConnectingIsRight(StepHandshake(s, t, s.threads[t].r, s.threads[t].at, outcome), t)
  {
    var at := s.threads[t].at;
    if at.Queued? || at.Checking? || at.Unlocking? || at.Finished? {
      OutsideConnecting(s, t, outcome);
    } else {
      InsideConnecting(s, t, outcome);
    }
  }

  ghost predicate ConnectingIsRight(s: State, t: nat) {
    t < |s.threads| && s.threads[t].r < |s.shared.recs| &&
    var c := s.shared.recs[s.threads[t].r]; (c.connecting <==> !c.cancelled && Unconnected(s.threads[t]))
  }

  lemma OutsideConnecting(s: State, t: nat, outcome: Outcome)
    requires t < |s.threads| && s.threads[t].Handshake? && ConnectingIsRight(s, t)
    requires var at := s.threads[t].at; at.Queued? || at.Checking? || at.Unlocking? || at.Finished?
    ensures ConnectingIsRight(StepHandshake(s, t, s.threads[t].r, s.threads[t].at, outcome), t)
  {
  }

  lemma InsideConnecting(s: State, t: nat, outcome: Outcome)
    requires t < |s.threads| && s.threads[t].Handshake? && ConnectingIsRight(s, t)
    requires var at := s.threads[t].at; at.Dialing? || at.AwaitingInfo? || at.AwaitingCert? || at.Negotiating?
    ensures ConnectingIsRight(StepHandshake(s, t, s.threads[t].r, s.threads[t].at, outcome), t)
  {
  }

  lemma HandshakeMeans(s: State, t: nat, outcome: Outcome, r: nat)
    requires Inv(s) && t < |s.threads| && s.threads[t].Handshake? && r < |s.shared.recs| && Means(s, r)
    requires Inv(StepHandshake(s, t, s.threads[t].r, s.threads[t].at, outcome))
    ensures Means(StepHandshake(s, t, s.threads[t].r, s.threads[t].at, outcome), r)
  {
    var q := s.threads[t].r;
    var s' := StepHandshake(s, t, q, s.threads[t].at, outcome);
    HandshakeIsCoherent(s, t, q, s.threads[t].at, outcome);
    HandshakeMoves(s, t, outcome);
    if q == r {
      OnlyHandshake(s, t);
      HandshakeConnecting(s, t, outcome);
      OnlyHandshake(s', t);
    } else {
      ElsewhereUnderWay(s, s', t, r);
    }
  }

  lemma ElsewhereUnderWay(s: State, s': State, t: nat, r: nat)
    requires t < |s.threads| <= |s'.threads| && s.threads[t].r != r && s'.threads[t].r == s.threads[t].r
    requires forall u :: 0 <= u < |s.threads| && u != t ==> s'.threads[u] == s.threads[u]
    requires forall u :: |s.threads| <= u < |s'.threads| ==> s'.threads[u].Keepalive?
    ensures UnderWay(s', r) <==> UnderWay(s, r)
  {
    if u :| 0 <= u < |s.threads| && Unconnected(s.threads[u]) && s.threads[u].r == r {
      assert Unconnected(s'.threads[u]);
    }
    if u :| 0 <= u < |s'.threads| && Unconnected(s'.threads[u]) && s'.threads[u].r == r {
      assert Unconnected(s.threads[u]);
    }
  }

  lemma OtherMeans(s: State, t: nat, outcome: Outcome, r: nat)
    requires ThreadsInRange(s) && t < |s.threads| && !s.threads[t].Handshake? && r < |s.shared.recs| && Means(s, r)
    ensures Means(Step(s, Advance(t, outcome)), r)
  {
    var s' := Step(s, Advance(t, outcome));
    AdvanceIsCoherent(s, t, outcome, r);
    match s.threads[t]
    case Keepalive(q, client, probing, over) =>
      KeepaliveIsCoherent(s, t, q, client, probing, outcome);
      SameHandshakes(s, s', r);
    case Exec(q, step) =>
      ExecIsCoherent(s, t, q, step, outcome);
      ExecMoves(s, t, outcome);
      SameHandshakes(s, s', r);
  }

  lemma CallUnderWay(s: State, e: Event, r: nat)
    requires ThreadsInRange(s) && !e.Advance?
    ensures UnderWay(Step(s, e), r) <==>
            UnderWay(s, r) || (e.Connect? && !PM.Reuses(s.shared, e.key, e.now) && r == |s.shared.recs|)
  {
    var s' := Step(s, e);
    if e.Connect? && !PM.Reuses(s.shared, e.key, e.now) && r == |s.shared.recs| {
      assert Unconnected(s'.threads[|s.threads|]);
    } else {
      SameHandshakes(s, s', r);
    }
  }

  // Records are added by a Connect that does not reuse one, one at a time.
  lemma CallAdds(s: State, e: Event)
    requires Inv(s) && !e.Advance?
    ensures |Step(s, e).shared.recs| ==
            |s.shared.recs| + (if e.Connect? && !PM.Reuses(s.shared, e.key, e.now) then 1 else 0)
  {
    match e
    case Connect(key, now) => ConnectIsCalm(s.shared, key, now);
    case Disconnect(key) => DropIsCalm(s.shared, key);
    case DisconnectAll(order) => CloseAllIsCalm(s.shared, order);
    case DisconnectPending => CloseAllIsCalm(s.shared, PM.InKeyOrder(Pending(PM.SlotsOf(s.shared))));
    case Sweep(now) =>
      CloseAllIsCalm(s.shared, PM.InKeyOrder(Evicted(PM.SlotsOf(s.shared), PM.SweepQuery(s.shared, now))));
    case SendInput =>
    case StartExec(_) =>
  }

  lemma CallMeans(s: State, e: Event, r: nat)
    requires Inv(s) && Removed(s.shared) && !e.Advance? && Means(s, r)
    ensures Means(Step(s, e), r)
  {
    CallUnderWay(s, e, r);
    CallAdds(s, e);
    if !e.StartExec? {
      CallTakesOut(s.shared, e);
      assert Step(s, e).shared == Call(s.shared, e);
    }
    if r >= |s.shared.recs| {
      assert !UnderWay(s, r);
    }
  }

  lemma StepMeans(s: State, e: Event, r: nat)
    requires Inv(s) && Removed(s.shared) && Means(s, r)
    ensures Means(Step(s, e), r)
  {
    if !e.Advance? {
      CallMeans(s, e, r);
    } else if e.t < |s.threads| && r < |s.shared.recs| {
      if s.threads[e.t].Handshake? {
        HandshakeKeepsInv(s, e.t, e.outcome);
        HandshakeMeans(s, e.t, e.outcome, r);
      } else {
        OtherMeans(s, e.t, e.outcome, r);
      }
    } else if e.t < |s.threads| {
      AdvanceIsCoherent(s, e.t, e.outcome, s.threads[e.t].r);
    }
  }

  /** Over every run: connected means having a client, connecting means not torn down and with a handshake
      under way, and session and stdin are set together. */
  lemma FieldsMean(es: seq<Event>, r: nat)
    requires r < |Run(es).shared.recs|
    ensures var s := Run(es); var c := s.shared.recs[r];
      && (c.connected <==> c.client.Some?)
      && (c.connecting <==> !c.cancelled && UnderWay(s, r))
      && (c.session.Some? <==> c.stdin.Some?)
  {
    RunMeans(es, r);
  }

  lemma {:induction false} RunMeans(es: seq<Event>, r: nat)
    ensures Means(Run(es), r)
  {
    if es != [] {
      RunMeans(es[..|es| - 1], r);
      RunKeepsInv(es[..|es| - 1]);
      RunRemoves(es[..|es| - 1]);
      StepMeans(Run(es[..|es| - 1]), es[|es| - 1], r);
    }
  }

  // ------------------------------------------------------------------ when a record was made

  // The Connect that made record r, read off the run.
  ghost function MadeAt(es: seq<Event>, r: nat): Option<Time> {
    if es == [] then None
    else
      var init, e := es[..|es| - 1], es[|es| - 1];
      if e.Connect? && |Run(init).shared.recs| == r < |Run(es).shared.recs| then Some(e.now) else MadeAt(init, r)
  }

  lemma NewSince(s: PM.Shared, key: string, now: Time)
    requires PM.Safe(s) && Removed(s) && !PM.Reuses(s, key, now)
    ensures |s.recs| < |PM.Connect(s, key, now).recs|
    ensures PM.Connect(s, key, now).recs[|s.recs|].connectingSince == now
  {
    var added := PM.Add(PM.Drop(s, key), key, now);
    PM.DropIsSafe(s, key);
    PM.AddIsSafe(PM.Drop(s, key), key, now);
    DropTakesOut(s, key);
    AddTakesOut(PM.Drop(s, key), key, now);
    var entered := PM.MakeActive(added, key, now);
    MakeActiveTakesOut(added, key, now);
    PM.MakeActiveIsSafe(added, key, now);
    var keys := PM.InKeyOrder(Evicted(PM.SlotsOf(entered), PM.SweepQuery(entered, now)));
    CloseAllTakesOut(entered, keys);
    TakesOutThrough(added, entered, PM.CloseAll(entered, keys));
    assert Becomes(added.recs[|s.recs|], PM.CloseAll(entered, keys).recs[|s.recs|]);
  }

  lemma StepSince(s: State, e: Event, r: nat)
    requires Inv(s) && Removed(s.shared) && r < |s.shared.recs|
    ensures r < |Step(s, e).shared.recs|
    ensures Step(s, e).shared.recs[r].connectingSince == s.shared.recs[r].connectingSince
  {
    if e.Advance? {
      AdvanceIsCoherent(s, e.t, e.outcome, r);
    } else if !e.StartExec? {
      CallTakesOut(s.shared, e);
      assert Step(s, e).shared == Call(s.shared, e);
    }
  }

  lemma {:induction false} SinceIsMadeAt(es: seq<Event>, r: nat)
    requires r < |Run(es).shared.recs|
    ensures MadeAt(es, r) == Some(Run(es).shared.recs[r].connectingSince)
  {
    var init, e := es[..|es| - 1], es[|es| - 1];
    RunKeepsInv(init);
    RunRemoves(init);
    if r < |Run(init).shared.recs| {
      SinceIsMadeAt(init, r);
      StepSince(Run(init), e, r);
    } else {
      AdvanceAddsNone(Run(init), e);
      CallAddsOne(Run(init), e);
      NewSince(Run(init).shared, e.key, e.now);
    }
  }

  lemma AdvanceAddsNone(s: State, e: Event)
    ensures e.Advance? ==> |Step(s, e).shared.recs| == |s.shared.recs|
  {
    if e.Advance? {
      AdvanceIsNotShowing(s, e.t, e.outcome);
    }
  }

  lemma CallAddsOne(s: State, e: Event)
    requires Inv(s) && |Step(s, e).shared.recs| > |s.shared.recs| && !e.Advance?
    ensures e.Connect? && !PM.Reuses(s.shared, e.key, e.now) && |Step(s, e).shared.recs| == |s.shared.recs| + 1
  {
    CallAdds(s, e);
  }

  // ------------------------------------------------------------------ Connect

  // What Connect can go on with: a client, or a handshake under way that was begun less than 90 s ago.
  ghost predicate Live(es: seq<Event>, r: nat, now: Time)
    requires r < |Run(es).shared.recs|
  {
    Run(es).shared.recs[r].client.Some? ||
    (UnderWay(Run(es), r) && MadeAt(es, r).Some? && now - MadeAt(es, r).value < 90)
  }

  lemma ReusesTheLive(es: seq<Event>, key: string, now: Time)
    requires key in Run(es).shared.pool
    ensures Run(es).shared.pool[key] < |Run(es).shared.recs|
    ensures PM.Reuses(Run(es).shared, key, now) <==> Live(es, Run(es).shared.pool[key], now)
  {
    RunKeepsInv(es);
    var r := Run(es).shared.pool[key];
    FieldsMean(es, r);
    SinceIsMadeAt(es, r);
  }

  /** A Connect to a pooled host keeps its record, and starts nothing, exactly if that has a client, or its
      handshake is still under way and was begun less than 90 s ago. */
  lemma ConnectKeepsTheLive(es: seq<Event>, key: string, now: Time)
    requires key in Run(es).shared.pool && Run(es).shared.pool[key] < |Run(es).shared.recs|
    requires Live(es, Run(es).shared.pool[key], now)
    ensures var s, s' := Run(es), Step(Run(es), Connect(key, now));
      && s'.shared.active == key && key in s'.shared.pool && s'.shared.pool[key] == s.shared.pool[key]
      && s'.threads == s.threads && |s'.shared.recs| == |s.shared.recs|
  {
    ReusesTheLive(es, key, now);
    ConnectShowsItsHost(es, key, now);
    RunKeepsInv(es);
    CallAdds(Run(es), Connect(key, now));
  }

  /** Otherwise, pooled or not, it leaves the host on a new record with a handshake of its own queued, and
      what the host had before is torn down. */
  lemma ConnectReplacesTheDead(es: seq<Event>, key: string, now: Time)
    requires key in Run(es).shared.pool ==>
      Run(es).shared.pool[key] < |Run(es).shared.recs| && !Live(es, Run(es).shared.pool[key], now)
    ensures var s, s' := Run(es), Step(Run(es), Connect(key, now));
      && s'.shared.active == key && key in s'.shared.pool && s'.shared.pool[key] == |s.shared.recs|
      && s'.threads == s.threads + [Handshake(|s.shared.recs|, Queued)]
      && |s'.shared.recs| == |s.shared.recs| + 1
      && (key in s.shared.pool ==> s'.shared.recs[s.shared.pool[key]].cancelled)
  {
    RunKeepsInv(es);
    if key in Run(es).shared.pool {
      ReusesTheLive(es, key, now);
    }
    ConnectShowsItsHost(es, key, now);
    CallAdds(Run(es), Connect(key, now));
    RunRemoves(es);
    StepRemoves(Run(es), Connect(key, now));
    if key in Run(es).shared.pool {
      CallTakesOut(Run(es).shared, Connect(key, now));
    }
  }

  // ------------------------------------------------------------------ sweeps

  // What a background host needs to stay: to be live, and if it is a client that keeps it alive, to have
  // been left less than ten minutes ago.
  ghost predicate StaysInBackground(es: seq<Event>, key: string, r: nat, now: Time)
    requires r < |Run(es).shared.recs|
  {
    || (UnderWay(Run(es), r) && MadeAt(es, r).Some? && now - MadeAt(es, r).value < 90)
    || (Run(es).shared.recs[r].client.Some? && LeftAt(es, key).Some? && now - LeftAt(es, key).value < 600)
  }

  /** After every sweep, and in any run: a background host is still pooled only if its handshake is live,
      or it has a client and the terminal left it less than 600 s ago. */
  lemma SweepLeavesTheFresh(es: seq<Event>, now: Time, key: string)
    requires var s := Step(Run(es), Sweep(now)).shared; key in s.pool && key != s.active
    ensures key in Run(es).shared.pool && Run(es).shared.pool[key] < |Run(es).shared.recs|
    ensures StaysInBackground(es, key, Run(es).shared.pool[key], now)
  {
    var s := Run(es).shared;
    RunKeepsInv(es);
    SweepSurvivor(s, now, key);
    var r := s.pool[key];
    FieldsMean(es, r);
    SinceIsMadeAt(es, r);
    StampsAreLeftAt(es, key);
  }

  lemma SweepSurvivor(s: PM.Shared, now: Time, key: string)
    requires PM.Safe(s) && key in PM.ReleaseIdle(s, now).pool && key != PM.ReleaseIdle(s, now).active
    ensures key in s.pool && s.pool[key] < |s.recs| && key != s.active
    ensures var c := s.recs[s.pool[key]];
      (c.connecting && now - c.connectingSince < 90) || (c.connected && now - c.lastActive < 600)
  {
    ReleaseLeavesSurvivors(s, now);
    SlotKeys(s);
    PM.ReleaseIdleIsSafe(s, now);
    SlotKeys(PM.ReleaseIdle(s, now));
    OnlyWhatMayStaySurvives(PM.SlotsOf(s), PM.SweepQuery(s, now), key);
  }

  lemma StayIsPool(s: PM.Shared, now: Time)
    requires PM.Safe(s)
    ensures var s' := PM.ReleaseIdle(s, now); var slots, q := PM.SlotsOf(s), PM.SweepQuery(s, now);
      && PM.Safe(s') && s'.active == s.active && s'.pool.Keys == Stay(slots, q) && |s'.pool| == |Stay(slots, q)|
      && forall k :: k in s'.pool ==> k in s.pool && s'.pool[k] == s.pool[k] < |s.recs| && s.pool[k] < |s'.recs| &&
                                      s'.recs[s.pool[k]] == s.recs[s.pool[k]]
  {
    PM.ReleaseIdleIsSafe(s, now);
    PM.CloseAllIsSafe(s, PM.InKeyOrder(Evicted(PM.SlotsOf(s), PM.SweepQuery(s, now))));
    SlotKeys(s);
    assert |PM.ReleaseIdle(s, now).pool| == |PM.ReleaseIdle(s, now).pool.Keys|;
  }

  lemma ThreeOrUntouchable(slots: Slots, q: Query)
    requires q.max == 3
    ensures |Stay(slots, q)| <= 3 || forall k :: k in Stay(slots, q) ==> Untouchable(slots, q, k)
  {
    if |AllThatMayStay(slots, q)| <= q.max {
      forall k ensures k in Stay(slots, q) <==> k in AllThatMayStay(slots, q) {
        WhatFitsStays(slots, q, k);
      }
      assert Stay(slots, q) == AllThatMayStay(slots, q);
    } else {
      OtherwiseTheCapIsMet(slots, q);
    }
  }

  /** After every Connect and every sweep three connections are pooled at most, or only the shown one and
      handshakes under way for less than 90 s. */
  lemma ThreeArePooled(es: seq<Event>, e: Event, key: string)
    requires Releases(e) && |Run(es + [e]).shared.pool| > 3
    requires key in Run(es + [e]).shared.pool && key != Run(es + [e]).shared.active
    ensures var more := es + [e]; var r := Run(more).shared.pool[key];
      r < |Run(more).shared.recs| && UnderWay(Run(more), r) && MadeAt(more, r).Some? && e.now - MadeAt(more, r).value < 90
  {
    var s1 := BeforeRelease(Run(es).shared, e);
    PF.OneMore(es, e);
    RunKeepsInv(es);
    BeforeReleaseIsSafe(Run(es).shared, e);
    ReleaseStep(Run(es), e);
    StayIsPool(s1, e.now);
    ThreeOrUntouchable(PM.SlotsOf(s1), PM.SweepQuery(s1, e.now));
    FieldsMean(es + [e], s1.pool[key]);
    SinceIsMadeAt(es + [e], s1.pool[key]);
  }

  /** What is forced out to get there was left longest ago: before every background host that stays with its
      handshake done, the lower key deciding between hosts left at the same time. */
  lemma LongestLeftGoes(es: seq<Event>, e: Event, out: string, stays: string)
    requires Releases(e)
    requires var s1, s' := BeforeRelease(Run(es).shared, e), Step(Run(es), e).shared;
      && out in s1.pool && out != s1.active && out !in s'.pool
      && s1.pool[out] < |s1.recs| && s1.recs[s1.pool[out]].connected
      && LeftAt(es + [e], out).Some? && e.now - LeftAt(es + [e], out).value < 600
      && stays in s'.pool && stays != s'.active && s'.pool[stays] < |s'.recs| && !s'.recs[s'.pool[stays]].connecting
    ensures LeftAt(es + [e], out).Some? && LeftAt(es + [e], stays).Some?
    ensures var o, s := LeftAt(es + [e], out).value, LeftAt(es + [e], stays).value; o < s || (o == s && Before(out, stays))
  {
    var s1 := BeforeRelease(Run(es).shared, e);
    RunKeepsInv(es);
    BeforeReleaseIsSafe(Run(es).shared, e);
    ReleaseStep(Run(es), e);
    StayIsPool(s1, e.now);
    SlotKeys(s1);
    StampsBeforeRelease(es, e, out);
    StampsBeforeRelease(es, e, stays);
    TheOldestGo(PM.SlotsOf(s1), PM.SweepQuery(s1, e.now), out, stays);
  }

  // ------------------------------------------------------------------ the disconnects

  /** Disconnect takes exactly that host out, and the terminal then shows nothing if it showed that. */
  lemma DisconnectTakesOutOne(es: seq<Event>, key: string)
    ensures var s, s' := Run(es).shared, Step(Run(es), Disconnect(key)).shared;
      && s'.pool == s.pool - {key} && s'.active == (if s.active == key then "" else s.active)
      && (key in s.pool ==> s.pool[key] < |s'.recs| && s'.recs[s.pool[key]].cancelled &&
                            s'.recs[s.pool[key]].client.None? && s'.recs[s.pool[key]].transport.None?)
  {
    RunKeepsInv(es);
    RunRemoves(es);
    PM.DropIsSafe(Run(es).shared, key);
    if key in Run(es).shared.pool {
      CloseConnClears(Run(es).shared, Run(es).shared.pool[key]);
    }
  }

  /** DisconnectAll, however the map is walked, empties the pool and shows nothing. */
  lemma DisconnectAllTakesOutAll(es: seq<Event>, order: seq<string>)
    requires SetOf(order) == Run(es).shared.pool.Keys
    ensures var s' := Step(Run(es), DisconnectAll(order)).shared; s'.pool == map[] && s'.active == ""
  {
    RunKeepsInv(es);
    PM.CloseAllIsSafe(Run(es).shared, order);
  }

  /** DisconnectPending takes out exactly the hosts without a client whose handshake is under way. */
  lemma DisconnectPendingTakesOutTheUnconnected(es: seq<Event>, key: string)
    requires key in Run(es).shared.pool
    ensures Run(es).shared.pool[key] < |Run(es).shared.recs|
    ensures var s, r := Run(es), Run(es).shared.pool[key];
      key in Step(s, DisconnectPending).shared.pool <==> s.shared.recs[r].client.Some? || !UnderWay(s, r)
    ensures Step(Run(es), DisconnectPending).shared.active == Run(es).shared.active
  {
    RunKeepsInv(es);
    PendingSurvivor(Run(es).shared, key);
    FieldsMean(es, Run(es).shared.pool[key]);
  }

  lemma PendingSurvivor(s: PM.Shared, key: string)
    requires PM.Safe(s) && key in s.pool
    ensures s.pool[key] < |s.recs| && PM.DisconnectPending(s).active == s.active
    ensures var c := s.recs[s.pool[key]];
      key in PM.DisconnectPending(s).pool <==> !c.connecting || c.connected
  {
    SlotKeys(s);
    PM.CloseAllIsSafe(s, PM.InKeyOrder(Pending(PM.SlotsOf(s))));
  }

  // ------------------------------------------------------------------ being preempted

  // Since the last command on r ended, another has found it running and asked it to go.
  ghost function PreemptedSince(es: seq<Event>, r: nat): bool {
    if es == [] then false
    else
      var s, e := Run(es[..|es| - 1]), es[|es| - 1];
      if e.Advance? && e.t < |s.threads| && s.threads[e.t] == Exec(r, Waiting) then false
      else if e.Advance? && e.t < |s.threads| && s.threads[e.t] == Exec(r, Preempting) && r < |s.shared.recs| &&
              s.shared.recs[r].executing && s.shared.recs[r].session.Some?
      then true
      else PreemptedSince(es[..|es| - 1], r)
  }

  lemma SectionsSwitch(s: PM.Shared, r: nat, client: nat)
    requires r < |s.recs|
    ensures forall b | b in {PM.Acquire(s, r), PM.Leave(s, r), PM.Teardown(s, r), PM.Publish(s, r, client)} ::
      |b.recs| == |s.recs| && b.recs[r].switching == s.recs[r].switching
    ensures !PM.Finish(s, r).recs[r].switching
    ensures PM.Preempt(s, r).recs[r].switching ==
            (s.recs[r].switching || (s.recs[r].executing && s.recs[r].session.Some?))
  {
  }

  lemma ExecSwitches(s: State, t: nat, r: nat, step: ExecAt, outcome: Outcome)
    requires t < |s.threads| && s.threads[t] == Exec(r, step) && r < |s.shared.recs|
    ensures var b := StepExec(s, t, r, step, outcome).shared;
      && |b.recs| == |s.shared.recs|
      && b.recs[r].switching ==
         if step.Waiting? then false
         else s.shared.recs[r].switching ||
              (step.Preempting? && s.shared.recs[r].executing && s.shared.recs[r].session.Some?)
  {
    SectionsSwitch(s.shared, r, if step.Publishing? then step.client else 0);
  }

  lemma OthersSwitchNothing(s: State, e: Event, r: nat)
    requires Inv(s) && Removed(s.shared) && r < |s.shared.recs|
    requires e.Advance? ==> e.t >= |s.threads| || !s.threads[e.t].Exec? || s.threads[e.t].r != r
    ensures r < |Step(s, e).shared.recs| && Step(s, e).shared.recs[r].switching == s.shared.recs[r].switching
  {
    if !e.Advance? {
      if !e.StartExec? {
        CallTakesOut(s.shared, e);
        assert Step(s, e).shared == Call(s.shared, e);
      }
    } else if e.t < |s.threads| {
      match s.threads[e.t]
      case Handshake(q, at) => HandshakeSwitchesNothing(s, e.t, q, at, e.outcome, r);
      case Keepalive(q, client, probing, over) =>
      case Exec(q, step) => ExecIsCoherent(s, e.t, q, step, e.outcome);
    }
  }

  lemma HandshakeSwitchesNothing(s: State, t: nat, q: nat, at: HandshakeAt, outcome: Outcome, r: nat)
    requires t < |s.threads| && q < |s.shared.recs| && r < |s.shared.recs|
    ensures var b := StepHandshake(s, t, q, at, outcome).shared;
      |b.recs| == |s.shared.recs| && b.recs[r].switching == s.shared.recs[r].switching
  {
  }

  lemma {:induction false} SwitchingIsPreemptedSince(es: seq<Event>, r: nat)
    requires r < |Run(es).shared.recs|
    ensures Run(es).shared.recs[r].switching == PreemptedSince(es, r)
  {
    var init, e := es[..|es| - 1], es[|es| - 1];
    var s := Run(init);
    RunKeepsInv(init);
    RunRemoves(init);
    if r >= |s.shared.recs| {
      NeverPreempted(init, r);
      StepRemoves(s, e);
    } else {
      SwitchingIsPreemptedSince(init, r);
      if e.Advance? && e.t < |s.threads| && s.threads[e.t].Exec? && s.threads[e.t].r == r {
        ExecSwitches(s, e.t, r, s.threads[e.t].step, e.outcome);
      } else {
        OthersSwitchNothing(s, e, r);
      }
    }
  }

  lemma {:induction false} NeverPreempted(es: seq<Event>, r: nat)
    requires r >= |Run(es).shared.recs|
    ensures !PreemptedSince(es, r)
  {
    if es != [] {
      var init := es[..|es| - 1];
      RunKeepsInv(init);
      RunRemoves(init);
      if r < |Run(init).shared.recs| {
        StepClients(Run(init), es[|es| - 1], r);
      }
      NeverPreempted(init, r);
    }
  }

  /** A command whose session fails tears the connection down exactly if no other command has preempted it:
      a preempted one leaves the connection to its successor. */
  lemma FailureTearsDownUnlessPreempted(es: seq<Event>, t: nat, r: nat)
    requires t < |Run(es).threads| && Run(es).threads[t] == Exec(r, Waiting)
    ensures var s' := Step(Run(es), Advance(t, Failed));
      t < |s'.threads| && s'.threads[t] == Exec(r, if PreemptedSince(es, r) then Releasing else TearingDown)
    ensures var s' := Step(Run(es), Advance(t, Fine)); t < |s'.threads| && s'.threads[t] == Exec(r, Releasing)
  {
    RunKeepsInv(es);
    SwitchingIsPreemptedSince(es, r);
  }
}
