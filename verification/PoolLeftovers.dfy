/** What becomes of the connections that have left the pool, over whole runs
    (web/wasm/sshclient/client.go). */
module PoolLeftovers {
  import opened Common
  import opened PoolEviction
  import opened PoolFates
  import opened PoolRuns
  import PM = PoolModel

  ghost predicate InPool(s: PM.Shared, r: nat)
    requires r < |s.recs|
  {
    s.recs[r].key in s.pool && s.pool[s.recs[r].key] == r
  }

  // A record is in the pool exactly until it is cancelled.
  ghost predicate Removed(s: PM.Shared) {
    forall r :: 0 <= r < |s.recs| ==> (InPool(s, r) <==> !s.recs[r].cancelled)
  }

  // A record that is new, or that closeConn has been through.
  predicate Bare(c: PM.Rec) {
    c.client.None? && c.transport.None? && c.stdin.None? && c.session.None? && !c.connected
  }

  // A record of a keeps its place in b; if it is taken out of the pool it is cancelled and bare, and
  // otherwise at most its stamp changes.
  ghost predicate Becomes(c: PM.Rec, c': PM.Rec) {
    && c'.key == c.key && c'.connectingSince == c.connectingSince && c'.switching == c.switching
    && (c' == c.(lastActive := c'.lastActive) || (c'.cancelled && Bare(c') && !c'.connecting))
    && (c.cancelled ==> c' == c)
  }

  // What a call does to the records.
  ghost predicate TakesOut(a: PM.Shared, b: PM.Shared) {
    && |a.recs| <= |b.recs|
    && (forall r :: 0 <= r < |a.recs| ==> Becomes(a.recs[r], b.recs[r]))
    && (forall r :: |a.recs| <= r < |b.recs| ==> Fresh(b.recs[r]))
  }

  predicate Fresh(c: PM.Rec) {
    Bare(c) && c.connecting == !c.cancelled && !c.switching
  }

  lemma TakesOutThrough(a: PM.Shared, b: PM.Shared, c: PM.Shared)
    requires TakesOut(a, b) && TakesOut(b, c)
    ensures TakesOut(a, c)
  {
    forall r | 0 <= r < |a.recs| ensures Becomes(a.recs[r], c.recs[r]) {
      assert Becomes(a.recs[r], b.recs[r]) && Becomes(b.recs[r], c.recs[r]);
    }
    forall r | |a.recs| <= r < |c.recs| ensures Fresh(c.recs[r]) {
      assert r < |b.recs| ==> Fresh(b.recs[r]) && Becomes(b.recs[r], c.recs[r]);
    }
  }

  lemma CloseConnClears(s: PM.Shared, r: nat)
    requires r < |s.recs|
    ensures var c := PM.CloseConn(s, r).recs[r];
      c.cancelled && Bare(c) && !c.connecting && c.connectingSince == s.recs[r].connectingSince &&
      c.switching == s.recs[r].switching
  {
  }

  lemma DropTakesOut(s: PM.Shared, key: string)
    requires PM.Safe(s) && Removed(s)
    ensures TakesOut(s, PM.Drop(s, key)) && Removed(PM.Drop(s, key))
  {
    PM.DropIsSafe(s, key);
    if PM.Pooled(s, key) {
      var q, t := s.pool[key], PM.Drop(s, key);
      PM.CloseConnFrame(s, q);
      CloseConnClears(s, q);
      forall r | 0 <= r < |s.recs|
        ensures Becomes(s.recs[r], t.recs[r]) && (InPool(t, r) <==> !t.recs[r].cancelled)
      {
        assert r != q ==> t.recs[r] == s.recs[r];
      }
    }
  }

  lemma {:induction false} CloseAllTakesOut(s: PM.Shared, keys: seq<string>)
    requires PM.Safe(s) && Removed(s)
    ensures TakesOut(s, PM.CloseAll(s, keys)) && Removed(PM.CloseAll(s, keys))
  {
    if keys != [] {
      var init := keys[..|keys| - 1];
      PM.CloseAllIsSafe(s, init);
      CloseAllTakesOut(s, init);
      DropTakesOut(PM.CloseAll(s, init), keys[|keys| - 1]);
      TakesOutThrough(s, PM.CloseAll(s, init), PM.CloseAll(s, keys));
    }
  }

  lemma TouchTakesOut(s: PM.Shared, key: string, now: Time)
    requires PM.Safe(s) && Removed(s)
    ensures TakesOut(s, PM.Touch(s, key, now)) && Removed(PM.Touch(s, key, now)) && PM.Safe(PM.Touch(s, key, now))
  {
    PM.TouchIsSafe(s, key, now);
    if PM.Pooled(s, key) {
      assert !s.recs[s.pool[key]].cancelled;
      var t := PM.Touch(s, key, now);
      forall r | 0 <= r < |s.recs| ensures InPool(t, r) <==> InPool(s, r) {
      }
    }
  }

  lemma MakeActiveTakesOut(s: PM.Shared, key: string, now: Time)
    requires PM.Safe(s) && Removed(s)
    ensures TakesOut(s, PM.MakeActive(s, key, now)) && Removed(PM.MakeActive(s, key, now))
  {
    TouchTakesOut(s, s.active, now);
    var s1 := if s.active != key then PM.Touch(s, s.active, now) else s;
    var s2 := s1.(active := key);
    assert PM.Safe(s2) && TakesOut(s, s2);
    forall r | 0 <= r < |s1.recs| ensures InPool(s2, r) <==> InPool(s1, r) {
    }
    TouchTakesOut(s2, key, now);
    TakesOutThrough(s, s2, PM.MakeActive(s, key, now));
  }

  lemma AddTakesOut(s: PM.Shared, key: string, now: Time)
    requires PM.Safe(s) && Removed(s) && key !in s.pool
    ensures TakesOut(s, PM.Add(s, key, now)) && Removed(PM.Add(s, key, now))
  {
  }

  lemma EnterTakesOut(s: PM.Shared, key: string, now: Time)
    requires PM.Safe(s) && Removed(s)
    ensures TakesOut(s, PM.Enter(s, key, now)) && Removed(PM.Enter(s, key, now))
  {
    if PM.Reuses(s, key, now) {
      MakeActiveTakesOut(s, key, now);
    } else {
      var dropped := PM.Drop(s, key);
      DropTakesOut(s, key);
      PM.DropIsSafe(s, key);
      AddTakesOut(dropped, key, now);
      PM.AddIsSafe(dropped, key, now);
      MakeActiveTakesOut(PM.Add(dropped, key, now), key, now);
      TakesOutThrough(s, dropped, PM.Add(dropped, key, now));
      TakesOutThrough(s, PM.Add(dropped, key, now), PM.Enter(s, key, now));
    }
  }

  lemma CallTakesOut(s: PM.Shared, e: Event)
    requires PM.Safe(s) && Removed(s) && !e.StartExec? && !e.Advance?
    ensures TakesOut(s, Call(s, e)) && Removed(Call(s, e))
  {
    match e
    case Connect(key, now) =>
      var entered := PM.Enter(s, key, now);
      EnterTakesOut(s, key, now);
      PM.EnterIsSafe(s, key, now);
      CloseAllTakesOut(entered, PM.InKeyOrder(Evicted(PM.SlotsOf(entered), PM.SweepQuery(entered, now))));
      TakesOutThrough(s, entered, PM.Connect(s, key, now));
    case Disconnect(key) => DropTakesOut(s, key);
    case DisconnectAll(order) => CloseAllTakesOut(s, order);
    case DisconnectPending => CloseAllTakesOut(s, PM.InKeyOrder(Pending(PM.SlotsOf(s))));
    case SendInput =>
    case Sweep(now) => CloseAllTakesOut(s, PM.InKeyOrder(Evicted(PM.SlotsOf(s), PM.SweepQuery(s, now))));
  }

  // The step by which a handshake hands its client over.
  ghost predicate Establishes(s: State, e: Event, r: nat) {
    && e.Advance? && e.outcome.Fine? && e.t < |s.threads| && s.threads[e.t] == Handshake(r, Negotiating)
  }

  // The steps by which a record loses the client it has: a failed keepalive of it, or a command's end.
  ghost predicate Ends(s: State, e: Event, r: nat, client: nat) {
    && e.Advance? && e.t < |s.threads|
    && ((s.threads[e.t] == Keepalive(r, client, true, false) && !e.outcome.Fine?) ||
        s.threads[e.t] == Exec(r, TearingDown))
  }

  // A goroutine's step leaves every record in its place.
  ghost predicate SamePlaces(a: PM.Shared, b: PM.Shared) {
    && |b.recs| == |a.recs| && b.pool == a.pool
    && forall r :: 0 <= r < |a.recs| ==> b.recs[r].key == a.recs[r].key && b.recs[r].cancelled == a.recs[r].cancelled
  }

  // The step by which a handshake stores the transport it has opened.
  ghost predicate StoresTransport(s: State, e: Event, r: nat) {
    && e.Advance? && e.outcome.Fine? && e.t < |s.threads| && s.threads[e.t] == Handshake(r, AwaitingInfo)
  }

  // The steps that close a record's client and transport other than closeConn.
  ghost predicate Tears(s: State, e: Event, r: nat) {
    && e.Advance? && e.t < |s.threads| && r < |s.shared.recs|
    && ((s.threads[e.t].Keepalive? && s.threads[e.t].r == r && s.threads[e.t].probing && !s.threads[e.t].over &&
         !e.outcome.Fine? && s.shared.recs[r].client == Some(s.threads[e.t].client)) ||
        s.threads[e.t] == Exec(r, TearingDown))
  }

  // What a goroutine's step does to the record it works on.
  ghost predicate Works(s: State, e: Event, r: nat, c: PM.Rec, c': PM.Rec) {
    && c'.key == c.key && c'.cancelled == c.cancelled
    && (c'.client == c.client || (Establishes(s, e, r) && c'.client.Some?) || (Tears(s, e, r) && c'.client.None?))
    && (c'.transport == c.transport || StoresTransport(s, e, r) || Tears(s, e, r))
    && (StoresTransport(s, e, r) ==> c'.transport.Some?)
    && (Tears(s, e, r) ==> c'.client.None? && c'.transport.None? && !c'.connected)
  }

  lemma HandshakeWorks(s: State, t: nat, r: nat, at: HandshakeAt, outcome: Outcome)
    requires t < |s.threads| && s.threads[t] == Handshake(r, at) && r < |s.shared.recs|
    ensures var b := StepHandshake(s, t, r, at, outcome).shared; var e := Advance(t, outcome);
      |b.recs| == |s.shared.recs| && b.pool == s.shared.pool && b.recs == s.shared.recs[r := b.recs[r]] &&
      Works(s, e, r, s.shared.recs[r], b.recs[r])
  {
  }

  lemma KeepaliveWorks(s: State, t: nat, r: nat, client: nat, probing: bool, outcome: Outcome)
    requires t < |s.threads| && s.threads[t] == Keepalive(r, client, probing, false) && r < |s.shared.recs|
    ensures var b := StepKeepalive(s, t, r, client, probing, outcome).shared; var e := Advance(t, outcome);
      |b.recs| == |s.shared.recs| && b.pool == s.shared.pool && b.recs == s.shared.recs[r := b.recs[r]] &&
      Works(s, e, r, s.shared.recs[r], b.recs[r])
  {
  }

  // Exec's sections, on the record.
  ghost predicate OnlyRec(a: PM.Shared, b: PM.Shared, r: nat)
    requires r < |a.recs|
  {
    && |b.recs| == |a.recs| && b.pool == a.pool && b.recs == a.recs[r := b.recs[r]]
    && b.recs[r].key == a.recs[r].key && b.recs[r].cancelled == a.recs[r].cancelled
  }

  lemma SectionsWork(s: PM.Shared, r: nat, client: nat)
    requires r < |s.recs|
    ensures forall b | b in {PM.Preempt(s, r), PM.Acquire(s, r), PM.Finish(s, r), PM.Leave(s, r), PM.Publish(s, r, client)} ::
      OnlyRec(s, b, r) && b.recs[r].client == s.recs[r].client && b.recs[r].transport == s.recs[r].transport
  {
  }

  lemma ExecWorks(s: State, t: nat, r: nat, step: ExecAt, outcome: Outcome)
    requires t < |s.threads| && s.threads[t] == Exec(r, step) && r < |s.shared.recs|
    ensures var b := StepExec(s, t, r, step, outcome).shared; var e := Advance(t, outcome);
      |b.recs| == |s.shared.recs| && b.pool == s.shared.pool && b.recs == s.shared.recs[r := b.recs[r]] &&
      Works(s, e, r, s.shared.recs[r], b.recs[r])
  {
    SectionsWork(s.shared, r, if step.Publishing? then step.client else 0);
    if !step.Publishing? {
      ExecSection(s, t, outcome);
    }
  }

  lemma AdvanceWorks(s: State, t: nat, outcome: Outcome, r: nat)
    requires r < |s.shared.recs|
    ensures var b := Step(s, Advance(t, outcome)).shared;
      |b.recs| == |s.shared.recs| && b.pool == s.shared.pool && Works(s, Advance(t, outcome), r, s.shared.recs[r], b.recs[r])
  {
    if t < |s.threads| && s.threads[t].r < |s.shared.recs| {
      match s.threads[t]
      case Handshake(q, at) => HandshakeWorks(s, t, q, at, outcome);
      case Keepalive(q, client, probing, over) =>
        if !over {
          KeepaliveWorks(s, t, q, client, probing, outcome);
        }
      case Exec(q, step) => ExecWorks(s, t, q, step, outcome);
    }
  }

  // One step, seen from one record that was there.
  lemma StepClients(s: State, e: Event, r: nat)
    requires Inv(s) && Removed(s.shared) && r < |s.shared.recs|
    ensures r < |Step(s, e).shared.recs|
    ensures var c, c' := s.shared.recs[r], Step(s, e).shared.recs[r];
      && (c.cancelled ==> c'.cancelled)
      && (c'.cancelled && !c.cancelled ==> Bare(c'))
      && (c.cancelled ==> Works(s, e, r, c, c') || (c' == c && !e.Advance?))
  {
    if e.Advance? {
      AdvanceWorks(s, e.t, e.outcome, r);
    } else if !e.StartExec? {
      CallTakesOut(s.shared, e);
      assert Step(s, e).shared == Call(s.shared, e);
    }
  }

  lemma StepRemoves(s: State, e: Event)
    requires Inv(s) && Removed(s.shared)
    ensures Removed(Step(s, e).shared)
    ensures forall r :: |s.shared.recs| <= r < |Step(s, e).shared.recs| ==> Fresh(Step(s, e).shared.recs[r])
  {
    if e.Advance? {
      var b := Step(s, e).shared;
      if s.shared.recs == [] {
        NothingToDo(s, e);
      }
      forall r | 0 <= r < |s.shared.recs|
        ensures |b.recs| == |s.shared.recs| && b.pool == s.shared.pool
        ensures b.recs[r].key == s.shared.recs[r].key && b.recs[r].cancelled == s.shared.recs[r].cancelled
      {
        AdvanceWorks(s, e.t, e.outcome, r);
      }
      assert |b.recs| == |s.shared.recs| && b.pool == s.shared.pool;
      assert forall r :: 0 <= r < |b.recs| ==> (InPool(b, r) <==> InPool(s.shared, r));
    } else if !e.StartExec? {
      CallTakesOut(s.shared, e);
      assert Step(s, e).shared == Call(s.shared, e);
    }
  }

  lemma NothingToDo(s: State, e: Event)
    requires s.shared.recs == [] && e.Advance?
    ensures Step(s, e) == s
  {
  }

  lemma {:induction false} RunRemoves(es: seq<Event>)
    ensures Removed(Run(es).shared)
  {
    if es != [] {
      RunRemoves(es[..|es| - 1]);
      RunKeepsInv(es[..|es| - 1]);
      StepRemoves(Run(es[..|es| - 1]), es[|es| - 1]);
    }
  }

  // In this run a handshake has handed its client to a record that was cancelled by then.
  ghost predicate EstablishedLate(es: seq<Event>, i: nat, r: nat) {
    && i < |es| && Establishes(Run(es[..i]), es[i], r)
    && r < |Run(es[..i]).shared.recs| && Run(es[..i]).shared.recs[r].cancelled
  }

  /** Which connections outside the pool still hold a client, in any run: only those cancelled while
      their handshake was under way, which then finished all the same. */
  lemma {:induction false} ClientsOutsideThePool(es: seq<Event>, r: nat)
    requires r < |Run(es).shared.recs| && !InPool(Run(es).shared, r) && Run(es).shared.recs[r].client.Some?
    ensures Run(es).shared.recs[r].cancelled
    ensures exists i: nat :: EstablishedLate(es, i, r)
  {
    RunRemoves(es);
    if es != [] {
      var init, last := es[..|es| - 1], |es| - 1;
      RunKeepsInv(init);
      RunRemoves(init);
      StepOutside(Run(init), es[last], r);
      if Establishes(Run(init), es[last], r) {
        assert EstablishedLate(es, last, r);
      } else {
        ClientsOutsideThePool(init, r);
        var i: nat :| EstablishedLate(init, i, r);
        LateStays(es, i, r);
      }
    }
  }

  lemma LateStays(es: seq<Event>, i: nat, r: nat)
    requires es != [] && EstablishedLate(es[..|es| - 1], i, r)
    ensures EstablishedLate(es, i, r)
  {
    assert es[..|es| - 1][..i] == es[..i];
  }

  // A record outside the pool with a client: it was so before, or this very step gave it the client.
  lemma StepOutside(s: State, e: Event, r: nat)
    requires Inv(s) && Removed(s.shared) && r < |Step(s, e).shared.recs|
    requires !InPool(Step(s, e).shared, r) && Step(s, e).shared.recs[r].client.Some?
    ensures r < |s.shared.recs| && s.shared.recs[r].cancelled && !InPool(s.shared, r)
    ensures Establishes(s, e, r) || s.shared.recs[r].client.Some?
  {
    StepRemoves(s, e);
    assert r < |s.shared.recs|;
    StepClients(s, e, r);
  }

  // A handshake past its last look at the cancel channel looked while the record was not cancelled.
  ghost predicate LookedInTime(es: seq<Event>, j: nat, t: nat, r: nat) {
    && j < |es| && es[j].Advance? && es[j].t == t
    && t < |Run(es[..j]).threads| && Run(es[..j]).threads[t] == Handshake(r, Checking)
    && r < |Run(es[..j]).shared.recs| && !Run(es[..j]).shared.recs[r].cancelled
  }

  predicate PastChecking(at: HandshakeAt) {
    at == Dialing || at == AwaitingInfo || at == AwaitingCert || at == Negotiating
  }

  lemma HandshakeMoves(s: State, t: nat, outcome: Outcome)
    requires t < |s.threads| && s.threads[t].Handshake? && s.threads[t].r < |s.shared.recs|
    ensures var s' := StepHandshake(s, t, s.threads[t].r, s.threads[t].at, outcome);
      && |s.threads| <= |s'.threads|
      && (forall u :: 0 <= u < |s.threads| && u != t ==> s'.threads[u] == s.threads[u])
      && (forall u :: |s.threads| <= u < |s'.threads| ==> s'.threads[u].Keepalive?)
      && s'.threads[t].Handshake? && s'.threads[t].r == s.threads[t].r
      && (Unconnected(s'.threads[t]) ==> Unconnected(s.threads[t]))
      && (PastChecking(s'.threads[t].at) ==>
            (PastChecking(s.threads[t].at) ||
             (s.threads[t].at == Checking && !s.shared.recs[s.threads[t].r].cancelled)))
  {
  }

  lemma ExecMoves(s: State, t: nat, outcome: Outcome)
    requires t < |s.threads| && s.threads[t].Exec? && s.threads[t].r < |s.shared.recs|
    ensures var s' := StepExec(s, t, s.threads[t].r, s.threads[t].step, outcome);
      && |s'.threads| == |s.threads|
      && (forall u :: 0 <= u < |s.threads| && u != t ==> s'.threads[u] == s.threads[u])
      && s'.threads[t].Exec? && s'.threads[t].r == s.threads[t].r
      && (HoldsExec(s'.threads[t]) ==> HoldsExec(s.threads[t]) || s.shared.recs[s.threads[t].r].client.Some?)
  {
  }

  lemma HandshakeCameFrom(s: State, e: Event, t: nat, r: nat, at: HandshakeAt)
    requires ThreadsInRange(s) && t < |Step(s, e).threads|
    requires Step(s, e).threads[t] == Handshake(r, at) && PastChecking(at)
    ensures t < |s.threads| && s.threads[t].Handshake? && s.threads[t].r == r
    ensures PastChecking(s.threads[t].at) ||
      (e.Advance? && e.t == t && s.threads[t].at == Checking && r < |s.shared.recs| && !s.shared.recs[r].cancelled)
  {
    if e.Advance? && e.t < |s.threads| {
      match s.threads[e.t]
      case Handshake(q, was) => HandshakeMoves(s, e.t, e.outcome);
      case Keepalive(_, _, _, _) =>
      case Exec(q, step) => ExecMoves(s, e.t, e.outcome);
    }
  }

  lemma {:induction false} HandshakesLooked(es: seq<Event>, t: nat, r: nat)
    requires t < |Run(es).threads| && Run(es).threads[t].Handshake? && Run(es).threads[t].r == r
    requires PastChecking(Run(es).threads[t].at)
    ensures exists j: nat :: LookedInTime(es, j, t, r)
  {
    var init, last := es[..|es| - 1], |es| - 1;
    RunKeepsInv(init);
    HandshakeCameFrom(Run(init), es[last], t, r, Run(es).threads[t].at);
    if PastChecking(Run(init).threads[t].at) {
      HandshakesLooked(init, t, r);
      var j: nat :| LookedInTime(init, j, t, r);
      LookStays(es, j, t, r);
    } else {
      assert LookedInTime(es, last, t, r);
    }
  }

  lemma LookStays(es: seq<Event>, j: nat, t: nat, r: nat)
    requires es != [] && LookedInTime(es[..|es| - 1], j, t, r)
    ensures LookedInTime(es, j, t, r)
  {
    assert es[..|es| - 1][..j] == es[..j];
  }

  lemma LateLooked(es: seq<Event>, i: nat, r: nat) returns (j: nat)
    requires EstablishedLate(es, i, r)
    ensures LookedInTime(es[..i], j, es[i].t, r)
  {
    HandshakesLooked(es[..i], es[i].t, r);
    j :| LookedInTime(es[..i], j, es[i].t, r);
  }

  /** So such a connection was cancelled in the time between its handshake's last look at the cancel
      channel and its end. */
  lemma CancelledInBetween(es: seq<Event>, r: nat)
    requires r < |Run(es).shared.recs| && !InPool(Run(es).shared, r) && Run(es).shared.recs[r].client.Some?
    ensures exists i: nat, j: nat :: EstablishedLate(es, i, r) && LookedInTime(es[..i], j, es[i].t, r)
  {
    ClientsOutsideThePool(es, r);
    var i: nat :| EstablishedLate(es, i, r);
    var j := LateLooked(es, i, r);
  }

  /** And what ends it is only its own keepalive failing, or a command on it that ends in error: no
      disconnect, eviction or sweep reaches it any more. */
  lemma OnlyTheirOwnEnd(es: seq<Event>, e: Event, r: nat)
    requires r < |Run(es).shared.recs| && !InPool(Run(es).shared, r) && Run(es).shared.recs[r].client.Some?
    ensures r < |Step(Run(es), e).shared.recs| && !InPool(Step(Run(es), e).shared, r)
    ensures Step(Run(es), e).shared.recs[r].client == Run(es).shared.recs[r].client ||
            Ends(Run(es), e, r, Run(es).shared.recs[r].client.value)
  {
    var s := Run(es);
    RunRemoves(es);
    RunKeepsInv(es);
    StepClients(s, e, r);
    StepRemoves(s, e);
    EstablishesFromAHandshake(s, e, r);
  }

  // ------------------------------------------------------------------ whether they still work

  ghost predicate StoresLate(s: State, e: Event, r: nat) {
    r < |s.shared.recs| && s.shared.recs[r].cancelled && StoresTransport(s, e, r)
  }

  // In this run a transport was stored on a record that had been cancelled.
  ghost predicate StoredLate(es: seq<Event>, i: nat, r: nat) {
    i < |es| && StoresLate(Run(es[..i]), es[i], r)
  }

  lemma StoredLateStays(es: seq<Event>, i: nat, r: nat)
    requires es != [] && StoredLate(es[..|es| - 1], i, r)
    ensures StoredLate(es, i, r)
  {
    assert es[..|es| - 1][..i] == es[..i];
  }

  // A cancelled record's transport came after the cancellation.
  lemma {:induction false} TransportsOutside(es: seq<Event>, r: nat)
    requires r < |Run(es).shared.recs| && Run(es).shared.recs[r].cancelled && Run(es).shared.recs[r].transport.Some?
    ensures exists i: nat :: StoredLate(es, i, r)
  {
    var init, last := es[..|es| - 1], |es| - 1;
    RunKeepsInv(init);
    RunRemoves(init);
    StepRemoves(Run(init), es[last]);
    assert r < |Run(init).shared.recs|;
    StepClients(Run(init), es[last], r);
    if StoresTransport(Run(init), es[last], r) {
      assert StoredLate(es, last, r);
    } else {
      TransportsOutside(init, r);
      var i: nat :| StoredLate(init, i, r);
      StoredLateStays(es, i, r);
    }
  }

  // No command runs on a connection whose handshake is still under way.
  ghost predicate Orderly(s: State) {
    forall t, u :: 0 <= t < |s.threads| && 0 <= u < |s.threads| && HoldsExec(s.threads[t]) && Unconnected(s.threads[u]) ==>
      s.threads[t].r != s.threads[u].r
  }

  // Where a goroutine that runs a command, or a handshake, was one step ago.
  lemma CameFrom(s: State, e: Event, u: nat)
    requires ThreadsInRange(s) && u < |Step(s, e).threads|
    ensures var th := Step(s, e).threads[u];
      && (HoldsExec(th) ==>
            u < |s.threads| && s.threads[u].r == th.r < |s.shared.recs| &&
            (HoldsExec(s.threads[u]) || s.shared.recs[th.r].client.Some?))
      && (Unconnected(th) ==>
            (u < |s.threads| && Unconnected(s.threads[u]) && s.threads[u].r == th.r) || th.r == |s.shared.recs|)
  {
    if e.Advance? && e.t < |s.threads| {
      match s.threads[e.t]
      case Handshake(r, at) => HandshakeMoves(s, e.t, e.outcome);
      case Keepalive(_, _, _, _) =>
      case Exec(r, step) => ExecMoves(s, e.t, e.outcome);
    }
  }

  lemma StepIsOrderly(s: State, e: Event)
    requires Inv(s) && Orderly(s)
    ensures Orderly(Step(s, e))
  {
    var ths := Step(s, e).threads;
    forall t, u | 0 <= t < |ths| && 0 <= u < |ths| && HoldsExec(ths[t]) && Unconnected(ths[u]) ensures ths[t].r != ths[u].r {
      CameFrom(s, e, t);
      CameFrom(s, e, u);
    }
  }

  lemma {:induction false} RunIsOrderly(es: seq<Event>)
    ensures Orderly(Run(es))
  {
    if es != [] {
      RunIsOrderly(es[..|es| - 1]);
      RunKeepsInv(es[..|es| - 1]);
      StepIsOrderly(Run(es[..|es| - 1]), es[|es| - 1]);
    }
  }

  // The record has no client and will not get one.
  ghost predicate Spent(s: State, r: nat) {
    && r < |s.shared.recs| && s.shared.recs[r].client.None?
    && forall t :: 0 <= t < |s.threads| && Unconnected(s.threads[t]) ==> s.threads[t].r != r
  }

  lemma NoneUnderWay(s: State, e: Event, r: nat)
    requires ThreadsInRange(s) && r < |s.shared.recs|
    requires forall t :: 0 <= t < |s.threads| && Unconnected(s.threads[t]) ==> s.threads[t].r != r
    ensures var ths := Step(s, e).threads; forall t :: 0 <= t < |ths| && Unconnected(ths[t]) ==> ths[t].r != r
  {
    var ths := Step(s, e).threads;
    forall t | 0 <= t < |ths| && Unconnected(ths[t]) ensures ths[t].r != r {
      CameFrom(s, e, t);
    }
  }

  lemma EstablishesFromAHandshake(s: State, e: Event, r: nat)
    ensures Establishes(s, e, r) ==> exists t :: 0 <= t < |s.threads| && Unconnected(s.threads[t]) && s.threads[t].r == r
  {
    if Establishes(s, e, r) {
      assert Unconnected(s.threads[e.t]);
    }
  }

  lemma SpentStays(s: State, e: Event, r: nat)
    requires Inv(s) && Removed(s.shared) && Spent(s, r) && s.shared.recs[r].cancelled
    ensures Spent(Step(s, e), r)
  {
    StepClients(s, e, r);
    NoneUnderWay(s, e, r);
    EstablishesFromAHandshake(s, e, r);
  }

  lemma TornIsSpent(s: State, e: Event, r: nat)
    requires Inv(s) && Removed(s.shared) && Orderly(s) && Tears(s, e, r) && s.shared.recs[r].cancelled
    ensures Spent(Step(s, e), r)
  {
    StepClients(s, e, r);
    if s.threads[e.t].Exec? {
      assert HoldsExec(s.threads[e.t]);
    }
    NoneUnderWay(s, e, r);
  }

  // A cancelled record with a transport, or with no client to come.
  ghost predicate Late(s: State, r: nat) {
    && r < |s.shared.recs| && s.shared.recs[r].cancelled
    && (s.shared.recs[r].transport.Some? || Spent(s, r))
  }

  lemma LateStep(s: State, e: Event, r: nat)
    requires Inv(s) && Removed(s.shared) && Orderly(s) && (Late(s, r) || StoresLate(s, e, r))
    ensures Late(Step(s, e), r)
  {
    StepClients(s, e, r);
    if Spent(s, r) {
      SpentStays(s, e, r);
    } else if Tears(s, e, r) {
      TornIsSpent(s, e, r);
    }
  }

  lemma RunStaysLate(es: seq<Event>, r: nat)
    requires es != []
    requires Late(Run(es[..|es| - 1]), r) || StoresLate(Run(es[..|es| - 1]), es[|es| - 1], r)
    ensures Late(Run(es), r)
  {
    RunKeepsInv(es[..|es| - 1]);
    RunRemoves(es[..|es| - 1]);
    RunIsOrderly(es[..|es| - 1]);
    LateStep(Run(es[..|es| - 1]), es[|es| - 1], r);
  }

  // A transport stored late is closed only together with the client.
  lemma {:induction false} StoredLateLasts(es: seq<Event>, i: nat, r: nat)
    requires StoredLate(es, i, r)
    ensures Late(Run(es), r)
  {
    if i < |es| - 1 {
      StoredBefore(es, i, r);
      StoredLateLasts(es[..|es| - 1], i, r);
    }
    RunStaysLate(es, r);
  }

  lemma StoredBefore(es: seq<Event>, i: nat, r: nat)
    requires StoredLate(es, i, r) && i < |es| - 1
    ensures StoredLate(es[..|es| - 1], i, r)
  {
    assert es[..|es| - 1][..i] == es[..i];
  }

  /** A connection left over outside the pool still has its transport, and so works, exactly if that was
      stored after the cancellation; otherwise closeConn closed it under the handshake's hands. */
  lemma LeftOverWorksExactly(es: seq<Event>, r: nat)
    requires r < |Run(es).shared.recs| && !InPool(Run(es).shared, r) && Run(es).shared.recs[r].client.Some?
    ensures Run(es).shared.recs[r].transport.Some? <==> exists i: nat :: StoredLate(es, i, r)
  {
    RunRemoves(es);
    if Run(es).shared.recs[r].transport.Some? {
      TransportsOutside(es, r);
    }
    if i: nat :| StoredLate(es, i, r) {
      StoredLateLasts(es, i, r);
    }
  }

  // ------------------------------------------------------------------ runs that get there

  // A handshake of a record that has been cancelled.
  ghost predicate ShakingLate(s: State, t: nat, r: nat, at: HandshakeAt) {
    && t < |s.threads| && s.threads[t] == Handshake(r, at) && r < |s.shared.recs| && s.shared.recs[r].cancelled
  }

  lemma LeavesWhileShaking(s: State, t: nat, r: nat, key: string, at: HandshakeAt)
    requires Shaking(s, t, r, key, at)
    ensures ShakingLate(Step(s, Disconnect(key)), t, r, at)
    ensures Bare(Step(s, Disconnect(key)).shared.recs[r])
  {
    PM.CloseConnFrame(s.shared, r);
    CloseConnClears(s.shared, r);
  }

  lemma ShakesOnLate(s: State, t: nat, r: nat, at: HandshakeAt)
    requires ShakingLate(s, t, r, at) && PastChecking(at)
    ensures var s1 := Step(s, Advance(t, Fine));
      && ShakingLate(s1, t, r, NextAt(at))
      && s1.shared.recs[r].transport.Some? == (s.shared.recs[r].transport.Some? || at.AwaitingInfo?)
      && (at.Negotiating? ==> s1.shared.recs[r].client.Some?)
  {
  }

  // How far the first handshake has got since its host was left at `at`.
  ghost predicate Finishing(s: State, at: HandshakeAt, now: HandshakeAt) {
    && ShakingLate(s, 0, 0, now) && (PastChecking(now) || now == Unlocking)
    && (now == Unlocking ==> s.shared.recs[0].client.Some?)
    && (s.shared.recs[0].transport.Some? <==> (at.Dialing? || at.AwaitingInfo?) && StepsLeft(now) < StepsLeft(AwaitingInfo))
    && StepsLeft(now) <= StepsLeft(at)
  }

  lemma FinishesOn(s: State, at: HandshakeAt, now: HandshakeAt)
    requires PastChecking(at) && Finishing(s, at, now) && now != Unlocking
    ensures Finishing(Step(s, Advance(0, Fine)), at, NextAt(now))
  {
    ShakesOnLate(s, 0, 0, now);
  }

  ghost predicate FinishingRun(es: seq<Event>, at: HandshakeAt, now: HandshakeAt) {
    Finishing(Run(es), at, now)
  }

  lemma FinishesOneStep(es: seq<Event>, at: HandshakeAt, now: HandshakeAt)
    requires PastChecking(at) && FinishingRun(es, at, now) && now != Unlocking
    ensures FinishingRun(es + [Advance(0, Fine)], at, NextAt(now))
  {
    FinishesOn(Run(es), at, now);
    OneMore(es, Advance(0, Fine));
  }

  lemma {:induction false} FinishesFrom(es: seq<Event>, at: HandshakeAt, now: HandshakeAt) returns (more: seq<Event>)
    requires PastChecking(at) && FinishingRun(es, at, now)
    ensures FinishingRun(more, at, Unlocking)
    decreases StepsLeft(now), now.Negotiating?
  {
    if now == Unlocking {
      more := es;
    } else {
      FinishesOneStep(es, at, now);
      more := FinishesFrom(es + [Advance(0, Fine)], at, NextAt(now));
    }
  }

  lemma StartsFinishing(es: seq<Event>, key: string, at: HandshakeAt)
    requires PastChecking(at) && Shaking(Run(es), 0, 0, key, at)
    ensures FinishingRun(es + [Disconnect(key)], at, at)
  {
    LeftIsFinishing(Run(es), key, at);
    OneMore(es, Disconnect(key));
  }

  lemma LeftIsFinishing(s: State, key: string, at: HandshakeAt)
    requires PastChecking(at) && Shaking(s, 0, 0, key, at)
    ensures Finishing(Step(s, Disconnect(key)), at, at)
  {
    LeavesWhileShaking(s, 0, 0, key, at);
  }

  // The first connection is outside the pool and has a client; its transport is there or not.
  ghost predicate LeftOver(s: PM.Shared, works: bool) {
    0 < |s.recs| && !InPool(s, 0) && s.recs[0].client.Some? && s.recs[0].transport.Some? == works
  }

  lemma FinishedIsLeftOver(s: State, at: HandshakeAt)
    requires Removed(s.shared) && Finishing(s, at, Unlocking)
    ensures LeftOver(s.shared, at.Dialing? || at.AwaitingInfo?)
  {
  }

  /** There are such connections. Connect, leave the host at some point after the handshake's last look,
      and let it finish: */
  lemma LeavesOneOver(key: string, at: HandshakeAt) returns (es: seq<Event>)
    requires PastChecking(at)
    ensures LeftOver(Run(es).shared, at.Dialing? || at.AwaitingInfo?)
  {
    var shaking := ShakesUpTo(key, at);
    StartsFinishing(shaking, key, at);
    es := FinishesFrom(shaking + [Disconnect(key)], at, at);
    RunRemoves(es);
    FinishedIsLeftOver(Run(es), at);
  }

  /** left while the handshake is dialing, such a connection goes on working; */
  lemma AConnectionCanBeLeftOver(key: string)
    ensures exists es :: LeftOver(Run(es).shared, true)
  {
    var es := LeavesOneOver(key, Dialing);
  }

  /** left while it negotiates, it is dead, its transport being closed already. */
  lemma ADeadOneToo(key: string)
    ensures exists es :: LeftOver(Run(es).shared, false)
  {
    var es := LeavesOneOver(key, Negotiating);
  }
}
