/** The goroutines of web/wasm/sshclient/client.go interleaving over the pool: handshakes, keepalives
    and Exec, with the calls from JavaScript and the idle sweeper. Each critical section and each
    return of a blocking call is one step. */
module PoolRuns {
  import opened Common
  import opened PoolEviction
  import opened Sorting
  import PM = PoolModel

  datatype HandshakeAt =
    | Queued         // select on connectSem or cancel
    | Checking       // holds connectSem; looks at cancel once more
    | Dialing        // NewWSTransportWithAuth
    | AwaitingInfo   // WaitForConnected
    | AwaitingCert   // certificate, rejection, timeout or cancel
    | Negotiating    // ssh.NewClientConn
    | Unlocking      // the deferred release of connectSem
    | Finished

  datatype ExecAt =
    | Preempting
    | Polling(n: nat)
    | Acquiring
    | Opening                     // openPTYSession's first section
    | Publishing(client: nat)     // the session is open on this client; second section next
    | Starting
    | Waiting
    | TearingDown
    | Releasing                   // the deferred executing = false
    | Done

  datatype Thread =
    | Handshake(r: nat, at: HandshakeAt)
    | Keepalive(r: nat, client: nat, probing: bool, over: bool)
    | Exec(r: nat, step: ExecAt)

  // `sem` is the handshake that holds connectSem; the counters name what is made next.
  datatype State = State(shared: PM.Shared, threads: seq<Thread>, sem: Option<nat>,
                         clients: nat, transports: nat)

  const INITIAL := State(PM.INITIAL, [], None, 0, 0)

  // How a blocking call ends: as hoped, with an error, or because the record was cancelled.
  datatype Outcome = Fine | Failed | Cancelled

  datatype Event =
    | Connect(key: string, now: Time)
    | Disconnect(key: string)
    | DisconnectAll(order: seq<string>)
    | DisconnectPending
    | SendInput
    | Sweep(now: Time)
    | StartExec(key: string)
    | Advance(t: nat, outcome: Outcome)

  function Move(s: State, t: nat, thread: Thread): State
    requires t < |s.threads|
  {
    s.(threads := s.threads[t := thread])
  }

  function StepHandshake(s: State, t: nat, r: nat, at: HandshakeAt, outcome: Outcome): State
    requires t < |s.threads| && r < |s.shared.recs|
  {
    var cancelled := s.shared.recs[r].cancelled;
    match at
    case Queued =>
      if outcome.Cancelled? && cancelled then Move(s, t, Handshake(r, Finished))
      else if s.sem.None? then Move(s, t, Handshake(r, Checking)).(sem := Some(t))
      else s
    case Checking => Move(s, t, Handshake(r, if cancelled then Unlocking else Dialing))
    case Dialing =>
      if outcome.Fine? then Move(s, t, Handshake(r, AwaitingInfo))
      else Move(s, t, Handshake(r, Unlocking)).(shared := PM.GiveUp(s.shared, r))
    case AwaitingInfo =>
      if outcome.Fine?
      then
        Move(s, t, Handshake(r, AwaitingCert))
          .(shared := PM.Set(s.shared, r, s.shared.recs[r].(transport := Some(s.transports))),
            transports := s.transports + 1)
      else Move(s, t, Handshake(r, Unlocking)).(shared := PM.GiveUp(s.shared, r))
    case AwaitingCert =>
      if outcome.Cancelled? && cancelled
      then Move(s, t, Handshake(r, Unlocking)).(shared := PM.GiveUp(s.shared, r))
      else Move(s, t, Handshake(r, Negotiating))
    case Negotiating =>
      if outcome.Fine?
      then
        var moved := Move(s, t, Handshake(r, Unlocking));
        moved.(shared := PM.Establish(s.shared, r, s.clients), clients := s.clients + 1,
               threads := moved.threads + [Keepalive(r, s.clients, false, false)])
      else Move(s, t, Handshake(r, Unlocking)).(shared := PM.GiveUp(s.shared, r))
    case Unlocking => Move(s, t, Handshake(r, Finished)).(sem := None)
    case Finished => s
  }

  function StepKeepalive(s: State, t: nat, r: nat, client: nat, probing: bool, outcome: Outcome): State
    requires t < |s.threads| && r < |s.shared.recs|
  {
    if !probing then Move(s, t, Keepalive(r, client, true, s.shared.recs[r].client != Some(client)))
    else if outcome.Fine? then Move(s, t, Keepalive(r, client, false, false))
    else Move(s, t, Keepalive(r, client, true, true)).(shared := PM.KeepaliveDead(s.shared, r, client))
  }

  const POLLS := 300

  function StepExec(s: State, t: nat, r: nat, step: ExecAt, outcome: Outcome): State
    requires t < |s.threads| && r < |s.shared.recs|
  {
    var c := s.shared.recs[r];
    match step
    case Preempting => Move(s, t, Exec(r, Polling(0))).(shared := PM.Preempt(s.shared, r))
    case Polling(n) =>
      if n >= POLLS || !c.executing then Move(s, t, Exec(r, Acquiring)) else Move(s, t, Exec(r, Polling(n + 1)))
    case Acquiring =>
      if PM.CanAcquire(s.shared, r)
      then Move(s, t, Exec(r, Opening)).(shared := PM.Acquire(s.shared, r))
      else Move(s, t, Exec(r, Done))
    case Opening =>
      if c.client.Some? then Move(s, t, Exec(r, Publishing(c.client.value))) else Move(s, t, Exec(r, Releasing))
    case Publishing(client) =>
      if outcome.Fine? && PM.CanPublish(s.shared, r, client)
      then Move(s, t, Exec(r, Starting)).(shared := PM.Publish(s.shared, r, client))
      else Move(s, t, Exec(r, Releasing))
    case Starting => Move(s, t, Exec(r, if outcome.Fine? then Waiting else Releasing))
    case Waiting =>
      Move(s, t, Exec(r, if outcome.Failed? && !c.switching then TearingDown else Releasing))
        .(shared := PM.Finish(s.shared, r))
    case TearingDown => Move(s, t, Exec(r, Releasing)).(shared := PM.Teardown(s.shared, r))
    case Releasing => Move(s, t, Exec(r, Done)).(shared := PM.Leave(s.shared, r))
    case Done => s
  }

  ghost function Step(s: State, e: Event): State {
    match e
    case Connect(key, now) =>
      var after := s.(shared := PM.Connect(s.shared, key, now));
      if PM.Reuses(s.shared, key, now) then after
      else after.(threads := s.threads + [Handshake(|s.shared.recs|, Queued)])
    case Disconnect(key) => s.(shared := PM.Disconnect(s.shared, key))
    case DisconnectAll(order) =>
      if SetOf(order) == s.shared.pool.Keys then s.(shared := PM.DisconnectAll(s.shared, order)) else s
    case DisconnectPending => s.(shared := PM.DisconnectPending(s.shared))
    case SendInput => s.(shared := PM.SendInput(s.shared))
    case Sweep(now) => s.(shared := PM.ReleaseIdle(s.shared, now))
    case StartExec(key) =>
      if PM.Pooled(s.shared, key)
      then s.(threads := s.threads + [Exec(s.shared.pool[key], Preempting)])
      else s
    case Advance(t, outcome) =>
      if t >= |s.threads| || s.threads[t].r >= |s.shared.recs| then s
      else
        match s.threads[t]
        case Handshake(r, at) => StepHandshake(s, t, r, at, outcome)
        case Keepalive(r, client, probing, over) => if over then s else StepKeepalive(s, t, r, client, probing, outcome)
        case Exec(r, step) => StepExec(s, t, r, step, outcome)
  }

  ghost function Run(es: seq<Event>): State {
    if es == [] then INITIAL else Step(Run(es[..|es| - 1]), es[|es| - 1])
  }

  // ------------------------------------------------------------------ who holds what

  // The Exec goroutine has set `executing` and not yet cleared it.
  predicate HoldsExec(th: Thread) {
    th.Exec? && (th.step.Opening? || th.step.Publishing? || th.step.Starting? || th.step.Waiting? ||
                 th.step.TearingDown? || th.step.Releasing?)
  }

  predicate HoldsSem(th: Thread) {
    th.Handshake? && !th.at.Queued? && !th.at.Finished?
  }

  // The handshake has not handed its client over yet.
  predicate Unconnected(th: Thread) {
    th.Handshake? && !th.at.Unlocking? && !th.at.Finished?
  }

  ghost predicate ThreadsInRange(s: State) {
    forall t :: 0 <= t < |s.threads| ==> s.threads[t].r < |s.shared.recs|
  }

  // At most one Exec goroutine per record is inside, and `executing` says whether one is.
  ghost predicate ExecOwnership(s: State) {
    && (forall t :: 0 <= t < |s.threads| && HoldsExec(s.threads[t]) ==>
          s.threads[t].r < |s.shared.recs| && s.shared.recs[s.threads[t].r].executing)
    && (forall t, u :: 0 <= t < u < |s.threads| && HoldsExec(s.threads[t]) && HoldsExec(s.threads[u]) ==>
          s.threads[t].r != s.threads[u].r)
    && (forall r :: 0 <= r < |s.shared.recs| && s.shared.recs[r].executing ==>
          exists t :: 0 <= t < |s.threads| && HoldsExec(s.threads[t]) && s.threads[t].r == r)
  }

  ghost predicate SemOwnership(s: State) {
    && (s.sem.Some? ==> s.sem.value < |s.threads|)
    && (forall t :: 0 <= t < |s.threads| ==> (HoldsSem(s.threads[t]) <==> s.sem == Some(t)))
  }

  // A record has one handshake, and until that has finished the record has neither client nor session.
  ghost predicate Handshakes(s: State) {
    && (forall t, u :: 0 <= t < u < |s.threads| && s.threads[t].Handshake? && s.threads[u].Handshake? ==>
          s.threads[t].r != s.threads[u].r)
    && (forall t :: 0 <= t < |s.threads| && Unconnected(s.threads[t]) && s.threads[t].r < |s.shared.recs| ==>
          s.shared.recs[s.threads[t].r].client.None? && s.shared.recs[s.threads[t].r].session.None?)
  }

  ghost predicate Inv(s: State) {
    PM.Safe(s.shared) && ThreadsInRange(s) && ExecOwnership(s) && SemOwnership(s) && Handshakes(s)
  }

  // ------------------------------------------------------------------ calls from JavaScript

  // What a call that runs no goroutine may do to the records: clear clients and sessions, add records.
  ghost predicate Calm(a: PM.Shared, b: PM.Shared) {
    && |a.recs| <= |b.recs|
    && (forall r :: 0 <= r < |a.recs| ==>
          && b.recs[r].executing == a.recs[r].executing
          && (b.recs[r].client == a.recs[r].client || b.recs[r].client.None?)
          && (b.recs[r].session == a.recs[r].session || b.recs[r].session.None?))
    && (forall r :: |a.recs| <= r < |b.recs| ==>
          !b.recs[r].executing && b.recs[r].client.None? && b.recs[r].session.None?)
  }

  lemma {:induction false} CloseAllIsCalm(s: PM.Shared, keys: seq<string>)
    ensures Calm(s, PM.CloseAll(s, keys)) && |PM.CloseAll(s, keys).recs| == |s.recs|
  {
    if keys != [] {
      var s1 := PM.CloseAll(s, keys[..|keys| - 1]);
      CloseAllIsCalm(s, keys[..|keys| - 1]);
      DropIsCalm(s1, keys[|keys| - 1]);
    }
  }

  lemma DropIsCalm(s: PM.Shared, key: string)
    ensures Calm(s, PM.Drop(s, key)) && |PM.Drop(s, key).recs| == |s.recs|
  {
    if PM.Pooled(s, key) {
      PM.CloseConnFrame(s, s.pool[key]);
    }
  }

  lemma MakeActiveIsCalm(s: PM.Shared, key: string, now: Time)
    ensures Calm(s, PM.MakeActive(s, key, now)) && |PM.MakeActive(s, key, now).recs| == |s.recs|
  {
  }

  lemma ConnectIsCalm(s: PM.Shared, key: string, now: Time)
    ensures Calm(s, PM.Connect(s, key, now))
    ensures |PM.Connect(s, key, now).recs| == |s.recs| + (if PM.Reuses(s, key, now) then 0 else 1)
  {
    var entered := PM.Enter(s, key, now);
    if PM.Reuses(s, key, now) {
      MakeActiveIsCalm(s, key, now);
    } else {
      DropIsCalm(s, key);
      MakeActiveIsCalm(PM.Add(PM.Drop(s, key), key, now), key, now);
    }
    CloseAllIsCalm(entered, PM.InKeyOrder(Evicted(PM.SlotsOf(entered), PM.SweepQuery(entered, now))));
  }

  // The calls, as changes of the shared state alone.
  ghost function Call(s: PM.Shared, e: Event): PM.Shared
    requires !e.StartExec? && !e.Advance?
  {
    match e
    case Connect(key, now) => PM.Connect(s, key, now)
    case Disconnect(key) => PM.Disconnect(s, key)
    case DisconnectAll(order) => if SetOf(order) == s.pool.Keys then PM.DisconnectAll(s, order) else s
    case DisconnectPending => PM.DisconnectPending(s)
    case SendInput => PM.SendInput(s)
    case Sweep(now) => PM.ReleaseIdle(s, now)
  }

  lemma CallIsSafe(s: PM.Shared, e: Event)
    requires PM.Safe(s) && !e.StartExec? && !e.Advance?
    ensures PM.Safe(Call(s, e))
  {
    match e
    case Connect(key, now) => PM.ConnectIsSafe(s, key, now);
    case Disconnect(key) => PM.DisconnectsAreSafe(s, key, []);
    case DisconnectAll(order) => PM.DisconnectsAreSafe(s, "", order);
    case DisconnectPending => PM.DisconnectsAreSafe(s, "", []);
    case SendInput =>
      if PM.Pooled(s, s.active) {
        assert PM.RecInv(s, s.recs[s.pool[s.active]]);
      }
    case Sweep(now) => PM.ReleaseIdleIsSafe(s, now);
  }

  lemma CallIsCalm(s: PM.Shared, e: Event)
    requires !e.StartExec? && !e.Advance?
    ensures Calm(s, Call(s, e))
  {
    match e
    case Connect(key, now) => ConnectIsCalm(s, key, now);
    case Disconnect(key) => DropIsCalm(s, key);
    case DisconnectAll(order) => CloseAllIsCalm(s, order);
    case DisconnectPending => CloseAllIsCalm(s, PM.InKeyOrder(Pending(PM.SlotsOf(s))));
    case SendInput =>
    case Sweep(now) => CloseAllIsCalm(s, PM.InKeyOrder(Evicted(PM.SlotsOf(s), PM.SweepQuery(s, now))));
  }

  // The goroutines' claims survive a calm change.
  lemma CalmKeepsInv(s: State, b: PM.Shared)
    requires Inv(s) && PM.Safe(b) && Calm(s.shared, b)
    ensures Inv(s.(shared := b))
  {
    var s' := s.(shared := b);
    forall r | 0 <= r < |b.recs| && b.recs[r].executing
      ensures exists t :: 0 <= t < |s.threads| && HoldsExec(s.threads[t]) && s.threads[t].r == r
    {
      assert s.shared.recs[r].executing;
    }
  }

  lemma SpawnKeepsExec(s: State, th: Thread)
    requires ExecOwnership(s) && !HoldsExec(th)
    ensures ExecOwnership(s.(threads := s.threads + [th]))
  {
    var s' := s.(threads := s.threads + [th]);
    forall r | 0 <= r < |s.shared.recs| && s.shared.recs[r].executing
      ensures exists t :: 0 <= t < |s'.threads| && HoldsExec(s'.threads[t]) && s'.threads[t].r == r
    {
      var t :| 0 <= t < |s.threads| && HoldsExec(s.threads[t]) && s.threads[t].r == r;
      assert s'.threads[t] == s.threads[t];
    }
  }

  lemma SpawnKeepsHandshakes(s: State, th: Thread)
    requires Handshakes(s)
    requires th.Handshake? ==>
      && (th.r < |s.shared.recs| ==> s.shared.recs[th.r].client.None? && s.shared.recs[th.r].session.None?)
      && forall t :: 0 <= t < |s.threads| && s.threads[t].Handshake? ==> s.threads[t].r != th.r
    ensures Handshakes(s.(threads := s.threads + [th]))
  {
  }

  // A goroutine starts where it claims nothing.
  lemma SpawnKeepsInv(s: State, th: Thread)
    requires Inv(s) && th.r < |s.shared.recs| && !HoldsExec(th) && !HoldsSem(th)
    requires th.Handshake? ==>
      && s.shared.recs[th.r].client.None? && s.shared.recs[th.r].session.None?
      && forall t :: 0 <= t < |s.threads| && s.threads[t].Handshake? ==> s.threads[t].r != th.r
    ensures Inv(s.(threads := s.threads + [th]))
  {
    SpawnKeepsExec(s, th);
    SpawnKeepsHandshakes(s, th);
  }

  // ------------------------------------------------------------------ steps of the goroutines

  // One goroutine moves and its record becomes c.
  ghost predicate Moves(s: State, t: nat, th: Thread, c: PM.Rec, b: PM.Shared) {
    && t < |s.threads| && th.r == s.threads[t].r < |s.shared.recs|
    && b.recs == s.shared.recs[th.r := c]
  }

  lemma MoveKeepsExec(s: State, t: nat, th: Thread, c: PM.Rec, b: PM.Shared)
    requires Moves(s, t, th, c, b) && ThreadsInRange(s) && ExecOwnership(s)
    requires HoldsExec(th) == HoldsExec(s.threads[t]) && c.executing == s.shared.recs[th.r].executing
    ensures ExecOwnership(Move(s, t, th).(shared := b))
  {
    var s' := Move(s, t, th).(shared := b);
    forall r | 0 <= r < |s'.shared.recs| && s'.shared.recs[r].executing
      ensures exists u :: 0 <= u < |s'.threads| && HoldsExec(s'.threads[u]) && s'.threads[u].r == r
    {
      assert s.shared.recs[r].executing;
      var u :| 0 <= u < |s.threads| && HoldsExec(s.threads[u]) && s.threads[u].r == r;
      assert HoldsExec(s'.threads[u]);
    }
  }

  // An unfinished handshake's record gets no client from anyone else, and no session at all.
  ghost predicate ClientSteps(was: PM.Rec, c: PM.Rec, connects: bool) {
    && (c.client == was.client || c.client.None? || connects)
    && (c.session == was.session || c.session.None? || was.client.Some?)
  }

  lemma MoveKeepsHandshakes(s: State, t: nat, th: Thread, c: PM.Rec, b: PM.Shared)
    requires Moves(s, t, th, c, b) && ThreadsInRange(s) && Handshakes(s)
    requires th.Handshake? == s.threads[t].Handshake? && (Unconnected(th) ==> Unconnected(s.threads[t]))
    requires ClientSteps(s.shared.recs[th.r], c, !Unconnected(th) && Unconnected(s.threads[t]))
    ensures Handshakes(Move(s, t, th).(shared := b))
  {
  }

  // A goroutine that moves without changing what it holds.
  lemma MoveKeepsInv(s: State, t: nat, th: Thread, c: PM.Rec, b: PM.Shared)
    requires Inv(s) && Moves(s, t, th, c, b) && PM.Safe(b)
    requires th.Handshake? == s.threads[t].Handshake? && HoldsExec(th) == HoldsExec(s.threads[t])
    requires HoldsSem(th) == HoldsSem(s.threads[t]) && (Unconnected(th) ==> Unconnected(s.threads[t]))
    requires c.executing == s.shared.recs[th.r].executing
    requires ClientSteps(s.shared.recs[th.r], c, !Unconnected(th) && Unconnected(s.threads[t]))
    ensures Inv(Move(s, t, th).(shared := b))
  {
    MoveKeepsExec(s, t, th, c, b);
    MoveKeepsHandshakes(s, t, th, c, b);
  }

  // The counters are no part of what is kept.
  lemma CountersAreFree(s: State, clients: nat, transports: nat)
    requires Inv(s)
    ensures Inv(s.(clients := clients, transports := transports))
  {
  }

  lemma SemKeepsInv(s: State, t: nat, th: Thread, sem: Option<nat>)
    requires Inv(s) && t < |s.threads| && th.r == s.threads[t].r && th.Handshake? && s.threads[t].Handshake?
    requires Unconnected(th) ==> Unconnected(s.threads[t])
    requires (s.sem.None? && sem == Some(t) && HoldsSem(th)) || (s.sem == Some(t) && sem.None? && !HoldsSem(th))
    ensures Inv(Move(s, t, th).(sem := sem))
  {
    var c := s.shared.recs[th.r];
    SameRec(s.shared, th.r);
    MoveKeepsExec(s, t, th, c, s.shared);
    MoveKeepsHandshakes(s, t, th, c, s.shared);
    assert Move(s, t, th).(shared := s.shared) == Move(s, t, th);
  }

  lemma SameRec(s: PM.Shared, r: nat)
    requires r < |s.recs|
    ensures PM.Set(s, r, s.recs[r]) == s
  {
    assert s.recs[r := s.recs[r]] == s.recs;
  }

  // The handshake succeeds: the record gets its client, and a keepalive starts watching it.
  lemma EstablishKeepsInv(s: State, t: nat)
    requires Inv(s) && t < |s.threads| && s.threads[t].Handshake? && s.threads[t].at.Negotiating?
    ensures Inv(StepHandshake(s, t, s.threads[t].r, Negotiating, Fine))
  {
    var r := s.threads[t].r;
    var c := s.shared.recs[r].(client := Some(s.clients), connected := true, connecting := false);
    assert PM.RecInv(s.shared, s.shared.recs[r]);
    PM.SetIsSafe(s.shared, r, c);
    MoveKeepsInv(s, t, Handshake(r, Unlocking), c, PM.Set(s.shared, r, c));
    var moved := Move(s, t, Handshake(r, Unlocking)).(shared := PM.Set(s.shared, r, c), clients := s.clients + 1);
    assert Inv(moved);
    SpawnKeepsInv(moved, Keepalive(r, s.clients, false, false));
    assert StepHandshake(s, t, r, Negotiating, Fine) ==
           moved.(threads := moved.threads + [Keepalive(r, s.clients, false, false)]);
  }

  lemma QueueKeepsInv(s: State, t: nat, outcome: Outcome)
    requires Inv(s) && t < |s.threads| && s.threads[t].Handshake?
    requires s.threads[t].at.Queued? || s.threads[t].at.Unlocking?
    ensures Inv(StepHandshake(s, t, s.threads[t].r, s.threads[t].at, outcome))
  {
    var r, at := s.threads[t].r, s.threads[t].at;
    if at.Unlocking? {
      SemKeepsInv(s, t, Handshake(r, Finished), None);
    } else if outcome.Cancelled? && s.shared.recs[r].cancelled {
      SameRec(s.shared, r);
      MoveKeepsInv(s, t, Handshake(r, Finished), s.shared.recs[r], s.shared);
      assert Move(s, t, Handshake(r, Finished)).(shared := s.shared) == Move(s, t, Handshake(r, Finished));
    } else if s.sem.None? {
      SemKeepsInv(s, t, Handshake(r, Checking), Some(t));
    }
  }

  // The other steps of a handshake only clear `connecting` or note the transport.
  lemma HandshakeShape(s: State, t: nat, r: nat, at: HandshakeAt, outcome: Outcome)
    requires t < |s.threads| && r < |s.shared.recs| && s.threads[t] == Handshake(r, at)
    requires !at.Queued? && !at.Unlocking? && !at.Finished? && !(at.Negotiating? && outcome.Fine?)
    ensures var s', c := StepHandshake(s, t, r, at, outcome), s.shared.recs[r];
      && |s'.threads| == |s.threads| && |s'.shared.recs| == |s.shared.recs|
      && var th', c' := s'.threads[t], s'.shared.recs[r];
      && th'.Handshake? && th'.r == r && HoldsSem(th')
      && c' == c.(connecting := c'.connecting, transport := c'.transport)
      && s' == Move(s, t, th').(shared := PM.Set(s.shared, r, c'), transports := s'.transports)
  {
    SameRec(s.shared, r);
  }

  lemma HandshakeKeepsInv(s: State, t: nat, outcome: Outcome)
    requires Inv(s) && t < |s.threads| && s.threads[t].Handshake?
    ensures Inv(StepHandshake(s, t, s.threads[t].r, s.threads[t].at, outcome))
  {
    var r, at := s.threads[t].r, s.threads[t].at;
    if at.Queued? || at.Unlocking? {
      QueueKeepsInv(s, t, outcome);
    } else if at.Negotiating? && outcome.Fine? {
      EstablishKeepsInv(s, t);
    } else if !at.Finished? {
      HandshakeShape(s, t, r, at, outcome);
      var s' := StepHandshake(s, t, r, at, outcome);
      assert PM.RecInv(s.shared, s.shared.recs[r]);
      PM.SetIsSafe(s.shared, r, s'.shared.recs[r]);
      MoveKeepsInv(s, t, s'.threads[t], s'.shared.recs[r], PM.Set(s.shared, r, s'.shared.recs[r]));
      CountersAreFree(Move(s, t, s'.threads[t]).(shared := PM.Set(s.shared, r, s'.shared.recs[r])),
                      s.clients, s'.transports);
    }
  }

  lemma KeepaliveKeepsInv(s: State, t: nat, outcome: Outcome)
    requires Inv(s) && t < |s.threads| && s.threads[t].Keepalive?
    ensures var th := s.threads[t]; Inv(StepKeepalive(s, t, th.r, th.client, th.probing, outcome))
  {
    var th := s.threads[t];
    var c := s.shared.recs[th.r];
    var s' := StepKeepalive(s, t, th.r, th.client, th.probing, outcome);
    SameRec(s.shared, th.r);
    assert PM.RecInv(s.shared, c);
    PM.SetIsSafe(s.shared, th.r, s'.shared.recs[th.r]);
    MoveKeepsInv(s, t, s'.threads[t], s'.shared.recs[th.r], s'.shared);
  }

  // Exec's steps that keep hold of `executing`, or stay without it.
  lemma ExecShape(s: State, t: nat, r: nat, step: ExecAt, outcome: Outcome)
    requires t < |s.threads| && r < |s.shared.recs| && s.threads[t] == Exec(r, step)
    requires !step.Acquiring? && !step.Releasing? && !step.Done?
    ensures var s', c := StepExec(s, t, r, step, outcome), s.shared.recs[r];
      && |s'.threads| == |s.threads| && |s'.shared.recs| == |s.shared.recs|
      && var th', c' := s'.threads[t], s'.shared.recs[r];
      && th'.Exec? && th'.r == r && HoldsExec(th') == HoldsExec(s.threads[t])
      && c'.executing == c.executing && ClientSteps(c, c', false)
      && s'.shared.recs == s.shared.recs[r := c']
      && s' == Move(s, t, th').(shared := s'.shared)
  {
    SameRec(s.shared, r);
  }

  lemma FinishIsSafe(s: PM.Shared, r: nat)
    requires PM.Safe(s) && r < |s.recs|
    ensures PM.Safe(PM.Finish(s, r))
  {
    PM.CloseStdinIsSafe(s, r);
    var s1 := PM.CloseStdin(s, r);
    assert PM.RecInv(s1, s1.recs[r]);
    PM.SetIsSafe(s1, r, s1.recs[r].(switching := false, session := None));
  }

  lemma ExecSectionsAreSafe(s: PM.Shared, r: nat, client: nat)
    requires PM.Safe(s) && r < |s.recs|
    ensures PM.Safe(PM.Preempt(s, r)) && PM.Safe(PM.Finish(s, r)) && PM.Safe(PM.Teardown(s, r))
    ensures PM.Safe(PM.Publish(s, r, client)) && PM.Safe(PM.Acquire(s, r)) && PM.Safe(PM.Leave(s, r))
  {
    assert PM.RecInv(s, s.recs[r]);
    PM.SetIsSafe(s, r, s.recs[r].(switching := true));
    PM.SetIsSafe(s, r, s.recs[r].(connected := false, client := None, transport := None));
    PM.SetIsSafe(s, r, s.recs[r].(executing := true));
    PM.SetIsSafe(s, r, s.recs[r].(executing := false));
    PM.PublishIsSafe(s, r, client);
    FinishIsSafe(s, r);
  }

  // Taking and giving back `executing`: nobody else is inside.
  lemma TurnKeepsExec(s: State, t: nat, th: Thread, c: PM.Rec, b: PM.Shared)
    requires Moves(s, t, th, c, b) && ThreadsInRange(s) && ExecOwnership(s)
    requires HoldsExec(th) == c.executing
    requires if HoldsExec(th) then !s.shared.recs[th.r].executing else HoldsExec(s.threads[t])
    ensures ExecOwnership(Move(s, t, th).(shared := b))
  {
    var s' := Move(s, t, th).(shared := b);
    forall q | 0 <= q < |s'.shared.recs| && s'.shared.recs[q].executing
      ensures exists u :: 0 <= u < |s'.threads| && HoldsExec(s'.threads[u]) && s'.threads[u].r == q
    {
      if q == th.r {
        assert HoldsExec(s'.threads[t]);
      } else {
        var u :| 0 <= u < |s.threads| && HoldsExec(s.threads[u]) && s.threads[u].r == q;
        assert HoldsExec(s'.threads[u]);
      }
    }
  }

  lemma ExecTurnKeepsInv(s: State, t: nat, th: Thread, c: PM.Rec)
    requires Inv(s) && t < |s.threads| && th.r == s.threads[t].r && s.threads[t].Exec? && th.Exec?
    requires c == s.shared.recs[th.r].(executing := HoldsExec(th))
    requires if HoldsExec(th) then !s.shared.recs[th.r].executing else HoldsExec(s.threads[t])
    ensures Inv(Move(s, t, th).(shared := PM.Set(s.shared, th.r, c)))
  {
    assert PM.RecInv(s.shared, s.shared.recs[th.r]);
    PM.SetIsSafe(s.shared, th.r, c);
    TurnKeepsExec(s, t, th, c, PM.Set(s.shared, th.r, c));
    MoveKeepsHandshakes(s, t, th, c, PM.Set(s.shared, th.r, c));
  }

  lemma ExecTurnsKeepInv(s: State, t: nat, outcome: Outcome)
    requires Inv(s) && t < |s.threads| && s.threads[t].Exec?
    requires s.threads[t].step.Releasing? || s.threads[t].step.Acquiring?
    ensures Inv(StepExec(s, t, s.threads[t].r, s.threads[t].step, outcome))
  {
    var r, step := s.threads[t].r, s.threads[t].step;
    if step.Releasing? {
      ExecTurnKeepsInv(s, t, Exec(r, Done), s.shared.recs[r].(executing := false));
    } else if PM.CanAcquire(s.shared, r) {
      ExecTurnKeepsInv(s, t, Exec(r, Opening), s.shared.recs[r].(executing := true));
    } else {
      SameRec(s.shared, r);
      MoveKeepsInv(s, t, Exec(r, Done), s.shared.recs[r], s.shared);
      assert Move(s, t, Exec(r, Done)).(shared := s.shared) == Move(s, t, Exec(r, Done));
    }
  }

  lemma ExecKeepsInv(s: State, t: nat, outcome: Outcome)
    requires Inv(s) && t < |s.threads| && s.threads[t].Exec?
    ensures Inv(StepExec(s, t, s.threads[t].r, s.threads[t].step, outcome))
  {
    var r, step := s.threads[t].r, s.threads[t].step;
    if step.Releasing? || step.Acquiring? {
      ExecTurnsKeepInv(s, t, outcome);
    } else if !step.Done? {
      var s' := StepExec(s, t, r, step, outcome);
      ExecShape(s, t, r, step, outcome);
      assert PM.Safe(s'.shared) by {
        ExecSectionsAreSafe(s.shared, r, if step.Publishing? then step.client else 0);
      }
      MoveKeepsInv(s, t, s'.threads[t], s'.shared.recs[r], s'.shared);
    }
  }

  lemma AdvanceKeepsInv(s: State, t: nat, outcome: Outcome)
    requires Inv(s)
    ensures Inv(Step(s, Advance(t, outcome)))
  {
    if t < |s.threads| {
      var s' := Step(s, Advance(t, outcome));
      match s.threads[t]
      case Handshake(r, at) =>
        HandshakeKeepsInv(s, t, outcome);
        assert s' == StepHandshake(s, t, r, at, outcome);
      case Keepalive(r, client, probing, over) =>
        KeepaliveKeepsInv(s, t, outcome);
        assert s' == if over then s else StepKeepalive(s, t, r, client, probing, outcome);
      case Exec(r, step) =>
        ExecKeepsInv(s, t, outcome);
        assert s' == StepExec(s, t, r, step, outcome);
    }
  }

  lemma CallKeepsInv(s: State, e: Event)
    requires Inv(s) && !e.StartExec? && !e.Advance?
    ensures Inv(Step(s, e))
  {
    var called := s.(shared := Call(s.shared, e));
    CallIsSafe(s.shared, e);
    CallIsCalm(s.shared, e);
    CalmKeepsInv(s, Call(s.shared, e));
    if e.Connect? && !PM.Reuses(s.shared, e.key, e.now) {
      ConnectIsCalm(s.shared, e.key, e.now);
      SpawnKeepsInv(called, Handshake(|s.shared.recs|, Queued));
      assert Step(s, e) == called.(threads := called.threads + [Handshake(|s.shared.recs|, Queued)]);
    } else {
      assert Step(s, e) == called;
    }
  }

  lemma StepKeepsInv(s: State, e: Event)
    requires Inv(s)
    ensures Inv(Step(s, e))
  {
    if e.Advance? {
      AdvanceKeepsInv(s, e.t, e.outcome);
    } else if e.StartExec? {
      if PM.Pooled(s.shared, e.key) {
        SpawnKeepsInv(s, Exec(s.shared.pool[e.key], Preempting));
      }
    } else {
      CallKeepsInv(s, e);
    }
  }

  lemma {:induction false} RunKeepsInv(es: seq<Event>)
    ensures Inv(Run(es))
  {
    if es != [] {
      RunKeepsInv(es[..|es| - 1]);
      StepKeepsInv(Run(es[..|es| - 1]), es[|es| - 1]);
    }
  }

  // ------------------------------------------------------------------ channel safety

  /** In every interleaving: nothing is ever sent on a closed channel and no channel is closed twice
      (`panicked` would record either), every stored stdin channel is open and stored only once, no
      cancel channel is closed twice, and a cancelled record is never left in the pool. */
  lemma ChannelsAreSafe(es: seq<Event>)
    ensures var s := Run(es).shared;
      && !s.panicked
      && (forall ch :: 0 <= ch < |s.closes| ==> s.closes[ch] <= 1)
      && (forall r :: 0 <= r < |s.recs| ==> s.recs[r].cancelCloses <= 1)
      && (forall r :: 0 <= r < |s.recs| && s.recs[r].stdin.Some? ==>
            s.recs[r].stdin.value < |s.closes| && s.closes[s.recs[r].stdin.value] == 0)
      && (forall r, q :: 0 <= r < q < |s.recs| && s.recs[r].stdin.Some? ==> s.recs[r].stdin != s.recs[q].stdin)
      && (forall k :: k in s.pool ==> s.pool[k] < |s.recs| && !s.recs[s.pool[k]].cancelled)
  {
    RunKeepsInv(es);
    var s := Run(es).shared;
    forall r | 0 <= r < |s.recs|
      ensures s.recs[r].cancelCloses <= 1
      ensures s.recs[r].stdin.Some? ==> s.recs[r].stdin.value < |s.closes| && s.closes[s.recs[r].stdin.value] == 0
    {
      assert PM.RecInv(s, s.recs[r]);
    }
  }

  /** Two goroutines never run a command on one connection at the same time, and two handshakes are
      never past the semaphore at the same time. */
  lemma OneAtATime(es: seq<Event>, t: nat, u: nat)
    requires t < |Run(es).threads| && u < |Run(es).threads| && t != u
    ensures var s := Run(es);
      && !(HoldsExec(s.threads[t]) && HoldsExec(s.threads[u]) && s.threads[t].r == s.threads[u].r)
      && !(HoldsSem(s.threads[t]) && HoldsSem(s.threads[u]))
  {
    RunKeepsInv(es);
  }

  /** A session in a record was opened on the client the record has, or had before it lost it: a
      session opened on a client that was since replaced or torn down is never published. */
  lemma SessionsMatchTheirClient(es: seq<Event>, r: nat)
    requires r < |Run(es).shared.recs| && Run(es).shared.recs[r].session.Some?
    ensures var c := Run(es).shared.recs[r];
      c.client.None? || c.client == Some(c.session.value.client)
  {
    RunKeepsInv(es);
    assert PM.RecInv(Run(es).shared, Run(es).shared.recs[r]);
  }

  // ------------------------------------------------------------------ the bound on the pool

  predicate Releases(e: Event) {
    e.Connect? || e.Sweep?
  }

  // The pool as releaseIdleConns finds it.
  function BeforeRelease(s: PM.Shared, e: Event): PM.Shared
    requires Releases(e)
  {
    if e.Connect? then PM.Enter(s, e.key, e.now) else s
  }

  lemma ReleaseLeavesSurvivors(s: PM.Shared, now: Time)
    requires PM.Safe(s)
    ensures PM.SlotsOf(PM.ReleaseIdle(s, now)) == Survivors(PM.SlotsOf(s), PM.SweepQuery(s, now))
    ensures PM.ReleaseIdle(s, now).active == s.active
  {
    var out := Evicted(PM.SlotsOf(s), PM.SweepQuery(s, now));
    PM.CloseAllIsSafe(s, PM.InKeyOrder(out));
  }

  function Larger(a: int, b: int): int {
    if a < b then b else a
  }

  lemma SlotKeys(s: PM.Shared)
    requires PM.PoolInv(s)
    ensures PM.SlotsOf(s).Keys == s.pool.Keys && |PM.SlotsOf(s)| == |s.pool|
  {
    assert PM.SlotsOf(s).Keys == s.pool.Keys;
    assert |PM.SlotsOf(s)| == |PM.SlotsOf(s).Keys| && |s.pool| == |s.pool.Keys|;
  }

  lemma ReleaseBounds(s: PM.Shared, now: Time)
    requires PM.Safe(s)
    ensures var s' := PM.ReleaseIdle(s, now);
      |s'.pool| <= Larger(MAX_POOLED_CONNS, |ProtectedKeys(PM.SlotsOf(s'), PM.SweepQuery(s', now))|)
  {
    var slots, q := PM.SlotsOf(s), PM.SweepQuery(s, now);
    ReleaseLeavesSurvivors(s, now);
    PM.ReleaseIdleIsSafe(s, now);
    SlotKeys(PM.ReleaseIdle(s, now));
    PoolFits(slots, q);
    WhatIsLeft(slots, q);
  }

  lemma BeforeReleaseIsSafe(s: PM.Shared, e: Event)
    requires PM.Safe(s) && Releases(e)
    ensures PM.Safe(BeforeRelease(s, e))
  {
    if e.Connect? {
      PM.EnterIsSafe(s, e.key, e.now);
    }
  }

  lemma ReleaseStep(s: State, e: Event)
    requires Releases(e)
    ensures Step(s, e).shared == PM.ReleaseIdle(BeforeRelease(s.shared, e), e.now)
  {
  }

  /** After every Connect, reusing or not, and after every sweep, the pool holds at most
      MAX_POOLED_CONNS connections, or only the active one and live handshakes if those are more. */
  lemma PoolIsBounded(es: seq<Event>, e: Event)
    requires Releases(e)
    ensures var s := Step(Run(es), e).shared;
      |s.pool| <= Larger(MAX_POOLED_CONNS, |ProtectedKeys(PM.SlotsOf(s), PM.SweepQuery(s, e.now))|)
  {
    RunKeepsInv(es);
    BeforeReleaseIsSafe(Run(es).shared, e);
    ReleaseStep(Run(es), e);
    ReleaseBounds(BeforeRelease(Run(es).shared, e), e.now);
  }

  // ------------------------------------------------------------------ least recently shown

  // When the terminal last switched away from a host, read off the calls.
  ghost function LeftAt(es: seq<Event>, key: string): Option<Time> {
    if es == [] then None
    else
      var init, e := es[..|es| - 1], es[|es| - 1];
      if e.Connect? && Run(init).shared.active == key && e.key != key then Some(e.now) else LeftAt(init, key)
  }

  // A step that neither switches hosts nor touches a stamp.
  ghost predicate KeepsStamps(a: PM.Shared, b: PM.Shared) {
    && |a.recs| <= |b.recs|
    && (forall k :: k in b.pool ==>
          k in a.pool && b.pool[k] == a.pool[k] &&
          (a.pool[k] < |a.recs| ==> b.recs[b.pool[k]].lastActive == a.recs[a.pool[k]].lastActive))
    && (b.active == a.active || a.active !in b.pool)
  }

  // No goroutine adds or removes a connection, or counts as showing one.
  ghost predicate NotShowing(a: PM.Shared, b: PM.Shared) {
    && b.pool == a.pool && b.active == a.active && |b.recs| == |a.recs|
    && forall r :: 0 <= r < |a.recs| ==> b.recs[r].lastActive == a.recs[r].lastActive
  }

  lemma HandshakeIsNotShowing(s: State, t: nat, r: nat, at: HandshakeAt, outcome: Outcome)
    requires t < |s.threads| && r < |s.shared.recs|
    ensures NotShowing(s.shared, StepHandshake(s, t, r, at, outcome).shared)
  {
  }

  lemma KeepaliveIsNotShowing(s: State, t: nat, r: nat, client: nat, probing: bool, outcome: Outcome)
    requires t < |s.threads| && r < |s.shared.recs|
    ensures NotShowing(s.shared, StepKeepalive(s, t, r, client, probing, outcome).shared)
  {
  }

  lemma ExecIsNotShowing(s: State, t: nat, r: nat, step: ExecAt, outcome: Outcome)
    requires t < |s.threads| && r < |s.shared.recs|
    ensures NotShowing(s.shared, StepExec(s, t, r, step, outcome).shared)
  {
  }

  lemma AdvanceIsNotShowing(s: State, t: nat, outcome: Outcome)
    ensures NotShowing(s.shared, Step(s, Advance(t, outcome)).shared)
  {
    if t < |s.threads| && s.threads[t].r < |s.shared.recs| {
      match s.threads[t]
      case Handshake(r, at) => HandshakeIsNotShowing(s, t, r, at, outcome);
      case Keepalive(r, client, probing, over) => KeepaliveIsNotShowing(s, t, r, client, probing, outcome);
      case Exec(r, step) => ExecIsNotShowing(s, t, r, step, outcome);
    }
  }

  lemma CallKeepsStamps(s: PM.Shared, e: Event)
    requires PM.Safe(s) && !e.StartExec? && !e.Advance? && !e.Connect?
    ensures KeepsStamps(s, Call(s, e))
  {
    match e
    case Disconnect(key) => PM.DropIsSafe(s, key);
    case DisconnectAll(order) => PM.CloseAllIsSafe(s, order);
    case DisconnectPending => PM.CloseAllIsSafe(s, PM.InKeyOrder(Pending(PM.SlotsOf(s))));
    case SendInput =>
    case Sweep(now) => PM.CloseAllIsSafe(s, PM.InKeyOrder(Evicted(PM.SlotsOf(s), PM.SweepQuery(s, now))));
  }

  lemma MakeActiveStamps(s: PM.Shared, key: string, now: Time, k: string)
    requires PM.PoolInv(s) && k in s.pool && k != key
    ensures var s1 := PM.MakeActive(s, key, now);
      && s1.active == key && s1.pool == s.pool && s.pool[k] < |s.recs| == |s1.recs|
      && s1.recs[s.pool[k]].lastActive == if k == s.active then now else s.recs[s.pool[k]].lastActive
  {
    var s1 := if s.active != key then PM.Touch(s, s.active, now) else s;
    assert k != s.active && s.active in s.pool ==> s.pool[k] != s.pool[s.active];
    assert s1.pool == s.pool && key in s.pool ==> s.pool[k] != s.pool[key];
  }

  // Entering a host stamps the one that was showing, and only that one.
  lemma EnterStamps(s: PM.Shared, key: string, now: Time, k: string)
    requires PM.Safe(s) && k in PM.Enter(s, key, now).pool && k != key
    ensures var s1 := PM.Enter(s, key, now);
      && s1.active == key && k in s.pool && s.pool[k] < |s.recs| && s1.pool[k] == s.pool[k] < |s1.recs|
      && s1.recs[s1.pool[k]].lastActive == if k == s.active then now else s.recs[s.pool[k]].lastActive
  {
    if PM.Reuses(s, key, now) {
      MakeActiveStamps(s, key, now, k);
    } else {
      PM.DropIsSafe(s, key);
      var s2 := PM.Add(PM.Drop(s, key), key, now);
      PM.AddIsSafe(PM.Drop(s, key), key, now);
      MakeActiveStamps(s2, key, now, k);
    }
  }

  lemma ConnectStamps(s: PM.Shared, key: string, now: Time, k: string)
    requires PM.Safe(s) && k in PM.Connect(s, key, now).pool && k != key
    ensures var s' := PM.Connect(s, key, now);
      && s'.active == key && k in s.pool && s.pool[k] < |s.recs| && s'.pool[k] < |s'.recs|
      && s'.recs[s'.pool[k]].lastActive == if k == s.active then now else s.recs[s.pool[k]].lastActive
  {
    var s1 := PM.Enter(s, key, now);
    PM.EnterIsSafe(s, key, now);
    PM.CloseAllIsSafe(s1, PM.InKeyOrder(Evicted(PM.SlotsOf(s1), PM.SweepQuery(s1, now))));
    EnterStamps(s, key, now, k);
  }

  lemma EnterActivates(s: PM.Shared, key: string, now: Time)
    requires PM.Safe(s)
    ensures var s1 := PM.Enter(s, key, now);
      && s1.active == key && key in s1.pool
      && s1.pool[key] == if PM.Reuses(s, key, now) then s.pool[key] else |s.recs|
  {
    PM.DropIsSafe(s, key);
  }

  lemma ConnectActivates(s: PM.Shared, key: string, now: Time)
    requires PM.Safe(s)
    ensures PM.Connect(s, key, now).active == key
  {
    EnterActivates(s, key, now);
    PM.EnterIsSafe(s, key, now);
    ReleaseLeavesSurvivors(PM.Enter(s, key, now), now);
  }

  // Nothing but a Connect shows or leaves a host that stays pooled.
  lemma OthersKeepStamps(s: State, e: Event, k: string)
    requires PM.Safe(s.shared) && !e.Connect?
    requires k in Step(s, e).shared.pool && k != Step(s, e).shared.active
    ensures var a, b := s.shared, Step(s, e).shared;
      && k in a.pool && k != a.active && b.pool[k] == a.pool[k] < |a.recs| && a.pool[k] < |b.recs|
      && b.recs[b.pool[k]].lastActive == a.recs[a.pool[k]].lastActive
  {
    if e.Advance? {
      AdvanceIsNotShowing(s, e.t, e.outcome);
    } else if !e.StartExec? {
      CallKeepsStamps(s.shared, e);
    }
  }

  /** lastActive of a background host is when the terminal last switched away from it. */
  lemma {:induction false} StampsAreLeftAt(es: seq<Event>, k: string)
    requires k in Run(es).shared.pool && k != Run(es).shared.active
    ensures Run(es).shared.pool[k] < |Run(es).shared.recs|
    ensures LeftAt(es, k) == Some(Run(es).shared.recs[Run(es).shared.pool[k]].lastActive)
  {
    if es != [] {
      var init, e := es[..|es| - 1], es[|es| - 1];
      var s := Run(init);
      RunKeepsInv(init);
      if e.Connect? {
        ConnectActivates(s.shared, e.key, e.now);
        ConnectStamps(s.shared, e.key, e.now, k);
      } else {
        OthersKeepStamps(s, e, k);
      }
      if k != s.shared.active {
        StampsAreLeftAt(init, k);
      }
    }
  }

  // The same, for the pool that releaseIdleConns is about to look at.
  lemma StampsBeforeRelease(es: seq<Event>, e: Event, k: string)
    requires Releases(e)
    requires var s1 := BeforeRelease(Run(es).shared, e); k in s1.pool && k != s1.active
    ensures var s1 := BeforeRelease(Run(es).shared, e);
      s1.pool[k] < |s1.recs| && LeftAt(es + [e], k) == Some(s1.recs[s1.pool[k]].lastActive)
  {
    var s := Run(es).shared;
    assert (es + [e])[..|es|] == es;
    RunKeepsInv(es);
    if e.Connect? {
      EnterActivates(s, e.key, e.now);
      EnterStamps(s, e.key, e.now, k);
    }
    if k != s.active {
      StampsAreLeftAt(es, k);
    }
  }

  /** What the cap forces out is what the terminal left longest ago: the released host was left before
      every idle host that stays, the key deciding between hosts left at the same time. */
  lemma LongestLeftGoesFirst(es: seq<Event>, e: Event, out: string, stays: string)
    requires Releases(e)
    requires var s1 := BeforeRelease(Run(es).shared, e);
      var slots, q := PM.SlotsOf(s1), PM.SweepQuery(s1, e.now);
      CapEvicted(slots, q, out) && Idle(slots, q, stays) && stays !in Evicted(slots, q)
    ensures LeftAt(es + [e], out).Some? && LeftAt(es + [e], stays).Some?
    ensures Precedes(Ranked(LeftAt(es + [e], out).value, out), Ranked(LeftAt(es + [e], stays).value, stays))
  {
    var s1 := BeforeRelease(Run(es).shared, e);
    StampsBeforeRelease(es, e, out);
    StampsBeforeRelease(es, e, stays);
    OldestGoFirst(PM.SlotsOf(s1), PM.SweepQuery(s1, e.now), out, stays);
  }

  /** Nothing but an explicit disconnect, or a Connect, takes the shown host's record out of the pool
      or switches away from it: not a sweep, not input, not any step of any goroutine. */
  lemma ActiveRecordStays(es: seq<Event>, e: Event)
    requires var s := Run(es).shared;
      && s.active in s.pool && !e.Connect?
      && e != Disconnect(s.active) && !e.DisconnectAll? && !e.DisconnectPending?
    ensures var s, s' := Run(es).shared, Step(Run(es), e).shared;
      && s'.active == s.active && s'.active in s'.pool && s'.pool[s.active] == s.pool[s.active]
      && s'.pool[s.active] < |s'.recs| && !s'.recs[s'.pool[s.active]].cancelled
  {
    var s := Run(es).shared;
    RunKeepsInv(es);
    StepKeepsInv(Run(es), e);
    if e.Advance? {
      AdvanceIsNotShowing(Run(es), e.t, e.outcome);
    } else if e.Disconnect? {
      PM.DropIsSafe(s, e.key);
    } else if e.Sweep? {
      ReleaseLeavesSurvivors(s, e.now);
      SlotKeys(s);
      PM.ReleaseIdleIsSafe(s, e.now);
      SlotKeys(PM.ReleaseIdle(s, e.now));
      ProtectedStay(PM.SlotsOf(s), PM.SweepQuery(s, e.now), s.active);
      PM.CloseAllIsSafe(s, PM.InKeyOrder(Evicted(PM.SlotsOf(s), PM.SweepQuery(s, e.now))));
    }
  }

  /** A Connect leaves its own host active and pooled, on the old record exactly when that was live or
      still handshaking, and on a new one otherwise. */
  lemma ConnectShowsItsHost(es: seq<Event>, key: string, now: Time)
    ensures var s, s' := Run(es).shared, Step(Run(es), Connect(key, now)).shared;
      && s'.active == key && key in s'.pool
      && s'.pool[key] == if PM.Reuses(s, key, now) then s.pool[key] else |s.recs|
  {
    var s := Run(es).shared;
    RunKeepsInv(es);
    EnterActivates(s, key, now);
    PM.EnterIsSafe(s, key, now);
    var s1 := PM.Enter(s, key, now);
    SlotKeys(s1);
    ProtectedStay(PM.SlotsOf(s1), PM.SweepQuery(s1, now), key);
    PM.CloseAllIsSafe(s1, PM.InKeyOrder(Evicted(PM.SlotsOf(s1), PM.SweepQuery(s1, now))));
  }
}
