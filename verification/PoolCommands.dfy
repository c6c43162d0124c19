/** What a command leaves in its connection's record (web/wasm/sshclient/client.go): which command's
    failure makes a later one lose a stdin channel. */
module PoolCommands {
  import opened Common
  import opened PoolFates
  import opened PoolLeftovers
  import opened PoolRuns
  import PM = PoolModel

  // A goroutine at one of Exec's steps on r moves on.
  ghost predicate ExecOn(s: State, e: Event, r: nat) {
    e.Advance? && e.t < |s.threads| && s.threads[e.t].Exec? && s.threads[e.t].r == r && r < |s.shared.recs|
  }

  // session.Start fails.
  ghost predicate FailsToStart(s: State, e: Event, r: nat) {
    ExecOn(s, e, r) && s.threads[e.t].step.Starting? && !e.outcome.Fine?
  }

  ghost predicate Publishes(s: State, e: Event, r: nat) {
    && ExecOn(s, e, r) && s.threads[e.t].step.Publishing? && e.outcome.Fine?
    && PM.CanPublish(s.shared, r, s.threads[e.t].step.client)
  }

  // closeConn.
  ghost predicate Closes(s: State, e: Event, r: nat) {
    && r < |s.shared.recs| && !s.shared.recs[r].cancelled
    && r < |Step(s, e).shared.recs| && Step(s, e).shared.recs[r].cancelled
  }

  ghost function LeftAfter(s: State, e: Event, r: nat, left: Option<nat>): Option<nat> {
    if FailsToStart(s, e, r) then s.shared.recs[r].stdin
    else if Publishes(s, e, r) || Closes(s, e, r) then None
    else left
  }

  /** The channel that the last command of a record left there because it could not be started, if
      nothing has been published on the record and closeConn has not been through it since. */
  ghost function LeftBehind(es: seq<Event>, r: nat): Option<nat> {
    if es == [] then None
    else LeftAfter(Run(es[..|es| - 1]), es[|es| - 1], r, LeftBehind(es[..|es| - 1], r))
  }

  predicate Running(th: Thread) {
    th.Exec? && (th.step.Starting? || th.step.Waiting?)
  }

  // A command runs on r, or is about to be started.
  ghost predicate InSession(s: State, r: nat) {
    exists t :: 0 <= t < |s.threads| && Running(s.threads[t]) && s.threads[t].r == r
  }

  // While a command is between its publication and its end, nothing is left behind; otherwise what the
  // record has for stdin is what was left behind.
  ghost predicate Agrees(s: State, r: nat, left: Option<nat>) {
    if r >= |s.shared.recs| || InSession(s, r) then left.None? else s.shared.recs[r].stdin == left
  }

  lemma HoldersDiffer(s: State, t: nat, u: nat)
    requires ExecOwnership(s) && t < |s.threads| && u < |s.threads| && t != u
    requires Running(s.threads[t]) && HoldsExec(s.threads[u])
    ensures s.threads[t].r != s.threads[u].r
  {
    assert HoldsExec(s.threads[t]);
  }

  // The same commands run as before.
  lemma SameSessions(s: State, s': State, r: nat)
    requires |s.threads| <= |s'.threads|
    requires forall t :: 0 <= t < |s.threads| ==>
      (Running(s'.threads[t]) <==> Running(s.threads[t])) && s'.threads[t].r == s.threads[t].r
    requires forall t :: |s.threads| <= t < |s'.threads| ==> !Running(s'.threads[t])
    ensures InSession(s', r) <==> InSession(s, r)
  {
    if t :| 0 <= t < |s.threads| && Running(s.threads[t]) && s.threads[t].r == r {
      assert Running(s'.threads[t]);
    }
    if t :| 0 <= t < |s'.threads| && Running(s'.threads[t]) && s'.threads[t].r == r {
      assert Running(s.threads[t]);
    }
  }

  // ------------------------------------------------------------------ one step

  // A call clears stdin exactly where it goes through closeConn.
  lemma CallRecs(s: State, e: Event, r: nat)
    requires Inv(s) && Removed(s.shared) && !e.Advance?
    ensures |s.shared.recs| <= |Step(s, e).shared.recs|
    ensures r < |Step(s, e).shared.recs| ==>
      Step(s, e).shared.recs[r].stdin ==
      if r >= |s.shared.recs| || Closes(s, e, r) then None else s.shared.recs[r].stdin
  {
    if !e.StartExec? {
      CallTakesOut(s.shared, e);
      assert Step(s, e).shared == Call(s.shared, e);
    }
  }

  lemma CallSessions(s: State, e: Event, r: nat)
    requires !e.Advance?
    ensures InSession(Step(s, e), r) <==> InSession(s, r)
  {
    SameSessions(s, Step(s, e), r);
  }

  lemma CallAgrees(s: State, e: Event, r: nat, left: Option<nat>)
    requires Inv(s) && Removed(s.shared) && !e.Advance? && Agrees(s, r, left)
    ensures Agrees(Step(s, e), r, LeftAfter(s, e, r, left))
  {
    CallRecs(s, e, r);
    CallSessions(s, e, r);
    if r >= |s.shared.recs| {
      NobodyOn(s, r);
    }
  }

  lemma NobodyOn(s: State, r: nat)
    requires ThreadsInRange(s) && r >= |s.shared.recs|
    ensures !InSession(s, r)
  {
  }

  lemma HandshakeAgrees(s: State, t: nat, outcome: Outcome, r: nat, left: Option<nat>)
    requires ThreadsInRange(s) && t < |s.threads| && s.threads[t].Handshake? && Agrees(s, r, left)
    ensures Agrees(StepHandshake(s, t, s.threads[t].r, s.threads[t].at, outcome), r, left)
  {
    var s' := StepHandshake(s, t, s.threads[t].r, s.threads[t].at, outcome);
    HandshakeMoves(s, t, outcome);
    SameSessions(s, s', r);
    assert |s'.shared.recs| == |s.shared.recs|;
  }

  lemma KeepaliveAgrees(s: State, t: nat, outcome: Outcome, r: nat, left: Option<nat>)
    requires ThreadsInRange(s) && t < |s.threads| && s.threads[t].Keepalive? && Agrees(s, r, left)
    ensures var th := s.threads[t]; Agrees(StepKeepalive(s, t, th.r, th.client, th.probing, outcome), r, left)
  {
    var th := s.threads[t];
    SameSessions(s, StepKeepalive(s, t, th.r, th.client, th.probing, outcome), r);
  }

  // A step of Exec on some other record.
  lemma ElsewhereAgrees(s: State, t: nat, outcome: Outcome, r: nat, left: Option<nat>)
    requires ThreadsInRange(s) && t < |s.threads| && s.threads[t].Exec? && s.threads[t].r != r && Agrees(s, r, left)
    ensures Agrees(StepExec(s, t, s.threads[t].r, s.threads[t].step, outcome), r, left)
  {
    var q := s.threads[t].r;
    var s' := StepExec(s, t, q, s.threads[t].step, outcome);
    ExecMoves(s, t, outcome);
    ExecWorks(s, t, q, s.threads[t].step, outcome);
    if u :| 0 <= u < |s.threads| && Running(s.threads[u]) && s.threads[u].r == r {
      assert Running(s'.threads[u]);
    }
    if u :| 0 <= u < |s'.threads| && Running(s'.threads[u]) && s'.threads[u].r == r {
      assert Running(s.threads[u]);
    }
  }

  // Before the publication and after the end of a command Exec leaves stdin alone.
  lemma QuietSections(s: PM.Shared, r: nat)
    requires r < |s.recs|
    ensures forall b | b in {PM.Preempt(s, r), PM.Acquire(s, r), PM.Teardown(s, r), PM.Leave(s, r)} ::
      |b.recs| == |s.recs| && b.recs[r].stdin == s.recs[r].stdin
  {
  }

  lemma QuietStep(s: State, t: nat, outcome: Outcome, r: nat)
    requires t < |s.threads| && s.threads[t].Exec? && s.threads[t].r == r < |s.shared.recs|
    requires var step := s.threads[t].step; !step.Publishing? && !step.Starting? && !step.Waiting?
    ensures var s' := StepExec(s, t, r, s.threads[t].step, outcome);
      && |s'.shared.recs| == |s.shared.recs| && s'.shared.recs[r].stdin == s.shared.recs[r].stdin
      && |s'.threads| == |s.threads| && !Running(s'.threads[t])
  {
    QuietSections(s.shared, r);
  }

  lemma QuietAgrees(s: State, t: nat, outcome: Outcome, r: nat, left: Option<nat>)
    requires Inv(s) && t < |s.threads| && s.threads[t].Exec? && s.threads[t].r == r && Agrees(s, r, left)
    requires var step := s.threads[t].step; !step.Publishing? && !step.Starting? && !step.Waiting?
    ensures Agrees(StepExec(s, t, r, s.threads[t].step, outcome), r, left)
  {
    QuietStep(s, t, outcome, r);
    ExecMoves(s, t, outcome);
    SameSessions(s, StepExec(s, t, r, s.threads[t].step, outcome), r);
  }

  lemma PublishAgrees(s: State, t: nat, outcome: Outcome, r: nat, left: Option<nat>)
    requires Inv(s) && t < |s.threads| && s.threads[t].Exec? && s.threads[t].r == r && Agrees(s, r, left)
    requires s.threads[t].step.Publishing?
    ensures Agrees(StepExec(s, t, r, s.threads[t].step, outcome), r, LeftAfter(s, Advance(t, outcome), r, left))
  {
    var step := s.threads[t].step;
    var s' := StepExec(s, t, r, step, outcome);
    NotClosed(s, t, outcome, r);
    if outcome.Fine? && PM.CanPublish(s.shared, r, step.client) {
      assert Running(s'.threads[t]) && s'.threads[t].r == r;
    } else {
      SameSessions(s, s', r);
    }
  }

  // The end of a command, or a failed start: nobody else is in a session on the record.
  lemma EndsSession(s: State, t: nat, th: Thread, s': State)
    requires Inv(s) && t < |s.threads| && Running(s.threads[t]) && !Running(th)
    requires s'.threads == s.threads[t := th]
    ensures !InSession(s', s.threads[t].r)
  {
    if u :| 0 <= u < |s'.threads| && Running(s'.threads[u]) && s'.threads[u].r == s.threads[t].r {
      assert u != t && HoldsExec(s.threads[t]);
      HoldersDiffer(s, u, t);
    }
  }

  lemma NotClosed(s: State, t: nat, outcome: Outcome, r: nat)
    requires ThreadsInRange(s)
    ensures !Closes(s, Advance(t, outcome), r)
  {
    if r < |s.shared.recs| {
      AdvanceWorks(s, t, outcome, r);
    }
  }

  lemma StartAgrees(s: State, t: nat, outcome: Outcome, r: nat, left: Option<nat>)
    requires Inv(s) && t < |s.threads| && s.threads[t].Exec? && s.threads[t].r == r && Agrees(s, r, left)
    requires s.threads[t].step.Starting?
    ensures Agrees(StepExec(s, t, r, s.threads[t].step, outcome), r, LeftAfter(s, Advance(t, outcome), r, left))
  {
    var s' := StepExec(s, t, r, s.threads[t].step, outcome);
    NotClosed(s, t, outcome, r);
    if outcome.Fine? {
      SameSessions(s, s', r);
    } else {
      EndsSession(s, t, Exec(r, Releasing), s');
    }
  }

  lemma WaitAgrees(s: State, t: nat, outcome: Outcome, r: nat, left: Option<nat>)
    requires Inv(s) && t < |s.threads| && s.threads[t].Exec? && s.threads[t].r == r && Agrees(s, r, left)
    requires s.threads[t].step.Waiting?
    ensures Agrees(StepExec(s, t, r, s.threads[t].step, outcome), r, left)
  {
    var s' := StepExec(s, t, r, s.threads[t].step, outcome);
    EndsSession(s, t, s'.threads[t], s');
    assert Running(s.threads[t]) && InSession(s, r);
  }

  lemma ExecAgrees(s: State, t: nat, outcome: Outcome, r: nat, left: Option<nat>)
    requires Inv(s) && t < |s.threads| && s.threads[t].Exec? && Agrees(s, r, left)
    ensures Agrees(StepExec(s, t, s.threads[t].r, s.threads[t].step, outcome), r,
                   LeftAfter(s, Advance(t, outcome), r, left))
  {
    NotClosed(s, t, outcome, r);
    if s.threads[t].r != r {
      ElsewhereAgrees(s, t, outcome, r, left);
    } else {
      match s.threads[t].step
      case Publishing(_) => PublishAgrees(s, t, outcome, r, left);
      case Starting => StartAgrees(s, t, outcome, r, left);
      case Waiting => WaitAgrees(s, t, outcome, r, left);
      case _ => QuietAgrees(s, t, outcome, r, left);
    }
  }

  lemma StepAgrees(s: State, e: Event, r: nat, left: Option<nat>)
    requires Inv(s) && Removed(s.shared) && Agrees(s, r, left)
    ensures Agrees(Step(s, e), r, LeftAfter(s, e, r, left))
  {
    if !e.Advance? {
      CallAgrees(s, e, r, left);
    } else if e.t < |s.threads| {
      NotClosed(s, e.t, e.outcome, r);
      match s.threads[e.t]
      case Handshake(_, _) => HandshakeAgrees(s, e.t, e.outcome, r, left);
      case Keepalive(_, _, _, over) =>
        if !over {
          KeepaliveAgrees(s, e.t, e.outcome, r, left);
        }
      case Exec(_, _) => ExecAgrees(s, e.t, e.outcome, r, left);
    }
  }

  lemma {:induction false} RunAgrees(es: seq<Event>, r: nat)
    ensures Agrees(Run(es), r, LeftBehind(es, r))
  {
    if es != [] {
      RunKeepsInv(es[..|es| - 1]);
      RunRemoves(es[..|es| - 1]);
      RunAgrees(es[..|es| - 1], r);
      StepAgrees(Run(es[..|es| - 1]), es[|es| - 1], r, LeftBehind(es[..|es| - 1], r));
    }
  }

  // ------------------------------------------------------------------ over whole runs

  /** In every run, a record on which no command holds `executing` has its stdin set exactly if the last
      command there could not be started, nothing having been published on it or torn down since; and
      then stdin is that command's channel. */
  lemma IdleStdinIsLeftBehind(es: seq<Event>, r: nat)
    requires r < |Run(es).shared.recs| && !Run(es).shared.recs[r].executing
    ensures Run(es).shared.recs[r].stdin == LeftBehind(es, r)
  {
    RunAgrees(es, r);
    RunKeepsInv(es);
    NoneInSession(Run(es), r);
  }

  lemma NoneInSession(s: State, r: nat)
    requires ExecOwnership(s) && r < |s.shared.recs| && !s.shared.recs[r].executing
    ensures !InSession(s, r)
  {
    if t :| 0 <= t < |s.threads| && Running(s.threads[t]) && s.threads[t].r == r {
      assert HoldsExec(s.threads[t]);
    }
  }

  lemma NoneWhilePublishing(s: State, e: Event, r: nat)
    requires ExecOwnership(s) && Publishes(s, e, r)
    ensures !InSession(s, r)
  {
    assert HoldsExec(s.threads[e.t]);
    if t :| 0 <= t < |s.threads| && Running(s.threads[t]) && s.threads[t].r == r {
      HoldersDiffer(s, t, e.t);
    }
  }

  /** A command loses a channel as it is published exactly if the last one on that record could not be
      started, and it loses that one's. */
  lemma OverwritesWhatWasLeftBehind(es: seq<Event>, e: Event, r: nat)
    requires Publishes(Run(es), e, r)
    ensures Overwrites(Run(es), e) == match LeftBehind(es, r) case None => {} case Some(ch) => {ch}
  {
    RunAgrees(es, r);
    RunKeepsInv(es);
    NoneWhilePublishing(Run(es), e, r);
  }

  // In this run a command was published where the last one had left ch behind.
  ghost predicate PublishedOver(es: seq<Event>, i: nat, r: nat, ch: nat) {
    i < |es| && Publishes(Run(es[..i]), es[i], r) && LeftBehind(es[..i], r) == Some(ch)
  }

  lemma PublishedOverStays(es: seq<Event>, i: nat, r: nat, ch: nat)
    requires es != [] && i < |es| - 1
    ensures PublishedOver(es[..|es| - 1], i, r, ch) <==> PublishedOver(es, i, r, ch)
  {
    assert es[..|es| - 1][..i] == es[..i];
  }

  lemma OverwritesIsPublishedOver(es: seq<Event>, last: nat, ch: nat)
    requires |es| == last + 1
    ensures ch in Overwrites(Run(es[..last]), es[last]) <==> exists r: nat :: PublishedOver(es, last, r, ch)
  {
    var init, e := es[..last], es[last];
    if ch in Overwrites(Run(init), e) {
      var r := Run(init).threads[e.t].r;
      OverwritesWhatWasLeftBehind(init, e, r);
      assert PublishedOver(es, last, r, ch);
    }
    if r: nat :| PublishedOver(es, last, r, ch) {
      OverwritesWhatWasLeftBehind(init, e, r);
    }
  }

  ghost predicate EverPublishedOver(es: seq<Event>, ch: nat) {
    exists i: nat, r: nat :: PublishedOver(es, i, r, ch)
  }

  lemma EarlierOrLast(es: seq<Event>, ch: nat)
    requires es != []
    ensures EverPublishedOver(es, ch) <==>
            EverPublishedOver(es[..|es| - 1], ch) || ch in Overwrites(Run(es[..|es| - 1]), es[|es| - 1])
  {
    OverwritesIsPublishedOver(es, |es| - 1, ch);
    EarlierStays(es, ch);
    if i: nat, r: nat :| PublishedOver(es, i, r, ch) {
      if i < |es| - 1 {
        PublishedOverStays(es, i, r, ch);
      }
    }
  }

  lemma EarlierStays(es: seq<Event>, ch: nat)
    requires es != []
    ensures EverPublishedOver(es[..|es| - 1], ch) ==> EverPublishedOver(es, ch)
  {
    var init := es[..|es| - 1];
    if i: nat, r: nat :| PublishedOver(init, i, r, ch) {
      PublishedOverStays(es, i, r, ch);
    }
  }

  lemma {:induction false} OverwrittenIsPublishedOver(es: seq<Event>, ch: nat)
    ensures ch in Overwritten(es) <==> EverPublishedOver(es, ch)
  {
    if es != [] {
      OverwrittenIsPublishedOver(es[..|es| - 1], ch);
      EarlierOrLast(es, ch);
    }
  }

  /** Over whole runs: a channel is open and stored nowhere, for good, exactly if at some point a command
      was published on a record whose last command could not be started and had left that channel. */
  lemma LostExactlyAfterAFailedStart(es: seq<Event>, ch: nat)
    ensures Lost(Run(es).shared, ch) <==> exists i: nat, r: nat :: PublishedOver(es, i, r, ch)
  {
    LostIsOverwritten(es, ch);
    OverwrittenIsPublishedOver(es, ch);
  }
}
