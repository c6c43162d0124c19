/** The dashboard's live feed (web/src/hooks/useSessionUpdates.ts): one WebSocket at a time, retried with
    backoff, and replaced when it has been quiet for too long. Times are in milliseconds. */
module FeedModel {
  import opened Common

  const STALE: int := 45000
  const STALE_CHECK: int := 5000
  const BACKOFF_BASE: int := 1000
  const BACKOFF_MAX: int := 15000

  datatype ReadyState = Connecting | Open | Closing | Closed

  // `heard` is history: when this socket was made, opened or last brought a message.
  datatype Socket = Socket(state: ReadyState, heard: int) {
    predicate Live() { state == Connecting || state == Open }

    // close(): nothing but the close event is to be expected from it any more.
    function Close(): Socket { if Live() then this.(state := Closing) else this }
  }

  // `sockets` are all that were ever made; `current` is wsRef, `retryAt` the pending retry timer.
  datatype Feed = Feed(sockets: seq<Socket>, current: Option<nat>, retryAt: Option<int>, attempt: nat,
                       last: int, mounted: bool)

  const START := Feed([], None, None, 0, 0, false)

  function Pow2(n: nat): nat {
    if n == 0 then 1 else 2 * Pow2(n - 1)
  }

  function Backoff(attempt: nat): int {
    if BACKOFF_BASE * Pow2(attempt) < BACKOFF_MAX then BACKOFF_BASE * Pow2(attempt) else BACKOFF_MAX
  }

  datatype Message = Heartbeat | Update | Garbage | Error

  // ------------------------------------------------------------------ the handlers

  function Connect(f: Feed, now: int): Feed {
    if !f.mounted then f
    else f.(retryAt := None, sockets := f.sockets + [Socket(Connecting, now)], current := Some(|f.sockets|), last := now)
  }

  // wsRef.current = null; ws?.close()
  function DropCurrent(f: Feed): Feed {
    match f.current
    case None => f
    case Some(i) =>
      if i < |f.sockets| then f.(current := None, sockets := f.sockets[i := f.sockets[i].Close()]) else f.(current := None)
  }

  function ForceReconnect(f: Feed, now: int): Feed {
    if !f.mounted then f else Connect(DropCurrent(f).(attempt := 0), now)
  }

  function CheckLiveness(f: Feed, now: int): Feed {
    if !f.mounted then f
    else match f.current
      case None => if f.retryAt.None? then Connect(f, now) else f
      case Some(i) =>
        if i < |f.sockets| && !f.sockets[i].Live() then f
        else if now - f.last > STALE then ForceReconnect(f, now)
        else f
  }

  function OnOpen(f: Feed, i: nat, now: int): Feed
    requires i < |f.sockets|
  {
    f.(sockets := f.sockets[i := Socket(Open, now)], last := now, attempt := 0)
  }

  function OnMessage(f: Feed, i: nat, m: Message, now: int): Feed
    requires i < |f.sockets|
  {
    var s := f.sockets[i].(heard := now);
    f.(sockets := f.sockets[i := if m == Error then s.Close() else s], last := now)
  }

  function OnClose(f: Feed, i: nat, now: int): Feed
    requires i < |f.sockets|
  {
    var g := f.(sockets := f.sockets[i := f.sockets[i].(state := Closed)]);
    if f.current != Some(i) then g
    else if !f.mounted then g.(current := None)
    else g.(current := None, retryAt := Some(now + Backoff(f.attempt)), attempt := f.attempt + 1)
  }

  function Mount(f: Feed, now: int): Feed {
    Connect(f.(mounted := true), now)
  }

  function Unmount(f: Feed): Feed {
    DropCurrent(f.(mounted := false, retryAt := None))
  }

  // ------------------------------------------------------------------ events

  datatype Event =
    | Mounts | Unmounts | Opens(i: nat) | Brings(i: nat, m: Message) | StartsClosing(i: nat) | Closes(i: nat)
    | RetryFires | Checks | Reconnects

  /** What the browser delivers: an open event only while connecting, messages only while open, one close
      event, a timer only once it is due. */
  predicate Enabled(f: Feed, e: Event, now: int) {
    match e
    case Mounts => !f.mounted
    case Unmounts => f.mounted
    case Opens(i) => i < |f.sockets| && f.sockets[i].state == Connecting
    case Brings(i, _) => i < |f.sockets| && f.sockets[i].state == Open
    case StartsClosing(i) => i < |f.sockets| && f.sockets[i].Live()
    case Closes(i) => i < |f.sockets| && f.sockets[i].state != Closed
    case RetryFires => f.retryAt.Some? && f.retryAt.value <= now
    case _ => true
  }

  function Step(f: Feed, e: Event, now: int): Feed
    requires Enabled(f, e, now)
  {
    match e
    case Mounts => Mount(f, now)
    case Unmounts => Unmount(f)
    case Opens(i) => OnOpen(f, i, now)
    case Brings(i, m) => OnMessage(f, i, m, now)
    case StartsClosing(i) => f.(sockets := f.sockets[i := f.sockets[i].Close()])
    case Closes(i) => OnClose(f, i, now)
    case RetryFires => Connect(f, now)
    case Checks => CheckLiveness(f, now)
    case Reconnects => ForceReconnect(f, now)
  }

  // ------------------------------------------------------------------ never deaf, never leaking

  predicate Others(f: Feed) {
    forall i :: 0 <= i < |f.sockets| && Some(i) != f.current ==> !f.sockets[i].Live()
  }

  predicate Inv(f: Feed) {
    && (f.mounted ==> f.current.Some? != f.retryAt.Some?)
    && (!f.mounted ==> f.current.None? && f.retryAt.None?)
    && (f.current.Some? ==> f.current.value < |f.sockets| && f.sockets[f.current.value].state != Closed &&
                            f.sockets[f.current.value].heard == f.last)
    && Others(f)
  }

  lemma StepKeepsInv(f: Feed, e: Event, now: int)
    requires Inv(f) && Enabled(f, e, now)
    ensures Inv(Step(f, e, now))
  {
  }

  datatype Timed = Timed(e: Event, at: int)

  ghost predicate Possible(es: seq<Timed>)
    decreases |es|, 0
  {
    es == [] ||
    (var init, last := es[..|es| - 1], es[|es| - 1];
     Possible(init) && (init == [] || init[|init| - 1].at <= last.at) && Enabled(Run(init), last.e, last.at))
  }

  ghost function Run(es: seq<Timed>): Feed
    requires Possible(es)
    decreases |es|, 1
  {
    if es == [] then START else Step(Run(es[..|es| - 1]), es[|es| - 1].e, es[|es| - 1].at)
  }

  lemma {:induction false} RunKeepsInv(es: seq<Timed>)
    requires Possible(es)
    ensures Inv(Run(es))
  {
    if es != [] {
      RunKeepsInv(es[..|es| - 1]);
      StepKeepsInv(Run(es[..|es| - 1]), es[|es| - 1].e, es[|es| - 1].at);
    }
  }

  /** In every reachable state: while mounted there is a current socket or a pending retry, and never
      both; unmounted there is neither; and no other socket is connecting or open. */
  lemma NeverDeafNeverLeaking(es: seq<Timed>, i: nat)
    requires Possible(es)
    ensures Run(es).mounted ==> Run(es).current.Some? != Run(es).retryAt.Some?
    ensures !Run(es).mounted ==> Run(es).current.None? && Run(es).retryAt.None?
    ensures i < |Run(es).sockets| && Run(es).sockets[i].Live() ==> Run(es).mounted && Run(es).current == Some(i)
  {
    RunKeepsInv(es);
  }

  // When a socket was made, opened or last brought any message at all, heartbeats included.
  ghost function HeardAt(es: seq<Timed>, i: nat): Option<int>
    requires Possible(es)
  {
    if es == [] then None
    else
      var init, last := es[..|es| - 1], es[|es| - 1];
      if last.e == Opens(i) || (last.e.Brings? && last.e.i == i) then Some(last.at)
      else if |Run(init).sockets| <= i < |Run(es).sockets| then Some(last.at)
      else HeardAt(init, i)
  }

  lemma StepHears(f: Feed, e: Event, now: int, i: nat)
    requires Enabled(f, e, now) && i < |Step(f, e, now).sockets|
    ensures Step(f, e, now).sockets[i].heard ==
            if i >= |f.sockets| || e == Opens(i) || (e.Brings? && e.i == i) then now else f.sockets[i].heard
  {
  }

  /** The clock that decides about silence is set by exactly these. */
  lemma {:induction false} HeardIsHeardAt(es: seq<Timed>, i: nat)
    requires Possible(es) && i < |Run(es).sockets|
    ensures HeardAt(es, i) == Some(Run(es).sockets[i].heard)
    ensures Run(es).current == Some(i) ==> Run(es).last == Run(es).sockets[i].heard
  {
    RunKeepsInv(es);
    var init, last := es[..|es| - 1], es[|es| - 1];
    StepHears(Run(init), last.e, last.at, i);
    if i < |Run(init).sockets| {
      HeardIsHeardAt(init, i);
    }
  }

  lemma StaysDead(f: Feed, e: Event, now: int, i: nat)
    requires Enabled(f, e, now) && i < |f.sockets| && !f.sockets[i].Live()
    ensures i < |Step(f, e, now).sockets| && !Step(f, e, now).sockets[i].Live()
    ensures e != Opens(i) && (e.Brings? ==> e.i != i)
  {
  }

  lemma EndsTheSocket(f: Feed, e: Event, now: int, i: nat)
    requires Enabled(f, e, now) && (e == Brings(i, Error) || e == Closes(i))
    ensures i < |Step(f, e, now).sockets| && !Step(f, e, now).sockets[i].Live()
  {
  }

  lemma {:induction false} PrefixPossible(es: seq<Timed>, n: nat)
    requires Possible(es) && n <= |es|
    ensures Possible(es[..n])
  {
    if n < |es| {
      PrefixPossible(es[..|es| - 1], n);
      assert es[..|es| - 1][..n] == es[..n];
    } else {
      assert es[..n] == es;
    }
  }

  // After its first n events the run has a socket i that is neither connecting nor open.
  ghost predicate DeadAfter(es: seq<Timed>, n: nat, i: nat) {
    n <= |es| && Possible(es[..n]) && i < |Run(es[..n]).sockets| && !Run(es[..n]).sockets[i].Live()
  }

  // One event more, from the run so far.
  lemma NextOf(es: seq<Timed>, n: nat)
    requires Possible(es) && n < |es|
    ensures Possible(es[..n]) && Enabled(Run(es[..n]), es[n].e, es[n].at)
    ensures Possible(es[..n + 1]) && Run(es[..n + 1]) == Step(Run(es[..n]), es[n].e, es[n].at)
  {
    PrefixPossible(es, n + 1);
    assert es[..n + 1][..n] == es[..n];
  }

  lemma DeadNext(es: seq<Timed>, n: nat, i: nat)
    requires Possible(es) && n < |es| && DeadAfter(es, n, i)
    ensures DeadAfter(es, n + 1, i) && es[n].e != Opens(i) && (es[n].e.Brings? ==> es[n].e.i != i)
  {
    NextOf(es, n);
    StaysDead(Run(es[..n]), es[n].e, es[n].at, i);
  }

  lemma {:induction false} DeadFrom(es: seq<Timed>, k: nat, n: nat, i: nat)
    requires Possible(es) && k <= n <= |es| && DeadAfter(es, k, i)
    ensures DeadAfter(es, n, i)
    decreases n
  {
    if k < n {
      DeadFrom(es, k, n - 1, i);
      DeadNext(es, n - 1, i);
    }
  }

  /** After an error message on a socket, as after its close, nothing more is heard from that socket. */
  lemma ErrorsAndClosesAreFinal(es: seq<Timed>, k: nat, later: nat, i: nat)
    requires Possible(es) && k < later < |es| && (es[k].e == Brings(i, Error) || es[k].e == Closes(i))
    ensures es[later].e != Opens(i) && (es[later].e.Brings? ==> es[later].e.i != i)
  {
    NextOf(es, k);
    EndsTheSocket(Run(es[..k]), es[k].e, es[k].at, i);
    DeadFrom(es, k + 1, later, i);
    DeadNext(es, later, i);
  }

  predicate Quiet(f: Feed, now: int) {
    && f.current.Some? && f.current.value < |f.sockets| && f.sockets[f.current.value].Live()
    && now - f.sockets[f.current.value].heard > 45_000
  }

  /** A check never finds the feed without both a socket and a retry: it replaces a live socket that has
      been quiet for more than STALE, and otherwise does nothing at all. */
  lemma CheckReplacesExactlyTheQuiet(es: seq<Timed>, now: int)
    requires Possible(es)
    ensures CheckLiveness(Run(es), now) != Run(es) <==> Quiet(Run(es), now)
    ensures Quiet(Run(es), now) ==>
      var f, g := Run(es), CheckLiveness(Run(es), now);
      g.current == Some(|f.sockets|) && |g.sockets| > |f.sockets| && !g.sockets[f.current.value].Live()
  {
    RunKeepsInv(es);
    assert Quiet(Run(es), now) ==> |CheckLiveness(Run(es), now).sockets| > |Run(es).sockets|;
  }

  /** The close of a socket that is no longer the current one schedules nothing; the close of the
      current one schedules a retry. */
  lemma ClosesOfSupersededSockets(es: seq<Timed>, i: nat, now: int)
    requires Possible(es) && Enabled(Run(es), Closes(i), now)
    ensures var f, g := Run(es), Step(Run(es), Closes(i), now);
      if f.current == Some(i) then g.current.None? && g.retryAt == Some(now + Backoff(f.attempt))
      else g.(sockets := f.sockets) == f && forall j :: 0 <= j < |f.sockets| && j != i ==> g.sockets[j] == f.sockets[j]
  {
    RunKeepsInv(es);
  }

  /** Updates reach the page only from the current socket, and only while it is mounted. */
  lemma MessagesComeFromTheCurrentSocket(es: seq<Timed>, i: nat, m: Message, now: int)
    requires Possible(es) && Enabled(Run(es), Brings(i, m), now)
    ensures Run(es).mounted && Run(es).current == Some(i)
  {
    RunKeepsInv(es);
  }

  // ------------------------------------------------------------------ backoff

  lemma {:induction false} Pow2Grows(n: nat)
    ensures Pow2(n) >= 1 && (n >= 4 ==> Pow2(n) >= 16)
  {
    if n > 4 {
      Pow2Grows(n - 1);
    } else if n > 0 {
      Pow2Grows(n - 1);
    }
  }

  /** A retry is never further away than BACKOFF_MAX, and what it waits doubles up to there. */
  lemma BackoffIs(n: nat)
    ensures Backoff(n) == match n case 0 => 1000 case 1 => 2000 case 2 => 4000 case 3 => 8000 case _ => 15000
  {
    Pow2Grows(n);
    assert Pow2(1) == 2 && Pow2(2) == 4 && Pow2(3) == 8;
  }

  ghost function Now(es: seq<Timed>): int {
    if es == [] then 0 else es[|es| - 1].at
  }

  // How many closes in a row the retries have met since a socket last opened or a reconnect was forced.
  ghost function Failures(es: seq<Timed>): nat
    requires Possible(es)
  {
    if es == [] then 0
    else
      var init, t := es[..|es| - 1], es[|es| - 1];
      var f := Run(init);
      if t.e.Opens? || (t.e.Reconnects? && f.mounted) || (t.e.Checks? && CheckLiveness(f, t.at) != f) then 0
      else if t.e.Closes? && f.current == Some(t.e.i) && f.mounted then Failures(init) + 1
      else Failures(init)
  }

  lemma {:induction false} AttemptCountsFailures(es: seq<Timed>)
    requires Possible(es)
    ensures Run(es).attempt == Failures(es)
  {
    if es != [] {
      AttemptCountsFailures(es[..|es| - 1]);
      CheckReplacesExactlyTheQuiet(es[..|es| - 1], Now(es));
      RunKeepsInv(es[..|es| - 1]);
    }
  }

  lemma {:induction false} RetryIsNear(es: seq<Timed>)
    requires Possible(es) && Run(es).retryAt.Some?
    ensures Run(es).retryAt.value <= Now(es) + 15_000
  {
    var init, t := es[..|es| - 1], es[|es| - 1];
    RunKeepsInv(init);
    if Run(init).retryAt.Some? && Run(es).retryAt == Run(init).retryAt {
      RetryIsNear(init);
      assert init != [];
    } else {
      BackoffIs(Run(init).attempt);
    }
  }

  // ------------------------------------------------------------------ staleness

  // When the feed was last mounted or checked: the interval's ticks, and the page becoming visible.
  ghost function LastCheck(es: seq<Timed>): int {
    if es == [] then 0
    else if es[|es| - 1].e.Checks? || es[|es| - 1].e.Mounts? then es[|es| - 1].at
    else LastCheck(es[..|es| - 1])
  }

  // The checks are on time: while mounted, nothing happens later than one period after the last one.
  ghost predicate OnTime(es: seq<Timed>)
    requires Possible(es)
    decreases |es|
  {
    es == [] ||
    (OnTime(es[..|es| - 1]) &&
     (Run(es[..|es| - 1]).mounted ==> es[|es| - 1].at <= LastCheck(es[..|es| - 1]) + 5_000))
  }

  lemma {:induction false} FreshAtLastCheck(es: seq<Timed>, i: nat)
    requires Possible(es) && i < |Run(es).sockets| && Run(es).sockets[i].Live()
    ensures LastCheck(es) - Run(es).sockets[i].heard <= 45_000
    ensures Run(es).sockets[i].heard <= Now(es) && LastCheck(es) <= Now(es)
  {
    var init, t := es[..|es| - 1], es[|es| - 1];
    RunKeepsInv(init);
    RunKeepsInv(es);
    CheckTimes(es);
    if i < |Run(init).sockets| && Run(init).sockets[i].Live() {
      FreshAtLastCheck(init, i);
      if t.e.Checks? {
        CheckReplacesExactlyTheQuiet(init, t.at);
      }
    }
  }

  lemma {:induction false} CheckTimes(es: seq<Timed>)
    requires Possible(es) && es != []
    ensures Run(es).mounted ==> LastCheck(es) <= Now(es)
    ensures |es| > 1 ==> Now(es[..|es| - 1]) <= Now(es)
  {
    if |es| > 1 {
      CheckTimes(es[..|es| - 1]);
    }
  }

  /** With checks every STALE_CHECK, no socket is left open, or connecting, that has been silent for more
      than STALE + STALE_CHECK: 50 seconds. */
  lemma SilenceIsNoticed(es: seq<Timed>, i: nat)
    requires Possible(es) && OnTime(es) && i < |Run(es).sockets| && Run(es).sockets[i].Live()
    ensures Now(es) - Run(es).sockets[i].heard <= 50_000
  {
    RunKeepsInv(es);
    FreshAtLastCheck(es, i);
  }

  // What may happen without costing socket i its place: nothing closes it, and no check comes more than
  // STALE after its last message.
  predicate Spares(f: Feed, t: Timed, i: nat)
    requires i < |f.sockets|
  {
    match t.e
    case Unmounts => false
    case Reconnects => false
    case StartsClosing(j) => j != i
    case Closes(j) => j != i
    case Brings(j, m) => j == i ==> m != Error
    case Checks => t.at - f.sockets[i].heard <= 45_000
    case _ => true
  }

  lemma SparedStep(f: Feed, t: Timed, i: nat)
    requires Inv(f) && Enabled(f, t.e, t.at)
    requires i < |f.sockets| && f.current == Some(i) && f.sockets[i].Live() && Spares(f, t, i)
    ensures var g := Step(f, t.e, t.at); g.current == Some(i) && i < |g.sockets| && g.sockets[i].Live()
  {
  }

  ghost predicate AllSpare(es: seq<Timed>, later: seq<Timed>, i: nat)
    decreases |later|
  {
    later == [] ||
    (var init := later[..|later| - 1];
     && AllSpare(es, init, i)
     && Possible(es + init) && i < |Run(es + init).sockets| && Spares(Run(es + init), later[|later| - 1], i))
  }

  lemma RunOneMore(es: seq<Timed>, t: Timed)
    requires Possible(es + [t])
    ensures Possible(es) && Enabled(Run(es), t.e, t.at) && Run(es + [t]) == Step(Run(es), t.e, t.at)
  {
    assert (es + [t])[..|es|] == es;
  }

  /** A live socket whose gaps never exceed STALE keeps its place for as long as nobody closes it,
      unmounts the page or asks for a reconnect: the checks leave it alone. */
  lemma {:induction false} SteadyFeedKeepsItsSocket(es: seq<Timed>, later: seq<Timed>, i: nat)
    requires Possible(es) && Possible(es + later) && AllSpare(es, later, i)
    requires Run(es).current == Some(i) && i < |Run(es).sockets| && Run(es).sockets[i].Live()
    ensures Run(es + later).current == Some(i) && i < |Run(es + later).sockets| && Run(es + later).sockets[i].Live()
    decreases |later|
  {
    if later == [] {
      assert es + later == es;
    } else {
      var init, last := later[..|later| - 1], later[|later| - 1];
      assert es + later == es + init + [last];
      RunOneMore(es + init, last);
      SteadyFeedKeepsItsSocket(es, init, i);
      RunKeepsInv(es + init);
      SparedStep(Run(es + init), last, i);
    }
  }
}

/** The hook's refs and handlers. */
module SessionFeed {
  import opened Common
  import opened FeedModel

  class WebSocket {
    ghost const id: nat
    var readyState: ReadyState
    ghost var heard: int

    constructor (now: int, ghost id: nat)
      ensures this.id == id && Rec() == Socket(Connecting, now)
    {
      this.id := id;
      readyState := Connecting;
      heard := now;
    }

    ghost function Rec(): Socket
      reads this
    {
      Socket(readyState, heard)
    }

    method Close()
      modifies this`readyState
      ensures Rec() == old(Rec()).Close()
    {
      if readyState == Connecting || readyState == Open {
        readyState := Closing;
      }
    }
  }

  class SessionUpdates {
    var wsRef: WebSocket?
    var retryTimer: Option<int>
    var attempt: nat
    var lastMessageAt: int
    var mounted: bool
    // The updates handed to the page.
    var updates: nat
    ghost var all: seq<WebSocket>

    constructor ()
      ensures Valid() && View() == START && updates == 0
    {
      wsRef, retryTimer, attempt, lastMessageAt, mounted, updates := null, None, 0, 0, false, 0;
      all := [];
    }

    ghost predicate Known(ws: WebSocket)
      reads this`all
    {
      ws.id < |all| && all[ws.id] == ws
    }

    ghost predicate Valid()
      reads this`all, this`wsRef
    {
      && (forall i :: 0 <= i < |all| ==> all[i].id == i)
      && (wsRef != null ==> Known(wsRef))
    }

    ghost function Recs(): (rs: seq<Socket>)
      reads this`all, all
      ensures |rs| == |all| && forall i :: 0 <= i < |all| ==> rs[i] == all[i].Rec()
    {
      var wss := all;
      seq(|wss|, i requires 0 <= i < |wss| reads wss => wss[i].Rec())
    }

    ghost function View(): Feed
      reads this, all
    {
      Feed(Recs(), if wsRef == null then None else Some(wsRef.id), retryTimer, attempt, lastMessageAt, mounted)
    }

    method Connect(now: int)
      requires Valid()
      modifies this`wsRef, this`retryTimer, this`lastMessageAt, this`all
      ensures Valid() && View() == FeedModel.Connect(old(View()), now)
    {
      if !mounted {
        return;
      }
      retryTimer := None;
      ghost var before := Recs();
      var ws := new WebSocket(now, |all|);
      wsRef := ws;
      lastMessageAt := now;
      all := all + [ws];
      Appended(before, Recs(), ws.Rec());
    }

    method Drop()
      requires Valid()
      modifies this`wsRef, all
      ensures Valid() && View() == DropCurrent(old(View()))
    {
      var ws := wsRef;
      wsRef := null;
      if ws != null {
        ghost var before := Recs();
        ws.Close();
        Updated(before, Recs(), ws.id, ws.Rec());
      }
    }

    method ForceReconnect(now: int)
      requires Valid()
      modifies this, all
      ensures Valid() && View() == FeedModel.ForceReconnect(old(View()), now) && updates == old(updates)
    {
      if !mounted {
        return;
      }
      Drop();
      attempt := 0;
      Connect(now);
    }

    method CheckLiveness(now: int)
      requires Valid()
      modifies this, all
      ensures Valid() && View() == FeedModel.CheckLiveness(old(View()), now) && updates == old(updates)
    {
      if !mounted {
        return;
      }
      if wsRef == null {
        if retryTimer.None? {
          Connect(now);
        }
        return;
      }
      if wsRef.readyState == Closed || wsRef.readyState == Closing {
        return;
      }
      if now - lastMessageAt > STALE {
        ForceReconnect(now);
      }
    }

    method Opens(ws: WebSocket, now: int)
      requires Valid() && Known(ws) && ws.readyState == Connecting
      modifies this`lastMessageAt, this`attempt, ws
      ensures Valid() && View() == OnOpen(old(View()), ws.id, now)
    {
      ghost var before := Recs();
      ws.readyState := Open;
      ws.heard := now;
      lastMessageAt := now;
      attempt := 0;
      Updated(before, Recs(), ws.id, ws.Rec());
    }

    method Brings(ws: WebSocket, m: Message, now: int)
      requires Valid() && Known(ws) && ws.readyState == Open
      modifies this`lastMessageAt, this`updates, ws
      ensures Valid() && View() == OnMessage(old(View()), ws.id, m, now)
      ensures updates == old(updates) + if m == Update then 1 else 0
    {
      ghost var before := Recs();
      ws.heard := now;
      lastMessageAt := now;
      if m == Error {
        ws.Close();
      } else if m == Update {
        updates := updates + 1;
      }
      Updated(before, Recs(), ws.id, ws.Rec());
    }

    method Closes(ws: WebSocket, now: int)
      requires Valid() && Known(ws)
      modifies this`wsRef, this`retryTimer, this`attempt, ws`readyState
      ensures Valid() && View() == OnClose(old(View()), ws.id, now)
    {
      ghost var before := Recs();
      ws.readyState := Closed;
      Updated(before, Recs(), ws.id, ws.Rec());
      if wsRef != ws {
        assert wsRef != null ==> wsRef.id != ws.id;
        return;
      }
      wsRef := null;
      if !mounted {
        return;
      }
      retryTimer := Some(now + Backoff(attempt));
      attempt := attempt + 1;
    }

    method Mount(now: int)
      requires Valid()
      modifies this
      ensures Valid() && View() == FeedModel.Mount(old(View()), now) && updates == old(updates)
    {
      mounted := true;
      Connect(now);
    }

    method Unmount()
      requires Valid()
      modifies this, all
      ensures Valid() && View() == FeedModel.Unmount(old(View())) && updates == old(updates)
    {
      mounted := false;
      retryTimer := None;
      Drop();
    }
  }
}
