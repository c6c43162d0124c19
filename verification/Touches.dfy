/** The write-behind cache for session pings and activity (internal/sessions/touches.go) in front of
    the sessions table (TouchSessions in internal/db/queries.go).

    The first half describes the cache as a state machine in which handlers, the flusher's batch-take,
    the database transaction and the put-back of a failed batch interleave freely; the second half is
    the cache itself, whose methods are proved against those steps. */
module TouchModel {
  import opened Common

  // Nanoseconds. The table keeps whole seconds: the stored text has no fraction.
  type Time = int
  const SECOND := 1_000_000_000

  function Stored(t: Time): Time {
    t - t % SECOND
  }

  /** The fraction of a second is cut off: a stored time is a whole second, never later than the time
      itself, and less than a second earlier. */
  lemma StoredIsCutOff(t: Time)
    ensures Stored(t) <= t < Stored(t) + 1_000_000_000 && Stored(t) % 1_000_000_000 == 0
  {
  }

  function StoredOpt(t: Option<Time>): Option<Time> {
    match t
    case None => None
    case Some(at) => Some(Stored(at))
  }

  // A ping time and an activity time, each possibly absent.
  datatype Times = Times(ping: Option<Time>, activity: Option<Time>)

  const NOTHING := Times(None, None)

  function StoredTimes(t: Times): Times {
    Times(StoredOpt(t.ping), StoredOpt(t.activity))
  }

  type Rows = map<string, Times>
  type Cache = map<string, Times>

  function Cached(c: Cache, id: string): Times {
    if id in c then c[id] else NOTHING
  }

  // Fields of `over` win where they are present.
  function Layer(under: Times, over: Times): Times {
    Times(over.ping.OrElse(under.ping), over.activity.OrElse(under.activity))
  }

  // One UPDATE of TouchSessions: an id that has no row changes nothing.
  function TouchRow(rows: Rows, id: string, t: Times): Rows {
    if id in rows
    then rows[id := Layer(rows[id], StoredTimes(t))]
    else rows
  }

  datatype SessionTouch = SessionTouch(id: string, times: Times)

  // The statements of one transaction, in order.
  function TouchAll(rows: Rows, batch: seq<SessionTouch>): Rows {
    if batch == [] then rows
    else TouchRow(TouchAll(rows, batch[..|batch| - 1]), batch[|batch| - 1].id, batch[|batch| - 1].times)
  }

  // Every row with the cached times written over it.
  function Overlay(rows: Rows, c: Cache): Rows {
    map id | id in rows ::
      Layer(rows[id], StoredTimes(Cached(c, id)))
  }

  // A failed batch put back under whatever was recorded meanwhile.
  function PutBack(pending: Cache, batch: Cache): Cache {
    map id | id in pending.Keys + batch.Keys :: Layer(Cached(batch, id), Cached(pending, id))
  }

  ghost predicate Lists(batch: seq<SessionTouch>, c: Cache) {
    && (forall i, j :: 0 <= i < j < |batch| ==> batch[i].id != batch[j].id)
    && (forall i :: 0 <= i < |batch| ==> batch[i].id in c && c[batch[i].id] == batch[i].times)
    && (forall id :: id in c ==> exists i :: 0 <= i < |batch| && batch[i].id == id)
  }

  lemma {:induction false} TouchAllAt(rows: Rows, batch: seq<SessionTouch>, c: Cache, id: string)
    requires forall i, j :: 0 <= i < j < |batch| ==> batch[i].id != batch[j].id
    requires forall i :: 0 <= i < |batch| ==> batch[i].id in c && c[batch[i].id] == batch[i].times
    ensures TouchAll(rows, batch).Keys == rows.Keys
    ensures id in rows ==>
      TouchAll(rows, batch)[id] ==
      if exists i :: 0 <= i < |batch| && batch[i].id == id then Overlay(rows, c)[id] else rows[id]
  {
    if batch != [] {
      var init, last := batch[..|batch| - 1], batch[|batch| - 1];
      TouchAllAt(rows, init, c, id);
      assert forall i :: 0 <= i < |init| ==> init[i] == batch[i];
      if last.id == id {
        assert batch[|batch| - 1].id == id;
        assert !exists i :: 0 <= i < |init| && init[i].id == id;
      } else if exists i :: 0 <= i < |batch| && batch[i].id == id {
        var i :| 0 <= i < |batch| && batch[i].id == id;
        assert init[i].id == id;
      }
    }
  }

  // Map iteration order cannot be seen in the database: any listing of the cache writes the same rows.
  lemma BatchOrderIsInvisible(rows: Rows, batch: seq<SessionTouch>, c: Cache)
    requires Lists(batch, c)
    ensures TouchAll(rows, batch) == Overlay(rows, c)
  {
    forall id | id in rows
      ensures id in TouchAll(rows, batch) && TouchAll(rows, batch)[id] == Overlay(rows, c)[id]
    {
      TouchAllAt(rows, batch, c, id);
    }
    TouchAllAt(rows, batch, c, "");
  }

  // The batch as a map, built the way the put-back loop walks it.
  ghost function AsCache(batch: seq<SessionTouch>): Cache {
    if batch == [] then map[]
    else AsCache(batch[..|batch| - 1])[batch[|batch| - 1].id := batch[|batch| - 1].times]
  }

  lemma {:induction false} AsCacheHas(batch: seq<SessionTouch>, id: string)
    ensures id in AsCache(batch) <==> exists i :: 0 <= i < |batch| && batch[i].id == id
  {
    if batch != [] {
      var init := batch[..|batch| - 1];
      AsCacheHas(init, id);
      if i :| 0 <= i < |init| && init[i].id == id {
        assert batch[i].id == id;
      }
      if i :| 0 <= i < |batch| && batch[i].id == id {
        assert i < |init| ==> init[i].id == id;
      }
    }
  }

  lemma {:induction false} AsCacheHolds(batch: seq<SessionTouch>, i: nat)
    requires i < |batch| && forall i, j :: 0 <= i < j < |batch| ==> batch[i].id != batch[j].id
    ensures batch[i].id in AsCache(batch) && AsCache(batch)[batch[i].id] == batch[i].times
  {
    if i < |batch| - 1 {
      AsCacheHolds(batch[..|batch| - 1], i);
    }
  }

  lemma ListsAsCache(batch: seq<SessionTouch>, c: Cache)
    requires Lists(batch, c)
    ensures AsCache(batch) == c
  {
    forall id ensures id in AsCache(batch) <==> id in c {
      AsCacheHas(batch, id);
    }
    forall id | id in c ensures AsCache(batch)[id] == c[id] {
      var i :| 0 <= i < |batch| && batch[i].id == id;
      AsCacheHolds(batch, i);
    }
  }

  lemma PutBackPoint(before: Cache, c: Cache, id: string, t: Times)
    requires id !in c
    ensures PutBack(before, c[id := t]) ==
            PutBack(before, c)[id := Layer(t, Cached(PutBack(before, c), id))]
  {
  }

  lemma PutBackStep(before: Cache, batch: seq<SessionTouch>, i: nat)
    requires i < |batch| && forall i, j :: 0 <= i < j < |batch| ==> batch[i].id != batch[j].id
    ensures var now, b := PutBack(before, AsCache(batch[..i])), batch[i];
      PutBack(before, AsCache(batch[..i + 1])) == now[b.id := Layer(b.times, Cached(now, b.id))]
  {
    var done := batch[..i];
    assert batch[..i + 1][..i] == done;
    AsCacheHas(done, batch[i].id);
    assert batch[i].id !in AsCache(done);
    PutBackPoint(before, AsCache(done), batch[i].id, batch[i].times);
  }

  lemma ListsGrow(batch: seq<SessionTouch>, c: Cache, id: string, t: Times)
    requires Lists(batch, c) && id !in c
    ensures Lists(batch + [SessionTouch(id, t)], c[id := t])
  {
    var grown := batch + [SessionTouch(id, t)];
    forall x | x in c || x == id ensures exists i :: 0 <= i < |grown| && grown[i].id == x {
      if x == id {
        assert grown[|batch|].id == id;
      } else {
        var i :| 0 <= i < |batch| && batch[i].id == x;
        assert grown[i].id == x;
      }
    }
  }

  // ------------------------------------------------------------------ interleavings

  /** Everything the guarantee is about: the table, the batch the flusher has taken but not yet
      written (there is one flusher, Run, so at most one), and what handlers recorded since. */
  datatype State = State(rows: Rows, inflight: Option<Cache>, pending: Cache)

  datatype Event =
    | Ping(id: string, at: Time)
    | Activity(id: string, at: Time)
    | Take                             // Flush swaps the pending map out
    | Commit                           // TouchSessions succeeded
    | Fail                             // TouchSessions failed and the batch is put back
    | Create(id: string, row: Times)   // CreateSession: the upsert writes past the cache
    | Delete(id: string)               // DeleteSession

  function Batch(s: State): Cache {
    s.inflight.GetOr(map[])
  }

  function Step(s: State, e: Event): State {
    match e
    case Ping(id, at) => s.(pending := s.pending[id := Cached(s.pending, id).(ping := Some(at))])
    case Activity(id, at) => s.(pending := s.pending[id := Cached(s.pending, id).(activity := Some(at))])
    case Take => if s.inflight.None? then s.(inflight := Some(s.pending), pending := map[]) else s
    case Commit => s.(rows := Overlay(s.rows, Batch(s)), inflight := None)
    case Fail => s.(pending := PutBack(s.pending, Batch(s)), inflight := None)
    case Create(id, row) => s.(rows := s.rows[id := StoredTimes(row)])
    case Delete(id) => s.(rows := s.rows - {id})
  }

  function Run(s: State, es: seq<Event>): State {
    if es == [] then s else Step(Run(s, es[..|es| - 1]), es[|es| - 1])
  }

  // What a reader of the whole system is owed: table, then batch in flight, then pending.
  function Visible(s: State): Rows {
    Overlay(Overlay(s.rows, Batch(s)), s.pending)
  }

  // The same events with no cache at all: every ping and activity is its own UPDATE
  // (UpdateSessionPing, UpdateSessionActivity) and flushing does not exist.
  function DirectStep(rows: Rows, e: Event): Rows {
    match e
    case Ping(id, at) => if id in rows then rows[id := rows[id].(ping := Some(Stored(at)))] else rows
    case Activity(id, at) => if id in rows then rows[id := rows[id].(activity := Some(Stored(at)))] else rows
    case Take => rows
    case Commit => rows
    case Fail => rows
    case Create(id, row) => rows[id := StoredTimes(row)]
    case Delete(id) => rows - {id}
  }

  function Direct(rows: Rows, es: seq<Event>): Rows {
    if es == [] then rows else DirectStep(Direct(rows, es[..|es| - 1]), es[|es| - 1])
  }

  // What the cache still holds for a session.
  function Held(s: State, id: string): Times {
    Layer(Cached(Batch(s), id), Cached(s.pending, id))
  }

  // Nothing is held for the session that the row being created would contradict.
  predicate Quiet(s: State, e: Event) {
    e.Create? ==>
      && (Held(s, e.id).ping.None? || StoredOpt(Held(s, e.id).ping) == StoredOpt(e.row.ping))
      && (Held(s, e.id).activity.None? || StoredOpt(Held(s, e.id).activity) == StoredOpt(e.row.activity))
  }

  lemma VisibleAt(s: State, id: string)
    requires id in s.rows
    ensures Visible(s).Keys == s.rows.Keys
    ensures Visible(s)[id] == Layer(s.rows[id], StoredTimes(Held(s, id)))
  {
  }

  // What an event other than its Create or Delete does to a session's times when nothing is cached.
  function DirectTimes(t: Times, e: Event, id: string): Times {
    if e.Ping? && e.id == id then t.(ping := Some(Stored(e.at)))
    else if e.Activity? && e.id == id then t.(activity := Some(Stored(e.at)))
    else t
  }

  lemma DirectAt(rows: Rows, e: Event, id: string)
    requires id in rows && !((e.Create? || e.Delete?) && e.id == id)
    ensures id in DirectStep(rows, e) && DirectStep(rows, e)[id] == DirectTimes(rows[id], e, id)
  {
  }

  lemma HeldAt(s: State, e: Event, id: string)
    requires id in s.rows && !((e.Create? || e.Delete?) && e.id == id)
    ensures id in Step(s, e).rows
    ensures Layer(Step(s, e).rows[id], StoredTimes(Held(Step(s, e), id))) ==
            DirectTimes(Layer(s.rows[id], StoredTimes(Held(s, id))), e, id)
  {
  }

  // One event, seen at one session other than through a Create of that session.
  lemma StepRefinesAt(s: State, e: Event, id: string)
    requires !(e.Create? && e.id == id)
    requires id in Step(s, e).rows
    ensures id in s.rows && id in DirectStep(Visible(s), e)
    ensures Visible(Step(s, e))[id] == DirectStep(Visible(s), e)[id]
  {
    VisibleAt(s, id);
    HeldAt(s, e, id);
    VisibleAt(Step(s, e), id);
    DirectAt(Visible(s), e, id);
  }

  lemma CreateRefinesAt(s: State, id: string, row: Times)
    ensures id in Visible(Step(s, Create(id, row)))
    ensures Visible(Step(s, Create(id, row)))[id] == StoredTimes(row) <==> Quiet(s, Create(id, row))
  {
    VisibleAt(Step(s, Create(id, row)), id);
  }

  lemma StepKeys(s: State, e: Event)
    ensures Visible(Step(s, e)).Keys == DirectStep(Visible(s), e).Keys
  {
  }

  /** Every event other than a conflicting Create keeps the cached system equal to the direct one, and
      that is exact: a Create agrees with the direct system if and only if the cache is quiet for it. */
  lemma StepRefines(s: State, e: Event)
    ensures Visible(Step(s, e)) == DirectStep(Visible(s), e) <==> Quiet(s, e)
  {
    StepKeys(s, e);
    if e.Create? {
      CreateRefinesAt(s, e.id, e.row);
      assert DirectStep(Visible(s), e)[e.id] == StoredTimes(e.row);
    }
    if Quiet(s, e) {
      forall id | id in Visible(Step(s, e)) ensures Visible(Step(s, e))[id] == DirectStep(Visible(s), e)[id] {
        if !(e.Create? && e.id == id) {
          StepRefinesAt(s, e, id);
        }
      }
    }
  }

  ghost predicate QuietRun(s: State, es: seq<Event>) {
    forall i :: 0 <= i < |es| ==> Quiet(Run(s, es[..i]), es[i])
  }

  /** Write-behind is invisible: in every interleaving of handlers, batch-takes, commits, failures and
      deletions, the table overlaid by the in-flight batch and then by pending is what direct writes
      would have stored. */
  lemma {:induction false} CacheRefinesDirectWrites(s: State, es: seq<Event>)
    requires QuietRun(s, es)
    ensures Visible(Run(s, es)) == Direct(Visible(s), es)
  {
    if es != [] {
      var init := es[..|es| - 1];
      forall i | 0 <= i < |init| ensures Quiet(Run(s, init[..i]), init[i]) {
        assert init[..i] == es[..i];
        assert Quiet(Run(s, es[..i]), es[i]);
      }
      CacheRefinesDirectWrites(s, init);
      assert Quiet(Run(s, es[..|es| - 1]), es[|es| - 1]);
      StepRefines(Run(s, init), es[|es| - 1]);
    }
  }

  // The newest recorded times of a session, read off the events alone; creating its row starts afresh.
  function LastPing(es: seq<Event>, id: string, initially: Option<Time>): Option<Time> {
    if es == [] then initially
    else
      var e := es[|es| - 1];
      if e.Ping? && e.id == id then Some(Stored(e.at))
      else if e.Create? && e.id == id then StoredOpt(e.row.ping)
      else LastPing(es[..|es| - 1], id, initially)
  }

  function LastActivity(es: seq<Event>, id: string, initially: Option<Time>): Option<Time> {
    if es == [] then initially
    else
      var e := es[|es| - 1];
      if e.Activity? && e.id == id then Some(Stored(e.at))
      else if e.Create? && e.id == id then StoredOpt(e.row.activity)
      else LastActivity(es[..|es| - 1], id, initially)
  }

  function LastRecorded(es: seq<Event>, id: string, rows: Rows): Times {
    Times(LastPing(es, id, Cached(rows, id).ping), LastActivity(es, id, Cached(rows, id).activity))
  }

  /** Direct writes: a session that is in the table at the end has its last recorded ping and activity,
      over any run of events, creations and deletions among them. */
  lemma {:induction false} DirectIsLastRecorded(rows: Rows, es: seq<Event>, id: string)
    requires id in Direct(rows, es)
    ensures Direct(rows, es)[id] == LastRecorded(es, id, rows)
  {
    if es != [] && !(es[|es| - 1].Create? && es[|es| - 1].id == id) {
      DirectIsLastRecorded(rows, es[..|es| - 1], id);
    }
  }

  // Every creation of this session finds the cache quiet for it.
  ghost predicate QuietFor(s: State, es: seq<Event>, id: string) {
    forall i :: 0 <= i < |es| && es[i].Create? && es[i].id == id ==> Quiet(Run(s, es[..i]), es[i])
  }

  lemma QuietForInit(s: State, es: seq<Event>, id: string)
    requires es != [] && QuietFor(s, es, id)
    ensures QuietFor(s, es[..|es| - 1], id)
  {
    var init := es[..|es| - 1];
    forall i | 0 <= i < |init| && init[i].Create? && init[i].id == id ensures Quiet(Run(s, init[..i]), init[i]) {
      assert init[..i] == es[..i] && init[i] == es[i];
    }
  }

  /** With the cache: whatever the flusher did, however often it failed, and whatever was created and
      deleted, a session in the table has its last recorded ping and activity, the table overlaid by the
      batch in flight and then by pending. Only creations of this very session have to find it quiet. */
  lemma {:induction false} VisibleIsLastRecorded(s: State, es: seq<Event>, id: string)
    requires id in Run(s, es).rows && QuietFor(s, es, id)
    ensures id in Visible(Run(s, es)) && Visible(Run(s, es))[id] == LastRecorded(es, id, Visible(s))
  {
    VisibleAt(Run(s, es), id);
    if es != [] {
      var init, e := es[..|es| - 1], es[|es| - 1];
      if e.Create? && e.id == id {
        CreateRefinesAt(Run(s, init), id, e.row);
      } else {
        StepRefinesAt(Run(s, init), e, id);
        QuietForInit(s, es, id);
        VisibleIsLastRecorded(s, init, id);
      }
    }
  }

  // ------------------------------------------------------------------ how exact the stored times are

  // What the table has for a time: nothing for none, and otherwise the same second.
  predicate Within(stored: Option<Time>, at: Option<Time>) {
    match at
    case None => stored.None?
    case Some(t) => stored.Some? && stored.value <= t < stored.value + 1_000_000_000
  }

  // The newest recorded times themselves, not as the table keeps them.
  function RawPing(es: seq<Event>, id: string, initially: Option<Time>): Option<Time> {
    if es == [] then initially
    else
      var e := es[|es| - 1];
      if e.Ping? && e.id == id then Some(e.at)
      else if e.Create? && e.id == id then e.row.ping
      else RawPing(es[..|es| - 1], id, initially)
  }

  function RawActivity(es: seq<Event>, id: string, initially: Option<Time>): Option<Time> {
    if es == [] then initially
    else
      var e := es[|es| - 1];
      if e.Activity? && e.id == id then Some(e.at)
      else if e.Create? && e.id == id then e.row.activity
      else RawActivity(es[..|es| - 1], id, initially)
  }

  lemma StoredOptIsWithin(at: Option<Time>)
    ensures Within(StoredOpt(at), at)
  {
    if at.Some? {
      StoredIsCutOff(at.value);
    }
  }

  lemma {:induction false} LastIsWithinRaw(es: seq<Event>, id: string, ping: Option<Time>, activity: Option<Time>)
    ensures Within(LastPing(es, id, ping), RawPing(es, id, ping))
    ensures Within(LastActivity(es, id, activity), RawActivity(es, id, activity))
  {
    if es != [] {
      var e := es[|es| - 1];
      LastIsWithinRaw(es[..|es| - 1], id, ping, activity);
      match e
      case Ping(_, at) => StoredOptIsWithin(Some(at));
      case Activity(_, at) => StoredOptIsWithin(Some(at));
      case Create(_, row) =>
        StoredOptIsWithin(row.ping);
        StoredOptIsWithin(row.activity);
      case _ =>
    }
  }

  /** So what the whole system shows of a session's last ping and activity is never in the future of what
      was recorded last, and less than a second in its past. */
  lemma VisibleIsWithinASecond(s: State, es: seq<Event>, id: string)
    requires id in Run(s, es).rows && QuietFor(s, es, id)
    ensures id in Visible(Run(s, es))
    ensures Within(Visible(Run(s, es))[id].ping, RawPing(es, id, Cached(Visible(s), id).ping))
    ensures Within(Visible(Run(s, es))[id].activity, RawActivity(es, id, Cached(Visible(s), id).activity))
  {
    VisibleIsLastRecorded(s, es, id);
    LastIsWithinRaw(es, id, Cached(Visible(s), id).ping, Cached(Visible(s), id).activity);
  }

  /** The same of one transaction: a row whose session is in the batch gets that touch's times to the
      second, and keeps what the touch leaves out; every other row is as it was. */
  lemma TouchedWithinASecond(rows: Rows, batch: seq<SessionTouch>, c: Cache, id: string)
    requires Lists(batch, c) && id in rows
    ensures id in TouchAll(rows, batch)
    ensures var now, was := TouchAll(rows, batch)[id], rows[id];
      if id !in c then now == was
      else
        && (if c[id].ping.Some? then Within(now.ping, c[id].ping) else now.ping == was.ping)
        && (if c[id].activity.Some? then Within(now.activity, c[id].activity) else now.activity == was.activity)
  {
    BatchOrderIsInvisible(rows, batch, c);
    if id in c {
      StoredOptIsWithin(c[id].ping);
      StoredOptIsWithin(c[id].activity);
    }
  }

  /** Shutdown: once handlers have stopped and no batch is out, one successful flush leaves the table
      alone holding everything. */
  lemma FinalFlushLosesNothing(s: State, es: seq<Event>)
    requires QuietRun(s, es) && Run(s, es).inflight.None?
    ensures Run(s, es + [Take, Commit]).rows == Direct(Visible(s), es)
    ensures Run(s, es + [Take, Commit]).pending == map[]
  {
    CacheRefinesDirectWrites(s, es);
    var s1 := Run(s, es);
    var tail := es + [Take];
    assert tail[..|es|] == es;
    assert (es + [Take, Commit])[..|es| + 1] == tail;
    assert Run(s, tail) == Step(s1, Take);
    assert Run(s, es + [Take, Commit]) == Step(Step(s1, Take), Commit);
    assert Visible(s1) == Overlay(s1.rows, s1.pending) by {
      assert Overlay(s1.rows, map[]) == s1.rows;
    }
  }

  /** After it the table alone has each session's last recorded times. */
  lemma FinalFlushStoresTheLast(s: State, es: seq<Event>, id: string)
    requires QuietFor(s, es, id) && Run(s, es).inflight.None? && id in Run(s, es).rows
    ensures id in Run(s, es + [Take, Commit]).rows
    ensures Run(s, es + [Take, Commit]).rows[id] == LastRecorded(es, id, Visible(s))
  {
    var s1 := Run(s, es);
    var tail := es + [Take];
    assert tail[..|es|] == es;
    assert (es + [Take, Commit])[..|es| + 1] == tail;
    assert Run(s, es + [Take, Commit]) == Step(Step(s1, Take), Commit);
    VisibleIsLastRecorded(s, es, id);
    VisibleAt(s1, id);
  }

  /** And those are to the second what was recorded. */
  lemma FinalFlushStoresToTheSecond(s: State, es: seq<Event>, id: string)
    requires QuietFor(s, es, id) && Run(s, es).inflight.None? && id in Run(s, es).rows
    ensures id in Run(s, es + [Take, Commit]).rows
    ensures var row := Run(s, es + [Take, Commit]).rows[id];
      && Within(row.ping, RawPing(es, id, Cached(Visible(s), id).ping))
      && Within(row.activity, RawActivity(es, id, Cached(Visible(s), id).activity))
  {
    FinalFlushStoresTheLast(s, es, id);
    LastIsWithinRaw(es, id, Cached(Visible(s), id).ping, Cached(Visible(s), id).activity);
  }

  /** A failed flush drops nothing and replaces nothing: a time recorded after the batch was taken
      stays, and where none was, the batch's own time comes back. */
  lemma FailKeepsNewerTimes(s: State, id: string)
    ensures Step(s, Fail).rows == s.rows
    ensures Cached(Step(s, Fail).pending, id).ping == Cached(s.pending, id).ping.OrElse(Cached(Batch(s), id).ping)
    ensures Cached(Step(s, Fail).pending, id).activity ==
            Cached(s.pending, id).activity.OrElse(Cached(Batch(s), id).activity)
    ensures Visible(Step(s, Fail)) == Visible(s)
  {
    StepRefines(s, Fail);
  }

  /** A concrete revival that shows why Create needs a quiet cache: a ping recorded before the upsert
      and flushed after it moves the stored ping back in time. */
  lemma CreateWritesPastTheCache(id: string)
    ensures
      var es := [Ping(id, 1 * SECOND), Create(id, Times(Some(5 * SECOND), Some(5 * SECOND))), Take, Commit];
      var end := Run(State(map[id := NOTHING], None, map[]), es);
      id in end.rows && end.rows[id].ping == Some(1 * SECOND)
  {
    var s0 := State(map[id := NOTHING], None, map[]);
    var es := [Ping(id, 1 * SECOND), Create(id, Times(Some(5 * SECOND), Some(5 * SECOND))), Take, Commit];
    assert es[..3][..2][..1][..0] == [] && es[..3][..2][..1] == es[..1] && es[..3][..2] == es[..2];
    assert Run(s0, es[..1]) == Step(s0, es[0]);
    assert Run(s0, es[..2]) == Step(Step(s0, es[0]), es[1]);
    assert Run(s0, es[..3]) == Step(Step(Step(s0, es[0]), es[1]), es[2]);
    assert Run(s0, es) == Step(Step(Step(Step(s0, es[0]), es[1]), es[2]), es[3]);
  }
}

/** The cache and the table it writes to, as objects. */
module Touches {
  import opened Common
  import opened TouchModel

  class SessionTable {
    var rows: Rows

    constructor (rows: Rows)
      ensures this.rows == rows
    {
      this.rows := rows;
    }

    /** Writes many touches in one transaction. `failsAt` is where the database gives up: at Begin or
        Prepare (0), at a statement, or at Commit; None if it never does. */
    method TouchSessions(touches: seq<SessionTouch>, failsAt: Option<nat>) returns (ok: bool)
      modifies this
      ensures ok <==> failsAt.None?
      ensures rows == if ok then TouchAll(old(rows), touches) else old(rows)
    {
      var tx := rows;
      for i := 0 to |touches|
        invariant tx == TouchAll(rows, touches[..i])
        invariant rows == old(rows)
      {
        if failsAt == Some(i) {
          return false;  // the deferred rollback drops tx
        }
        assert touches[..i + 1][..i] == touches[..i];
        tx := TouchRow(tx, touches[i].id, touches[i].times);
      }
      if failsAt.Some? {
        return false;
      }
      assert touches[..|touches|] == touches;
      rows := tx;
      return true;
    }
  }

  // One pending entry; handlers assign its fields in place.
  class Entry {
    var ping: Option<Time>
    var activity: Option<Time>

    constructor ()
      ensures ping == None && activity == None
    {
      ping, activity := None, None;
    }

    // What is already there wins.
    method FillIn(t: Times)
      modifies this
      ensures Times(ping, activity) == Layer(t, old(Times(ping, activity)))
    {
      if ping == None {
        ping := t.ping;
      }
      if activity == None {
        activity := t.activity;
      }
    }
  }

  class TouchCache {
    const database: SessionTable
    var pending: map<string, Entry>

    ghost predicate Valid()
      reads this
    {
      forall a, b :: a in pending && b in pending && a != b ==> pending[a] != pending[b]
    }

    ghost function Pending(): Cache
      reads this, pending.Values
    {
      map id | id in pending :: Times(pending[id].ping, pending[id].activity)
    }

    constructor (database: SessionTable)
      ensures Valid() && Pending() == map[] && this.database == database
    {
      this.database := database;
      pending := map[];
    }

    // The entry of a session, made on first use.
    method EntryOf(id: string) returns (e: Entry)
      requires Valid()
      modifies this
      ensures Valid() && id in pending && pending[id] == e
      ensures pending == old(pending)[id := e]
      ensures if id in old(pending) then e == old(pending)[id] else fresh(e) && e.ping == None && e.activity == None
      ensures Pending() == old(Pending())[id := Cached(old(Pending()), id)]
    {
      if id in pending {
        e := pending[id];
      } else {
        e := new Entry();
        pending := pending[id := e];
      }
    }

    method Ping(id: string, at: Time)
      requires Valid()
      modifies this, pending.Values
      ensures Valid() && fresh(pending.Values - old(pending.Values))
      ensures Pending() == Step(State(map[], None, old(Pending())), Event.Ping(id, at)).pending
    {
      var e := EntryOf(id);
      e.ping := Some(at);
      assert Pending() == old(Pending())[id := Cached(old(Pending()), id).(ping := Some(at))];
    }

    method Activity(id: string, at: Time)
      requires Valid()
      modifies this, pending.Values
      ensures Valid() && fresh(pending.Values - old(pending.Values))
      ensures Pending() == Step(State(map[], None, old(Pending())), Event.Activity(id, at)).pending
    {
      var e := EntryOf(id);
      e.activity := Some(at);
      assert Pending() == old(Pending())[id := Cached(old(Pending()), id).(activity := Some(at))];
    }

    // First critical section of Flush: copy every entry, in any order, and start a new map.
    method TakeBatch() returns (batch: seq<SessionTouch>)
      requires Valid()
      modifies this
      ensures Valid() && pending == map[]
      ensures Lists(batch, old(Pending()))
    {
      batch := [];
      var todo := pending.Keys;
      ghost var copied: Cache := map[];
      while todo != {}
        invariant todo <= pending.Keys && pending == old(pending)
        invariant Lists(batch, copied) && copied == Pending() - todo
      {
        var id := Pick(todo);
        ListsGrow(batch, copied, id, Pending()[id]);
        batch := batch + [SessionTouch(id, Times(pending[id].ping, pending[id].activity))];
        copied := copied[id := Pending()[id]];
        todo := todo - {id};
      }
      assert copied == Pending();
      pending := map[];
    }

    // Put one touch of a failed batch back, under what is already pending for its session.
    method PutBackOne(b: SessionTouch)
      requires Valid()
      modifies this, pending.Values
      ensures Valid() && fresh(pending.Values - old(pending.Values))
      ensures Pending() == old(Pending())[b.id := Layer(b.times, Cached(old(Pending()), b.id))]
    {
      var e := EntryOf(b.id);
      e.FillIn(b.times);
      assert Pending() == old(Pending())[b.id := Layer(b.times, Cached(old(Pending()), b.id))];
    }

    // Second critical section of a failed Flush.
    method PutBackBatch(batch: seq<SessionTouch>, ghost taken: Cache)
      requires Valid() && Lists(batch, taken)
      modifies this, pending.Values
      ensures Valid() && fresh(pending.Values - old(pending.Values))
      ensures Pending() == PutBack(old(Pending()), taken)
    {
      ghost var before := Pending();
      for i := 0 to |batch|
        invariant Valid() && fresh(pending.Values - old(pending.Values))
        invariant Pending() == PutBack(before, AsCache(batch[..i]))
      {
        PutBackOne(batch[i]);
        assert Pending() == PutBack(before, AsCache(batch[..i + 1])) by {
          PutBackStep(before, batch, i);
        }
      }
      assert batch[..|batch|] == batch;
      ListsAsCache(batch, taken);
    }

    /** Flush with nothing else running between its two phases: on success the table holds the
        overlay and nothing is pending; on failure neither has changed, so the next flush retries. */
    method Flush(failsAt: Option<nat>) returns (ok: bool)
      requires Valid()
      modifies this, database, pending.Values
      ensures Valid()
      ensures ok <==> failsAt.None? || old(pending) == map[]
      ensures ok ==> database.rows == Overlay(old(database.rows), old(Pending())) && Pending() == map[]
      ensures !ok ==> database.rows == old(database.rows) && Pending() == old(Pending())
    {
      ghost var taken := Pending();
      var batch := TakeBatch();
      if |batch| == 0 {
        assert taken == map[];
        assert Overlay(old(database.rows), map[]) == old(database.rows);
        return true;
      }
      assert batch[0].id in taken;
      var written := database.TouchSessions(batch, failsAt);
      if !written {
        PutBackBatch(batch, taken);
        assert PutBack(map[], taken) == taken;
        return false;
      }
      BatchOrderIsInvisible(old(database.rows), batch, taken);
      return true;
    }
  }
}
