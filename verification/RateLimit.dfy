/** The sliding-window rate limiter (internal/util/ratelimit.go): an actor that owns one list of
    timestamps per user, answers requests, and now and then sweeps out what has expired. */
module RateLimitModel {
  // Nanoseconds on the actor's monotonic clock.
  type Time = int

  // A limiter keeps `limit` requests per `window`; NewTicker refuses a window that is not positive.
  datatype Config = Config(limit: int, window: int)

  datatype Event = Request(user: int, at: Time) | Cleanup(at: Time)

  type Table = map<int, seq<Time>>

  function Of(t: Table, user: int): seq<Time> {
    if user in t then t[user] else []
  }

  // The timestamps still inside the window that ends now, in order.
  function Live(ts: seq<Time>, now: Time, window: int): seq<Time> {
    if ts == [] then []
    else
      var rest := Live(ts[..|ts| - 1], now, window);
      if now - ts[|ts| - 1] < window then rest + [ts[|ts| - 1]] else rest
  }

  function Swept(t: Table, now: Time, window: int): Table {
    map u | u in t && Live(t[u], now, window) != [] :: Live(t[u], now, window)
  }

  // The table while a sweep still has the users in `todo` to visit.
  ghost function PartlySwept(t: Table, todo: set<int>, now: Time, window: int): Table {
    map u | u in t && (u in todo || Live(t[u], now, window) != []) ::
      if u in todo then t[u] else Live(t[u], now, window)
  }

  lemma SweepOne(t: Table, todo: set<int>, u: int, now: Time, window: int)
    requires u in todo && u in t
    ensures var part, live := PartlySwept(t, todo, now, window), Live(t[u], now, window);
      && u in part && part[u] == t[u]
      && PartlySwept(t, todo - {u}, now, window) == if live == [] then part - {u} else part[u := live]
  {
  }

  function Step(c: Config, t: Table, e: Event): Table {
    match e
    case Request(user, at) =>
      var live := Live(Of(t, user), at, c.window);
      t[user := if |live| < c.limit then live + [at] else live]
    case Cleanup(at) => Swept(t, at, c.window)
  }

  function Run(c: Config, es: seq<Event>): Table {
    if es == [] then map[] else Step(c, Run(c, es[..|es| - 1]), es[|es| - 1])
  }

  predicate Admits(c: Config, t: Table, user: int, at: Time) {
    |Live(Of(t, user), at, c.window)| < c.limit
  }

  // The actor's answer to a request that arrives after the events es.
  predicate Allows(c: Config, es: seq<Event>, user: int, at: Time) {
    Admits(c, Run(c, es), user, at)
  }

  // When the actor has said yes to a user.
  function Granted(c: Config, es: seq<Event>, user: int): seq<Time> {
    if es == [] then []
    else
      var init, e := es[..|es| - 1], es[|es| - 1];
      if e.Request? && e.user == user && Allows(c, init, user, e.at)
      then Granted(c, init, user) + [e.at]
      else Granted(c, init, user)
  }

  ghost predicate InOrder(es: seq<Event>) {
    forall i, j :: 0 <= i < j < |es| ==> es[i].at <= es[j].at
  }

  ghost predicate NotBefore(now: Time, es: seq<Event>) {
    forall i :: 0 <= i < |es| ==> es[i].at <= now
  }

  // ------------------------------------------------------------------ the reference limiter

  // The requests of a trace, with the cleanup ticks taken out.
  function Requests(es: seq<Event>): seq<Event> {
    if es == [] then []
    else Requests(es[..|es| - 1]) + (if es[|es| - 1].Request? then [es[|es| - 1]] else [])
  }

  // How many of ts fall in [from, from + window).
  function CountIn(ts: seq<Time>, from: Time, window: int): nat {
    if ts == [] then 0
    else CountIn(ts[..|ts| - 1], from, window) + (if from <= ts[|ts| - 1] < from + window then 1 else 0)
  }

  // Fewer than `limit` of the grants fall in the window that ends now.
  predicate HasRoom(c: Config, grants: seq<Time>, now: Time) {
    CountIn(grants, now - c.window + 1, c.window) < c.limit
  }

  // One more event, for a limiter that remembers every grant it gave the user.
  function WithGrant(c: Config, grants: seq<Time>, e: Event, user: int): seq<Time> {
    if e.Request? && e.user == user && HasRoom(c, grants, e.at) then grants + [e.at] else grants
  }

  // A limiter with perfect memory: it keeps every grant and never sweeps.
  function PerfectGrants(c: Config, requests: seq<Event>, user: int): seq<Time> {
    if requests == [] then []
    else
      WithGrant(c, PerfectGrants(c, requests[..|requests| - 1], user), requests[|requests| - 1], user)
  }

  // ------------------------------------------------------------------ lemmas

  lemma {:induction false} LiveOfLive(ts: seq<Time>, t1: Time, t2: Time, window: int)
    requires t1 <= t2
    ensures Live(Live(ts, t1, window), t2, window) == Live(ts, t2, window)
  {
    if ts != [] {
      LiveOfLive(ts[..|ts| - 1], t1, t2, window);
      var rest := Live(ts[..|ts| - 1], t1, window);
      assert (rest + [ts[|ts| - 1]])[..|rest|] == rest;
    }
  }

  lemma LiveAppend(ts: seq<Time>, x: Time, now: Time, window: int)
    ensures Live(ts + [x], now, window) == Live(ts, now, window) + (if now - x < window then [x] else [])
  {
    assert (ts + [x])[..|ts|] == ts;
  }

  lemma {:induction false} LiveCounts(ts: seq<Time>, now: Time, window: int)
    requires forall i :: 0 <= i < |ts| ==> ts[i] <= now
    ensures |Live(ts, now, window)| == CountIn(ts, now - window + 1, window)
  {
    if ts != [] {
      LiveCounts(ts[..|ts| - 1], now, window);
    }
  }

  // What the table holds for a user is, at any later instant, everything it ever granted that counts.
  lemma {:induction false} TableKeepsWhatCounts(c: Config, es: seq<Event>, user: int, now: Time)
    requires InOrder(es) && NotBefore(now, es)
    ensures Live(Of(Run(c, es), user), now, c.window) == Live(Granted(c, es, user), now, c.window)
  {
    if es != [] {
      var init, e := es[..|es| - 1], es[|es| - 1];
      var had := Of(Run(c, init), user);
      TableKeepsWhatCounts(c, init, user, now);
      LiveOfLive(had, e.at, now, c.window);
      if e.Request? && e.user == user {
        LiveAppend(Live(had, e.at, c.window), e.at, now, c.window);
        LiveAppend(Granted(c, init, user), e.at, now, c.window);
      }
    }
  }

  lemma {:induction false} GrantsArePast(c: Config, es: seq<Event>, user: int, now: Time)
    requires NotBefore(now, es)
    ensures forall i :: 0 <= i < |Granted(c, es, user)| ==> Granted(c, es, user)[i] <= now
  {
    if es != [] {
      GrantsArePast(c, es[..|es| - 1], user, now);
    }
  }

  // A table that holds, of the grants to a user, all that count now.
  lemma RoomIs(c: Config, t: Table, grants: seq<Time>, user: int, now: Time)
    requires Live(Of(t, user), now, c.window) == Live(grants, now, c.window)
    requires forall i :: 0 <= i < |grants| ==> grants[i] <= now
    ensures Admits(c, t, user, now) <==> HasRoom(c, grants, now)
  {
    LiveCounts(grants, now, c.window);
  }

  lemma AnswerIsRoom(c: Config, es: seq<Event>, user: int, now: Time)
    requires InOrder(es) && NotBefore(now, es)
    ensures Allows(c, es, user, now) <==> HasRoom(c, Granted(c, es, user), now)
  {
    TableKeepsWhatCounts(c, es, user, now);
    GrantsArePast(c, es, user, now);
    RoomIs(c, Run(c, es), Granted(c, es, user), user, now);
  }

  /** The answer is exactly "fewer than limit grants to this user in the window that ends now",
      although the actor has forgotten old timestamps and swept whole users away. */
  lemma AnswerCountsGrants(c: Config, es: seq<Event>, user: int, now: Time)
    requires InOrder(es) && NotBefore(now, es)
    ensures Allows(c, es, user, now) <==>
            CountIn(Granted(c, es, user), now - c.window + 1, c.window) < c.limit
  {
    AnswerIsRoom(c, es, user, now);
  }

  lemma {:induction false} CountShift(ts: seq<Time>, from: Time, now: Time, window: int)
    requires from <= now < from + window
    requires forall i :: 0 <= i < |ts| ==> ts[i] <= now
    ensures CountIn(ts, from, window) <= CountIn(ts, now - window + 1, window)
  {
    if ts != [] {
      CountShift(ts[..|ts| - 1], from, now, window);
    }
  }

  /** No half-open interval of the window's length, wherever it starts, holds more than `limit` grants
      to a user (none at all if the limit is negative). */
  lemma {:induction false} SlidingWindowBound(c: Config, es: seq<Event>, user: int, from: Time)
    requires InOrder(es)
    ensures CountIn(Granted(c, es, user), from, c.window) <= if c.limit < 0 then 0 else c.limit
  {
    if es != [] {
      var init, e := es[..|es| - 1], es[|es| - 1];
      var grants := Granted(c, init, user);
      SlidingWindowBound(c, init, user, from);
      if e.Request? && e.user == user && Allows(c, init, user, e.at) {
        assert (grants + [e.at])[..|grants|] == grants;
        if from <= e.at < from + c.window {
          AnswerCountsGrants(c, init, user, e.at);
          GrantsArePast(c, init, user, e.at);
          CountShift(grants, from, e.at, c.window);
        }
      }
    }
  }

  /** A refusal means the window is exactly full. */
  lemma RefusedOnlyWhenFull(c: Config, es: seq<Event>, user: int, now: Time)
    requires InOrder(es) && NotBefore(now, es) && c.limit >= 0
    ensures !Allows(c, es, user, now) <==>
            CountIn(Granted(c, es, user), now - c.window + 1, c.window) == c.limit
  {
    AnswerCountsGrants(c, es, user, now);
    SlidingWindowBound(c, es, user, now - c.window + 1);
  }

  // Granted, one event at a time, without mentioning the table.
  lemma GrantedStep(c: Config, es: seq<Event>, user: int)
    requires es != [] && InOrder(es)
    ensures Granted(c, es, user) == WithGrant(c, Granted(c, es[..|es| - 1], user), es[|es| - 1], user)
  {
    var init, e := es[..|es| - 1], es[|es| - 1];
    AnswerIsRoom(c, init, user, e.at);
  }

  lemma RequestsStep(es: seq<Event>)
    requires es != []
    ensures es[|es| - 1].Request? ==> Requests(es) == Requests(es[..|es| - 1]) + [es[|es| - 1]]
    ensures es[|es| - 1].Cleanup? ==> Requests(es) == Requests(es[..|es| - 1])
  {
  }

  lemma {:induction false} GrantsMatchPerfectMemory(c: Config, es: seq<Event>, user: int)
    requires InOrder(es)
    ensures Granted(c, es, user) == PerfectGrants(c, Requests(es), user)
  {
    if es != [] {
      var init, e := es[..|es| - 1], es[|es| - 1];
      GrantsMatchPerfectMemory(c, init, user);
      GrantedStep(c, es, user);
      RequestsStep(es);
      if e.Request? {
        assert (Requests(init) + [e])[..|Requests(init)|] == Requests(init);
      }
    }
  }

  /** Cleanup ticks cannot be observed: two histories with the same requests, however many ticks
      each has and wherever they fall, give every later request the same answer. */
  lemma CleanupIsInvisible(c: Config, es1: seq<Event>, es2: seq<Event>, user: int, now: Time)
    requires InOrder(es1) && InOrder(es2) && NotBefore(now, es1) && NotBefore(now, es2)
    requires Requests(es1) == Requests(es2)
    ensures Allows(c, es1, user, now) == Allows(c, es2, user, now)
  {
    GrantsMatchPerfectMemory(c, es1, user);
    GrantsMatchPerfectMemory(c, es2, user);
    AnswerCountsGrants(c, es1, user, now);
    AnswerCountsGrants(c, es2, user, now);
  }
}

/** The actor's state and its two commands. */
module RateLimit {
  import opened Common
  import opened RateLimitModel

  class RateLimiter {
    const config: Config
    var requests: Table

    constructor (limit: int, window: int)
      requires window > 0
      ensures requests == Run(config, []) && config == Config(limit, window)
    {
      config := Config(limit, window);
      requests := map[];
    }

    method Valid(timestamps: seq<Time>, now: Time) returns (valid: seq<Time>)
      ensures valid == Live(timestamps, now, config.window)
    {
      valid := [];
      for i := 0 to |timestamps|
        invariant valid == Live(timestamps[..i], now, config.window)
      {
        assert timestamps[..i + 1][..i] == timestamps[..i];
        if now - timestamps[i] < config.window {
          valid := valid + [timestamps[i]];
        }
      }
      assert timestamps[..|timestamps|] == timestamps;
    }

    method Allow(user: int, now: Time, ghost past: seq<Event>) returns (allowed: bool)
      requires requests == Run(config, past)
      modifies this
      ensures allowed == Allows(config, past, user, now)
      ensures requests == Run(config, past + [Request(user, now)])
    {
      var timestamps := if user in requests then requests[user] else [];
      var valid := Valid(timestamps, now);
      allowed := |valid| < config.limit;
      if allowed {
        valid := valid + [now];
      }
      requests := requests[user := valid];
      assert (past + [Request(user, now)])[..|past|] == past;
    }

    // The body of a cleanup tick: visit every user, in whatever order the map gives them.
    method Sweep(now: Time)
      modifies this
      ensures requests == Swept(old(requests), now, config.window)
    {
      ghost var before := requests;
      var todo := requests.Keys;
      while todo != {}
        invariant todo <= before.Keys
        invariant requests == PartlySwept(before, todo, now, config.window)
      {
        var u := Pick(todo);
        SweepOne(before, todo, u, now, config.window);
        var valid := Valid(requests[u], now);
        if |valid| == 0 {
          requests := requests - {u};
        } else {
          requests := requests[u := valid];
        }
        todo := todo - {u};
      }
    }

    method CleanupTick(now: Time, ghost past: seq<Event>)
      requires requests == Run(config, past)
      modifies this
      ensures requests == Run(config, past + [Cleanup(now)])
    {
      Sweep(now);
      assert (past + [Cleanup(now)])[..|past|] == past;
    }
  }
}
