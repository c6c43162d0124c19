/** Which pooled connections to release (web/wasm/sshclient/pool.go). */
module PoolEviction {
  import opened Common
  import opened Sorting

  // Seconds.
  type Time = int

  const MAX_POOLED_CONNS := 3
  const IDLE_RELEASE_AFTER := 600
  const CONNECT_STALE_AFTER := 90

  // What the decision reads of a hostConn.
  datatype Slot = Slot(connected: bool, connecting: bool, connectingSince: Time, lastActive: Time)

  type Slots = map<string, Slot>

  // A handshake that is genuinely in flight.
  predicate InFlight(c: Slot, now: Time) {
    c.connecting && now - c.connectingSince < CONNECT_STALE_AFTER
  }

  datatype Query = Query(active: string, now: Time, max: int, idleAfter: int)

  predicate Protected(conns: Slots, q: Query, key: string) {
    key in conns && (key == q.active || InFlight(conns[key], q.now))
  }

  // Torn down, or idle for too long.
  predicate Expired(conns: Slots, q: Query, key: string) {
    key in conns && !Protected(conns, q, key) &&
    (!conns[key].connected || q.now - conns[key].lastActive >= q.idleAfter)
  }

  predicate Idle(conns: Slots, q: Query, key: string) {
    key in conns && !Protected(conns, q, key) && !Expired(conns, q, key)
  }

  function RankedOf(conns: Slots, key: string): Ranked
    requires key in conns
  {
    Ranked(conns[key].lastActive, key)
  }

  ghost function ProtectedKeys(conns: Slots, q: Query): set<string> {
    set k | k in conns && Protected(conns, q, k)
  }

  ghost function IdleKeys(conns: Slots, q: Query): set<string> {
    set k | k in conns && Idle(conns, q, k)
  }

  ghost function Older(conns: Slots, q: Query, key: string): set<string>
    requires key in conns
  {
    set k | k in conns && Idle(conns, q, k) && Precedes(RankedOf(conns, k), RankedOf(conns, key))
  }

  // How far the connections that would stay exceed the cap.
  ghost function Over(conns: Slots, q: Query): int {
    |ProtectedKeys(conns, q)| + |IdleKeys(conns, q)| - q.max
  }

  ghost predicate CapEvicted(conns: Slots, q: Query, key: string) {
    Idle(conns, q, key) && |Older(conns, q, key)| < Over(conns, q)
  }

  /** The decision, with no order of iteration in it: everything expired, and an idle connection when
      fewer idle ones are older than it than there are too many. */
  ghost function Evicted(conns: Slots, q: Query): set<string> {
    set k | k in conns && (Expired(conns, q, k) || CapEvicted(conns, q, k))
  }

  // ------------------------------------------------------------------ ranks

  // The idle connections in eviction order.
  ghost predicate Ordered(conns: Slots, q: Query, s: seq<Ranked>) {
    && Ascending(s)
    && (forall i :: 0 <= i < |s| ==> Idle(conns, q, s[i].key) && s[i] == RankedOf(conns, s[i].key))
    && (forall k :: Idle(conns, q, k) ==> RankedOf(conns, k) in s)
  }

  ghost function Keys(s: seq<Ranked>): set<string> {
    set i | 0 <= i < |s| :: s[i].key
  }

  lemma {:induction false} KeysSize(s: seq<Ranked>)
    requires forall i, j :: 0 <= i < j < |s| ==> s[i].key != s[j].key
    ensures |Keys(s)| == |s|
  {
    if s != [] {
      var init := s[..|s| - 1];
      KeysSize(init);
      assert Keys(s) == Keys(init) + {s[|s| - 1].key} by {
        forall k | k in Keys(s) ensures k in Keys(init) + {s[|s| - 1].key} {
          var i :| 0 <= i < |s| && s[i].key == k;
          if i < |s| - 1 {
            assert init[i].key == k;
          }
        }
        forall k | k in Keys(init) ensures k in Keys(s) {
          var i :| 0 <= i < |init| && init[i].key == k;
          assert s[i].key == k;
        }
      }
      assert s[|s| - 1].key !in Keys(init);
    } else {
      assert Keys(s) == {};
    }
  }

  lemma OrderedKeysDiffer(conns: Slots, q: Query, s: seq<Ranked>)
    requires Ordered(conns, q, s)
    ensures forall i, j :: 0 <= i < j < |s| ==> s[i].key != s[j].key
  {
    forall i, j | 0 <= i < j < |s| ensures s[i].key != s[j].key {
      PrecedesIsTotal(s[i], s[j]);
    }
  }

  // An idle connection's rank is the number of idle ones older than it.
  lemma RankIsIndex(conns: Slots, q: Query, s: seq<Ranked>, i: nat)
    requires Ordered(conns, q, s) && i < |s|
    ensures Older(conns, q, s[i].key) == Keys(s[..i]) && |Older(conns, q, s[i].key)| == i
    ensures |IdleKeys(conns, q)| == |s|
  {
    OrderedKeysDiffer(conns, q, s);
    forall k ensures k in Older(conns, q, s[i].key) <==> k in Keys(s[..i]) {
      if k in Older(conns, q, s[i].key) {
        var j :| 0 <= j < |s| && s[j] == RankedOf(conns, k);
        PrecedesIsTotal(s[i], s[j]);
        assert j < i;
        assert s[..i][j].key == k;
      }
      if k in Keys(s[..i]) {
        var j :| 0 <= j < |s[..i]| && s[..i][j].key == k;
        assert s[j] == s[..i][j];
      }
    }
    KeysSize(s[..i]);
    IdleCount(conns, q, s);
  }

  lemma IdleCount(conns: Slots, q: Query, s: seq<Ranked>)
    requires Ordered(conns, q, s)
    ensures IdleKeys(conns, q) == Keys(s) && |IdleKeys(conns, q)| == |s|
  {
    OrderedKeysDiffer(conns, q, s);
    forall k ensures k in IdleKeys(conns, q) <==> k in Keys(s) {
      if k in IdleKeys(conns, q) {
        var j :| 0 <= j < |s| && s[j] == RankedOf(conns, k);
        assert s[j].key == k;
      }
    }
    KeysSize(s);
  }

  lemma InOrder(conns: Slots, q: Query) returns (s: seq<Ranked>)
    ensures Ordered(conns, q, s)
  {
    var e := set k | k in conns && Idle(conns, q, k) :: RankedOf(conns, k);
    var list := ListOf(e);
    SortAscends(list);
    s := Sort(list);
    forall i | 0 <= i < |s| ensures Idle(conns, q, s[i].key) && s[i] == RankedOf(conns, s[i].key) {
      assert s[i] in Elements(s);
    }
    forall k | Idle(conns, q, k) ensures RankedOf(conns, k) in s {
      assert RankedOf(conns, k) in e;
      assert RankedOf(conns, k) in Elements(s);
    }
  }

  ghost function CapEvictedKeys(conns: Slots, q: Query): set<string> {
    set k | k in conns && CapEvicted(conns, q, k)
  }

  function Clamp(n: int, low: int, high: int): int {
    if n < low then low else if n > high then high else n
  }

  // Cap eviction takes a first segment of the eviction order.
  lemma CapEvictedIsPrefix(conns: Slots, q: Query, s: seq<Ranked>)
    requires Ordered(conns, q, s)
    ensures var n := Clamp(Over(conns, q), 0, |s|);
      CapEvictedKeys(conns, q) == Keys(s[..n]) && |CapEvictedKeys(conns, q)| == n
  {
    var n := Clamp(Over(conns, q), 0, |s|);
    OrderedKeysDiffer(conns, q, s);
    forall k ensures k in CapEvictedKeys(conns, q) <==> k in Keys(s[..n]) {
      if k in CapEvictedKeys(conns, q) {
        var j :| 0 <= j < |s| && s[j] == RankedOf(conns, k);
        RankIsIndex(conns, q, s, j);
        assert s[..n][j].key == k;
      }
      if k in Keys(s[..n]) {
        var j :| 0 <= j < |s[..n]| && s[..n][j].key == k;
        assert s[j].key == k;
        RankIsIndex(conns, q, s, j);
      }
    }
    KeysSize(s[..n]);
  }

  lemma CapEvictedCount(conns: Slots, q: Query)
    ensures CapEvictedKeys(conns, q) <= IdleKeys(conns, q)
    ensures |CapEvictedKeys(conns, q)| == Clamp(Over(conns, q), 0, |IdleKeys(conns, q)|)
  {
    var s := InOrder(conns, q);
    CapEvictedIsPrefix(conns, q, s);
    IdleCount(conns, q, s);
  }

  // ------------------------------------------------------------------ the guarantees

  /** The active host and live handshakes are never released. */
  lemma ProtectedStay(conns: Slots, q: Query, key: string)
    requires Protected(conns, q, key)
    ensures key !in Evicted(conns, q)
  {
  }

  ghost function Survivors(conns: Slots, q: Query): Slots {
    conns - Evicted(conns, q)
  }

  lemma SurvivorKeys(conns: Slots, q: Query)
    ensures Survivors(conns, q).Keys ==
            ProtectedKeys(conns, q) + (IdleKeys(conns, q) - CapEvictedKeys(conns, q))
  {
    forall k ensures k in Survivors(conns, q).Keys <==>
                     k in ProtectedKeys(conns, q) + (IdleKeys(conns, q) - CapEvictedKeys(conns, q)) {
    }
  }

  lemma DisjointSize(p: set<string>, idle: set<string>, out: set<string>)
    requires p !! idle && out <= idle
    ensures |p + (idle - out)| == |p| + |idle| - |out|
  {
    assert |idle - out| == |idle| - |out|;
  }

  lemma SubsetOfSameSize(a: set<string>, b: set<string>)
    requires a <= b && |a| == |b|
    ensures a == b
  {
    assert |b - a| == |b| - |a|;
  }

  lemma SurvivorCount(conns: Slots, q: Query)
    ensures |Survivors(conns, q)| ==
            |ProtectedKeys(conns, q)| + |IdleKeys(conns, q)| - Clamp(Over(conns, q), 0, |IdleKeys(conns, q)|)
  {
    CapEvictedCount(conns, q);
    SurvivorKeys(conns, q);
    DisjointSize(ProtectedKeys(conns, q), IdleKeys(conns, q), CapEvictedKeys(conns, q));
    assert |Survivors(conns, q)| == |Survivors(conns, q).Keys|;
  }

  /** The pool fits: no more than the cap is left, or than what may not be released. When the cap
      forces anything out, it stops exactly at the cap or with nothing left to release. */
  lemma PoolFits(conns: Slots, q: Query)
    ensures |Survivors(conns, q)| <= if |ProtectedKeys(conns, q)| > q.max then |ProtectedKeys(conns, q)| else q.max
    ensures CapEvictedKeys(conns, q) != {} ==>
      |Survivors(conns, q)| == q.max || Survivors(conns, q).Keys == ProtectedKeys(conns, q)
  {
    SurvivorCount(conns, q);
    SurvivorKeys(conns, q);
    CapEvictedCount(conns, q);
    if Over(conns, q) >= |IdleKeys(conns, q)| {
      SubsetOfSameSize(CapEvictedKeys(conns, q), IdleKeys(conns, q));
    }
  }

  /** Least recently active first: whatever the cap forces out precedes every idle connection kept. */
  lemma OldestGoFirst(conns: Slots, q: Query, out: string, stays: string)
    requires CapEvicted(conns, q, out)
    requires Idle(conns, q, stays) && stays !in Evicted(conns, q)
    ensures Precedes(RankedOf(conns, out), RankedOf(conns, stays))
  {
    var s := InOrder(conns, q);
    var i :| 0 <= i < |s| && s[i] == RankedOf(conns, out);
    var j :| 0 <= j < |s| && s[j] == RankedOf(conns, stays);
    RankIsIndex(conns, q, s, i);
    RankIsIndex(conns, q, s, j);
  }

  lemma AfterRelease(conns: Slots, q: Query, key: string)
    ensures Protected(Survivors(conns, q), q, key) <==> Protected(conns, q, key)
    ensures Idle(Survivors(conns, q), q, key) <==> Idle(conns, q, key) && !CapEvicted(conns, q, key)
    ensures !Expired(Survivors(conns, q), q, key)
  {
  }

  lemma WhatIsLeft(conns: Slots, q: Query)
    ensures ProtectedKeys(Survivors(conns, q), q) == ProtectedKeys(conns, q)
    ensures |IdleKeys(Survivors(conns, q), q)| ==
            |IdleKeys(conns, q)| - Clamp(Over(conns, q), 0, |IdleKeys(conns, q)|)
  {
    var idle, out := IdleKeys(conns, q), CapEvictedKeys(conns, q);
    forall k ensures k in ProtectedKeys(Survivors(conns, q), q) <==> k in ProtectedKeys(conns, q) {
      AfterRelease(conns, q, k);
    }
    forall k ensures k in IdleKeys(Survivors(conns, q), q) <==> k in idle - out {
      AfterRelease(conns, q, k);
    }
    assert IdleKeys(Survivors(conns, q), q) == idle - out;
    CapEvictedCount(conns, q);
    assert |idle - out| == |idle| - |out|;
  }

  /** Asking again at the same time releases nothing more. */
  lemma SecondCallReleasesNothing(conns: Slots, q: Query)
    ensures Evicted(Survivors(conns, q), q) == {}
  {
    var rest := Survivors(conns, q);
    WhatIsLeft(conns, q);
    forall k | k in rest ensures k !in Evicted(rest, q) {
      AfterRelease(conns, q, k);
      if Idle(rest, q, k) {
        assert k in IdleKeys(rest, q);
      }
    }
  }

  // ------------------------------------------------------------------ the function itself

  // sort.Strings on distinct keys.
  function SortKeys(keys: seq<string>): seq<string> {
    KeyList(Sort(Ranks(keys)))
  }

  function Ranks(keys: seq<string>): (r: seq<Ranked>)
    ensures |r| == |keys| && forall i :: 0 <= i < |keys| ==> r[i] == Ranked(0, keys[i])
  {
    seq(|keys|, i requires 0 <= i < |keys| => Ranked(0, keys[i]))
  }

  function KeyList(s: seq<Ranked>): (keys: seq<string>)
    ensures |keys| == |s| && forall i :: 0 <= i < |s| ==> keys[i] == s[i].key
  {
    seq(|s|, i requires 0 <= i < |s| => s[i].key)
  }

  ghost predicate AscendingKeys(s: seq<string>) {
    forall i, j :: 0 <= i < j < |s| ==> Before(s[i], s[j])
  }

  ghost function SetOf(s: seq<string>): set<string> {
    set k | k in s
  }

  lemma AscendingByKey(keys: seq<string>, s: seq<Ranked>)
    requires Ascending(s) && Elements(s) == Elements(Ranks(keys))
    ensures AscendingKeys(KeyList(s))
  {
    forall i | 0 <= i < |s| ensures s[i].at == 0 {
      assert s[i] in Elements(Ranks(keys));
    }
    forall i, j | 0 <= i < j < |s| ensures Before(s[i].key, s[j].key) {
      assert Precedes(s[i], s[j]);
    }
  }

  lemma SameKeys(keys: seq<string>, s: seq<Ranked>)
    requires Elements(s) == Elements(Ranks(keys))
    ensures SetOf(KeyList(s)) == SetOf(keys)
  {
    forall k ensures k in SetOf(KeyList(s)) <==> k in SetOf(keys) {
      if k in SetOf(keys) {
        var i :| 0 <= i < |keys| && keys[i] == k;
        assert Ranks(keys)[i] in Elements(s);
        var j :| 0 <= j < |s| && s[j] == Ranks(keys)[i];
        assert KeyList(s)[j] == k;
      }
      if k in SetOf(KeyList(s)) {
        var j :| 0 <= j < |s| && KeyList(s)[j] == k;
        assert s[j] in Elements(Ranks(keys));
        var i :| 0 <= i < |keys| && Ranks(keys)[i] == s[j];
        assert keys[i] == k;
      }
    }
  }

  lemma SortKeysAscends(keys: seq<string>)
    requires forall i, j :: 0 <= i < j < |keys| ==> keys[i] != keys[j]
    ensures AscendingKeys(SortKeys(keys)) && SetOf(SortKeys(keys)) == SetOf(keys)
  {
    SortAscends(Ranks(keys));
    AscendingByKey(keys, Sort(Ranks(keys)));
    SameKeys(keys, Sort(Ranks(keys)));
  }

  // An ascending list is fixed by its elements, so it cannot depend on how they were collected.
  lemma {:induction false} AscendingIsUnique(s: seq<string>, t: seq<string>)
    requires AscendingKeys(s) && AscendingKeys(t) && SetOf(s) == SetOf(t)
    ensures s == t
  {
    if s == [] || t == [] {
      NoElements(s);
      NoElements(t);
    } else {
      assert s[0] in SetOf(t) && t[0] in SetOf(s);
      BeforeIsTotal(s[0], t[0]);
      var i :| 0 <= i < |t| && t[i] == s[0];
      var j :| 0 <= j < |s| && s[j] == t[0];
      assert s[0] == t[0];
      forall k ensures k in SetOf(s[1..]) <==> k in SetOf(t[1..]) {
        RestOf(s, k);
        RestOf(t, k);
      }
      AscendingIsUnique(s[1..], t[1..]);
      assert s == [s[0]] + s[1..] && t == [t[0]] + t[1..];
    }
  }

  lemma NoElements(s: seq<string>)
    ensures SetOf(s) == {} <==> s == []
  {
    if s != [] {
      assert s[0] in SetOf(s);
    }
  }

  lemma RestOf(s: seq<string>, k: string)
    requires AscendingKeys(s) && s != []
    ensures k in SetOf(s[1..]) <==> k in SetOf(s) && k != s[0]
  {
    BeforeIsTotal(s[0], s[0]);
    assert s == [s[0]] + s[1..];
  }

  ghost predicate Distinct(s: seq<string>) {
    forall i, j :: 0 <= i < j < |s| ==> s[i] != s[j]
  }

  lemma Grow(s: seq<string>, k: string)
    requires Distinct(s) && k !in SetOf(s)
    ensures Distinct(s + [k]) && SetOf(s + [k]) == SetOf(s) + {k}
  {
  }

  // The switch of poolEvictions, for one connection: where it is sorted to.
  datatype Verdict = Stays | Goes | Candidate

  function Judge(conns: Slots, q: Query, key: string): Verdict
    requires key in conns
  {
    if Protected(conns, q, key) then Stays else if Expired(conns, q, key) then Goes else Candidate
  }

  ghost function Judged(conns: Slots, q: Query, done: set<string>, v: Verdict): set<string> {
    set k | k in done && k in conns && Judge(conns, q, k) == v
  }

  lemma JudgeOne(conns: Slots, q: Query, done: set<string>, key: string)
    requires key in conns && key !in done
    ensures forall v :: Judged(conns, q, done + {key}, v) ==
                        Judged(conns, q, done, v) + (if Judge(conns, q, key) == v then {key} else {})
    ensures forall v :: key !in Judged(conns, q, done, v)
  {
  }

  // `keep` has the candidates, each once.
  ghost predicate Keeps(conns: Slots, keep: seq<Ranked>, candidates: set<string>)
    requires candidates <= conns.Keys
  {
    && (forall i, j :: 0 <= i < j < |keep| ==> keep[i] != keep[j])
    && (forall r :: r in keep <==> r.key in candidates && r == RankedOf(conns, r.key))
  }

  lemma KeepsOneMore(conns: Slots, keep: seq<Ranked>, candidates: set<string>, key: string)
    requires candidates <= conns.Keys && key in conns && key !in candidates && Keeps(conns, keep, candidates)
    ensures Keeps(conns, keep + [RankedOf(conns, key)], candidates + {key})
  {
    var r := RankedOf(conns, key);
    assert r !in keep;
    assert forall x :: x in keep + [r] <==> x in keep || x == r;
  }

  ghost predicate Collected(conns: Slots, q: Query, done: set<string>, evict: seq<string>,
                            keep: seq<Ranked>, protected: nat)
  {
    && protected == |Judged(conns, q, done, Stays)|
    && Distinct(evict) && SetOf(evict) == Judged(conns, q, done, Goes)
    && Keeps(conns, keep, Judged(conns, q, done, Candidate))
  }

  lemma CollectedOrders(conns: Slots, q: Query, evict: seq<string>, keep: seq<Ranked>, protected: nat)
    requires Collected(conns, q, conns.Keys, evict, keep, protected)
    ensures Ordered(conns, q, Sort(keep)) && |Sort(keep)| == |keep|
    ensures protected + |keep| - q.max == Over(conns, q)
  {
    SortAscends(keep);
    var s := Sort(keep);
    forall i | 0 <= i < |s| ensures Idle(conns, q, s[i].key) && s[i] == RankedOf(conns, s[i].key) {
      assert s[i] in Elements(keep);
    }
    forall k | Idle(conns, q, k) ensures RankedOf(conns, k) in s {
      assert RankedOf(conns, k) in Elements(keep);
      assert RankedOf(conns, k) in Elements(s);
    }
    IdleCount(conns, q, s);
    assert Judged(conns, q, conns.Keys, Stays) == ProtectedKeys(conns, q);
  }

  lemma CollectOne(conns: Slots, q: Query, done: set<string>, key: string, evict: seq<string>,
                   keep: seq<Ranked>, protected: nat)
    requires key in conns && key !in done && Collected(conns, q, done, evict, keep, protected)
    ensures match Judge(conns, q, key)
      case Stays => Collected(conns, q, done + {key}, evict, keep, protected + 1)
      case Goes => Collected(conns, q, done + {key}, evict + [key], keep, protected)
      case Candidate => Collected(conns, q, done + {key}, evict, keep + [RankedOf(conns, key)], protected)
  {
    JudgeOne(conns, q, done, key);
    match Judge(conns, q, key)
    case Stays =>
      assert Judged(conns, q, done + {key}, Goes) == Judged(conns, q, done, Goes);
    case Goes =>
      Grow(evict, key);
    case Candidate =>
      KeepsOneMore(conns, keep, Judged(conns, q, done, Candidate), key);
  }

  // The expired ones and the first `n` of the eviction order together are the decision.
  lemma Decision(conns: Slots, q: Query, evict: seq<string>, keep: seq<Ranked>, protected: nat, n: nat)
    requires Collected(conns, q, conns.Keys, evict, keep, protected)
    requires n == Clamp(Over(conns, q), 0, |keep|) && |Sort(keep)| == |keep|
    ensures Keys(Sort(keep)[..n]) !! SetOf(evict)
    ensures SetOf(evict) + Keys(Sort(keep)[..n]) == Evicted(conns, q)
  {
    CollectedOrders(conns, q, evict, keep, protected);
    CapEvictedIsPrefix(conns, q, Sort(keep));
    var out := CapEvictedKeys(conns, q);
    forall k ensures k in SetOf(evict) <==> Expired(conns, q, k) {
      assert k in SetOf(evict) <==> k in Judged(conns, q, conns.Keys, Goes);
    }
    assert Evicted(conns, q) == SetOf(evict) + out;
  }

  // The loop over the pool.
  method Collect(conns: Slots, active: string, now: Time, max: int, idleAfter: int)
    returns (evict: seq<string>, keep: seq<Ranked>, protected: nat)
    ensures Collected(conns, Query(active, now, max, idleAfter), conns.Keys, evict, keep, protected)
  {
    ghost var q := Query(active, now, max, idleAfter);
    evict, keep, protected := [], [], 0;
    var todo := conns.Keys;
    ghost var done: set<string> := {};
    while todo != {}
      invariant todo <= conns.Keys && done == conns.Keys - todo
      invariant Collected(conns, q, done, evict, keep, protected)
    {
      var key := Pick(todo);
      var c := conns[key];
      CollectOne(conns, q, done, key, evict, keep, protected);
      if key == active {
        protected := protected + 1;
      } else if c.connecting && now - c.connectingSince < CONNECT_STALE_AFTER {
        protected := protected + 1;
      } else if !c.connected {
        evict := evict + [key];
      } else if now - c.lastActive >= idleAfter {
        evict := evict + [key];
      } else {
        keep := keep + [Ranked(c.lastActive, key)];
      }
      todo := todo - {key};
      done := done + {key};
    }
    assert done == conns.Keys;
  }

  // The loop over the oldest of what would be kept.
  method TakeOldest(expired: seq<string>, sorted: seq<Ranked>, over: nat) returns (evict: seq<string>)
    requires over <= |sorted| && Distinct(expired) && Keys(sorted[..over]) !! SetOf(expired)
    requires forall a, b :: 0 <= a < b < |sorted| ==> sorted[a].key != sorted[b].key
    ensures Distinct(evict) && SetOf(evict) == SetOf(expired) + Keys(sorted[..over])
  {
    evict := expired;
    for i := 0 to over
      invariant Distinct(evict) && SetOf(evict) == SetOf(expired) + Keys(sorted[..i])
    {
      KeysGrow(sorted, i);
      assert sorted[..over][i] == sorted[i];
      assert sorted[i].key in Keys(sorted[..over]);
      Grow(evict, sorted[i].key);
      evict := evict + [sorted[i].key];
    }
  }

  /** The keys to release, ascending: the decision exactly, so neither the order in which the map is
      walked nor the number of passes over it can show in the result. */
  method PoolEvictions(conns: Slots, active: string, now: Time, max: int, idleAfter: int)
    returns (evict: seq<string>)
    ensures AscendingKeys(evict)
    ensures SetOf(evict) == Evicted(conns, Query(active, now, max, idleAfter))
  {
    var keep, protected;
    evict, keep, protected := Collect(conns, active, now, max, idleAfter);
    ghost var q := Query(active, now, max, idleAfter);
    CollectedOrders(conns, q, evict, keep, protected);
    var over := protected + |keep| - max;
    if over > 0 {
      var sorted := Sort(keep);
      if over > |keep| {
        over := |keep|;
      }
      Decision(conns, q, evict, keep, protected, over);
      OrderedKeysDiffer(conns, q, sorted);
      evict := TakeOldest(evict, sorted, over);
    } else {
      Decision(conns, q, evict, keep, protected, 0);
      assert Keys(Sort(keep)[..0]) == {};
    }
    SortKeysAscends(evict);
    evict := SortKeys(evict);
  }

  lemma KeysGrow(s: seq<Ranked>, i: nat)
    requires i < |s| && forall a, b :: 0 <= a < b < |s| ==> s[a].key != s[b].key
    ensures Keys(s[..i + 1]) == Keys(s[..i]) + {s[i].key} && s[i].key !in Keys(s[..i])
  {
    assert s[..i + 1] == s[..i] + [s[i]];
    forall k ensures k in Keys(s[..i + 1]) <==> k in Keys(s[..i]) + {s[i].key} {
      if k in Keys(s[..i]) {
        var j :| 0 <= j < |s[..i]| && s[..i][j].key == k;
        assert s[..i + 1][j].key == k;
      }
      if k == s[i].key {
        assert s[..i + 1][i].key == k;
      }
    }
  }

  ghost function Pending(conns: Slots): set<string> {
    set k | k in conns && conns[k].connecting && !conns[k].connected
  }

  // The keys of connections that are still being set up, ascending.
  method PoolPending(conns: Slots) returns (keys: seq<string>)
    ensures AscendingKeys(keys) && SetOf(keys) == Pending(conns)
  {
    keys := [];
    var todo := conns.Keys;
    while todo != {}
      invariant todo <= conns.Keys
      invariant Distinct(keys) && SetOf(keys) == Pending(conns) - todo
    {
      var key := Pick(todo);
      if conns[key].connecting && !conns[key].connected {
        Grow(keys, key);
        keys := keys + [key];
      }
      todo := todo - {key};
    }
    SortKeysAscends(keys);
    keys := SortKeys(keys);
  }

  // ------------------------------------------------------------------ what may stay, read off the slots

  // Never released: the shown connection, and a handshake younger than 90 seconds.
  predicate Untouchable(conns: Slots, q: Query, key: string) {
    key in conns && (key == q.active || (conns[key].connecting && q.now - conns[key].connectingSince < 90))
  }

  // Released only if there are too many: also a live connection that was active recently enough.
  predicate MayStay(conns: Slots, q: Query, key: string) {
    Untouchable(conns, q, key) ||
    (key in conns && conns[key].connected && q.now - conns[key].lastActive < q.idleAfter)
  }

  ghost function AllThatMayStay(conns: Slots, q: Query): set<string> {
    set k | k in conns && MayStay(conns, q, k)
  }

  lemma MayStayIs(conns: Slots, q: Query, key: string)
    ensures Untouchable(conns, q, key) <==> Protected(conns, q, key)
    ensures MayStay(conns, q, key) <==> Protected(conns, q, key) || Idle(conns, q, key)
  {
  }

  lemma AllThatMayStayIs(conns: Slots, q: Query)
    ensures AllThatMayStay(conns, q) == ProtectedKeys(conns, q) + IdleKeys(conns, q)
    ensures |AllThatMayStay(conns, q)| == |ProtectedKeys(conns, q)| + |IdleKeys(conns, q)|
  {
    forall k ensures k in AllThatMayStay(conns, q) <==> k in ProtectedKeys(conns, q) + IdleKeys(conns, q) {
      MayStayIs(conns, q, k);
    }
    assert ProtectedKeys(conns, q) !! IdleKeys(conns, q);
  }

  /** Nothing torn down, wedged or idle for too long survives, and nothing untouchable goes. */
  lemma OnlyWhatMayStaySurvives(conns: Slots, q: Query, key: string)
    ensures key in conns && key !in Evicted(conns, q) ==> MayStay(conns, q, key)
    ensures Untouchable(conns, q, key) ==> key !in Evicted(conns, q)
  {
    MayStayIs(conns, q, key);
  }

  /** When what may stay fits the cap, it stays, all of it and nothing else. */
  lemma WhatFitsStays(conns: Slots, q: Query, key: string)
    requires |AllThatMayStay(conns, q)| <= q.max
    ensures key in conns && key !in Evicted(conns, q) <==> MayStay(conns, q, key)
  {
    AllThatMayStayIs(conns, q);
    MayStayIs(conns, q, key);
  }

  ghost function Stay(conns: Slots, q: Query): set<string> {
    conns.Keys - Evicted(conns, q)
  }

  lemma StayCount(conns: Slots, q: Query)
    ensures |Stay(conns, q)| ==
            |ProtectedKeys(conns, q)| + |IdleKeys(conns, q)| - Clamp(Over(conns, q), 0, |IdleKeys(conns, q)|)
    ensures Over(conns, q) >= |IdleKeys(conns, q)| ==> Stay(conns, q) == ProtectedKeys(conns, q)
  {
    SurvivorCount(conns, q);
    SurvivorKeys(conns, q);
    assert Survivors(conns, q).Keys == Stay(conns, q);
    assert |Survivors(conns, q)| == |Survivors(conns, q).Keys|;
    if Over(conns, q) >= |IdleKeys(conns, q)| {
      CapEvictedCount(conns, q);
      SubsetOfSameSize(CapEvictedKeys(conns, q), IdleKeys(conns, q));
    }
  }

  /** When it does not, exactly as many go as there are too many, or all that are not untouchable. */
  lemma OtherwiseTheCapIsMet(conns: Slots, q: Query)
    requires |AllThatMayStay(conns, q)| > q.max
    ensures |Stay(conns, q)| == q.max ||
            (|Stay(conns, q)| > q.max && forall k :: k in Stay(conns, q) ==> Untouchable(conns, q, k))
  {
    AllThatMayStayIs(conns, q);
    StayCount(conns, q);
    if Over(conns, q) >= |IdleKeys(conns, q)| {
      forall k | k in Stay(conns, q) ensures Untouchable(conns, q, k) {
        MayStayIs(conns, q, k);
      }
    }
  }

  /** And those that go were active longest ago: never later than one that stays, and at equal times with
      the lower key. */
  lemma TheOldestGo(conns: Slots, q: Query, out: string, stays: string)
    requires MayStay(conns, q, out) && out in Evicted(conns, q)
    requires stays in Stay(conns, q) && !Untouchable(conns, q, stays)
    ensures conns[out].lastActive < conns[stays].lastActive ||
            (conns[out].lastActive == conns[stays].lastActive && Before(out, stays))
  {
    MayStayIs(conns, q, out);
    MayStayIs(conns, q, stays);
    OldestGoFirst(conns, q, out, stays);
  }
}
