/** The state that web/wasm/sshclient/client.go guards with mu, and what each of its critical sections
    does to it. Pointers are numbers: a hostConn is its index in `recs`, an ssh.Client, a transport and
    a stdin channel are the numbers they were made under. */
module PoolModel {
  import opened Common
  import opened PoolEviction

  // A session remembers the client it was opened on.
  datatype Session = Session(client: nat)

  // One hostConn. `cancelCloses` counts executions of close(c.cancel).
  datatype Rec = Rec(key: string, client: Option<nat>, transport: Option<nat>, session: Option<Session>,
                     stdin: Option<nat>, connecting: bool, connectingSince: Time, connected: bool,
                     executing: bool, lastActive: Time, cancelled: bool, switching: bool, cancelCloses: nat)

  // lastActive is Go's zero time until the record is made active.
  function NewRec(key: string, now: Time): Rec {
    Rec(key, None, None, None, None, true, now, false, false, 0, false, false, 0)
  }

  // `closes` counts, for every stdin channel ever published, the executions of close on it; `panicked`
  // records a second close, or a send on a closed channel.
  datatype Shared = Shared(recs: seq<Rec>, pool: map<string, nat>, active: string, closes: seq<nat>, panicked: bool)

  const INITIAL := Shared([], map[], "", [], false)

  function Set(s: Shared, r: nat, c: Rec): Shared
    requires r < |s.recs|
  {
    s.(recs := s.recs[r := c])
  }

  function CloseChannel(s: Shared, ch: nat): Shared {
    if ch < |s.closes|
    then s.(closes := s.closes[ch := s.closes[ch] + 1], panicked := s.panicked || s.closes[ch] > 0)
    else s
  }

  function CloseStdin(s: Shared, r: nat): Shared
    requires r < |s.recs|
  {
    match s.recs[r].stdin
    case None => s
    case Some(ch) => Set(CloseChannel(s, ch), r, s.recs[r].(stdin := None))
  }

  lemma CloseStdinIs(s: Shared, r: nat, ch: nat)
    requires r < |s.recs| && s.recs[r].stdin == Some(ch) && ch < |s.closes| && s.closes[ch] == 0
    ensures CloseStdin(s, r) ==
            s.(recs := s.recs[r := s.recs[r].(stdin := None)], closes := s.closes[ch := s.closes[ch] + 1])
  {
  }

  function CloseCancel(s: Shared, r: nat): Shared
    requires r < |s.recs|
  {
    var c := s.recs[r];
    if c.cancelled then s
    else
      Set(s, r, c.(cancelled := true, cancelCloses := c.cancelCloses + 1))
        .(panicked := s.panicked || c.cancelCloses > 0)
  }

  // closeConn
  function CloseConn(s: Shared, r: nat): Shared
    requires r < |s.recs|
  {
    var s1 := CloseStdin(CloseCancel(s, r), r);
    Set(s1, r, s1.recs[r].(session := None, client := None, transport := None, connected := false, connecting := false))
  }

  predicate Pooled(s: Shared, key: string) {
    key in s.pool && s.pool[key] < |s.recs|
  }

  // closeConn and delete(pool, key).
  function Drop(s: Shared, key: string): Shared {
    if Pooled(s, key) then CloseConn(s, s.pool[key]).(pool := s.pool - {key}) else s
  }

  function CloseAll(s: Shared, keys: seq<string>): Shared {
    if keys == [] then s
    else
      Drop(CloseAll(s, keys[..|keys| - 1]), keys[|keys| - 1])
  }

  function Touch(s: Shared, key: string, now: Time): Shared {
    if Pooled(s, key) then Set(s, s.pool[key], s.recs[s.pool[key]].(lastActive := now)) else s
  }

  function MakeActive(s: Shared, key: string, now: Time): Shared {
    var s1 := if s.active != key then Touch(s, s.active, now) else s;
    Touch(s1.(active := key), key, now)
  }

  function SlotOf(c: Rec): Slot {
    Slot(c.connected, c.connecting, c.connectingSince, c.lastActive)
  }

  function SlotsOf(s: Shared): Slots {
    map k | k in s.pool && s.pool[k] < |s.recs| :: SlotOf(s.recs[s.pool[k]])
  }

  lemma SlotsAre(s: Shared, slots: Slots)
    requires forall k :: k in slots <==> k in SlotsOf(s)
    requires forall k :: k in slots ==> slots[k] == SlotsOf(s)[k]
    ensures slots == SlotsOf(s)
  {
  }

  function SweepQuery(s: Shared, now: Time): Query {
    Query(s.active, now, MAX_POOLED_CONNS, IDLE_RELEASE_AFTER)
  }

  // The one ascending listing of a set of keys.
  ghost function InKeyOrder(keys: set<string>): (s: seq<string>)
    ensures AscendingKeys(s) && SetOf(s) == keys
  {
    ListingExists(keys);
    var s :| AscendingKeys(s) && SetOf(s) == keys;
    s
  }

  lemma {:induction false} DistinctListing(keys: set<string>) returns (s: seq<string>)
    ensures Distinct(s) && SetOf(s) == keys
  {
    if keys == {} {
      s := [];
    } else {
      var k :| k in keys;
      s := DistinctListing(keys - {k});
      Grow(s, k);
      s := s + [k];
    }
  }

  lemma ListingExists(keys: set<string>)
    ensures exists s :: AscendingKeys(s) && SetOf(s) == keys
  {
    var s := DistinctListing(keys);
    SortKeysAscends(s);
  }

  // releaseIdleConns
  ghost function ReleaseIdle(s: Shared, now: Time): Shared {
    CloseAll(s, InKeyOrder(Evicted(SlotsOf(s), SweepQuery(s, now))))
  }

  lemma ReleaseIdleIs(s: Shared, now: Time, keys: seq<string>)
    requires AscendingKeys(keys) && SetOf(keys) == Evicted(SlotsOf(s), SweepQuery(s, now))
    ensures ReleaseIdle(s, now) == CloseAll(s, keys)
  {
    AscendingIsUnique(keys, InKeyOrder(SetOf(keys)));
  }

  // The same, from what the eviction code is handed.
  lemma ReleaseIdleOf(s: Shared, now: Time, slots: Slots, q: Query, keys: seq<string>)
    requires slots == SlotsOf(s) && q == SweepQuery(s, now)
    requires AscendingKeys(keys) && SetOf(keys) == Evicted(slots, q)
    ensures ReleaseIdle(s, now) == CloseAll(s, keys)
  {
    ReleaseIdleIs(s, now, keys);
  }

  function CanReuse(c: Rec, now: Time): bool {
    c.connected || (c.connecting && now - c.connectingSince < CONNECT_STALE_AFTER)
  }

  predicate Reuses(s: Shared, key: string, now: Time) {
    Pooled(s, key) && CanReuse(s.recs[s.pool[key]], now)
  }

  function Add(s: Shared, key: string, now: Time): Shared {
    s.(recs := s.recs + [NewRec(key, now)], pool := s.pool[key := |s.recs|])
  }

  // The pool just before the critical section of Connect looks for connections to release.
  function Enter(s: Shared, key: string, now: Time): Shared {
    if Reuses(s, key, now) then MakeActive(s, key, now)
    else
      MakeActive(Add(Drop(s, key), key, now), key, now)
  }

  // The critical section of Connect.
  ghost function Connect(s: Shared, key: string, now: Time): Shared {
    ReleaseIdle(Enter(s, key, now), now)
  }

  function Disconnect(s: Shared, key: string): Shared {
    var s1 := Drop(s, key);
    s1.(active := if key == s.active then "" else s.active)
  }

  // `order` is how the map happened to be walked.
  function DisconnectAll(s: Shared, order: seq<string>): Shared {
    CloseAll(s, order).(active := "")
  }

  ghost function DisconnectPending(s: Shared): Shared {
    CloseAll(s, InKeyOrder(Pending(SlotsOf(s))))
  }

  lemma DisconnectPendingIs(s: Shared, keys: seq<string>)
    requires AscendingKeys(keys) && SetOf(keys) == Pending(SlotsOf(s))
    ensures DisconnectPending(s) == CloseAll(s, keys)
  {
    AscendingIsUnique(keys, InKeyOrder(SetOf(keys)));
  }

  // ------------------------------------------------------------------ sections of the goroutines

  function GiveUp(s: Shared, r: nat): Shared
    requires r < |s.recs|
  {
    Set(s, r, s.recs[r].(connecting := false))
  }

  function Establish(s: Shared, r: nat, client: nat): Shared
    requires r < |s.recs|
  {
    Set(s, r, s.recs[r].(client := Some(client), connected := true, connecting := false))
  }

  // Exec marks the running session as being replaced; closing it wakes the goroutine that owns it.
  function Preempt(s: Shared, r: nat): Shared
    requires r < |s.recs|
  {
    if s.recs[r].executing && s.recs[r].session.Some? then Set(s, r, s.recs[r].(switching := true)) else s
  }

  predicate CanAcquire(s: Shared, r: nat)
    requires r < |s.recs|
  {
    !s.recs[r].executing && s.recs[r].client.Some?
  }

  function Acquire(s: Shared, r: nat): Shared
    requires r < |s.recs|
  {
    if CanAcquire(s, r) then Set(s, r, s.recs[r].(executing := true)) else s
  }

  // openPTYSession's second section: publish the session and its new channel, unless the client it
  // was opened on is no longer the record's.
  predicate CanPublish(s: Shared, r: nat, client: nat)
    requires r < |s.recs|
  {
    s.recs[r].client == Some(client)
  }

  function Publish(s: Shared, r: nat, client: nat): Shared
    requires r < |s.recs|
  {
    if CanPublish(s, r, client)
    then
      Set(s.(closes := s.closes + [0]), r,
          s.recs[r].(session := Some(Session(client)), stdin := Some(|s.closes|)))
    else s
  }

  // Exec's section after session.Wait has returned.
  function Finish(s: Shared, r: nat): Shared
    requires r < |s.recs|
  {
    var s1 := CloseStdin(s, r);
    Set(s1, r, s1.recs[r].(switching := false, session := None))
  }

  function Teardown(s: Shared, r: nat): Shared
    requires r < |s.recs|
  {
    Set(s, r, s.recs[r].(connected := false, client := None, transport := None))
  }

  function Leave(s: Shared, r: nat): Shared
    requires r < |s.recs|
  {
    Set(s, r, s.recs[r].(executing := false))
  }

  // A failed keepalive, if the record still has the client that was probed.
  function KeepaliveDead(s: Shared, r: nat, client: nat): Shared
    requires r < |s.recs|
  {
    if s.recs[r].client == Some(client) then Teardown(s, r) else s
  }

  function SendInput(s: Shared): Shared {
    if Pooled(s, s.active) && s.recs[s.pool[s.active]].stdin.Some?
    then
      var ch := s.recs[s.pool[s.active]].stdin.value;
      s.(panicked := s.panicked || (ch < |s.closes| && s.closes[ch] > 0))
    else s
  }

  // ------------------------------------------------------------------ the invariant

  ghost predicate RecInv(s: Shared, c: Rec) {
    && c.cancelCloses == (if c.cancelled then 1 else 0)
    && (c.stdin.Some? ==> c.stdin.value < |s.closes| && s.closes[c.stdin.value] == 0)
    && (c.session.Some? ==> c.client.None? || c.client.value == c.session.value.client)
  }

  ghost predicate OwnChannels(recs: seq<Rec>) {
    forall i, j :: 0 <= i < j < |recs| && recs[i].stdin.Some? ==> recs[i].stdin != recs[j].stdin
  }

  ghost predicate PoolInv(s: Shared) {
    forall k :: k in s.pool ==>
      s.pool[k] < |s.recs| && s.recs[s.pool[k]].key == k && !s.recs[s.pool[k]].cancelled
  }

  ghost predicate Safe(s: Shared) {
    && !s.panicked
    && (forall ch :: 0 <= ch < |s.closes| ==> s.closes[ch] <= 1)
    && (forall r :: 0 <= r < |s.recs| ==> RecInv(s, s.recs[r]))
    && OwnChannels(s.recs)
    && PoolInv(s)
  }

  // A record change that keeps its key, its channel and its cancellation is harmless.
  lemma SetIsSafe(s: Shared, r: nat, c: Rec)
    requires Safe(s) && r < |s.recs|
    requires c.key == s.recs[r].key && c.cancelled == s.recs[r].cancelled && c.stdin == s.recs[r].stdin
    requires RecInv(s, c)
    ensures Safe(Set(s, r, c))
  {
  }

  lemma CloseStdinIsSafe(s: Shared, r: nat)
    requires Safe(s) && r < |s.recs|
    ensures Safe(CloseStdin(s, r))
  {
  }

  lemma CloseCancelIsSafe(s: Shared, r: nat, pool': map<string, nat>)
    requires Safe(s) && r < |s.recs|
    requires forall k :: k in pool' ==> k in s.pool && pool'[k] == s.pool[k] && pool'[k] != r
    ensures Safe(CloseCancel(s, r).(pool := pool'))
  {
  }

  // Closing a record keeps everything safe once it is out of the pool.
  lemma CloseConnIsSafe(s: Shared, r: nat, pool': map<string, nat>)
    requires Safe(s) && r < |s.recs|
    requires forall k :: k in pool' ==> k in s.pool && pool'[k] == s.pool[k] && pool'[k] != r
    ensures Safe(CloseConn(s, r).(pool := pool'))
  {
    CloseCancelIsSafe(s, r, pool');
    var s1 := CloseCancel(s, r).(pool := pool');
    CloseStdinIsSafe(s1, r);
    var s2 := CloseStdin(s1, r);
    var c := s2.recs[r].(session := None, client := None, transport := None, connected := false, connecting := false);
    SetIsSafe(s2, r, c);
    assert CloseConn(s, r).(pool := pool') == Set(s2, r, c);
  }

  lemma CloseConnFrame(s: Shared, r: nat)
    requires r < |s.recs|
    ensures var s' := CloseConn(s, r);
      && s'.pool == s.pool && s'.active == s.active && |s'.recs| == |s.recs|
      && (forall i :: 0 <= i < |s.recs| && i != r ==> s'.recs[i] == s.recs[i])
      && s'.recs[r].key == s.recs[r].key && s'.recs[r].cancelled
  {
  }

  lemma DropIsSafe(s: Shared, key: string)
    requires Safe(s)
    ensures Safe(Drop(s, key))
    ensures Drop(s, key).pool == s.pool - {key}
    ensures Drop(s, key).active == s.active && |Drop(s, key).recs| == |s.recs|
    ensures forall k :: k in s.pool && k != key ==> Drop(s, key).recs[s.pool[k]] == s.recs[s.pool[k]]
  {
    if Pooled(s, key) {
      CloseConnFrame(s, s.pool[key]);
      CloseConnIsSafe(s, s.pool[key], s.pool - {key});
      assert forall k :: k in s.pool && k != key ==> s.pool[k] != s.pool[key];
    }
  }

  // t is s without the connections under `gone`.
  ghost predicate Without(s: Shared, gone: set<string>, t: Shared) {
    && t.pool == s.pool - gone && t.active == s.active && |t.recs| == |s.recs|
    && forall k :: k in t.pool ==> s.pool[k] < |s.recs| && t.recs[s.pool[k]] == s.recs[s.pool[k]]
  }

  lemma WithoutOneMore(s: Shared, gone: set<string>, t: Shared, key: string)
    requires Safe(t) && Without(s, gone, t)
    ensures Safe(Drop(t, key)) && Without(s, gone + {key}, Drop(t, key))
  {
    DropIsSafe(t, key);
    assert s.pool - (gone + {key}) == s.pool - gone - {key};
  }

  lemma {:induction false} CloseAllIsWithout(s: Shared, keys: seq<string>)
    requires Safe(s)
    ensures Safe(CloseAll(s, keys)) && Without(s, SetOf(keys), CloseAll(s, keys))
  {
    if keys != [] {
      var init, key := keys[..|keys| - 1], keys[|keys| - 1];
      CloseAllIsWithout(s, init);
      WithoutOneMore(s, SetOf(init), CloseAll(s, init), key);
      assert SetOf(keys) == SetOf(init) + {key} by {
        assert keys == init + [key];
      }
    }
  }

  lemma CloseAllIsSafe(s: Shared, keys: seq<string>)
    requires Safe(s)
    ensures Safe(CloseAll(s, keys))
    ensures CloseAll(s, keys).pool == s.pool - SetOf(keys)
    ensures CloseAll(s, keys).active == s.active && |CloseAll(s, keys).recs| == |s.recs|
    ensures forall k :: k in CloseAll(s, keys).pool ==>
      s.pool[k] < |s.recs| && CloseAll(s, keys).recs[s.pool[k]] == s.recs[s.pool[k]]
  {
    CloseAllIsWithout(s, keys);
  }

  lemma TouchIsSafe(s: Shared, key: string, now: Time)
    requires Safe(s)
    ensures Safe(Touch(s, key, now))
  {
    if Pooled(s, key) {
      SetIsSafe(s, s.pool[key], s.recs[s.pool[key]].(lastActive := now));
    }
  }

  lemma MakeActiveIsSafe(s: Shared, key: string, now: Time)
    requires Safe(s)
    ensures Safe(MakeActive(s, key, now))
  {
    TouchIsSafe(s, s.active, now);
    var s1 := if s.active != key then Touch(s, s.active, now) else s;
    TouchIsSafe(s1.(active := key), key, now);
  }

  lemma ReleaseIdleIsSafe(s: Shared, now: Time)
    requires Safe(s)
    ensures Safe(ReleaseIdle(s, now))
  {
    CloseAllIsSafe(s, InKeyOrder(Evicted(SlotsOf(s), SweepQuery(s, now))));
  }

  lemma AddIsSafe(s: Shared, key: string, now: Time)
    requires Safe(s)
    ensures Safe(Add(s, key, now))
  {
  }

  lemma EnterIsSafe(s: Shared, key: string, now: Time)
    requires Safe(s)
    ensures Safe(Enter(s, key, now))
  {
    if Reuses(s, key, now) {
      MakeActiveIsSafe(s, key, now);
    } else {
      DropIsSafe(s, key);
      AddIsSafe(Drop(s, key), key, now);
      MakeActiveIsSafe(Add(Drop(s, key), key, now), key, now);
    }
  }

  lemma ConnectIsSafe(s: Shared, key: string, now: Time)
    requires Safe(s)
    ensures Safe(Connect(s, key, now))
  {
    EnterIsSafe(s, key, now);
    ReleaseIdleIsSafe(Enter(s, key, now), now);
  }

  lemma DisconnectsAreSafe(s: Shared, key: string, order: seq<string>)
    requires Safe(s)
    ensures Safe(Disconnect(s, key)) && Safe(DisconnectAll(s, order)) && Safe(DisconnectPending(s))
  {
    DropIsSafe(s, key);
    CloseAllIsSafe(s, order);
    CloseAllIsSafe(s, InKeyOrder(Pending(SlotsOf(s))));
  }

  // Publishing keeps everything safe, and closes nothing: a channel the record had before is still open,
  // and in no record any more.
  lemma PublishIsSafe(s: Shared, r: nat, client: nat)
    requires Safe(s) && r < |s.recs|
    ensures Safe(Publish(s, r, client))
    ensures s.closes <= Publish(s, r, client).closes
    ensures CanPublish(s, r, client) && s.recs[r].stdin.Some? ==>
      var t, was := Publish(s, r, client), s.recs[r].stdin.value;
      was < |t.closes| && t.closes[was] == 0 && forall q :: 0 <= q < |t.recs| ==> t.recs[q].stdin != Some(was)
  {
  }
}
