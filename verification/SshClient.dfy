/** The pool of web/wasm/sshclient/client.go as objects: the critical sections that mu guards, each
    proved to be the step PoolModel says. Closing a closed channel and sending on one panic in Go, so
    here they are preconditions that every section has to meet. */
module SshClient {
  import opened Common
  import opened PoolEviction
  import PM = PoolModel

  const STDIN_CAP := 100

  class StdinChan {
    ghost const id: nat
    var queue: seq<string>
    var closed: bool

    constructor (ghost id: nat)
      ensures this.id == id && !closed && queue == []
    {
      this.id := id;
      queue, closed := [], false;
    }

    method Close()
      requires !closed
      modifies this`closed
      ensures closed
    {
      closed := true;
    }

    // select { case c <- data: default: }
    method TrySend(data: string)
      requires !closed
      modifies this`queue
      ensures queue == if |old(queue)| < STDIN_CAP then old(queue) + [data] else old(queue)
    {
      if |queue| < STDIN_CAP {
        queue := queue + [data];
      }
    }
  }

  class HostConn {
    ghost const id: nat
    const key: string
    var client: Option<nat>
    var transport: Option<nat>
    var session: Option<PM.Session>
    var sessionClosed: bool  // whether Close has been called on the session last stored
    var stdin: StdinChan?
    var connecting: bool
    const connectingSince: Time
    var connected: bool
    var executing: bool
    var lastActive: Time
    var cancelled: bool
    var cancelClosed: bool   // the state of the cancel channel
    var switching: bool

    constructor (key: string, now: Time, ghost id: nat)
      ensures this.id == id && Rec() == PM.NewRec(key, now) && stdin == null
    {
      this.id, this.key := id, key;
      client, transport, session, stdin := None, None, None, null;
      sessionClosed := false;
      connecting, connectingSince, connected, executing, lastActive := true, now, false, false, 0;
      cancelled, cancelClosed, switching := false, false, false;
    }

    ghost function Rec(): PM.Rec
      reads this
    {
      PM.Rec(key, client, transport, session, if stdin == null then None else Some(stdin.id),
             connecting, connectingSince, connected, executing, lastActive, cancelled, switching,
             if cancelClosed then 1 else 0)
    }

    function Slot(): Slot
      reads this
    {
      PoolEviction.Slot(connected, connecting, connectingSince, lastActive)
    }
  }

  class Client {
    var pool: map<string, HostConn>
    var activeKey: string
    ghost var all: seq<HostConn>
    ghost var chans: seq<StdinChan>

    ghost predicate Known(c: HostConn)
      reads this`all
    {
      c.id < |all| && all[c.id] == c
    }

    ghost predicate KnownChan(ch: StdinChan)
      reads this`chans
    {
      ch.id < |chans| && chans[ch.id] == ch
    }

    ghost function Recs(): (rs: seq<PM.Rec>)
      reads this`all, all
      ensures |rs| == |all| && forall i :: 0 <= i < |all| ==> rs[i] == all[i].Rec()
    {
      var cs := all;
      seq(|cs|, i requires 0 <= i < |cs| reads cs => cs[i].Rec())
    }

    ghost function Closes(): (cs: seq<nat>)
      reads this`chans, chans
      ensures |cs| == |chans| && forall i :: 0 <= i < |chans| ==> cs[i] == if chans[i].closed then 1 else 0
    {
      var chs := chans;
      seq(|chs|, i requires 0 <= i < |chs| reads chs => if chs[i].closed then 1 else 0)
    }

    ghost function Ids(): map<string, nat>
      reads this`pool
    {
      map k | k in pool :: pool[k].id
    }

    ghost function View(): PM.Shared
      reads this, all, chans
    {
      PM.Shared(Recs(), Ids(), activeKey, Closes(), false)
    }

    ghost predicate Valid()
      reads this, all, chans
    {
      && (forall i :: 0 <= i < |all| ==> all[i].id == i)
      && (forall i :: 0 <= i < |chans| ==> chans[i].id == i)
      && (forall k :: k in pool ==> Known(pool[k]))
      && (forall i :: 0 <= i < |all| ==> all[i].cancelled == all[i].cancelClosed)
      && (forall i :: 0 <= i < |all| && all[i].stdin != null ==> KnownChan(all[i].stdin) && !all[i].stdin.closed)
      && (forall i, j :: 0 <= i < j < |all| && all[i].stdin != null ==> all[i].stdin != all[j].stdin)
    }

    constructor ()
      ensures Valid() && View() == PM.INITIAL && all == [] && chans == []
    {
      pool, activeKey, all, chans := map[], "", [], [];
    }

    // close(c.stdin); c.stdin = nil
    method CloseAndForget(c: HostConn)
      requires Valid() && Known(c) && c.stdin != null
      modifies c`stdin, chans
      ensures Valid() && c.stdin == null && unchanged(this)
      ensures c.Rec() == old(c.Rec()).(stdin := None)
      ensures forall i :: 0 <= i < |all| && i != c.id ==> all[i].Rec() == old(all[i].Rec())
      ensures forall i :: 0 <= i < |chans| ==> chans[i].closed == (old(chans[i].closed) || i == old(c.stdin).id)
    {
      ghost var ch := c.stdin;
      assert KnownChan(ch);
      assert forall i :: 0 <= i < |all| && i != c.id && all[i].stdin != null ==> all[i].stdin != ch;
      c.stdin.Close();
      c.stdin := null;
      assert forall i :: 0 <= i < |all| && all[i].stdin != null ==> KnownChan(all[i].stdin) && !all[i].stdin.closed;
    }

    // if c.stdin != nil { close(c.stdin); c.stdin = nil }
    method CloseStdin(c: HostConn)
      requires Valid() && Known(c)
      modifies c`stdin, chans
      ensures Valid() && c.stdin == null
      ensures View() == PM.CloseStdin(old(View()), c.id)
    {
      if c.stdin != null {
        ghost var before, ch := View(), c.stdin.id;
        CloseAndForget(c);
        Updated(before.recs, Recs(), c.id, before.recs[c.id].(stdin := None));
        Updated(before.closes, Closes(), ch, before.closes[ch] + 1);
        PM.CloseStdinIs(before, c.id, ch);
      }
    }

    // Only c's fields have been written: the view changes at its record alone.
    twostate lemma OneRecChanged(c: HostConn)
      requires old(Valid()) && Known(c) && unchanged(this) && unchanged(chans)
      requires forall i :: 0 <= i < |all| && i != c.id ==> unchanged(all[i])
      requires c.stdin == old(c.stdin) && c.cancelled == c.cancelClosed
      ensures Valid()
      ensures View() == PM.Set(old(View()), c.id, c.Rec())
    {
      Updated(old(Recs()), Recs(), c.id, c.Rec());
      assert Closes() == old(Closes());
    }

    method CloseCancel(c: HostConn)
      requires Valid() && Known(c)
      modifies c`cancelClosed, c`cancelled
      ensures Valid()
      ensures View() == PM.CloseCancel(old(View()), c.id)
    {
      if !c.cancelled {
        c.cancelClosed := true;
        c.cancelled := true;
      }
      OneRecChanged(c);
      assert View().recs == PM.CloseCancel(old(View()), c.id).recs;
    }

    method Clear(c: HostConn)
      requires Valid() && Known(c)
      modifies c`session, c`client, c`transport, c`connected, c`connecting
      ensures Valid()
      ensures View() == PM.Set(old(View()), c.id, old(c.Rec()).(session := None, client := None, transport := None,
                                                             connected := false, connecting := false))
    {
      c.session := None;
      c.client := None;
      c.transport := None;
      c.connected := false;
      c.connecting := false;
      OneRecChanged(c);
    }

    // c.session.Close(), if there is one.
    method CloseSession(c: HostConn)
      requires Valid() && Known(c)
      modifies c`sessionClosed
      ensures Valid() && View() == old(View())
      ensures c.sessionClosed == (old(c.sessionClosed) || c.session.Some?)
    {
      if c.session.Some? {
        c.sessionClosed := true;
      }
      assert Recs() == old(Recs()) && Closes() == old(Closes());
    }

    // closeConn
    method CloseConn(c: HostConn)
      requires Valid() && Known(c)
      modifies c, chans
      ensures Valid()
      ensures View() == PM.CloseConn(old(View()), c.id)
    {
      CloseCancel(c);
      CloseStdin(c);
      assert View().recs[c.id] == c.Rec();
      CloseSession(c);
      Clear(c);
    }

    // Only the pool has been written.
    twostate lemma PoolIsValid()
      requires old(Valid()) && unchanged(`all) && unchanged(`chans) && unchanged(all) && unchanged(chans)
      requires forall k :: k in pool ==> Known(pool[k])
      ensures Valid() && Recs() == old(Recs()) && Closes() == old(Closes())
    {
    }

    // delete(pool, key)
    method Forget(key: string)
      requires Valid()
      modifies this`pool
      ensures Valid()
      ensures View() == old(View()).(pool := old(Ids()) - {key})
    {
      pool := pool - {key};
      PoolIsValid();
      assert Ids() == old(Ids()) - {key};
    }

    // closeConn(c); delete(pool, key), if the key is there.
    method Drop(key: string)
      requires Valid()
      modifies this`pool, all, chans
      ensures Valid()
      ensures View() == PM.Drop(old(View()), key)
    {
      if key in pool {
        var c := pool[key];
        ghost var before := View();
        PM.CloseConnFrame(before, c.id);
        CloseConn(c);
        ghost var mid := View();
        Forget(key);
        assert View() == mid.(pool := before.pool - {key});
      }
    }

    method DropAll(keys: seq<string>)
      requires Valid()
      modifies this`pool, all, chans
      ensures Valid()
      ensures View() == PM.CloseAll(old(View()), keys)
    {
      for i := 0 to |keys|
        invariant Valid() && all == old(all) && chans == old(chans)
        invariant View() == PM.CloseAll(old(View()), keys[..i])
      {
        assert keys[..i + 1][..i] == keys[..i];
        Drop(keys[i]);
      }
      assert keys[..|keys|] == keys;
    }

    // The pool as the eviction code reads it.
    method Slots() returns (slots: Slots)
      requires Valid()
      ensures slots == PM.SlotsOf(View())
    {
      slots := map k | k in pool :: pool[k].Slot();
      forall k ensures k in slots <==> k in PM.SlotsOf(View()) {
        SlotKey(k);
      }
      forall k | k in slots ensures slots[k] == PM.SlotsOf(View())[k] {
        SlotAt(k);
      }
      PM.SlotsAre(View(), slots);
    }

    lemma SlotKey(key: string)
      requires Valid()
      ensures key in PM.SlotsOf(View()) <==> key in pool
    {
      assert key in pool ==> Known(pool[key]);
    }

    lemma SlotAt(key: string)
      requires Valid() && key in pool
      ensures key in PM.SlotsOf(View()) && PM.SlotsOf(View())[key] == pool[key].Slot()
    {
      assert Known(pool[key]) && View().recs[pool[key].id] == pool[key].Rec();
    }

    method KeysToRelease(now: Time) returns (keys: seq<string>)
      requires Valid()
      ensures PM.ReleaseIdle(View(), now) == PM.CloseAll(View(), keys)
    {
      ghost var s, q := View(), Query(activeKey, now, MAX_POOLED_CONNS, IDLE_RELEASE_AFTER);
      var slots := Slots();
      keys := PoolEvictions(slots, activeKey, now, MAX_POOLED_CONNS, IDLE_RELEASE_AFTER);
      PM.ReleaseIdleOf(s, now, slots, q, keys);
    }

    // releaseIdleConns
    method ReleaseIdleConns(now: Time)
      requires Valid()
      modifies this`pool, all, chans
      ensures Valid()
      ensures View() == PM.ReleaseIdle(old(View()), now)
    {
      var keys := KeysToRelease(now);
      DropAll(keys);
    }

    method Touch(key: string, now: Time)
      requires Valid()
      modifies all
      ensures Valid() && unchanged(this) && unchanged(chans)
      ensures forall i :: 0 <= i < |all| ==> all[i].stdin == old(all[i].stdin)
      ensures View() == PM.Touch(old(View()), key, now)
    {
      if key in pool {
        var c := pool[key];
        c.lastActive := now;
        OneRecChanged(c);
      }
    }

    method SetActive(key: string)
      requires Valid()
      modifies this`activeKey
      ensures Valid() && activeKey == key
      ensures View() == old(View()).(active := key)
    {
      activeKey := key;
      assert Recs() == old(Recs()) && Closes() == old(Closes()) && Ids() == old(Ids());
    }

    method MakeActive(key: string, now: Time)
      requires Valid()
      modifies this`activeKey, all
      ensures Valid() && unchanged(this`all, this`chans)
      ensures View() == PM.MakeActive(old(View()), key, now)
    {
      if activeKey != key {
        Touch(activeKey, now);
      }
      SetActive(key);
      Touch(key, now);
    }

    static function CanReuse(c: HostConn, now: Time): (r: bool)
      reads c
      ensures r == PM.CanReuse(c.Rec(), now)
    {
      c.connected || (c.connecting && now - c.connectingSince < CONNECT_STALE_AFTER)
    }

    twostate lemma JoinedIsValid(c: HostConn)
      requires old(Valid()) && c.id == |old(all)| && c.stdin == null && c.cancelled == c.cancelClosed
      requires all == old(all) + [c] && pool == old(pool) && chans == old(chans) && unchanged(old(all)) && unchanged(chans)
      ensures Valid()
    {
      forall k | k in pool ensures Known(pool[k]) {
        assert old(Known(pool[k]));
      }
      forall i | 0 <= i < |all| && all[i].stdin != null
        ensures i < |old(all)| && all[i] == old(all)[i] && KnownChan(all[i].stdin) && !all[i].stdin.closed
      {
      }
    }

    // A record just made joins the table of all records...
    ghost method Enlist(c: HostConn)
      requires Valid() && c.id == |all| && c.stdin == null && !c.cancelled && !c.cancelClosed
      modifies this`all
      ensures Valid() && all == old(all) + [c]
      ensures Recs() == old(Recs()) + [c.Rec()] && Closes() == old(Closes())
    {
      ghost var recs := Recs();
      all := all + [c];
      JoinedIsValid(c);
      Appended(recs, Recs(), c.Rec());
    }

    // ...and the pool: pool[key] = c.
    method Put(key: string, c: HostConn)
      requires Valid() && Known(c)
      modifies this`pool
      ensures Valid() && Ids() == old(Ids())[key := c.id]
      ensures Recs() == old(Recs()) && Closes() == old(Closes())
    {
      pool := pool[key := c];
      PoolIsValid();
      assert Ids() == old(Ids())[key := c.id];
    }

    method NewHost(key: string, now: Time) returns (c: HostConn)
      requires Valid()
      modifies this`pool, this`all
      ensures Valid() && fresh(c) && all == old(all) + [c]
      ensures View() == PM.Add(old(View()), key, now)
    {
      ghost var before := View();
      c := new HostConn(key, now, |all|);
      assert Recs() == before.recs && Closes() == before.closes;
      Enlist(c);
      Put(key, c);
      assert View() == PM.Add(before, key, now);
    }

    method EnterNew(key: string, now: Time) returns (started: HostConn)
      requires Valid()
      modifies this, all, chans
      ensures Valid() && chans == old(chans) && all == old(all) + [started] && fresh(started)
      ensures View() == PM.MakeActive(PM.Add(PM.Drop(old(View()), key), key, now), key, now)
    {
      Drop(key);
      started := ShowNew(key, now);
    }

    method ShowNew(key: string, now: Time) returns (started: HostConn)
      requires Valid()
      modifies this, all
      ensures Valid() && chans == old(chans) && all == old(all) + [started] && fresh(started)
      ensures View() == PM.MakeActive(PM.Add(old(View()), key, now), key, now)
    {
      started := NewHost(key, now);
      assert forall c :: c in all ==> c in old(all) || c == started;
      MakeActive(key, now);
    }

    // The first part of Connect's critical section.
    method Enter(key: string, now: Time) returns (started: HostConn?)
      requires Valid()
      modifies this, all, chans
      ensures Valid() && chans == old(chans)
      ensures all == if started == null then old(all) else old(all) + [started]
      ensures started != null ==> fresh(started)
      ensures View() == PM.Enter(old(View()), key, now)
      ensures started == null <==> PM.Reuses(old(View()), key, now)
    {
      assert PM.Reuses(View(), key, now) <==> key in pool && CanReuse(pool[key], now);
      if key in pool && CanReuse(pool[key], now) {
        MakeActive(key, now);
        return null;
      }
      started := EnterNew(key, now);
    }

    /** Connect's critical section. A record is returned when a handshake has to be started for it. */
    method Connect(key: string, now: Time) returns (started: HostConn?)
      requires Valid()
      modifies this, all, chans
      ensures Valid()
      ensures View() == PM.Connect(old(View()), key, now)
      ensures started == null <==> PM.Reuses(old(View()), key, now)
    {
      started := Enter(key, now);
      ReleaseIdleConns(now);
    }

    /** `wasActive` decides whether "disconnected" is reported. */
    method Disconnect(key: string) returns (wasActive: bool)
      requires Valid()
      modifies this, all, chans
      ensures Valid() && wasActive == (key == old(activeKey))
      ensures View() == PM.Disconnect(old(View()), key)
    {
      Drop(key);
      wasActive := key == activeKey;
      if wasActive {
        SetActive("");
      }
    }

    // A walk over the keys of the pool, in whatever order the map gives them.
    method Walk() returns (order: seq<string>)
      ensures SetOf(order) == pool.Keys
    {
      order := [];
      var todo := pool.Keys;
      while todo != {}
        invariant todo <= pool.Keys && SetOf(order) == pool.Keys - todo
      {
        var key := Pick(todo);
        assert SetOf(order + [key]) == SetOf(order) + {key};
        order := order + [key];
        todo := todo - {key};
      }
    }

    method DisconnectAll() returns (ghost order: seq<string>)
      requires Valid()
      modifies this, all, chans
      ensures Valid() && SetOf(order) == old(pool).Keys
      ensures View() == PM.DisconnectAll(old(View()), order)
    {
      var walk := Walk();
      order := walk;
      DropAll(walk);
      SetActive("");
    }

    method PendingKeys() returns (keys: seq<string>)
      requires Valid()
      ensures PM.DisconnectPending(View()) == PM.CloseAll(View(), keys)
    {
      ghost var s := View();
      var slots := Slots();
      keys := PoolPending(slots);
      PM.DisconnectPendingIs(s, keys);
    }

    method DisconnectPending()
      requires Valid()
      modifies this, all, chans
      ensures Valid()
      ensures View() == PM.DisconnectPending(old(View()))
    {
      var keys := PendingKeys();
      DropAll(keys);
    }

    // The sweeper's tick.
    method Sweep(now: Time)
      requires Valid()
      modifies this`pool, all, chans
      ensures Valid()
      ensures View() == PM.ReleaseIdle(old(View()), now)
    {
      ReleaseIdleConns(now);
    }

    // ---------------------------------------------------------------- sections of the goroutines

    // A handshake that did not succeed.
    method GiveUp(c: HostConn)
      requires Valid() && Known(c)
      modifies c`connecting
      ensures Valid() && View() == PM.GiveUp(old(View()), c.id)
    {
      c.connecting := false;
      OneRecChanged(c);
    }

    method SetTransport(c: HostConn, transport: nat)
      requires Valid() && Known(c)
      modifies c`transport
      ensures Valid()
      ensures View() == PM.Set(old(View()), c.id, old(c.Rec()).(transport := Some(transport)))
    {
      c.transport := Some(transport);
      OneRecChanged(c);
    }

    method Establish(c: HostConn, client: nat)
      requires Valid() && Known(c)
      modifies c`client, c`connected, c`connecting
      ensures Valid() && View() == PM.Establish(old(View()), c.id, client)
    {
      c.client := Some(client);
      c.connected := true;
      c.connecting := false;
      OneRecChanged(c);
    }

    method Preempt(c: HostConn)
      requires Valid() && Known(c)
      modifies c`switching, c`sessionClosed
      ensures Valid() && View() == PM.Preempt(old(View()), c.id)
      ensures c.sessionClosed == (old(c.sessionClosed) || (c.executing && c.session.Some?))
    {
      if c.executing && c.session.Some? {
        c.switching := true;
        c.sessionClosed := true;
      }
      OneRecChanged(c);
      assert View() == PM.Preempt(old(View()), c.id);
    }

    /** Exec's check-then-set: it goes on only if nobody is executing and there is a client. */
    method TryAcquire(c: HostConn) returns (acquired: bool)
      requires Valid() && Known(c)
      modifies c`executing
      ensures Valid() && View() == PM.Acquire(old(View()), c.id)
      ensures acquired == PM.CanAcquire(old(View()), c.id)
    {
      acquired := !c.executing && c.client.Some?;
      if acquired {
        c.executing := true;
      }
      OneRecChanged(c);
      assert View() == PM.Acquire(old(View()), c.id);
    }

    // A channel just made joins the table of all channels...
    ghost method EnlistChan(ch: StdinChan)
      requires Valid() && ch.id == |chans| && !ch.closed && ch !in chans
      modifies this`chans
      ensures Valid() && KnownChan(ch) && Recs() == old(Recs()) && Closes() == old(Closes()) + [0]
      ensures forall i :: 0 <= i < |all| ==> all[i].stdin != ch
    {
      ghost var before, closes := chans, Closes();
      assert forall i :: 0 <= i < |all| && all[i].stdin != null ==> KnownChan(all[i].stdin) && all[i].stdin != ch;
      chans := chans + [ch];
      assert forall i :: 0 <= i < |before| ==> chans[i] == before[i];
      assert forall i :: 0 <= i < |all| && all[i].stdin != null ==> KnownChan(all[i].stdin);
      Appended(closes, Closes(), 0);
    }

    // ...and the record: c.session = session; c.stdin = stdinCh.
    method Store(c: HostConn, client: nat, ch: StdinChan)
      requires Valid() && Known(c) && KnownChan(ch) && !ch.closed
      requires forall i :: 0 <= i < |all| ==> all[i].stdin != ch
      modifies c`session, c`sessionClosed, c`stdin
      ensures Valid() && c.stdin == ch && !c.sessionClosed && Closes() == old(Closes())
      ensures Recs() == old(Recs())[c.id := old(c.Rec()).(session := Some(PM.Session(client)), stdin := Some(ch.id))]
    {
      ghost var recs := Recs();
      c.session := Some(PM.Session(client));
      c.sessionClosed := false;
      c.stdin := ch;
      StoredIsValid(c);
      Updated(recs, Recs(), c.id, c.Rec());
    }

    // Only c has been written, and its new channel is nobody else's.
    twostate lemma StoredIsValid(c: HostConn)
      requires old(Valid()) && Known(c) && unchanged(this) && unchanged(chans) && c.cancelled == c.cancelClosed
      requires forall i :: 0 <= i < |all| && i != c.id ==> unchanged(all[i]) && all[i].stdin != c.stdin
      requires c.stdin != null && KnownChan(c.stdin) && !c.stdin.closed
      ensures Valid()
    {
    }

    /** openPTYSession's second section: null if the client the session was opened on is no longer the
        record's, and then nothing is published. */
    method Publish(c: HostConn, client: nat) returns (stdin: StdinChan?)
      requires Valid() && Known(c)
      modifies c`session, c`sessionClosed, c`stdin, this`chans
      ensures Valid() && View() == PM.Publish(old(View()), c.id, client)
      ensures stdin != null <==> PM.CanPublish(old(View()), c.id, client)
      ensures stdin != null ==> fresh(stdin) && !stdin.closed && c.stdin == stdin && !c.sessionClosed
      ensures stdin == null ==> c.sessionClosed == old(c.sessionClosed)
    {
      ghost var before := View();
      var made := new StdinChan(|chans|);
      assert View() == before;
      if c.client != Some(client) {
        return null;
      }
      EnlistChan(made);
      Store(c, client, made);
      stdin := made;
      assert View() == PM.Publish(before, c.id, client);
    }

    // After session.Wait: the channel, if any is stored, is closed.
    method Finish(c: HostConn) returns (wasSwitching: bool)
      requires Valid() && Known(c)
      modifies c, chans
      ensures Valid() && View() == PM.Finish(old(View()), c.id)
      ensures wasSwitching == old(c.switching)
    {
      wasSwitching := c.switching;
      CloseStdin(c);
      FinishFields(c);
    }

    method FinishFields(c: HostConn)
      requires Valid() && Known(c)
      modifies c`switching, c`session
      ensures Valid()
      ensures View() == PM.Set(old(View()), c.id, old(c.Rec()).(switching := false, session := None))
    {
      c.switching := false;
      c.session := None;
      OneRecChanged(c);
    }

    method Teardown(c: HostConn)
      requires Valid() && Known(c)
      modifies c`connected, c`client, c`transport
      ensures Valid() && View() == PM.Teardown(old(View()), c.id)
    {
      c.connected := false;
      if c.client.Some? {
        c.client := None;
      }
      if c.transport.Some? {
        c.transport := None;
      }
      OneRecChanged(c);
    }

    method Leave(c: HostConn)
      requires Valid() && Known(c)
      modifies c`executing
      ensures Valid() && View() == PM.Leave(old(View()), c.id)
    {
      c.executing := false;
      OneRecChanged(c);
    }

    method KeepaliveDead(c: HostConn, client: nat)
      requires Valid() && Known(c)
      modifies c`connected, c`client, c`transport
      ensures Valid() && View() == PM.KeepaliveDead(old(View()), c.id, client)
    {
      if c.client == Some(client) {
        Teardown(c);
      }
    }

    // The channel of the shown host's session.
    ghost predicate Shows(ch: StdinChan)
      reads this, pool.Values
    {
      activeKey in pool && pool[activeKey].stdin == ch
    }

    /** Input goes to the shown host's session, if it has one, and is dropped when the queue is full; no
        other queue changes. */
    method SendInput(data: string)
      requires Valid()
      modifies chans
      ensures Valid() && View() == PM.SendInput(old(View()))
      ensures forall i :: 0 <= i < |chans| ==>
        var queue := old(chans[i].queue);
        chans[i].queue == if Shows(chans[i]) && |queue| < 100 then queue + [data] else queue
    {
      InputIsSafe();
      if activeKey in pool && pool[activeKey].stdin != null {
        var ch := pool[activeKey].stdin;
        assert all[pool[activeKey].id].stdin == ch && KnownChan(ch);
        ch.TrySend(data);
        QueueIsUnseen(ch);
      }
    }

    // Only a queue has been written.
    twostate lemma QueueIsUnseen(ch: StdinChan)
      requires old(Valid()) && KnownChan(ch) && unchanged(this) && unchanged(all) && ch.closed == old(ch.closed)
      requires forall i :: 0 <= i < |chans| && i != ch.id ==> unchanged(chans[i])
      ensures Valid() && View() == old(View())
    {
      assert Recs() == old(Recs()) && Closes() == old(Closes());
    }

    // The channel input would be sent on is open.
    lemma InputIsSafe()
      requires Valid()
      ensures PM.SendInput(View()) == View()
    {
      if activeKey in pool && pool[activeKey].stdin != null {
        var c := pool[activeKey];
        assert all[c.id].stdin == c.stdin && KnownChan(c.stdin) && Closes()[c.stdin.id] == 0;
      }
    }
  }
}
