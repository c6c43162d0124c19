/** The broadcast hub (internal/sessions/websocket.go): every browser of a user has a bounded send
    queue; a browser whose queue is full is evicted and its queue closed.

    HubModel describes the hub as a state machine over whole runs; Hub is the locked data structure,
    whose methods are proved against the machine's steps. */
module HubModel {
  import opened Common

  // The capacity UpdatesHandler gives each send queue.
  const QUEUE_CAP := 64

  type Message = string

  datatype Entry = Entry(user: int, message: Message)

  /** A connected browser. `received` is what its writePump has taken from the queue. `since` and
      `until` are the lengths of the broadcast log when it joined and when it was dropped. `closes`
      counts executions of close(send), which `once` guards. */
  datatype Browser = Browser(user: int, registered: bool, queue: seq<Message>, received: seq<Message>,
                             since: nat, until: Option<nat>, once: bool, closes: nat)

  // `users` is the key set of the hub's outer map; `panicked` records a send on a closed queue.
  datatype State = State(log: seq<Entry>, browsers: seq<Browser>, users: set<int>, panicked: bool)

  const EMPTY := State([], [], {}, false)

  datatype Event =
    | Connect(user: int)                 // UpdatesHandler builds a client and registers it
    | Unregister(i: nat)                 // the handler's deferred Unregister
    | Broadcast(user: int, message: Message)
    | Drain(i: nat)                      // writePump takes one message

  function Closed(b: Browser): Browser {
    if b.once then b else b.(once := true, closes := b.closes + 1)
  }

  // unregisterLocked, seen at the browser it drops.
  function Dropped(b: Browser, now: nat): Browser {
    Closed(b.(registered := false, until := if b.until.None? then Some(now) else b.until))
  }

  predicate Full(b: Browser, user: int) {
    b.registered && b.user == user && |b.queue| >= QUEUE_CAP
  }

  // The non-blocking send of Broadcast.
  function Sent(b: Browser, user: int, message: Message): Browser {
    if b.registered && b.user == user && |b.queue| < QUEUE_CAP then b.(queue := b.queue + [message]) else b
  }

  // The send, or the eviction when the queue is full.
  function Offered(b: Browser, user: int, message: Message, now: nat): Browser {
    if Full(b, user) then Dropped(b, now) else Sent(b, user, message)
  }

  function OfferedToAll(bs: seq<Browser>, user: int, message: Message, now: nat): seq<Browser> {
    seq(|bs|, i requires 0 <= i < |bs| => Offered(bs[i], user, message, now))
  }

  predicate HasRegistered(bs: seq<Browser>, user: int) {
    exists i :: 0 <= i < |bs| && bs[i].registered && bs[i].user == user
  }

  function WithoutEmpty(users: set<int>, bs: seq<Browser>, user: int): set<int> {
    if HasRegistered(bs, user) then users else users - {user}
  }

  function Step(s: State, e: Event): State {
    match e
    case Connect(user) =>
      s.(browsers := s.browsers + [Browser(user, true, [], [], |s.log|, None, false, 0)],
         users := s.users + {user})
    case Unregister(i) =>
      if i >= |s.browsers| then s
      else
        var bs := s.browsers[i := Dropped(s.browsers[i], |s.log|)];
        s.(browsers := bs, users := WithoutEmpty(s.users, bs, s.browsers[i].user))
    case Broadcast(user, message) =>
      var bs := OfferedToAll(s.browsers, user, message, |s.log|);
      State(s.log + [Entry(user, message)], bs, WithoutEmpty(s.users, bs, user),
            s.panicked || SendsOnClosed(s.browsers, user))
    case Drain(i) =>
      if i < |s.browsers| && s.browsers[i].queue != []
      then
        var b := s.browsers[i];
        s.(browsers := s.browsers[i := b.(queue := b.queue[1..], received := b.received + [b.queue[0]])])
      else s
  }

  predicate SendsOnClosed(bs: seq<Browser>, user: int) {
    exists i :: 0 <= i < |bs| && bs[i].registered && bs[i].user == user && bs[i].closes > 0
  }

  function Run(es: seq<Event>): State {
    if es == [] then EMPTY else Step(Run(es[..|es| - 1]), es[|es| - 1])
  }

  // ------------------------------------------------------------------ what a browser is owed

  // The messages to one user in a stretch of the log, in order.
  function MessagesTo(log: seq<Entry>, user: int): seq<Message> {
    if log == [] then []
    else
      MessagesTo(log[..|log| - 1], user) +
      (if log[|log| - 1].user == user then [log[|log| - 1].message] else [])
  }

  ghost predicate Delivered(b: Browser, log: seq<Entry>) {
    var end := b.until.GetOr(|log|);
    b.since <= end <= |log| && b.received + b.queue == MessagesTo(log[b.since..end], b.user)
  }

  ghost predicate BrowserInv(b: Browser, log: seq<Entry>) {
    && |b.queue| <= QUEUE_CAP
    && b.closes == (if b.once then 1 else 0)
    && (b.registered <==> b.until.None?)
    && (b.registered <==> !b.once)
    && Delivered(b, log)
  }

  // The outer map has a key for exactly the users who have a registered browser.
  ghost predicate UsersInv(bs: seq<Browser>, users: set<int>) {
    forall u :: u in users <==> HasRegistered(bs, u)
  }

  ghost predicate Inv(s: State) {
    && !s.panicked
    && (forall i :: 0 <= i < |s.browsers| ==> BrowserInv(s.browsers[i], s.log))
    && UsersInv(s.browsers, s.users)
  }

  lemma MessagesAppend(log: seq<Entry>, user: int, e: Entry)
    ensures MessagesTo(log + [e], user) == MessagesTo(log, user) + (if e.user == user then [e.message] else [])
  {
    assert (log + [e])[..|log|] == log;
  }

  lemma OfferedInv(b: Browser, log: seq<Entry>, user: int, message: Message)
    requires BrowserInv(b, log)
    ensures BrowserInv(Offered(b, user, message, |log|), log + [Entry(user, message)])
  {
    var e := Entry(user, message);
    if b.registered {
      SliceOfLonger(log, e, b.since, |log|);
      MessagesAppend(log[b.since..|log|], b.user, e);
      assert b.received + (b.queue + [message]) == (b.received + b.queue) + [message];
    } else {
      SliceOfLonger(log, e, b.since, b.until.value);
    }
  }

  lemma ConnectedInv(log: seq<Entry>, user: int)
    ensures BrowserInv(Browser(user, true, [], [], |log|, None, false, 0), log)
  {
    assert log[|log|..|log|] == [];
  }

  lemma DroppedInv(b: Browser, log: seq<Entry>)
    requires BrowserInv(b, log)
    ensures BrowserInv(Dropped(b, |log|), log)
  {
  }

  lemma DrainedInv(b: Browser, log: seq<Entry>)
    requires BrowserInv(b, log) && b.queue != []
    ensures BrowserInv(b.(queue := b.queue[1..], received := b.received + [b.queue[0]]), log)
  {
    assert b.received + [b.queue[0]] + b.queue[1..] == b.received + b.queue;
  }

  // Dropping browsers of one user, and its key once none is left, keeps the key set right.
  lemma UsersAfterDrop(bs: seq<Browser>, bs': seq<Browser>, users: set<int>, user: int)
    requires |bs| == |bs'| && UsersInv(bs, users)
    requires forall i :: 0 <= i < |bs| ==> bs'[i].user == bs[i].user
    requires forall i :: 0 <= i < |bs| ==> (bs'[i].registered ==> bs[i].registered)
    requires forall i :: 0 <= i < |bs| && bs[i].user != user ==> bs'[i].registered == bs[i].registered
    ensures UsersInv(bs', WithoutEmpty(users, bs', user))
  {
    forall u ensures u in WithoutEmpty(users, bs', user) <==> HasRegistered(bs', u) {
      if HasRegistered(bs', u) {
        var i :| 0 <= i < |bs'| && bs'[i].registered && bs'[i].user == u;
        assert bs[i].registered && bs[i].user == u;
      }
      if u != user && HasRegistered(bs, u) {
        var i :| 0 <= i < |bs| && bs[i].registered && bs[i].user == u;
        assert bs'[i].registered && bs'[i].user == u;
      }
    }
  }

  lemma UsersAfterConnect(bs: seq<Browser>, users: set<int>, b: Browser)
    requires UsersInv(bs, users) && b.registered
    ensures UsersInv(bs + [b], users + {b.user})
  {
    var bs' := bs + [b];
    assert bs'[|bs|] == b;
    forall u ensures u in users + {b.user} <==> HasRegistered(bs', u) {
      if HasRegistered(bs, u) {
        var i :| 0 <= i < |bs| && bs[i].registered && bs[i].user == u;
        assert bs'[i] == bs[i];
      }
    }
  }

  lemma KeysAfterDrop(bs: seq<Browser>, bs': seq<Browser>, users: set<int>, users': set<int>, user: int)
    requires |bs| == |bs'| && UsersInv(bs, users) && UsersInv(bs', users')
    requires forall i :: 0 <= i < |bs| ==> bs'[i].user == bs[i].user
    requires forall i :: 0 <= i < |bs| ==> (bs'[i].registered ==> bs[i].registered)
    requires forall i :: 0 <= i < |bs| && bs[i].user != user ==> bs'[i].registered == bs[i].registered
    ensures users' == WithoutEmpty(users, bs', user)
  {
    UsersAfterDrop(bs, bs', users, user);
    var expected := WithoutEmpty(users, bs', user);
    forall u ensures u in users' <==> u in expected {
      assert u in users' <==> HasRegistered(bs', u);
      assert u in expected <==> HasRegistered(bs', u);
    }
  }

  lemma StepKeepsInv(s: State, e: Event)
    requires Inv(s)
    ensures Inv(Step(s, e))
  {
    var s' := Step(s, e);
    match e
    case Connect(user) =>
      ConnectedInv(s.log, user);
      UsersAfterConnect(s.browsers, s.users, s'.browsers[|s.browsers|]);
    case Unregister(i) =>
      if i < |s.browsers| {
        DroppedInv(s.browsers[i], s.log);
        UsersAfterDrop(s.browsers, s'.browsers, s.users, s.browsers[i].user);
      }
    case Broadcast(user, message) =>
      forall i | 0 <= i < |s'.browsers| ensures BrowserInv(s'.browsers[i], s'.log) {
        OfferedInv(s.browsers[i], s.log, user, message);
      }
      UsersAfterDrop(s.browsers, s'.browsers, s.users, user);
    case Drain(i) =>
      if i < |s.browsers| && s.browsers[i].queue != [] {
        DrainedInv(s.browsers[i], s.log);
        UsersAfterDrop(s.browsers, s'.browsers, s.users, s.browsers[i].user);
        KeyStays(s.browsers, s'.browsers, s.users, i);
      }
  }

  lemma KeyStays(bs: seq<Browser>, bs': seq<Browser>, users: set<int>, i: nat)
    requires i < |bs| == |bs'| && UsersInv(bs, users)
    requires forall j :: 0 <= j < |bs| ==> bs'[j].user == bs[j].user && bs'[j].registered == bs[j].registered
    ensures WithoutEmpty(users, bs', bs[i].user) == users
  {
    var user := bs[i].user;
    if HasRegistered(bs, user) {
      var j :| 0 <= j < |bs| && bs[j].registered && bs[j].user == user;
      assert bs'[j].registered && bs'[j].user == user;
    }
  }

  // What one broadcast has to leave behind to be the step, given that nothing closed is registered.
  lemma BroadcastStep(s: State, user: int, message: Message, s': State)
    requires Inv(s) && !s'.panicked
    requires s'.log == s.log + [Entry(user, message)]
    requires s'.browsers == OfferedToAll(s.browsers, user, message, |s.log|)
    requires s'.users == WithoutEmpty(s.users, s'.browsers, user)
    ensures s' == Step(s, Broadcast(user, message)) && Inv(s')
  {
    StepKeepsInv(s, Broadcast(user, message));
    assert !Step(s, Broadcast(user, message)).panicked;
  }

  lemma {:induction false} RunKeepsInv(es: seq<Event>)
    ensures Inv(Run(es))
  {
    if es != [] {
      RunKeepsInv(es[..|es| - 1]);
      StepKeepsInv(Run(es[..|es| - 1]), es[|es| - 1]);
    }
  }

  /** In every run nothing is sent on a closed queue, no queue is closed twice or overfilled, being
      registered is being open, and no user's key is left with an empty set. */
  lemma HubIsSafe(es: seq<Event>)
    ensures !Run(es).panicked
    ensures forall u :: u in Run(es).users <==> HasRegistered(Run(es).browsers, u)
    ensures forall i :: 0 <= i < |Run(es).browsers| ==>
      var b := Run(es).browsers[i];
      |b.queue| <= 64 && b.closes <= 1 && (b.registered <==> b.closes == 0)
  {
    RunKeepsInv(es);
  }

  // ------------------------------------------------------------------ delivery, read off the events

  function BroadcastLog(es: seq<Event>): seq<Entry> {
    if es == [] then []
    else
      var e := es[|es| - 1];
      BroadcastLog(es[..|es| - 1]) + (if e.Broadcast? then [Entry(e.user, e.message)] else [])
  }

  lemma {:induction false} LogIsBroadcasts(es: seq<Event>)
    ensures Run(es).log == BroadcastLog(es)
  {
    if es != [] {
      LogIsBroadcasts(es[..|es| - 1]);
    }
  }

  // The events that can take a registered browser off the hub: its own Unregister, or a broadcast to
  // its user that finds the queue full.
  predicate Removes(s: State, e: Event, i: nat)
    requires i < |s.browsers|
  {
    || e == Unregister(i)
    || (e.Broadcast? && e.user == s.browsers[i].user && |s.browsers[i].queue| == 64)
  }

  /** How one event changes a browser's place in the run: it joins at the current end of the log, and
      it is removed, at the current end of the log, by exactly the removing events. */
  lemma JoinsAndLeaves(s: State, e: Event, i: nat)
    requires Inv(s) && i < |Step(s, e).browsers|
    ensures var b' := Step(s, e).browsers[i];
      if i == |s.browsers|
      then e.Connect? && b'.user == e.user && b'.registered && b'.since == |s.log|
      else
        && i < |s.browsers|
        && var b := s.browsers[i];
        && b'.user == b.user && b'.since == b.since
        && (b'.registered <==> b.registered && !Removes(s, e, i))
        && b'.until == if b.registered && Removes(s, e, i) then Some(|s.log|) else b.until
  {
  }

  /** What a browser was ever given, taken or still queued, is the contiguous and ordered run of the
      broadcasts to its user from when it joined until it was removed: nothing missing in the middle,
      nothing twice, nothing of another user's. */
  lemma DeliveryIsGapFree(es: seq<Event>, i: nat)
    requires i < |Run(es).browsers|
    ensures var b := Run(es).browsers[i];
      var end := b.until.GetOr(|BroadcastLog(es)|);
      && b.since <= end <= |BroadcastLog(es)|
      && b.received + b.queue == MessagesTo(BroadcastLog(es)[b.since..end], b.user)
  {
    RunKeepsInv(es);
    LogIsBroadcasts(es);
  }

  // How often writePump has found a message for browser i.
  function TimesTaken(es: seq<Event>, i: nat): nat {
    if es == [] then 0
    else
      var init := es[..|es| - 1];
      TimesTaken(init, i) +
      (if es[|es| - 1] == Drain(i) && i < |Run(init).browsers| && Run(init).browsers[i].queue != [] then 1 else 0)
  }

  lemma {:induction false} ReceivedWhenTaken(es: seq<Event>, i: nat)
    ensures TimesTaken(es, i) == if i < |Run(es).browsers| then |Run(es).browsers[i].received| else 0
  {
    if es != [] {
      ReceivedWhenTaken(es[..|es| - 1], i);
    }
  }

  /** Of those the browser has received the first ones, one for each time writePump found its queue not
      empty, and the rest, 64 at most, are queued. */
  lemma TakenInOrder(es: seq<Event>, i: nat)
    requires i < |Run(es).browsers|
    ensures var b, log := Run(es).browsers[i], BroadcastLog(es);
      var n, end := TimesTaken(es, i), b.until.GetOr(|log|);
      && b.since <= end <= |log| && n <= |MessagesTo(log[b.since..end], b.user)| <= n + 64
      && b.received == MessagesTo(log[b.since..end], b.user)[..n]
      && b.queue == MessagesTo(log[b.since..end], b.user)[n..]
  {
    DeliveryIsGapFree(es, i);
    ReceivedWhenTaken(es, i);
    HubIsSafe(es);
  }
}

/** The hub and its clients as objects. Sending on a closed queue and closing it again panic in Go, so
    here they are preconditions that the hub has to meet. */
module Hub {
  import opened Common
  import opened HubModel

  class Client {
    const userID: int
    var send: seq<Message>
    var closed: bool
    var once: bool
    // Its number among the clients the hub will register.
    ghost const id: nat
    // What writePump has taken, and when the hub added and dropped this client.
    ghost var received: seq<Message>
    ghost var since: nat
    ghost var until: Option<nat>

    constructor (userID: int, ghost id: nat)
      ensures this.userID == userID && this.id == id && send == [] && received == [] && !closed && !once && until.None?
    {
      this.userID, this.id := userID, id;
      send, received, closed, once := [], [], false, false;
      since, until := 0, None;
    }

    ghost predicate OpenUnlessOnce()
      reads this
    {
      closed == once
    }

    // select { case c.send <- m: default: }
    method TrySend(m: Message) returns (sent: bool)
      requires !closed
      modifies this`send
      ensures sent == (|old(send)| < 64)
      ensures send == if sent then old(send) + [m] else old(send)
    {
      sent := |send| < QUEUE_CAP;
      if sent {
        send := send + [m];
      }
    }

    method Close()
      requires !closed
      modifies this`closed
      ensures closed
    {
      closed := true;
    }

    // closeOnce.Do(func() { close(c.send) })
    method CloseOnce()
      requires OpenUnlessOnce()
      modifies this`closed, this`once
      ensures OpenUnlessOnce() && once
    {
      if !once {
        once := true;
        Close();
      }
    }

    // One iteration of writePump that finds a message.
    method Drain()
      requires send != []
      modifies this`send, this`received
      ensures send == old(send)[1..] && received == old(received) + [old(send)[0]]
    {
      received := received + [send[0]];
      send := send[1..];
    }
  }

  class Hub {
    var clients: map<int, set<Client>>
    ghost var all: seq<Client>
    ghost var log: seq<Entry>

    ghost predicate IsRegistered(c: Client)
      reads this`clients
    {
      c.userID in clients && c in clients[c.userID]
    }

    ghost function BrowserOf(c: Client): Browser
      reads this, c
    {
      Browser(c.userID, IsRegistered(c), c.send, c.received, c.since, c.until, c.once, if c.closed then 1 else 0)
    }

    ghost function Browsers(): (bs: seq<Browser>)
      reads this, all
      ensures |bs| == |all| && forall i :: 0 <= i < |all| ==> bs[i] == BrowserOf(all[i])
    {
      seq(|all|, i requires 0 <= i < |all| reads this, all => BrowserOf(all[i]))
    }

    ghost function View(): State
      reads this, all
    {
      State(log, Browsers(), clients.Keys, false)
    }

    ghost predicate Known(c: Client)
      reads this`all
    {
      c.id < |all| && all[c.id] == c
    }

    ghost predicate Tables()
      reads this, all
    {
      && (forall i :: 0 <= i < |all| ==> all[i].id == i && all[i].OpenUnlessOnce())
      && (forall u :: u in clients ==> clients[u] != {})
      && (forall u, c :: u in clients && c in clients[u] ==> Known(c) && c.userID == u)
    }

    ghost predicate Valid()
      reads this, all
    {
      Tables() && Inv(View())
    }

    lemma TablesGiveUsers()
      requires Tables()
      ensures UsersInv(Browsers(), clients.Keys)
    {
      forall u ensures u in clients.Keys <==> HasRegistered(Browsers(), u) {
        if u in clients {
          var c :| c in clients[u];
          assert Known(c);
          assert Browsers()[c.id].registered && Browsers()[c.id].user == u;
        }
      }
    }

    constructor ()
      ensures Valid() && View() == EMPTY && all == []
    {
      clients, all, log := map[], [], [];
    }

    // delete(clients, c), and the user's key with it once the set is empty.
    method RemoveFromTable(c: Client)
      requires Tables() && Known(c)
      modifies this`clients
      ensures Tables() && !IsRegistered(c)
      ensures forall i :: 0 <= i < |all| && i != c.id ==> (IsRegistered(all[i]) <==> old(IsRegistered(all[i])))
    {
      if c.userID in clients {
        var rest := clients[c.userID] - {c};
        if rest == {} {
          assert forall d :: d in clients[c.userID] && d != c ==> d in rest;
          clients := clients - {c.userID};
        } else {
          clients := clients[c.userID := rest];
        }
      }
    }

    method AddToTable(c: Client)
      requires Tables() && Known(c)
      modifies this`clients
      ensures Tables() && IsRegistered(c) && clients.Keys == old(clients.Keys) + {c.userID}
      ensures forall i :: 0 <= i < |all| && i != c.id ==> (IsRegistered(all[i]) <==> old(IsRegistered(all[i])))
    {
      var of := if c.userID in clients then clients[c.userID] else {};
      clients := clients[c.userID := of + {c}];
    }

    method RegisterLocked(c: Client)
      requires Tables() && c.id == |all| && c.OpenUnlessOnce()
      modifies this, c`since
      ensures Tables() && log == old(log) && all == old(all) + [c]
      ensures clients.Keys == old(clients.Keys) + {c.userID}
      ensures Browsers() == old(Browsers()) + [old(BrowserOf(c)).(registered := true, since := |log|)]
    {
      ghost var bs, before := Browsers(), all;
      assert forall u, d: Client :: u in clients && d in clients[u] ==> Known(d);
      c.since := |log|;
      all := all + [c];
      assert forall i :: 0 <= i < |before| ==> all[i] == before[i];
      assert forall d: Client :: old(Known(d)) ==> Known(d);
      assert forall i :: 0 <= i < |all| ==> all[i].id == i;
      assert forall i :: 0 <= i < |all| ==> all[i].OpenUnlessOnce();
      AddToTable(c);
      assert Browsers() == bs + [BrowserOf(c)];
    }

    // The handler registers each client once, straight after making it.
    method Register(c: Client)
      requires Valid() && c.id == |all|
      requires !c.closed && !c.once && c.send == [] && c.received == [] && c.until.None?
      modifies this, c`since
      ensures Valid() && all == old(all) + [c]
      ensures View() == Step(old(View()), Connect(c.userID))
    {
      StepKeepsInv(View(), Connect(c.userID));
      RegisterLocked(c);
    }

    // The caller holds the lock for writing.
    method UnregisterLocked(c: Client)
      requires Tables() && Known(c)
      modifies this`clients, c`closed, c`once, c`until
      ensures Tables()
      ensures BrowserOf(c) == Dropped(old(BrowserOf(c)), |log|)
      ensures forall i :: 0 <= i < |all| && i != c.id ==> BrowserOf(all[i]) == old(BrowserOf(all[i]))
    {
      RemoveFromTable(c);
      c.CloseOnce();
      if c.until.None? {
        c.until := Some(|log|);
      }
    }

    method Unregister(c: Client)
      requires Valid() && Known(c)
      modifies this`clients, c`closed, c`once, c`until
      ensures Valid() && View() == Step(old(View()), Event.Unregister(c.id))
    {
      StepKeepsInv(View(), Event.Unregister(c.id));
      TablesGiveUsers();
      ghost var bs, keys := Browsers(), clients.Keys;
      UnregisterLocked(c);
      assert Browsers() == bs[c.id := Dropped(bs[c.id], |log|)];
      TablesGiveUsers();
      KeysAfterDrop(bs, Browsers(), keys, clients.Keys, c.userID);
    }

    // One non-blocking send of the fan-out.
    method Offer(c: Client, data: Message) returns (sent: bool)
      requires Tables() && Known(c) && IsRegistered(c) && !c.closed
      modifies c`send
      ensures Tables() && sent == !Full(old(BrowserOf(c)), c.userID)
      ensures BrowserOf(c) == Sent(old(BrowserOf(c)), c.userID, data)
      ensures forall i :: 0 <= i < |all| && i != c.id ==> BrowserOf(all[i]) == old(BrowserOf(all[i]))
    {
      sent := c.TrySend(data);
    }

    // The fan-out loop of Broadcast: every send is non-blocking, full queues are only remembered.
    method FanOut(user: int, data: Message) returns (dropped: set<Client>)
      requires Tables()
      requires user in clients ==> forall c :: c in clients[user] ==> !c.closed
      modifies all
      ensures Tables() && unchanged(this)
      ensures forall c :: c in dropped ==> Known(c)
      ensures forall i :: 0 <= i < |all| ==>
        && (all[i] in dropped <==> Full(old(Browsers())[i], user))
        && BrowserOf(all[i]) == Sent(old(Browsers())[i], user, data)
    {
      dropped := {};
      ghost var bs := Browsers();
      var todo := if user in clients then clients[user] else {};
      assert forall i :: 0 <= i < |all| ==> (all[i] in todo <==> bs[i].registered && bs[i].user == user);
      while todo != {}
        invariant Tables() && unchanged(this)
        invariant forall c :: c in todo ==> Known(c) && IsRegistered(c) && c.userID == user && !c.closed
        invariant forall c :: c in dropped ==> Known(c)
        invariant forall i :: 0 <= i < |all| ==>
          if all[i] in todo then all[i] !in dropped && BrowserOf(all[i]) == bs[i]
          else (all[i] in dropped <==> Full(bs[i], user)) && BrowserOf(all[i]) == Sent(bs[i], user, data)
      {
        var c := Pick(todo);
        assert all[c.id] in todo;
        var sent := Offer(c, data);
        if !sent {
          dropped := dropped + {c};
        }
        todo := todo - {c};
      }
    }

    // The eviction loop of Broadcast.
    method EvictAll(dropped: set<Client>)
      requires Tables() && forall c :: c in dropped ==> Known(c)
      modifies this`clients, all
      ensures Tables()
      ensures forall i :: 0 <= i < |all| ==>
        BrowserOf(all[i]) ==
        if all[i] in dropped then Dropped(old(BrowserOf(all[i])), |log|) else old(BrowserOf(all[i]))
    {
      var todo := dropped;
      while todo != {}
        invariant todo <= dropped && Tables()
        invariant forall i :: 0 <= i < |all| ==>
          BrowserOf(all[i]) ==
          if all[i] in dropped && all[i] !in todo
          then Dropped(old(BrowserOf(all[i])), |log|) else old(BrowserOf(all[i]))
      {
        var c := Pick(todo);
        assert all[c.id] in todo;
        UnregisterLocked(c);
        todo := todo - {c};
      }
    }

    // Both loops, with what they leave in the tables.
    method SendOrEvict(user: int, data: Message) returns (evicted: set<Client>)
      requires Tables()
      requires user in clients ==> forall c :: c in clients[user] ==> !c.closed
      modifies this`clients, all
      ensures Tables()
      ensures Browsers() == OfferedToAll(old(Browsers()), user, data, |log|)
      ensures clients.Keys == WithoutEmpty(old(clients.Keys), Browsers(), user)
      ensures forall i :: 0 <= i < |all| ==> (all[i] in evicted <==> Full(old(Browsers())[i], user))
    {
      TablesGiveUsers();
      ghost var bs, keys := Browsers(), clients.Keys;
      evicted := FanOut(user, data);
      EvictAll(evicted);
      assert Browsers() == OfferedToAll(bs, user, data, |log|);
      TablesGiveUsers();
      KeysAfterDrop(bs, Browsers(), keys, clients.Keys, user);
    }

    // The part of Broadcast under the lock.
    method BroadcastLocked(user: int, data: Message) returns (evicted: set<Client>)
      requires Tables()
      requires user in clients ==> forall c :: c in clients[user] ==> !c.closed
      modifies this`clients, this`log, all
      ensures Tables() && log == old(log) + [Entry(user, data)]
      ensures Browsers() == OfferedToAll(old(Browsers()), user, data, |old(log)|)
      ensures clients.Keys == WithoutEmpty(old(clients.Keys), Browsers(), user)
      ensures forall i :: 0 <= i < |all| ==> (all[i] in evicted <==> Full(old(Browsers())[i], user))
    {
      evicted := SendOrEvict(user, data);
      ghost var bs := Browsers();
      log := log + [Entry(user, data)];
      assert Browsers() == bs;
    }

    /** `data` is None when the update could not be encoded; then nobody is told anything. The evicted
        clients, whose connections are closed once the lock is free, are those whose queue was full. */
    method Broadcast(user: int, data: Option<Message>) returns (evicted: set<Client>)
      requires Valid()
      modifies this`clients, this`log, all
      ensures Valid() && all == old(all)
      ensures data.None? ==> View() == old(View()) && evicted == {}
      ensures data.Some? ==> View() == Step(old(View()), Event.Broadcast(user, data.value))
      ensures data.Some? ==> forall i :: 0 <= i < |all| ==> (all[i] in evicted <==> Full(old(Browsers())[i], user))
    {
      if data.None? {
        return {};
      }
      ghost var before := View();
      OpenTargets(user);
      evicted := BroadcastLocked(user, data.value);
      BroadcastStep(before, user, data.value, View());
    }

    lemma OpenTargets(user: int)
      requires Valid()
      ensures user in clients ==> forall c :: c in clients[user] ==> !c.closed
    {
      forall c | user in clients && c in clients[user] ensures !c.closed {
        assert Known(c) && BrowserOf(c) == Browsers()[c.id];
      }
    }
  }
}
