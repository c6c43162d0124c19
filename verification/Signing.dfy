/** Certificate signing (internal/ssh/ca): the session table of session.go, whose actor wipes byte arrays
    in place, and the handlers of signing.go, which keep using the very arrays they put there. */
module SigningModel {
  import opened Common

  /** A signing session and the TBS array made with it: `tbs` is what the array holds now, `made` what
      the certificate request put there. */
  datatype Cell = Cell(tbs: seq<Byte>, made: seq<Byte>, commitment: seq<Byte>, user: int, host: int, expiresAt: int)

  // The actor's map: session ids to their cells.
  datatype Table = Table(cells: seq<Cell>, sessions: map<string, nat>)

  function Zeros(n: nat): (zs: seq<Byte>)
    ensures |zs| == n
  {
    seq(n, i => 0)
  }

  predicate Expired(c: Cell, now: int) {
    now > c.expiresAt
  }

  function Wipe(c: Cell): Cell {
    c.(tbs := Zeros(|c.tbs|), commitment := Zeros(|c.commitment|))
  }

  predicate WellFormed(t: Table) {
    forall id :: id in t.sessions ==> t.sessions[id] < |t.cells|
  }

  ghost predicate OneToOne(t: Table) {
    WellFormed(t) && forall a, b :: a in t.sessions && b in t.sessions && a != b ==> t.sessions[a] != t.sessions[b]
  }

  function Create(t: Table, id: string, c: Cell): Table {
    t.(cells := t.cells + [c], sessions := t.sessions[id := |t.cells|])
  }

  predicate Found(t: Table, id: string, now: int)
    requires WellFormed(t)
  {
    id in t.sessions && !Expired(t.cells[t.sessions[id]], now)
  }

  // opGet, and opUpdate's lookup: an expired session is dropped from the map, its arrays as they are.
  function AfterLookup(t: Table, id: string, now: int): Table
    requires WellFormed(t)
  {
    if id in t.sessions && !Found(t, id, now) then t.(sessions := t.sessions - {id}) else t
  }

  function Update(t: Table, id: string, commitment: seq<Byte>, now: int): Table
    requires WellFormed(t)
  {
    if Found(t, id, now)
    then t.(cells := t.cells[t.sessions[id] := t.cells[t.sessions[id]].(commitment := commitment)])
    else AfterLookup(t, id, now)
  }

  function Delete(t: Table, id: string): Table
    requires WellFormed(t)
  {
    if id in t.sessions
    then Table(t.cells[t.sessions[id] := Wipe(t.cells[t.sessions[id]])], t.sessions - {id})
    else t
  }

  // The cells the map still leads to that have expired: what a cleanup wipes.
  predicate Stale(t: Table, k: nat, now: int)
    requires WellFormed(t)
  {
    exists id :: id in t.sessions && t.sessions[id] == k && Expired(t.cells[k], now)
  }

  ghost function Cleanup(t: Table, now: int): Table
    requires WellFormed(t)
  {
    Table(seq(|t.cells|, k requires 0 <= k < |t.cells| => if Stale(t, k, now) then Wipe(t.cells[k]) else t.cells[k]),
          map id | id in t.sessions && !Expired(t.cells[t.sessions[id]], now) :: t.sessions[id])
  }

  // ------------------------------------------------------------------ connections

  /** A connection's signing state. `session` is "" before the first request; `latest` is history: the
      TBS bytes of its latest request. `checked` means round 2 has looked the session up and is about to
      sign. */
  datatype Conn = Conn(session: string, cell: nat, committed: bool, frost: bool, checked: bool, latest: seq<Byte>)

  const IDLE := Conn("", 0, false, false, false, [])

  // The last three are history: every id ever made, those deleted, and those whose array was wiped.
  datatype Sys = Sys(table: Table, conns: map<nat, Conn>, born: map<string, nat>, deleted: set<string>, wiped: set<string>)

  const START := Sys(Table([], map[]), map[], map[], {}, {})

  datatype Outcome = Succeeds(commitment: seq<Byte>) | BadPayload | NoAuthority | RoundFails

  datatype Event =
    | Connects(conn: nat)
    | RequestCert(conn: nat, id: string, tbs: seq<Byte>, user: int, host: int, expiry: nat)
    | Round1(conn: nat, session: string, outcome: Outcome)
    | Round2Looks(conn: nat, session: string)
    | Round2Signs(conn: nat, outcome: Outcome)
    | Disconnects(conn: nat)
    | Sweeps

  // A fresh uuid every time; a connection's messages one at a time.
  ghost predicate Enabled(s: Sys, e: Event) {
    match e
    case Connects(c) => c !in s.conns
    case RequestCert(c, id, _, _, _, _) => c in s.conns && !s.conns[c].checked && id !in s.born && id != ""
    case Round1(c, _, _) => c in s.conns && !s.conns[c].checked
    case Round2Looks(c, _) => c in s.conns && !s.conns[c].checked
    case Round2Signs(c, _) => c in s.conns && s.conns[c].checked
    case Disconnects(c) => c in s.conns && !s.conns[c].checked
    case Sweeps => true
  }

  ghost function DeleteOf(s: Sys, id: string): Sys
    requires WellFormed(s.table)
  {
    s.(table := Delete(s.table, id), deleted := s.deleted + {id},
       wiped := if id in s.table.sessions then s.wiped + {id} else s.wiped)
  }

  ghost function SweepOf(s: Sys, now: int): Sys
    requires WellFormed(s.table)
  {
    s.(table := Cleanup(s.table, now),
       wiped := s.wiped + set id | id in s.table.sessions && Expired(s.table.cells[s.table.sessions[id]], now))
  }

  ghost function Requested(s: Sys, c: nat, id: string, tbs: seq<Byte>, user: int, host: int, until: int): Sys
    requires c in s.conns
  {
    s.(table := Create(s.table, id, Cell(tbs, tbs, [], user, host, until)),
       conns := s.conns[c := s.conns[c].(session := id, cell := |s.table.cells|, latest := tbs)],
       born := s.born[id := |s.table.cells|])
  }

  ghost function Round1Of(s: Sys, c: nat, session: string, o: Outcome, now: int): Sys
    requires WellFormed(s.table) && c in s.conns
  {
    var k := s.conns[c];
    if k.session == "" || session != k.session || o.BadPayload? then s
    else
      var s1 := s.(conns := s.conns[c := k.(committed := true)]);
      match o
      case NoAuthority => s1
      case RoundFails => DeleteOf(s1, k.session)
      case Succeeds(commitment) =>
        var found := Found(s1.table, k.session, now);
        var s2 := s1.(table := Update(s1.table, k.session, commitment, now));
        if found then s2.(conns := s.conns[c := k.(committed := true, frost := true)]) else DeleteOf(s2, k.session)
      case BadPayload => s
  }

  // The same, seen from the table and from the connection.
  function CommittedTable(t: Table, id: string, o: Outcome, now: int): Table
    requires WellFormed(t)
  {
    match o
    case RoundFails => Delete(t, id)
    case Succeeds(commitment) =>
      if Found(t, id, now) then Update(t, id, commitment, now) else Delete(AfterLookup(t, id, now), id)
    case _ => t
  }

  predicate CommitmentKept(t: Table, id: string, o: Outcome, now: int)
    requires WellFormed(t)
  {
    o.Succeeds? && Found(t, id, now)
  }

  function Round1Table(t: Table, k: Conn, session: string, o: Outcome, now: int): Table
    requires WellFormed(t)
  {
    if k.session == "" || session != k.session then t else CommittedTable(t, session, o, now)
  }

  function Round1Conn(t: Table, k: Conn, session: string, o: Outcome, now: int): Conn
    requires WellFormed(t)
  {
    if k.session == "" || session != k.session || o.BadPayload? then k
    else k.(committed := true, frost := k.frost || CommitmentKept(t, session, o, now))
  }

  lemma Round1Parts(s: Sys, c: nat, session: string, o: Outcome, now: int)
    requires WellFormed(s.table) && c in s.conns
    ensures Round1Of(s, c, session, o, now).table == Round1Table(s.table, s.conns[c], session, o, now)
    ensures Round1Of(s, c, session, o, now).conns ==
            s.conns[c := Round1Conn(s.table, s.conns[c], session, o, now)]
  {
    assert s.conns[c := s.conns[c]] == s.conns;
  }

  predicate Round2Proceeds(t: Table, k: Conn, session: string, now: int)
    requires WellFormed(t)
  {
    k.session != "" && session == k.session && k.committed && k.frost && Found(t, session, now)
  }

  // Both halves of round 2, with nothing between them.
  function Round2Table(t: Table, k: Conn, session: string, o: Outcome, now: int): Table
    requires WellFormed(t)
  {
    if k.session == "" || session != k.session || !k.committed || !k.frost then t
    else if !Found(t, session, now) then AfterLookup(t, session, now)
    else if o.RoundFails? then Delete(t, session)
    else t
  }

  ghost function Round2LooksOf(s: Sys, c: nat, session: string, now: int): Sys
    requires WellFormed(s.table) && c in s.conns
  {
    var k := s.conns[c];
    if k.session == "" || session != k.session || !k.committed || !k.frost then s
    else
      s.(table := AfterLookup(s.table, k.session, now),
         conns := if Found(s.table, k.session, now) then s.conns[c := k.(checked := true)] else s.conns)
  }

  ghost function Round2SignsOf(s: Sys, c: nat, o: Outcome): Sys
    requires WellFormed(s.table) && c in s.conns
  {
    var k := s.conns[c];
    var s1 := s.(conns := s.conns[c := k.(checked := false)]);
    if o.RoundFails? then DeleteOf(s1, k.session) else s1
  }

  ghost function DisconnectOf(s: Sys, c: nat): Sys
    requires WellFormed(s.table) && c in s.conns
  {
    var s1 := s.(conns := s.conns - {c});
    if s.conns[c].session != "" then DeleteOf(s1, s.conns[c].session) else s1
  }

  ghost function Step(s: Sys, e: Event, now: int): Sys
    requires WellFormed(s.table) && Enabled(s, e)
  {
    match e
    case Connects(c) => s.(conns := s.conns[c := IDLE])
    case RequestCert(c, id, tbs, user, host, expiry) => Requested(s, c, id, tbs, user, host, now + expiry)
    case Round1(c, session, o) => Round1Of(s, c, session, o, now)
    case Round2Looks(c, session) => Round2LooksOf(s, c, session, now)
    case Round2Signs(c, o) => Round2SignsOf(s, c, o)
    case Disconnects(c) => DisconnectOf(s, c)
    case Sweeps => SweepOf(s, now)
  }

  lemma Round2Parts(s: Sys, c: nat, session: string, o: Outcome, now: int)
    requires WellFormed(s.table) && c in s.conns && !s.conns[c].checked
    ensures var s1 := Round2LooksOf(s, c, session, now);
      && WellFormed(s1.table)
      && (s1.conns[c].checked <==> Round2Proceeds(s.table, s.conns[c], session, now))
      && (if s1.conns[c].checked then Round2SignsOf(s1, c, o) else s1).table ==
         Round2Table(s.table, s.conns[c], session, o, now)
  {
  }

  // What ServerRound2 and AggregateSignatures are given.
  ghost function GivenToSign(s: Sys, c: nat): seq<Byte>
    requires c in s.conns && s.conns[c].cell < |s.table.cells|
  {
    s.table.cells[s.conns[c].cell].tbs
  }

  // ------------------------------------------------------------------ the invariant

  // Ids and cells correspond one to one.
  ghost predicate Ids(s: Sys) {
    && (forall id :: id in s.table.sessions ==> id in s.born && s.table.sessions[id] == s.born[id])
    && (forall id :: id in s.born ==> s.born[id] < |s.table.cells|)
    && (forall a, b :: a in s.born && b in s.born && a != b ==> s.born[a] != s.born[b])
    && "" !in s.born
  }

  // An array holds what was put there, unless it was wiped; what the table still leads to never was.
  ghost predicate Contents(s: Sys)
    requires Ids(s)
  {
    && (forall id :: id in s.born ==>
         var c := s.table.cells[s.born[id]]; c.tbs == if id in s.wiped then Zeros(|c.made|) else c.made)
    && (forall id :: id in s.table.sessions ==> id !in s.wiped && id !in s.deleted)
  }

  // Nothing leaves the table but by being deleted or by expiring.
  ghost predicate Departures(s: Sys, clock: int)
    requires Ids(s)
  {
    && (forall id :: id in s.born && id !in s.table.sessions && id !in s.deleted ==>
         Expired(s.table.cells[s.born[id]], clock))
    && (forall id :: id in s.born && id !in s.table.sessions && id !in s.wiped ==>
         Expired(s.table.cells[s.born[id]], clock))
    && s.wiped <= s.born.Keys && s.deleted <= s.born.Keys
  }

  ghost predicate Conns(s: Sys)
    requires Ids(s)
  {
    && (forall c :: c in s.conns && s.conns[c].session != "" ==>
         var k := s.conns[c];
         k.session in s.born && s.born[k.session] == k.cell && s.table.cells[k.cell].made == k.latest)
    && (forall c, d :: c in s.conns && d in s.conns && c != d && s.conns[c].session != "" ==>
         s.conns[c].session != s.conns[d].session)
    && (forall c :: c in s.conns && s.conns[c].checked ==>
         s.conns[c].session != "" && s.conns[c].session !in s.deleted)
  }

  ghost predicate Inv(s: Sys, clock: int) {
    Ids(s) && Contents(s) && Departures(s, clock) && Conns(s)
  }

  lemma LaterKeeps(s: Sys, clock: int, now: int)
    requires Inv(s, clock) && clock <= now
    ensures Inv(s, now)
  {
  }

  lemma DeletedCells(s: Sys, id: string)
    requires Ids(s)
    ensures Ids(DeleteOf(s, id))
    ensures forall x :: x in s.born ==>
      DeleteOf(s, id).table.cells[s.born[x]] ==
      if x == id && id in s.table.sessions then Wipe(s.table.cells[s.born[x]]) else s.table.cells[s.born[x]]
  {
  }

  // What the connections rely on: the cells they know, as they were made.
  lemma ConnsStay(s: Sys, t: Sys)
    requires Ids(s) && Conns(s) && Ids(t) && t.conns == s.conns && t.born == s.born
    requires forall id :: id in s.born ==> t.table.cells[s.born[id]].made == s.table.cells[s.born[id]].made
    requires forall c :: c in s.conns && s.conns[c].checked ==> s.conns[c].session !in t.deleted
    ensures Conns(t)
  {
    forall c | c in t.conns && t.conns[c].session != ""
      ensures t.conns[c].session in t.born && t.born[t.conns[c].session] == t.conns[c].cell
      ensures t.table.cells[t.conns[c].cell].made == t.conns[c].latest
    {
      assert s.conns[c].session in s.born;
    }
  }

  lemma DeleteKeepsContents(s: Sys, id: string)
    requires Ids(s) && Contents(s) && id in s.born
    ensures Ids(DeleteOf(s, id)) && Contents(DeleteOf(s, id))
  {
    DeletedCells(s, id);
  }

  lemma DeleteKeepsDepartures(s: Sys, id: string, now: int)
    requires Ids(s) && Departures(s, now) && id in s.born
    ensures Ids(DeleteOf(s, id)) && Departures(DeleteOf(s, id), now)
  {
    DeletedCells(s, id);
  }

  lemma DeleteKeeps(s: Sys, id: string, now: int)
    requires Inv(s, now) && id in s.born
    requires forall c :: c in s.conns && s.conns[c].checked ==> s.conns[c].session != id
    ensures Inv(DeleteOf(s, id), now)
  {
    DeletedCells(s, id);
    DeleteKeepsContents(s, id);
    DeleteKeepsDepartures(s, id, now);
    ConnsStay(s, DeleteOf(s, id));
  }

  lemma SweepKeeps(s: Sys, now: int)
    requires Inv(s, now)
    ensures Inv(SweepOf(s, now), now)
  {
    var t := SweepOf(s, now);
    forall id | id in s.born
      ensures t.table.cells[s.born[id]] ==
              if id in s.table.sessions && Expired(s.table.cells[s.born[id]], now)
              then Wipe(s.table.cells[s.born[id]]) else s.table.cells[s.born[id]]
      ensures id in t.wiped <==>
              id in s.wiped || (id in s.table.sessions && Expired(s.table.cells[s.born[id]], now))
    {
      var k := s.born[id];
      if Stale(s.table, k, now) {
        var other :| other in s.table.sessions && s.table.sessions[other] == k;
        assert other == id;
      }
    }
  }

  lemma LookupKeeps(s: Sys, id: string, now: int)
    requires Inv(s, now)
    ensures Inv(s.(table := AfterLookup(s.table, id, now)), now)
  {
  }

  lemma UpdatedCells(t: Table, id: string, commitment: seq<Byte>, now: int)
    requires WellFormed(t) && Found(t, id, now)
    ensures var u := Update(t, id, commitment, now);
      && u.sessions == t.sessions && |u.cells| == |t.cells|
      && forall k :: 0 <= k < |t.cells| ==> u.cells[k] == t.cells[k].(commitment := u.cells[k].commitment)
  {
  }

  lemma UpdateKeepsTable(s: Sys, t: Table, now: int)
    requires Ids(s) && Contents(s) && Departures(s, now)
    requires t.sessions == s.table.sessions && |t.cells| == |s.table.cells|
    requires forall k :: 0 <= k < |t.cells| ==> t.cells[k] == s.table.cells[k].(commitment := t.cells[k].commitment)
    ensures Ids(s.(table := t)) && Contents(s.(table := t)) && Departures(s.(table := t), now)
  {
  }

  lemma UpdateKeeps(s: Sys, id: string, commitment: seq<Byte>, now: int)
    requires Inv(s, now)
    ensures Inv(s.(table := Update(s.table, id, commitment, now)), now)
  {
    if Found(s.table, id, now) {
      var t := Update(s.table, id, commitment, now);
      UpdatedCells(s.table, id, commitment, now);
      UpdateKeepsTable(s, t, now);
      ConnsStay(s, s.(table := t));
    } else {
      LookupKeeps(s, id, now);
    }
  }

  lemma RequestKeepsTable(s: Sys, c: nat, id: string, tbs: seq<Byte>, user: int, host: int, until: int, now: int)
    requires Ids(s) && Contents(s) && Departures(s, now) && c in s.conns && id !in s.born && id != ""
    ensures var t := Requested(s, c, id, tbs, user, host, until);
      Ids(t) && Contents(t) && Departures(t, now)
  {
    var t := Requested(s, c, id, tbs, user, host, until);
    forall k | 0 <= k < |s.table.cells| ensures t.table.cells[k] == s.table.cells[k] {
    }
  }

  lemma RequestKeepsConns(s: Sys, c: nat, id: string, tbs: seq<Byte>, user: int, host: int, until: int)
    requires Ids(s) && Conns(s) && c in s.conns && !s.conns[c].checked && id !in s.born && id != ""
    requires Ids(Requested(s, c, id, tbs, user, host, until))
    ensures Conns(Requested(s, c, id, tbs, user, host, until))
  {
    var t := Requested(s, c, id, tbs, user, host, until);
    forall d | d in t.conns && t.conns[d].session != ""
      ensures t.conns[d].session in t.born && t.born[t.conns[d].session] == t.conns[d].cell
      ensures t.table.cells[t.conns[d].cell].made == t.conns[d].latest
    {
      if d != c {
        assert s.conns[d].session in s.born && s.conns[d].cell < |s.table.cells|;
      }
    }
    forall d | d in s.conns && d != c ensures s.conns[d].session != id {
      assert s.conns[d].session != "" ==> s.conns[d].session in s.born;
    }
  }

  lemma RequestKeeps(s: Sys, c: nat, id: string, tbs: seq<Byte>, user: int, host: int, until: int, now: int)
    requires Inv(s, now) && c in s.conns && !s.conns[c].checked && id !in s.born && id != ""
    ensures Inv(Requested(s, c, id, tbs, user, host, until), now)
  {
    RequestKeepsTable(s, c, id, tbs, user, host, until, now);
    RequestKeepsConns(s, c, id, tbs, user, host, until);
  }

  // A connection that still knows the same session.
  lemma ConnKeeps(s: Sys, c: nat, k: Conn, now: int)
    requires Inv(s, now) && c in s.conns
    requires k.session == s.conns[c].session && k.cell == s.conns[c].cell && k.latest == s.conns[c].latest
    requires k.checked ==> k.session != "" && k.session !in s.deleted
    ensures Inv(s.(conns := s.conns[c := k]), now)
  {
    var t := s.(conns := s.conns[c := k]);
    assert Ids(t) && Contents(t) && Departures(t, now);
    ConnKeepsConns(s, c, k);
  }

  lemma ConnKeepsConns(s: Sys, c: nat, k: Conn)
    requires Ids(s) && Conns(s) && c in s.conns
    requires k.session == s.conns[c].session && k.cell == s.conns[c].cell && k.latest == s.conns[c].latest
    requires k.checked ==> k.session != "" && k.session !in s.deleted
    ensures Conns(s.(conns := s.conns[c := k]))
  {
  }

  lemma KnownSession(s: Sys, c: nat)
    requires Ids(s) && Conns(s) && c in s.conns && s.conns[c].session != ""
    ensures s.conns[c].session in s.born && s.born[s.conns[c].session] == s.conns[c].cell < |s.table.cells|
    ensures s.table.cells[s.conns[c].cell].made == s.conns[c].latest
    ensures forall d :: d in s.conns && d != c ==> s.conns[d].session != s.conns[c].session
  {
  }

  lemma Round1Succeeds(s: Sys, c: nat, commitment: seq<Byte>, now: int)
    requires Inv(s, now) && c in s.conns && !s.conns[c].checked && s.conns[c].session != ""
    ensures Inv(Round1Of(s, c, s.conns[c].session, Succeeds(commitment), now), now)
  {
    var k := s.conns[c];
    KnownSession(s, c);
    var s2 := s.(table := Update(s.table, k.session, commitment, now));
    UpdateKeeps(s, k.session, commitment, now);
    if Found(s.table, k.session, now) {
      ConnKeeps(s2, c, k.(committed := true, frost := true), now);
    } else {
      ConnKeeps(s2, c, k.(committed := true), now);
      DeleteKeeps(s2.(conns := s.conns[c := k.(committed := true)]), k.session, now);
    }
  }

  lemma Round1Keeps(s: Sys, c: nat, session: string, o: Outcome, now: int)
    requires Inv(s, now) && c in s.conns && !s.conns[c].checked
    ensures Inv(Round1Of(s, c, session, o, now), now)
  {
    var k := s.conns[c];
    if k.session != "" && session == k.session && !o.BadPayload? {
      ConnKeeps(s, c, k.(committed := true), now);
      match o
      case RoundFails =>
        KnownSession(s, c);
        DeleteKeeps(s.(conns := s.conns[c := k.(committed := true)]), k.session, now);
      case Succeeds(commitment) => Round1Succeeds(s, c, commitment, now);
      case _ =>
    }
  }

  lemma LooksKeeps(s: Sys, c: nat, session: string, now: int)
    requires Inv(s, now) && c in s.conns && !s.conns[c].checked
    ensures Inv(Round2LooksOf(s, c, session, now), now)
  {
    var k := s.conns[c];
    if k.session != "" && session == k.session && k.committed && k.frost {
      var s1 := s.(table := AfterLookup(s.table, k.session, now));
      LookupKeeps(s, k.session, now);
      if Found(s.table, k.session, now) {
        ConnKeeps(s1, c, k.(checked := true), now);
      }
    }
  }

  lemma SignsKeeps(s: Sys, c: nat, o: Outcome, now: int)
    requires Inv(s, now) && c in s.conns && s.conns[c].checked
    ensures Inv(Round2SignsOf(s, c, o), now)
  {
    var k := s.conns[c];
    KnownSession(s, c);
    ConnKeeps(s, c, k.(checked := false), now);
    if o.RoundFails? {
      DeleteKeeps(s.(conns := s.conns[c := k.(checked := false)]), k.session, now);
    }
  }

  lemma DisconnectKeeps(s: Sys, c: nat, now: int)
    requires Inv(s, now) && c in s.conns && !s.conns[c].checked
    ensures Inv(DisconnectOf(s, c), now)
  {
    var s1 := s.(conns := s.conns - {c});
    assert Conns(s1);
    if s.conns[c].session != "" {
      KnownSession(s, c);
      DeleteKeeps(s1, s.conns[c].session, now);
    }
  }

  lemma ConnectKeeps(s: Sys, e: Event, now: int)
    requires Inv(s, now) && Enabled(s, e) && e.Connects?
    ensures Inv(Step(s, e, now), now)
  {
  }

  lemma StepKeepsInv(s: Sys, e: Event, clock: int, now: int)
    requires Inv(s, clock) && clock <= now && Enabled(s, e)
    ensures Inv(Step(s, e, now), now)
  {
    LaterKeeps(s, clock, now);
    if e.Connects? {
      ConnectKeeps(s, e, now);
    } else if e.RequestCert? {
      RequestCertKeeps(s, e, now);
    } else if e.Disconnects? || e.Sweeps? {
      GoingKeeps(s, e, now);
    } else {
      RoundsKeep(s, e, now);
    }
  }

  lemma RequestKeepsAs(s: Sys, c: nat, id: string, tbs: seq<Byte>, user: int, host: int, until: int, now: int, t: Sys)
    requires Inv(s, now) && c in s.conns && !s.conns[c].checked && id !in s.born && id != ""
    requires t == Requested(s, c, id, tbs, user, host, until)
    ensures Inv(t, now)
  {
    RequestKeeps(s, c, id, tbs, user, host, until, now);
  }

  lemma RequestCertKeeps(s: Sys, e: Event, now: int)
    requires Inv(s, now) && Enabled(s, e) && e.RequestCert?
    ensures Inv(Step(s, e, now), now)
  {
    RequestStep(s, e, now);
    RequestKeepsAs(s, e.conn, e.id, e.tbs, e.user, e.host, now + e.expiry, now, Step(s, e, now));
  }

  lemma RequestStep(s: Sys, e: Event, now: int)
    requires WellFormed(s.table) && Enabled(s, e) && e.RequestCert?
    ensures e.conn in s.conns && !s.conns[e.conn].checked && e.id !in s.born && e.id != ""
    ensures Step(s, e, now) == Requested(s, e.conn, e.id, e.tbs, e.user, e.host, now + e.expiry)
  {
  }

  lemma GoingKeeps(s: Sys, e: Event, now: int)
    requires Inv(s, now) && Enabled(s, e) && (e.Disconnects? || e.Sweeps?)
    ensures Inv(Step(s, e, now), now)
  {
    if e.Disconnects? {
      DisconnectKeeps(s, e.conn, now);
      assert Step(s, e, now) == DisconnectOf(s, e.conn);
    } else {
      SweepKeeps(s, now);
      assert Step(s, e, now) == SweepOf(s, now);
    }
  }

  lemma RoundsKeep(s: Sys, e: Event, now: int)
    requires Inv(s, now) && Enabled(s, e) && (e.Round1? || e.Round2Looks? || e.Round2Signs?)
    ensures Inv(Step(s, e, now), now)
  {
    match e
    case Round1(c, session, o) => Round1Keeps(s, c, session, o, now);
    case Round2Looks(c, session) => LooksKeeps(s, c, session, now);
    case Round2Signs(c, o) => SignsKeeps(s, c, o, now);
  }

  // ------------------------------------------------------------------ runs

  datatype Timed = Timed(e: Event, at: int)

  ghost predicate Possible(es: seq<Timed>)
    decreases |es|, 0
  {
    es == [] ||
    (var init, last := es[..|es| - 1], es[|es| - 1];
     Possible(init) && Now(init) <= last.at && Enabled(Run(init), last.e))
  }

  ghost function Run(es: seq<Timed>): (s: Sys)
    requires Possible(es)
    ensures Inv(s, Now(es))
    decreases |es|, 1
  {
    if es == [] then START
    else
      var init, last := es[..|es| - 1], es[|es| - 1];
      StepKeepsInv(Run(init), last.e, Now(init), last.at);
      Step(Run(init), last.e, last.at)
  }

  ghost function Now(es: seq<Timed>): int
    decreases |es|, 0
  {
    if es == [] then 0 else es[|es| - 1].at
  }

  /** Round 2 signs what the connection's latest request made, whatever was wiped meanwhile in the table
      that shares the array, unless the session has expired since round 2 looked it up. */
  lemma Round2SignsTheLatestRequest(es: seq<Timed>, c: nat)
    requires Possible(es) && c in Run(es).conns && Run(es).conns[c].checked
    requires !Expired(Run(es).table.cells[Run(es).conns[c].cell], Now(es))
    ensures GivenToSign(Run(es), c) == Run(es).conns[c].latest
  {
    KnownSession(Run(es), c);
  }

  /** With the handler as one step there is no meanwhile: what passes the lookup is signed intact. */
  lemma HandlerAsOneStep(es: seq<Timed>, c: nat, session: string, now: int)
    requires Possible(es) && Now(es) <= now && Enabled(Run(es), Round2Looks(c, session))
    requires Step(Run(es), Round2Looks(c, session), now).conns[c].checked
    ensures GivenToSign(Step(Run(es), Round2Looks(c, session), now), c) == Run(es).conns[c].latest
  {
    var longer := es + [Timed(Round2Looks(c, session), now)];
    assert longer[..|es|] == es;
    Round2SignsTheLatestRequest(longer, c);
  }

  // A sweep has run later than this.
  predicate SweptAfter(es: seq<Timed>, until: int) {
    exists i :: 0 <= i < |es| && es[i].e.Sweeps? && es[i].at > until
  }

  lemma {:induction false} TimesAreOrdered(es: seq<Timed>, i: nat)
    requires Possible(es) && i < |es|
    ensures es[i].at <= Now(es)
  {
    if i < |es| - 1 {
      TimesAreOrdered(es[..|es| - 1], i);
    }
  }

  // A session that a connection has looked up and is about to sign: in the table, or swept.
  ghost predicate AboutToSign(s: Sys, c: nat)
    requires Ids(s)
  {
    c in s.conns && s.conns[c].checked &&
    (s.conns[c].session in s.table.sessions || s.conns[c].session in s.wiped)
  }

  lemma SweepWipes(s: Sys, c: nat, clock: int, now: int)
    requires Inv(s, clock) && clock <= now && AboutToSign(s, c)
    ensures var t := SweepOf(s, now); var k := s.conns[c];
      && Inv(t, now) && AboutToSign(t, c) && t.conns == s.conns
      && (k.session in t.wiped <==> k.session in s.wiped || Expired(s.table.cells[k.cell], now))
      && t.table.cells[k.cell].expiresAt == s.table.cells[k.cell].expiresAt
  {
    LaterKeeps(s, clock, now);
    SweepKeeps(s, now);
    KnownSession(s, c);
    KnownSession(SweepOf(s, now), c);
  }

  lemma DeleteSpares(s: Sys, id: string, c: nat)
    requires Ids(s) && Conns(s) && id in s.born && AboutToSign(s, c) && s.conns[c].session != id
    ensures var t := DeleteOf(s, id); var k := s.conns[c];
      && Ids(t) && AboutToSign(t, c) && (k.session in t.wiped <==> k.session in s.wiped)
      && k.cell < |t.table.cells| && t.table.cells[k.cell].expiresAt == s.table.cells[k.cell].expiresAt
  {
    KnownSession(s, c);
    DeletedCells(s, id);
  }

  // The session of a connection that is about to sign, left as it was.
  ghost predicate Spared(s: Sys, t: Sys, c: nat)
    requires Ids(s) && Conns(s) && AboutToSign(s, c)
  {
    var k := s.conns[c];
    && Ids(t) && c in t.conns && t.conns[c] == k && AboutToSign(t, c)
    && (k.session in t.wiped <==> k.session in s.wiped)
    && k.cell < |s.table.cells| && k.cell < |t.table.cells|
    && t.table.cells[k.cell].expiresAt == s.table.cells[k.cell].expiresAt
  }

  lemma UpdateSpares(s: Sys, id: string, commitment: seq<Byte>, c: nat, now: int)
    requires Inv(s, now) && AboutToSign(s, c) && id in s.born && s.conns[c].session != id
    ensures Spared(s, s.(table := Update(s.table, id, commitment, now)), c)
  {
    KnownSession(s, c);
    UpdateKeeps(s, id, commitment, now);
    if Found(s.table, id, now) {
      UpdatedCells(s.table, id, commitment, now);
    }
  }

  // Another connection's state is nothing to this one.
  lemma ConnSpares(s: Sys, d: nat, k: Conn, c: nat)
    requires Ids(s) && Conns(s) && AboutToSign(s, c) && d != c
    ensures Spared(s, s.(conns := s.conns[d := k]), c)
  {
    KnownSession(s, c);
  }

  lemma LoseSpares(s: Sys, id: string, commitment: seq<Byte>, c: nat, now: int)
    requires Inv(s, now) && AboutToSign(s, c) && id in s.born && s.conns[c].session != id
    ensures Spared(s, DeleteOf(s.(table := Update(s.table, id, commitment, now)), id), c)
  {
    var s2 := s.(table := Update(s.table, id, commitment, now));
    UpdateSpares(s, id, commitment, c, now);
    UpdateKeeps(s, id, commitment, now);
    DeleteSpares(s2, id, c);
  }

  lemma CommitSpares(s: Sys, d: nat, c: nat, commitment: seq<Byte>, now: int)
    requires Inv(s, now) && AboutToSign(s, c) && d in s.conns && d != c && !s.conns[d].checked
    requires s.conns[d].session != ""
    ensures Spared(s, Round1Of(s, d, s.conns[d].session, Succeeds(commitment), now), c)
  {
    var k := s.conns[d];
    KnownSession(s, d);
    var s1 := s.(conns := s.conns[d := k.(committed := true)]);
    ConnKeeps(s, d, k.(committed := true), now);
    ConnSpares(s, d, k.(committed := true), c);
    if Found(s1.table, k.session, now) {
      UpdateSpares(s1, k.session, commitment, c, now);
    } else {
      LoseSpares(s1, k.session, commitment, c, now);
    }
  }

  lemma Round1Spares(s: Sys, c: nat, d: nat, session: string, o: Outcome, now: int)
    requires Inv(s, now) && AboutToSign(s, c) && d in s.conns && d != c && !s.conns[d].checked
    ensures Spared(s, Round1Of(s, d, session, o, now), c)
  {
    var k := s.conns[d];
    KnownSession(s, c);
    if k.session != "" && session == k.session && !o.BadPayload? {
      KnownSession(s, d);
      ConnKeeps(s, d, k.(committed := true), now);
      match o
      case RoundFails => DeleteSpares(s.(conns := s.conns[d := k.(committed := true)]), k.session, c);
      case Succeeds(commitment) => CommitSpares(s, d, c, commitment, now);
      case _ =>
    }
  }

  lemma SignsSpares(s: Sys, d: nat, o: Outcome, c: nat, now: int)
    requires Inv(s, now) && AboutToSign(s, c) && d in s.conns && d != c && s.conns[d].checked
    ensures Spared(s, Round2SignsOf(s, d, o), c)
  {
    var k := s.conns[d].(checked := false);
    KnownSession(s, d);
    ConnKeeps(s, d, k, now);
    ConnSpares(s, d, k, c);
    if o.RoundFails? {
      DeleteSpares(s.(conns := s.conns[d := k]), k.session, c);
    }
  }

  lemma DisconnectSpares(s: Sys, d: nat, c: nat)
    requires Ids(s) && Conns(s) && AboutToSign(s, c) && d in s.conns && d != c
    ensures Spared(s, DisconnectOf(s, d), c)
  {
    KnownSession(s, c);
    if s.conns[d].session != "" {
      KnownSession(s, d);
      DeleteSpares(s.(conns := s.conns - {d}), s.conns[d].session, c);
    }
  }

  lemma LookupSpares(s: Sys, d: nat, session: string, c: nat, now: int)
    requires Ids(s) && Conns(s) && AboutToSign(s, c) && d in s.conns && d != c
    ensures Spared(s, Round2LooksOf(s, d, session, now), c)
  {
    KnownSession(s, c);
  }

  lemma RequestSpares(s: Sys, d: nat, id: string, tbs: seq<Byte>, user: int, host: int, until: int, c: nat)
    requires Ids(s) && Conns(s) && AboutToSign(s, c) && d in s.conns && d != c && id !in s.born && id != ""
    ensures Spared(s, Requested(s, d, id, tbs, user, host, until), c)
  {
    KnownSession(s, c);
    RequestedIds(s, d, id, tbs, user, host, until);
  }

  lemma RequestedIds(s: Sys, d: nat, id: string, tbs: seq<Byte>, user: int, host: int, until: int)
    requires Ids(s) && d in s.conns && id !in s.born && id != ""
    ensures Ids(Requested(s, d, id, tbs, user, host, until))
    ensures forall k :: 0 <= k < |s.table.cells| ==>
      Requested(s, d, id, tbs, user, host, until).table.cells[k] == s.table.cells[k]
  {
  }

  lemma OthersSpare(s: Sys, e: Event, c: nat, now: int)
    requires Inv(s, now) && Enabled(s, e) && AboutToSign(s, c)
    requires !e.Sweeps? && !(e.Round2Signs? && e.conn == c)
    ensures Spared(s, Step(s, e, now), c)
  {
    match e
    case Connects(d) => ConnSpares(s, d, IDLE, c);
    case RequestCert(d, id, tbs, user, host, expiry) => RequestSpares(s, d, id, tbs, user, host, now + expiry, c);
    case Round1(d, session, o) => Round1Spares(s, c, d, session, o, now);
    case Round2Looks(d, session) => LookupSpares(s, d, session, c, now);
    case Round2Signs(d, o) => SignsSpares(s, d, o, c, now);
    case Disconnects(d) => DisconnectSpares(s, d, c);
  }

  // One event seen from a connection that is about to sign and does not sign yet.
  lemma WaitingStep(s: Sys, e: Event, c: nat, clock: int, now: int)
    requires Inv(s, clock) && clock <= now && Enabled(s, e) && AboutToSign(s, c) && !(e.Round2Signs? && e.conn == c)
    ensures var t := Step(s, e, now); var k := s.conns[c];
      && Ids(t) && AboutToSign(t, c) && t.conns[c] == k && k.cell < |s.table.cells| && k.cell < |t.table.cells|
      && t.table.cells[k.cell].expiresAt == s.table.cells[k.cell].expiresAt
      && (k.session in t.wiped <==>
           k.session in s.wiped || (e.Sweeps? && now > s.table.cells[k.cell].expiresAt))
  {
    LaterKeeps(s, clock, now);
    KnownSession(s, c);
    if e.Sweeps? {
      SweepWipes(s, c, clock, now);
    } else {
      OthersSpare(s, e, c, now);
    }
  }

  // Where a connection's wish to sign begins: what passes the lookup is there, unwiped and unexpired.
  lemma LookupBegins(s: Sys, c: nat, session: string, now: int)
    requires Inv(s, now) && c in s.conns && !s.conns[c].checked
    requires Round2LooksOf(s, c, session, now).conns[c].checked
    ensures var t := Round2LooksOf(s, c, session, now);
      && AboutToSign(t, c) && t.conns[c].session !in t.wiped
      && t.conns[c].cell < |t.table.cells| && !Expired(t.table.cells[t.conns[c].cell], now)
  {
    KnownSession(s, c);
    LooksKeeps(s, c, session, now);
  }

  lemma NotYetChecked(s: Sys, e: Event, c: nat, now: int)
    requires WellFormed(s.table) && Enabled(s, e) && c in Step(s, e, now).conns && Step(s, e, now).conns[c].checked
    requires !(c in s.conns && s.conns[c].checked)
    ensures e.Round2Looks? && e.conn == c
  {
    match e
    case Round1(d, session, o) =>
      Round1Parts(s, d, session, o, now);
      assert false;
    case Round2Looks(d, _) => assert d == c;
    case Connects(_) => assert false;
    case RequestCert(_, _, _, _, _, _) => assert false;
    case Round2Signs(_, _) => assert false;
    case Disconnects(_) => assert false;
    case Sweeps => assert false;
  }

  // The case of the next lemma in which the last event is the lookup.
  lemma JustLookedUp(es: seq<Timed>, c: nat)
    requires Possible(es) && es != [] && c in Run(es).conns && Run(es).conns[c].checked
    requires var s := Run(es[..|es| - 1]); !(c in s.conns && s.conns[c].checked)
    ensures var s := Run(es); var k := s.conns[c];
      && AboutToSign(s, c) && k.cell < |s.table.cells| && k.session !in s.wiped
      && !SweptAfter(es, s.table.cells[k.cell].expiresAt)
  {
    var init, e, at := es[..|es| - 1], es[|es| - 1].e, es[|es| - 1].at;
    NotYetChecked(Run(init), e, c, at);
    LaterKeeps(Run(init), Now(init), at);
    LookupBegins(Run(init), c, e.session, at);
    forall i | 0 <= i < |es| ensures es[i].at <= at {
      TimesAreOrdered(es, i);
    }
  }

  // A connection about to sign a session whose array was wiped exactly if a sweep came after its expiry.
  ghost predicate WipedBySweeps(es: seq<Timed>, s: Sys, c: nat) {
    && Ids(s) && AboutToSign(s, c) && s.conns[c].cell < |s.table.cells|
    && (s.conns[c].session in s.wiped <==> SweptAfter(es, s.table.cells[s.conns[c].cell].expiresAt))
  }

  lemma OneEventMore(es: seq<Timed>, s: Sys, c: nat, clock: int)
    requires es != [] && Inv(s, clock) && clock <= es[|es| - 1].at && Enabled(s, es[|es| - 1].e)
    requires WipedBySweeps(es[..|es| - 1], s, c) && !(es[|es| - 1].e.Round2Signs? && es[|es| - 1].e.conn == c)
    ensures WipedBySweeps(es, Step(s, es[|es| - 1].e, es[|es| - 1].at), c)
  {
    SweptOneMore(es, s.table.cells[s.conns[c].cell].expiresAt);
    WaitingStep(s, es[|es| - 1].e, c, clock, es[|es| - 1].at);
  }

  lemma SigningUnchecks(s: Sys, e: Event, c: nat, now: int)
    requires WellFormed(s.table) && Enabled(s, e) && c in Step(s, e, now).conns && Step(s, e, now).conns[c].checked
    ensures !(e.Round2Signs? && e.conn == c)
  {
  }

  /** In every run. */
  lemma {:induction false} WipedExactlyBySweeps(es: seq<Timed>, c: nat)
    requires Possible(es) && c in Run(es).conns && Run(es).conns[c].checked
    ensures WipedBySweeps(es, Run(es), c)
  {
    var init := es[..|es| - 1];
    if c in Run(init).conns && Run(init).conns[c].checked {
      WipedExactlyBySweeps(init, c);
      SigningUnchecks(Run(init), es[|es| - 1].e, c, es[|es| - 1].at);
      OneEventMore(es, Run(init), c, Now(init));
    } else {
      JustLookedUp(es, c);
    }
  }

  lemma SweptOneMore(es: seq<Timed>, until: int)
    requires es != []
    ensures SweptAfter(es, until) <==>
      SweptAfter(es[..|es| - 1], until) || (es[|es| - 1].e.Sweeps? && es[|es| - 1].at > until)
  {
    var init := es[..|es| - 1];
    if SweptAfter(init, until) {
      var i :| 0 <= i < |init| && init[i].e.Sweeps? && init[i].at > until;
      assert es[i] == init[i];
    }
    if SweptAfter(es, until) && !(es[|es| - 1].e.Sweeps? && es[|es| - 1].at > until) {
      var i :| 0 <= i < |es| && es[i].e.Sweeps? && es[i].at > until;
      assert init[i] == es[i];
    }
  }

  /** In general the bytes are the latest request's exactly when no sweep has run later than the session
      expires (which, the lookup having found it unexpired, means since the lookup), or they were all
      zeros to begin with. */
  lemma SignedBytesExactly(es: seq<Timed>, c: nat)
    requires Possible(es) && c in Run(es).conns && Run(es).conns[c].checked
    ensures var s := Run(es); var k := s.conns[c];
      && k.cell < |s.table.cells|
      && (GivenToSign(s, c) == k.latest <==>
           !SweptAfter(es, s.table.cells[k.cell].expiresAt) || k.latest == Zeros(|k.latest|))
  {
    WipedExactlyBySweeps(es, c);
    KnownSession(Run(es), c);
  }

  /** A lookup succeeds for exactly the sessions made, not deleted and not expired, whatever sweeps ran
      and whatever earlier lookups dropped. */
  lemma LookupFindsExactlyTheLive(es: seq<Timed>, id: string, now: int)
    requires Possible(es) && Now(es) <= now
    ensures Found(Run(es).table, id, now) <==>
      id in Run(es).born && id !in Run(es).deleted && !Expired(Run(es).table.cells[Run(es).born[id]], now)
  {
  }

  /** Every array holds its TBS bytes or zeros; a session that has left the table is wiped, unless it had
      expired before anything removed it. */
  lemma WhatIsWiped(es: seq<Timed>, id: string)
    requires Possible(es) && id in Run(es).born
    ensures var s := Run(es); var c := s.table.cells[s.born[id]];
      && c.tbs == (if id in s.wiped then Zeros(|c.made|) else c.made)
      && (id in s.table.sessions ==> id !in s.wiped)
      && (id !in s.table.sessions && !Expired(c, Now(es)) ==> id in s.wiped)
  {
  }

  lemma ExtendPossible(es: seq<Timed>, e: Event, at: int)
    requires Possible(es) && Now(es) <= at && Enabled(Run(es), e)
    ensures Possible(es + [Timed(e, at)])
  {
    var more := es + [Timed(e, at)];
    assert more[..|more| - 1] == es && more[|more| - 1] == Timed(e, at);
  }

  lemma Extend(es: seq<Timed>, e: Event, at: int)
    requires Possible(es) && Now(es) <= at && Enabled(Run(es), e)
    ensures Possible(es + [Timed(e, at)]) && Run(es + [Timed(e, at)]) == Step(Run(es), e, at)
    ensures Now(es + [Timed(e, at)]) == at
  {
    var more := es + [Timed(e, at)];
    ExtendPossible(es, e, at);
    assert more[..|more| - 1] == es && more[|more| - 1] == Timed(e, at);
  }

  lemma SweptSession(s: Sys, c: nat, now: int)
    requires Inv(s, now) && c in s.conns && s.conns[c].checked
    requires s.conns[c].session in s.table.sessions && Expired(s.table.cells[s.conns[c].cell], now)
    ensures Inv(SweepOf(s, now), now) && SweepOf(s, now).conns == s.conns
    ensures GivenToSign(SweepOf(s, now), c) == Zeros(|s.conns[c].latest|)
  {
    SweepKeeps(s, now);
    KnownSession(s, c);
    KnownSession(SweepOf(s, now), c);
    assert s.conns[c].session in SweepOf(s, now).wiped;
  }

  // One connection and its one session, at the given point of the protocol.
  ghost predicate Alone(s: Sys, k: Conn) {
    && s.conns == map[0 := k] && s.table.sessions == map["s" := 0] && |s.table.cells| == 1
    && s.table.cells[0].expiresAt == 60 && k.session == "s" && k.cell == 0
  }

  lemma RequestedRun(tbs: seq<Byte>) returns (es: seq<Timed>)
    ensures Possible(es) && Now(es) == 0 && Alone(Run(es), Conn("s", 0, false, false, false, tbs))
  {
    var e1 := [Timed(Connects(0), 0)];
    Extend([], Connects(0), 0);
    assert [] + e1 == e1;
    Extend(e1, RequestCert(0, "s", tbs, 1, 1, 60), 0);
    es := e1 + [Timed(RequestCert(0, "s", tbs, 1, 1, 60), 0)];
  }

  lemma Round1Alone(s: Sys, k: Conn)
    requires Alone(s, k)
    ensures Alone(Round1Of(s, 0, "s", Succeeds([]), 1), k.(committed := true, frost := true))
  {
  }

  lemma LooksAlone(s: Sys, k: Conn)
    requires Alone(s, k) && k.committed && k.frost
    ensures Alone(Round2LooksOf(s, 0, "s", 60), k.(checked := true))
  {
  }

  lemma CheckedRun(tbs: seq<Byte>) returns (es: seq<Timed>)
    ensures Possible(es) && Now(es) == 60 && Alone(Run(es), Conn("s", 0, true, true, true, tbs))
  {
    var k := Conn("s", 0, false, false, false, tbs);
    var e2 := RequestedRun(tbs);
    Extend(e2, Round1(0, "s", Succeeds([])), 1);
    Round1Alone(Run(e2), k);
    var e3 := e2 + [Timed(Round1(0, "s", Succeeds([])), 1)];
    Extend(e3, Round2Looks(0, "s"), 60);
    LooksAlone(Run(e3), k.(committed := true, frost := true));
    es := e3 + [Timed(Round2Looks(0, "s"), 60)];
  }

  /** Between the lookup and the signing a sweep can come: a session of 60 seconds looked up in its last
      one and swept in the next is signed as zeros. */
  lemma SweptBetweenLookupAndSigning(tbs: seq<Byte>)
    ensures exists es: seq<Timed> ::
      && Possible(es) && 0 in Run(es).conns && Run(es).conns[0].checked && Run(es).conns[0].latest == tbs
      && GivenToSign(Run(es), 0) == Zeros(|tbs|)
  {
    var e4 := CheckedRun(tbs);
    Extend(e4, Sweeps, 61);
    var e5 := e4 + [Timed(Sweeps, 61)];
    LaterKeeps(Run(e4), 60, 61);
    SweptSession(Run(e4), 0, 61);
    assert Possible(e5);
  }
}

/** The objects: sessions that share their arrays with the connections that made them. */
module Signing {
  import opened Common
  import opened SigningModel

  function Opt(a: array?<Byte>): set<object> {
    if a == null then {} else {a}
  }

  function BytesOf(a: array?<Byte>): seq<Byte>
    reads Opt(a)
  {
    if a == null then [] else a[..]
  }

  method ZeroArray(a: array?<Byte>)
    modifies Opt(a)
    ensures BytesOf(a) == Zeros(|old(BytesOf(a))|)
  {
    if a != null {
      for i := 0 to a.Length
        invariant forall k :: 0 <= k < i ==> a[k] == 0
      {
        a[i] := 0;
      }
      assert a[..] == Zeros(a.Length);
    }
  }

  method Fresh(bytes: seq<Byte>) returns (a: array<Byte>)
    ensures fresh(a) && a[..] == bytes
  {
    a := new Byte[|bytes|](i requires 0 <= i < |bytes| => bytes[i]);
  }

  class SigningSession {
    const id: string
    ghost const index: nat
    const tbsData: array<Byte>
    var serverNonces: array?<Byte>
    var commitment: array?<Byte>
    const userID: int
    const hostID: int
    const expiresAt: int
    ghost const made: seq<Byte>

    constructor (id: string, tbsData: array<Byte>, userID: int, hostID: int, expiresAt: int, ghost index: nat)
      ensures this.id == id && this.tbsData == tbsData && this.index == index
      ensures serverNonces == commitment == null
      ensures Value() == Cell(tbsData[..], tbsData[..], [], userID, hostID, expiresAt)
    {
      this.id, this.tbsData, this.userID, this.hostID, this.expiresAt := id, tbsData, userID, hostID, expiresAt;
      this.index := index;
      serverNonces, commitment := null, null;
      made := tbsData[..];
    }

    ghost function Value(): Cell
      reads this, tbsData, Opt(commitment)
    {
      Cell(tbsData[..], made, BytesOf(commitment), userID, hostID, expiresAt)
    }

    /** The arrays keep their places and lose their contents, whichever of them are one and the same. */
    method ZeroSensitiveData()
      modifies tbsData, Opt(serverNonces), Opt(commitment)
      ensures Value() == Wipe(old(Value()))
      ensures BytesOf(serverNonces) == Zeros(|old(BytesOf(serverNonces))|)
    {
      ZeroArray(tbsData);
      ZeroArray(serverNonces);
      ZeroArray(commitment);
    }
  }

  // What the table leads to is as it was made.
  ghost predicate Intact(t: Table) {
    OneToOne(t) && forall id :: id in t.sessions ==> t.cells[t.sessions[id]].tbs == t.cells[t.sessions[id]].made
  }

  // The connection's session is the one it thinks, if it is still there.
  ghost predicate Knows(t: Table, k: Conn) {
    k.session != "" ==>
      && k.cell < |t.cells| && t.cells[k.cell].made == k.latest
      && (k.session in t.sessions ==> t.sessions[k.session] == k.cell)
  }

  ghost predicate Bond(t: Table, k: Conn) {
    Intact(t) && Knows(t, k)
  }

  lemma CreateKeepsBond(t: Table, k: Conn, id: string, c: Cell)
    requires Bond(t, k) && id !in t.sessions && id != k.session && c.tbs == c.made
    ensures Bond(Create(t, id, c), k)
  {
    var u := Create(t, id, c);
    assert u.cells[..|t.cells|] == t.cells;
  }

  lemma RequestBonds(t: Table, k: Conn, id: string, c: Cell)
    requires Bond(t, k) && id !in t.sessions && c.tbs == c.made
    ensures Bond(Create(t, id, c), k.(session := id, cell := |t.cells|, latest := c.made))
  {
    var u := Create(t, id, c);
    assert u.cells[..|t.cells|] == t.cells;
  }

  lemma Round1KeepsBond(t: Table, k: Conn, session: string, o: Outcome, now: int)
    requires Bond(t, k)
    ensures Bond(Round1Table(t, k, session, o, now), Round1Conn(t, k, session, o, now))
  {
    match o
    case RoundFails => DeleteKeepsBond(t, k, session);
    case Succeeds(commitment) =>
      if Found(t, session, now) {
        UpdateKeepsBond(t, k, session, commitment, now);
      } else {
        LookupKeepsBond(t, k, session, now);
        DeleteKeepsBond(AfterLookup(t, session, now), k, session);
      }
    case _ =>
  }

  lemma Round2KeepsBond(t: Table, k: Conn, session: string, o: Outcome, now: int)
    requires Bond(t, k)
    ensures Bond(Round2Table(t, k, session, o, now), k)
  {
    LookupKeepsBond(t, k, session, now);
    DeleteKeepsBond(t, k, session);
  }

  lemma LookupKeepsBond(t: Table, k: Conn, id: string, now: int)
    requires Bond(t, k)
    ensures Bond(AfterLookup(t, id, now), k)
  {
  }

  lemma UpdateKeepsBond(t: Table, k: Conn, id: string, commitment: seq<Byte>, now: int)
    requires Bond(t, k)
    ensures Bond(Update(t, id, commitment, now), k)
  {
    if Found(t, id, now) {
      UpdatedCells(t, id, commitment, now);
    }
  }

  lemma DeleteKeepsBond(t: Table, k: Conn, id: string)
    requires Bond(t, k)
    ensures Bond(Delete(t, id), k)
  {
  }

  /** Whatever any connection has the table do, and whatever sweeps run, a connection's array is intact
      for as long as its session is in the table. */
  lemma OperationsKeepTheBond(t: Table, k: Conn, id: string, commitment: seq<Byte>, c: Cell, now: int)
    requires Bond(t, k)
    ensures id !in t.sessions && id != k.session && c.tbs == c.made ==> Bond(Create(t, id, c), k)
    ensures Bond(AfterLookup(t, id, now), k) && Bond(Delete(t, id), k)
    ensures Bond(Update(t, id, commitment, now), k) && Bond(SigningModel.Cleanup(t, now), k)
    ensures k.session != "" && k.session in t.sessions ==> t.cells[k.cell].tbs == k.latest
  {
    if id !in t.sessions && id != k.session && c.tbs == c.made {
      CreateKeepsBond(t, k, id, c);
    }
    LookupKeepsBond(t, k, id, now);
    UpdateKeepsBond(t, k, id, commitment, now);
    DeleteKeepsBond(t, k, id);
    CleanupKeepsBond(t, k, now);
  }

  lemma CleanupKeepsBond(t: Table, k: Conn, now: int)
    requires Bond(t, k)
    ensures Bond(SigningModel.Cleanup(t, now), k)
  {
    var u := SigningModel.Cleanup(t, now);
    forall id | id in u.sessions ensures u.cells[u.sessions[id]] == t.cells[t.sessions[id]] {
      assert !Stale(t, t.sessions[id], now);
    }
  }

  // t0 after a cleanup that has yet to look at the ids of `todo`.
  ghost predicate Partly(t0: Table, t: Table, todo: set<string>, now: int)
    requires WellFormed(t0)
  {
    && |t.cells| == |t0.cells|
    && (forall id :: id in t.sessions <==>
         id in t0.sessions && (id in todo || !Expired(t0.cells[t0.sessions[id]], now)))
    && (forall id :: id in t.sessions ==> t.sessions[id] == t0.sessions[id])
    && (forall id :: id in t0.sessions && id in t.sessions ==> t.cells[t0.sessions[id]] == t0.cells[t0.sessions[id]])
    && (forall id :: id in t0.sessions && id !in t.sessions ==>
         t.cells[t0.sessions[id]] == Wipe(t0.cells[t0.sessions[id]]))
    && (forall k :: 0 <= k < |t0.cells| && k !in t0.sessions.Values ==> t.cells[k] == t0.cells[k])
  }

  lemma PartlyStep(t0: Table, t: Table, todo: set<string>, id: string, now: int)
    requires OneToOne(t0) && Partly(t0, t, todo, now) && id in todo && todo <= t0.sessions.Keys
    ensures WellFormed(t) && id in t.sessions
    ensures Partly(t0, if Found(t, id, now) then t else Delete(t, id), todo - {id}, now)
  {
    assert t0.sessions[id] in t0.sessions.Values;
  }

  lemma PartlyStart(t: Table, now: int)
    requires WellFormed(t)
    ensures Partly(t, t, t.sessions.Keys, now)
  {
  }

  lemma PartlyDone(t0: Table, t: Table, now: int)
    requires OneToOne(t0) && Partly(t0, t, {}, now)
    ensures t == SigningModel.Cleanup(t0, now)
  {
    var u := SigningModel.Cleanup(t0, now);
    assert t.sessions == u.sessions;
    forall k | 0 <= k < |t.cells| ensures t.cells[k] == u.cells[k] {
      if k in t0.sessions.Values {
        var id :| id in t0.sessions && t0.sessions[id] == k;
      }
    }
  }

  // The map iteration's order: each key once.
  ghost predicate Covers(visited: seq<string>, todo: set<string>, keys: set<string>) {
    && (forall i, j :: 0 <= i < j < |visited| ==> visited[i] != visited[j])
    && (forall id :: id in keys <==> id in visited || id in todo)
    && (forall id :: id in visited ==> id !in todo)
  }

  function CleanOne(t: Table, id: string, now: int): (u: Table)
    requires WellFormed(t)
    ensures WellFormed(u)
  {
    if Found(t, id, now) then t else Delete(t, id)
  }

  ghost function Swept(t: Table, visited: seq<string>, now: int): (u: Table)
    requires WellFormed(t)
    ensures WellFormed(u)
  {
    if visited == [] then t
    else CleanOne(Swept(t, visited[..|visited| - 1], now), visited[|visited| - 1], now)
  }

  lemma {:induction false} SweptIsPartly(t: Table, visited: seq<string>, todo: set<string>, now: int)
    requires OneToOne(t) && Covers(visited, todo, t.sessions.Keys)
    ensures Partly(t, Swept(t, visited, now), todo, now)
  {
    if visited == [] {
      assert todo == t.sessions.Keys;
      PartlyStart(t, now);
    } else {
      var init, id := visited[..|visited| - 1], visited[|visited| - 1];
      assert visited == init + [id];
      SweptIsPartly(t, init, todo + {id}, now);
      PartlyStep(t, Swept(t, init, now), todo + {id}, id, now);
      assert todo + {id} - {id} == todo;
    }
  }

  lemma SweptNext(t: Table, visited: seq<string>, todo: set<string>, id: string, now: int)
    requires OneToOne(t) && Covers(visited, todo, t.sessions.Keys) && id in todo
    ensures id in Swept(t, visited, now).sessions
    ensures Covers(visited + [id], todo - {id}, t.sessions.Keys)
    ensures Swept(t, visited + [id], now) == CleanOne(Swept(t, visited, now), id, now)
  {
    SweptIsPartly(t, visited, todo, now);
    assert (visited + [id])[..|visited|] == visited;
  }

  lemma SweptAll(t: Table, visited: seq<string>, now: int)
    requires OneToOne(t) && Covers(visited, {}, t.sessions.Keys)
    ensures Swept(t, visited, now) == SigningModel.Cleanup(t, now)
  {
    SweptIsPartly(t, visited, {}, now);
    PartlyDone(t, Swept(t, visited, now), now);
  }

  class SessionManager {
    var sessions: map<string, SigningSession>
    const expiry: nat
    // Every session ever made, and what the table amounts to.
    ghost var all: seq<SigningSession>
    ghost var table: Table
    // Which session an array belongs to: no two share one.
    ghost var owner: map<object, nat>
    ghost var Repr: set<object>

    constructor (expiry: nat)
      ensures Valid() && table == Table([], map[]) && this.expiry == expiry
    {
      this.expiry := expiry;
      sessions, all, table, owner, Repr := map[], [], Table([], map[]), map[], {};
    }

    // An array of session i's and nobody else's.
    ghost predicate Mine(a: array?<Byte>, i: nat)
      reads this`owner, this`Repr
    {
      a != null ==> a in Repr && a in owner && owner[a] == i
    }

    // The objects: what every session holds is its own, and is what the table says.
    ghost predicate Objects(cells: seq<Cell>)
      reads this`all, this`owner, this`Repr, Repr
    {
      && this !in Repr && |cells| == |all|
      && (forall i :: 0 <= i < |all| ==> all[i].index == i && all[i] in Repr && Mine(all[i].tbsData, i))
      && (forall i :: 0 <= i < |all| ==> Mine(all[i].serverNonces, i) && Mine(all[i].commitment, i))
      && (forall i :: 0 <= i < |all| ==> all[i].Value() == cells[i])
    }

    ghost predicate Indexed()
      reads this`sessions, this`table, this`all
    {
      && (forall id :: id in table.sessions ==> table.sessions[id] < |all|)
      && sessions.Keys == table.sessions.Keys
      && (forall id :: id in sessions ==> sessions[id].id == id && sessions[id] == all[table.sessions[id]])
    }

    ghost predicate Valid()
      reads this, Repr
    {
      Objects(table.cells) && Indexed() && WellFormed(table)
    }

    // Nothing that is ours has been written.
    twostate lemma StillValid()
      requires old(Valid()) && unchanged(this) && unchanged(Repr)
      ensures Valid()
    {
    }

    method CreateSession(id: string, userID: int, hostID: int, tbsData: array<Byte>, now: int)
      returns (s: SigningSession)
      requires Valid() && tbsData !in owner
      modifies this
      ensures Valid() && fresh(s) && s.id == id && s.tbsData == tbsData && s.index == |old(all)|
      ensures all == old(all) + [s] && Repr == old(Repr) + {s, tbsData} && sessions == old(sessions)[id := s]
      ensures table == Create(old(table), id, Cell(tbsData[..], tbsData[..], [], userID, hostID, now + expiry))
    {
      s := new SigningSession(id, tbsData, userID, hostID, now + expiry, |all|);
      Enroll(s, table.cells);
      table := Create(table, id, s.Value());
      sessions := sessions[id := s];
    }

    // A session just made joins all sessions, and its array the arrays that are somebody's.
    ghost method Enroll(s: SigningSession, cells: seq<Cell>)
      requires Objects(cells) && s.index == |all| && s.tbsData !in owner
      requires s.serverNonces == null && s.commitment == null
      modifies this`owner, this`all, this`Repr
      ensures Objects(cells + [s.Value()])
      ensures all == old(all) + [s] && Repr == old(Repr) + {s, s.tbsData}
    {
      ghost var before := all;
      owner := owner[s.tbsData := |all|];
      Repr := Repr + {s, s.tbsData};
      all := all + [s];
      forall i | 0 <= i < |before|
        ensures all[i].index == i && all[i] in Repr && all[i].Value() == cells[i]
        ensures Mine(all[i].tbsData, i) && Mine(all[i].serverNonces, i) && Mine(all[i].commitment, i)
      {
        assert all[i] == before[i];
      }
    }

    // delete(sessions, id)
    method Forget(id: string)
      requires Valid() && id in sessions
      modifies this`sessions, this`table
      ensures Valid() && table == old(table).(sessions := old(table).sessions - {id})
    {
      sessions := sessions - {id};
      table := table.(sessions := table.sessions - {id});
    }

    // A session's number, and what the table says of it.
    lemma Filed(id: string)
      requires Valid() && id in sessions
      ensures var s := sessions[id];
        && s.index < |all| && all[s.index] == s && table.sessions[id] == s.index && table.cells[s.index] == s.Value()
        && s in Repr && Mine(s.tbsData, s.index) && Mine(s.serverNonces, s.index) && Mine(s.commitment, s.index)
    {
    }

    method GetSession(id: string, now: int) returns (s: SigningSession?)
      requires Valid()
      modifies this`sessions, this`table
      ensures Valid() && table == AfterLookup(old(table), id, now)
      ensures s != null <==> old(Found(table, id, now))
      ensures s != null ==> s == old(sessions)[id]
    {
      if id !in sessions {
        return null;
      }
      Filed(id);
      s := sessions[id];
      if now > s.expiresAt {
        Forget(id);
        return null;
      }
    }

    method WipeArrays(s: SigningSession, ghost cells: seq<Cell>)
      requires Objects(cells) && s.index < |all| && all[s.index] == s
      modifies s.tbsData, Opt(s.serverNonces), Opt(s.commitment)
      ensures Objects(cells[s.index := Wipe(cells[s.index])])
    {
      s.ZeroSensitiveData();
      assert forall j :: 0 <= j < |all| && j != s.index ==> all[j].Value() == old(all[j].Value());
    }

    method WipeSession(s: SigningSession)
      requires Valid() && s.index < |all| && all[s.index] == s
      modifies this`table, s.tbsData, Opt(s.serverNonces), Opt(s.commitment)
      ensures Valid() && table == old(table).(cells := old(table).cells[s.index := Wipe(old(table).cells[s.index])])
    {
      ghost var cells := table.cells[s.index := Wipe(table.cells[s.index])];
      WipeArrays(s, table.cells);
      table := table.(cells := cells);
    }

    method DeleteSession(id: string)
      requires Valid()
      modifies this`sessions, this`table, Repr
      ensures Valid() && table == Delete(old(table), id)
    {
      if id in sessions {
        Filed(id);
        WipeSession(sessions[id]);
        Forget(id);
      }
    }

    // New arrays are set down as a session's before it gets them.
    ghost method Adopt(index: nat, added: set<object>)
      requires Valid() && added !! owner.Keys && this !in added
      modifies this`owner, this`Repr
      ensures Valid() && Repr == old(Repr) + added
      ensures forall a :: a in added ==> a in owner && owner[a] == index
    {
      owner := map a | a in owner.Keys + added :: if a in added then index else owner[a];
      Repr := Repr + added;
    }

    method StoreNonces(s: SigningSession, serverNonces: array?<Byte>, ghost cells: seq<Cell>)
      requires Objects(cells) && s.index < |all| && all[s.index] == s && Mine(serverNonces, s.index)
      modifies s`serverNonces
      ensures Objects(cells)
    {
      s.serverNonces := serverNonces;
      assert forall j :: 0 <= j < |all| ==> all[j].Value() == old(all[j].Value());
    }

    method StoreCommitment(s: SigningSession, commitment: array?<Byte>, ghost cells: seq<Cell>)
      requires Objects(cells) && s.index < |all| && all[s.index] == s && Mine(commitment, s.index)
      modifies s`commitment
      ensures Objects(cells[s.index := cells[s.index].(commitment := old(BytesOf(commitment)))])
    {
      s.commitment := commitment;
      assert forall j :: 0 <= j < |all| && j != s.index ==> all[j].Value() == old(all[j].Value());
    }

    method SetArrays(s: SigningSession, serverNonces: array?<Byte>, commitment: array?<Byte>)
      requires Valid() && s.index < |all| && all[s.index] == s
      requires Mine(serverNonces, s.index) && Mine(commitment, s.index)
      modifies this`table, s`serverNonces, s`commitment
      ensures Valid()
      ensures table == old(table.(cells := table.cells[s.index :=
                                                       table.cells[s.index].(commitment := BytesOf(commitment))]))
    {
      ghost var cells := table.cells[s.index := table.cells[s.index].(commitment := BytesOf(commitment))];
      StoreNonces(s, serverNonces, table.cells);
      StoreCommitment(s, commitment, table.cells);
      table := table.(cells := cells);
    }

    method Attach(s: SigningSession, serverNonces: array?<Byte>, commitment: array?<Byte>)
      requires Valid() && s.index < |all| && all[s.index] == s
      requires (Opt(serverNonces) + Opt(commitment)) !! owner.Keys && this !in Opt(serverNonces) + Opt(commitment)
      modifies this`table, this`owner, this`Repr, s`serverNonces, s`commitment
      ensures Valid() && Repr == old(Repr) + (Opt(serverNonces) + Opt(commitment))
      ensures table == old(table.(cells := table.cells[s.index :=
                                                       table.cells[s.index].(commitment := BytesOf(commitment))]))
    {
      Adopt(s.index, Opt(serverNonces) + Opt(commitment));
      SetArrays(s, serverNonces, commitment);
    }

    /** The arrays become the session's: they may not be another's. */
    method UpdateSession(id: string, serverNonces: array?<Byte>, commitment: array?<Byte>, now: int) returns (ok: bool)
      requires Valid() && (Opt(serverNonces) + Opt(commitment)) !! owner.Keys
      modifies this`sessions, this`table, this`owner, this`Repr, Repr
      ensures Valid() && table == old(Update(table, id, BytesOf(commitment), now))
      ensures ok == old(Found(table, id, now))
      ensures Repr == if ok then old(Repr) + (Opt(serverNonces) + Opt(commitment)) else old(Repr)
    {
      if id !in sessions {
        return false;
      }
      Filed(id);
      var s := sessions[id];
      if now > s.expiresAt {
        Forget(id);
        return false;
      }
      Attach(s, serverNonces, commitment);
      return true;
    }

    method CleanupOne(id: string, now: int)
      requires Valid() && id in sessions
      modifies this`sessions, this`table, Repr
      ensures Valid() && table == CleanOne(old(table), id, now)
    {
      assert table.cells[sessions[id].index] == sessions[id].Value();
      if now > sessions[id].expiresAt {
        DeleteSession(id);
      }
    }

    lemma IdsAreOneToOne()
      requires Valid()
      ensures OneToOne(table)
    {
    }

    /** The cleanup ticker: a loop over the map, in whatever order. */
    method Cleanup(now: int)
      requires Valid()
      modifies this`sessions, this`table, Repr
      ensures Valid() && table == SigningModel.Cleanup(old(table), now)
    {
      IdsAreOneToOne();
      var todo := sessions.Keys;
      ghost var before := table;
      ghost var visited: seq<string> := [];
      while todo != {}
        invariant Valid() && OneToOne(before) && Covers(visited, todo, before.sessions.Keys)
        invariant table == Swept(before, visited, now)
      {
        var id := Pick(todo);
        SweptNext(before, visited, todo, id, now);
        CleanupOne(id, now);
        visited := visited + [id];
        todo := todo - {id};
      }
      SweptAll(before, visited, now);
    }
  }

  /** A connection's state, kept by its handlers. tbsData is the very array the session table holds. */
  class SigningClient {
    var sessionID: string
    var tbsData: array?<Byte>
    var committed: bool
    var frostState: bool
    ghost var cell: nat
    ghost var latest: seq<Byte>

    constructor ()
      ensures View() == IDLE
    {
      sessionID, tbsData, committed, frostState, cell, latest := "", null, false, false, 0, [];
    }

    ghost function View(): Conn
      reads this
    {
      Conn(sessionID, cell, committed, frostState, false, latest)
    }

    // The session's array is ours, and the table's cell is the one we know.
    ghost predicate Linked(m: SessionManager)
      reads this, m, m.Repr
    {
      m.Valid() && this !in m.Repr && Bond(m.table, View()) && Shares(m)
    }

    // tbsData is the array of the session we know.
    ghost predicate Shares(m: SessionManager)
      reads this, m
    {
      sessionID != "" ==> tbsData != null && cell < |m.all| && m.all[cell].tbsData == tbsData
    }

    lemma LinkedAgain(m: SessionManager)
      requires m.Valid() && this !in m.Repr && Shares(m) && Bond(m.table, View())
      ensures Linked(m)
    {
    }

    method MakeSession(m: SessionManager, id: string, tbs: seq<Byte>, userID: int, hostID: int, now: int)
      returns (session: SigningSession)
      requires m.Valid() && this !in m.Repr
      modifies m
      ensures m.Valid() && this !in m.Repr && session.id == id
      ensures |m.all| == |old(m.all)| + 1 && session.index == |old(m.all)| && m.all[session.index] == session
      ensures m.table == Create(old(m.table), id, Cell(tbs, tbs, [], userID, hostID, now + m.expiry))
    {
      var tbsData := Fresh(tbs);
      session := m.CreateSession(id, userID, hostID, tbsData, now);
    }

    method HandleRequestCert(m: SessionManager, id: string, tbs: seq<Byte>, userID: int, hostID: int, now: int)
      requires Linked(m) && id != "" && id !in m.sessions
      modifies this, m
      ensures Linked(m)
      ensures m.table == Create(old(m.table), id, Cell(tbs, tbs, [], userID, hostID, now + m.expiry))
      ensures View() == Conn(id, |old(m.all)|, old(committed), old(frostState), false, tbs)
    {
      RequestBonds(m.table, View(), id, Cell(tbs, tbs, [], userID, hostID, now + m.expiry));
      var session := MakeSession(m, id, tbs, userID, hostID, now);
      Take(session, tbs);
      LinkedAgain(m);
    }

    method Take(session: SigningSession, ghost tbs: seq<Byte>)
      modifies this`sessionID, this`tbsData, this`cell, this`latest
      ensures View() == old(View()).(session := session.id, cell := session.index, latest := tbs)
      ensures tbsData == session.tbsData
    {
      sessionID := session.id;
      tbsData := session.tbsData;
      cell, latest := session.index, tbs;
    }

    // UpdateSession, and what its failure brings.
    method KeepCommitment(m: SessionManager, commitment: seq<Byte>, now: int) returns (ok: bool)
      requires m.Valid() && this !in m.Repr
      modifies m`sessions, m`table, m`owner, m`Repr, m.Repr
      ensures m.Valid() && this !in m.Repr && ok == old(Found(m.table, sessionID, now))
      ensures m.table == if ok then Update(old(m.table), sessionID, commitment, now)
                              else Delete(AfterLookup(old(m.table), sessionID, now), sessionID)
    {
      var serverCommitment := Fresh(commitment);
      ok := m.UpdateSession(sessionID, null, serverCommitment, now);
      if !ok {
        m.DeleteSession(sessionID);
      }
    }

    method TakeCommitment(m: SessionManager, o: Outcome, now: int) returns (kept: bool)
      requires m.Valid() && this !in m.Repr && !o.BadPayload?
      modifies m`sessions, m`table, m`owner, m`Repr, m.Repr
      ensures m.Valid() && this !in m.Repr
      ensures m.table == CommittedTable(old(m.table), sessionID, o, now)
      ensures kept == CommitmentKept(old(m.table), sessionID, o, now)
    {
      kept := false;
      if o == RoundFails {
        m.DeleteSession(sessionID);
      } else if o != NoAuthority {
        kept := KeepCommitment(m, o.commitment, now);
      }
    }

    method Round1(m: SessionManager, o: Outcome, now: int)
      requires m.Valid() && this !in m.Repr && !o.BadPayload?
      modifies this`frostState, m`sessions, m`table, m`owner, m`Repr, m.Repr
      ensures m.Valid() && this !in m.Repr
      ensures m.table == CommittedTable(old(m.table), sessionID, o, now)
      ensures frostState == (old(frostState) || CommitmentKept(old(m.table), sessionID, o, now))
    {
      var kept := TakeCommitment(m, o, now);
      label Taken:
      if kept {
        frostState := true;
        m.StillValid@Taken();
      }
    }

    method GuardedRound1(m: SessionManager, session: string, o: Outcome, now: int)
      requires m.Valid() && this !in m.Repr
      modifies this`committed, this`frostState, m`sessions, m`table, m`owner, m`Repr, m.Repr
      ensures m.Valid() && this !in m.Repr
      ensures m.table == Round1Table(old(m.table), old(View()), session, o, now)
      ensures View() == Round1Conn(old(m.table), old(View()), session, o, now)
    {
      if sessionID == "" || session != sessionID || o == BadPayload {
        return;
      }
      ghost var table, was := m.table, View();
      committed := true;
      m.StillValid();
      Round1(m, o, now);
      assert View() == was.(committed := true, frost := was.frost || CommitmentKept(table, session, o, now));
    }

    method HandleRound1(m: SessionManager, session: string, o: Outcome, now: int)
      requires Linked(m)
      modifies this`committed, this`frostState, m`sessions, m`table, m`owner, m`Repr, m.Repr
      ensures Linked(m)
      ensures m.table == Round1Table(old(m.table), old(View()), session, o, now)
      ensures View() == Round1Conn(old(m.table), old(View()), session, o, now)
    {
      Round1KeepsBond(m.table, View(), session, o, now);
      GuardedRound1(m, session, o, now);
      LinkedAgain(m);
    }

    method GuardedRound2(m: SessionManager, session: string, o: Outcome, now: int) returns (signed: Option<seq<Byte>>)
      requires Linked(m)
      modifies m`sessions, m`table, m.Repr
      ensures m.Valid()
      ensures m.table == Round2Table(old(m.table), View(), session, o, now)
      ensures signed == if old(Round2Proceeds(m.table, View(), session, now)) && !o.BadPayload?
                        then Some(latest) else None
    {
      if sessionID == "" || session != sessionID || !committed || !frostState {
        return None;
      }
      if sessionID in m.sessions {
        TableIsIntact(m);
      }
      var s := m.GetSession(sessionID, now);
      if s == null || o == BadPayload {
        return None;
      }
      signed := Some(tbsData[..]);
      if o == RoundFails {
        m.DeleteSession(sessionID);
      }
    }

    // While the table has our session our array is as we made it.
    lemma TableIsIntact(m: SessionManager)
      requires Linked(m) && sessionID != "" && sessionID in m.sessions
      ensures tbsData != null && tbsData[..] == latest
    {
      m.Filed(sessionID);
    }

    /** What is signed, if anything is, is what this connection's latest request made. */
    method HandleRound2(m: SessionManager, session: string, o: Outcome, now: int) returns (signed: Option<seq<Byte>>)
      requires Linked(m)
      modifies m`sessions, m`table, m.Repr
      ensures Linked(m)
      ensures m.table == Round2Table(old(m.table), View(), session, o, now)
      ensures signed == if old(Round2Proceeds(m.table, View(), session, now)) && !o.BadPayload?
                        then Some(latest) else None
    {
      Round2KeepsBond(m.table, View(), session, o, now);
      signed := GuardedRound2(m, session, o, now);
      LinkedAgain(m);
    }
  }
}
