/** The signing sessions (internal/ssh/ca/session.go and signing.go) read off the messages alone: no map, no
    arrays, no sweeps and no connection state, only what was asked for and what came of it. */
module SigningLog {
  import opened Common
  import opened SigningModel

  // The session of a connection's latest certificate request; "" before the first.
  function SessionOf(es: seq<Timed>, c: nat): string {
    if es == [] then ""
    else
      var init, e := es[..|es| - 1], es[|es| - 1].e;
      match e
      case Connects(d) => if d == c then "" else SessionOf(init, c)
      case RequestCert(d, id, _, _, _, _) => if d == c then id else SessionOf(init, c)
      case _ => SessionOf(init, c)
  }

  // Events that end a session: a round that fails, and its connection's leaving.
  predicate Ends(init: seq<Timed>, e: Event, id: string) {
    match e
    case Round1(c, session, o) => o.RoundFails? && session == id == SessionOf(init, c)
    case Round2Signs(c, o) => o.RoundFails? && SessionOf(init, c) == id
    case Disconnects(c) => SessionOf(init, c) == id
    case _ => false
  }

  predicate Commits(init: seq<Timed>, e: Event, id: string) {
    e.Round1? && e.outcome.Succeeds? && e.session == id == SessionOf(init, e.conn)
  }

  /** What a session amounts to: the last moment it is good for, whom it was made for, the bytes to sign and
      the server's commitment of the latest round 1. */
  datatype Entry = Entry(until: int, user: int, host: int, tbs: seq<Byte>, commitment: seq<Byte>)

  /** A session as the messages leave it, if none has ended it; whether it has expired is for the reader to
      see. */
  function EntryOf(es: seq<Timed>, id: string): Option<Entry> {
    if es == [] then None
    else
      var init, last := es[..|es| - 1], es[|es| - 1];
      var e, was := last.e, EntryOf(init, id);
      if e.RequestCert? && e.id == id then Some(Entry(last.at + e.expiry, e.user, e.host, e.tbs, []))
      else if Ends(init, e, id) then None
      else if Commits(init, e, id) && was.Some? && last.at <= was.value.until
      then Some(was.value.(commitment := e.outcome.commitment))
      else was
  }

  predicate Live(es: seq<Timed>, id: string, now: int) {
    EntryOf(es, id).Some? && now <= EntryOf(es, id).value.until
  }

  // A connection has had a round 1 succeed, for whichever session it had then.
  predicate HasCommitted(es: seq<Timed>, c: nat) {
    if es == [] then false
    else
      var init, last := es[..|es| - 1], es[|es| - 1];
      if last.e.Connects? && last.e.conn == c then false
      else
        HasCommitted(init, c) ||
        (last.e.Round1? && last.e.conn == c && last.e.session != "" && Commits(init, last.e, last.e.session) &&
         Live(init, last.e.session, last.at))
  }

  // ------------------------------------------------------------------ connections

  lemma SessionAfter(s: Sys, e: Event, c: nat, now: int)
    requires WellFormed(s.table) && Enabled(s, e) && c in Step(s, e, now).conns
    ensures e.Connects? && e.conn == c ==> Step(s, e, now).conns[c].session == ""
    ensures e.RequestCert? && e.conn == c ==> Step(s, e, now).conns[c].session == e.id
    ensures !(e.Connects? && e.conn == c) ==> c in s.conns
    ensures !(e.Connects? && e.conn == c) && !(e.RequestCert? && e.conn == c) ==>
              Step(s, e, now).conns[c].session == s.conns[c].session
  {
    if e.Round1? {
      Round1Parts(s, e.conn, e.session, e.outcome, now);
    }
  }

  lemma {:induction false} SessionIs(es: seq<Timed>, c: nat)
    requires Possible(es) && c in Run(es).conns
    ensures Run(es).conns[c].session == SessionOf(es, c)
  {
    var init, last := es[..|es| - 1], es[|es| - 1];
    SessionAfter(Run(init), last.e, c, last.at);
    if !(last.e.Connects? && last.e.conn == c) {
      SessionIs(init, c);
    }
  }

  // ------------------------------------------------------------------ sessions

  predicate EndsIn(s: Sys, e: Event, id: string) {
    match e
    case Round1(c, session, o) => o.RoundFails? && c in s.conns && session == id == s.conns[c].session
    case Round2Signs(c, o) => o.RoundFails? && c in s.conns && s.conns[c].session == id
    case Disconnects(c) => c in s.conns && s.conns[c].session == id
    case _ => false
  }

  predicate CommitsIn(s: Sys, e: Event, id: string) {
    e.Round1? && e.outcome.Succeeds? && e.conn in s.conns && e.session == id == s.conns[e.conn].session
  }

  lemma ReadOffTheRun(es: seq<Timed>, e: Event, id: string)
    requires Possible(es) && Enabled(Run(es), e)
    ensures Ends(es, e, id) == EndsIn(Run(es), e, id) && Commits(es, e, id) == CommitsIn(Run(es), e, id)
  {
    if e.Round1? || e.Round2Signs? || e.Disconnects? {
      SessionIs(es, e.conn);
    }
  }

  // The session in the table is as the entry says.
  predicate Says(t: Table, id: string, entry: Entry)
    requires WellFormed(t) && id in t.sessions
  {
    var c := t.cells[t.sessions[id]];
    c == Cell(entry.tbs, entry.tbs, entry.commitment, entry.user, entry.host, entry.until)
  }

  ghost predicate Agrees(s: Sys, id: string, entry: Option<Entry>, now: int)
    requires WellFormed(s.table)
  {
    && (Found(s.table, id, now) <==> entry.Some? && now <= entry.value.until)
    && (Found(s.table, id, now) ==> Says(s.table, id, entry.value))
  }

  // A table that treats a session as another does.
  ghost predicate Alike(t: Table, u: Table, id: string, now: int)
    requires WellFormed(t) && WellFormed(u)
  {
    && (Found(u, id, now) <==> Found(t, id, now))
    && (Found(t, id, now) ==> u.cells[u.sessions[id]] == t.cells[t.sessions[id]])
  }

  lemma DeleteLeaves(t: Table, gone: string, id: string, now: int)
    requires OneToOne(t)
    ensures WellFormed(Delete(t, gone))
    ensures id != gone ==> Alike(t, Delete(t, gone), id, now)
    ensures !Found(Delete(t, gone), gone, now)
  {
  }

  lemma LookupLeaves(t: Table, looked: string, id: string, at: int, now: int)
    requires OneToOne(t) && at <= now
    ensures OneToOne(AfterLookup(t, looked, at)) && Alike(t, AfterLookup(t, looked, at), id, now)
  {
  }

  lemma UpdateLeaves(t: Table, known: string, commitment: seq<Byte>, id: string, at: int, now: int)
    requires OneToOne(t) && at <= now && Found(t, known, at)
    ensures WellFormed(Update(t, known, commitment, at))
    ensures id != known ==> Alike(t, Update(t, known, commitment, at), id, now)
    ensures var u := Update(t, known, commitment, at);
      && (Found(u, known, now) <==> Found(t, known, now))
      && known in u.sessions
      && u.cells[u.sessions[known]] == t.cells[t.sessions[known]].(commitment := commitment)
  {
  }

  lemma CleanupLeaves(t: Table, id: string, at: int, now: int)
    requires OneToOne(t) && at <= now
    ensures WellFormed(Cleanup(t, at)) && Alike(t, Cleanup(t, at), id, now)
  {
    if Found(t, id, now) {
      assert !Stale(t, t.sessions[id], at);
    }
  }

  lemma CreateLeaves(t: Table, made: string, c: Cell, id: string, now: int)
    requires WellFormed(t)
    ensures WellFormed(Create(t, made, c))
    ensures id != made ==> Alike(t, Create(t, made, c), id, now)
    ensures Create(t, made, c).cells[|t.cells|] == c && Create(t, made, c).sessions[made] == |t.cells|
  {
  }

  // Round 1 that does what its outcome says to the session it is about.
  lemma CommittedLeaves(t: Table, known: string, o: Outcome, id: string, at: int, now: int)
    requires OneToOne(t) && at <= now
    ensures WellFormed(CommittedTable(t, known, o, at))
    ensures id != known ==> Alike(t, CommittedTable(t, known, o, at), id, now)
    ensures o.RoundFails? ==> !Found(CommittedTable(t, known, o, at), known, now)
    ensures !o.RoundFails? && !(o.Succeeds? && Found(t, known, at)) ==>
              Alike(t, CommittedTable(t, known, o, at), known, now)
    ensures o.Succeeds? && Found(t, known, at) ==>
      var u := CommittedTable(t, known, o, at);
      && (Found(u, known, now) <==> Found(t, known, now))
      && known in u.sessions
      && u.cells[u.sessions[known]] == t.cells[t.sessions[known]].(commitment := o.commitment)
  {
    match o
    case RoundFails => DeleteLeaves(t, known, id, now);
    case Succeeds(commitment) =>
      if Found(t, known, at) {
        UpdateLeaves(t, known, commitment, id, at, now);
      } else {
        LookupLeaves(t, known, id, at, now);
        DeleteLeaves(AfterLookup(t, known, at), known, id, now);
      }
    case _ =>
  }

  function Following(s: Sys, e: Event, id: string, was: Option<Entry>, at: int): Option<Entry> {
    if e.RequestCert? && e.id == id then Some(Entry(at + e.expiry, e.user, e.host, e.tbs, []))
    else if EndsIn(s, e, id) then None
    else if CommitsIn(s, e, id) && was.Some? && at <= was.value.until
    then Some(was.value.(commitment := e.outcome.commitment))
    else was
  }

  lemma Round1Agrees(s: Sys, e: Event, id: string, was: Option<Entry>, at: int, now: int)
    requires Inv(s, at) && Enabled(s, e) && e.Round1? && at <= now && id != ""
    requires Agrees(s, id, was, at) && Agrees(s, id, was, now)
    ensures WellFormed(Step(s, e, at).table) && Agrees(Step(s, e, at), id, Following(s, e, id, was, at), now)
  {
    Round1Parts(s, e.conn, e.session, e.outcome, at);
    var k := s.conns[e.conn];
    if k.session != "" && e.session == k.session {
      CommittedLeaves(s.table, e.session, e.outcome, id, at, now);
    }
  }

  lemma LooksAgrees(s: Sys, e: Event, id: string, was: Option<Entry>, at: int, now: int)
    requires Inv(s, at) && Enabled(s, e) && e.Round2Looks? && at <= now && id != ""
    requires Agrees(s, id, was, now)
    ensures WellFormed(Step(s, e, at).table) && Agrees(Step(s, e, at), id, Following(s, e, id, was, at), now)
  {
    LookupLeaves(s.table, s.conns[e.conn].session, id, at, now);
  }

  lemma SignsAgrees(s: Sys, e: Event, id: string, was: Option<Entry>, at: int, now: int)
    requires Inv(s, at) && Enabled(s, e) && e.Round2Signs? && at <= now && id != ""
    requires Agrees(s, id, was, now)
    ensures WellFormed(Step(s, e, at).table) && Agrees(Step(s, e, at), id, Following(s, e, id, was, at), now)
  {
    DeleteLeaves(s.table, s.conns[e.conn].session, id, now);
  }

  lemma RequestAgrees(s: Sys, e: Event, id: string, was: Option<Entry>, at: int, now: int)
    requires Inv(s, at) && Enabled(s, e) && e.RequestCert? && at <= now && id != ""
    requires Agrees(s, id, was, now)
    ensures WellFormed(Step(s, e, at).table) && Agrees(Step(s, e, at), id, Following(s, e, id, was, at), now)
  {
    CreateLeaves(s.table, e.id, Cell(e.tbs, e.tbs, [], e.user, e.host, at + e.expiry), id, now);
  }

  lemma LeavingAgrees(s: Sys, e: Event, id: string, was: Option<Entry>, at: int, now: int)
    requires Inv(s, at) && Enabled(s, e) && e.Disconnects? && at <= now && id != ""
    requires Agrees(s, id, was, now)
    ensures WellFormed(Step(s, e, at).table) && Agrees(Step(s, e, at), id, Following(s, e, id, was, at), now)
  {
    DeleteLeaves(s.table, s.conns[e.conn].session, id, now);
  }

  lemma SweepAgrees(s: Sys, id: string, was: Option<Entry>, at: int, now: int)
    requires Inv(s, at) && at <= now && id != ""
    requires Agrees(s, id, was, now)
    ensures WellFormed(SweepOf(s, at).table) && Agrees(SweepOf(s, at), id, was, now)
  {
    CleanupLeaves(s.table, id, at, now);
  }

  lemma EventAgrees(s: Sys, e: Event, id: string, was: Option<Entry>, at: int, now: int)
    requires Inv(s, at) && Enabled(s, e) && at <= now && id != ""
    requires Agrees(s, id, was, at) && Agrees(s, id, was, now)
    ensures WellFormed(Step(s, e, at).table) && Agrees(Step(s, e, at), id, Following(s, e, id, was, at), now)
  {
    if e.Round1? {
      Round1Agrees(s, e, id, was, at, now);
    } else if e.Round2Looks? {
      LooksAgrees(s, e, id, was, at, now);
    } else if e.Round2Signs? {
      SignsAgrees(s, e, id, was, at, now);
    } else if e.RequestCert? {
      RequestAgrees(s, e, id, was, at, now);
    } else if e.Disconnects? {
      LeavingAgrees(s, e, id, was, at, now);
    } else if e.Sweeps? {
      SweepAgrees(s, id, was, at, now);
    }
  }

  /** In every run a lookup finds a session exactly while the messages leave one that has not expired, and
      what it finds is what they made of it: who asked, for which host, the bytes, and the commitment of the
      latest round 1. */
  lemma {:induction false} LookupReadsTheLog(es: seq<Timed>, id: string, now: int)
    requires Possible(es) && Now(es) <= now && id != ""
    ensures Agrees(Run(es), id, EntryOf(es, id), now)
    decreases |es|
  {
    if es != [] {
      var init, last := es[..|es| - 1], es[|es| - 1];
      LookupReadsTheLog(init, id, last.at);
      LookupReadsTheLog(init, id, now);
      ReadOffTheRun(init, last.e, id);
      LaterKeeps(Run(init), Now(init), last.at);
      EventAgrees(Run(init), last.e, id, EntryOf(init, id), last.at, now);
    }
  }

  // ------------------------------------------------------------------ round 2

  lemma CommittedAfter(s: Sys, e: Event, c: nat, now: int)
    requires WellFormed(s.table) && Enabled(s, e) && c in Step(s, e, now).conns
    requires forall d :: d in s.conns && s.conns[d].frost ==> s.conns[d].committed
    ensures e.Connects? && e.conn == c ==> !Step(s, e, now).conns[c].frost
    ensures !(e.Connects? && e.conn == c) ==>
      && c in s.conns
      && (Step(s, e, now).conns[c].frost <==>
           s.conns[c].frost ||
           (e.Round1? && e.conn == c && e.session != "" && CommitsIn(s, e, e.session) && Found(s.table, e.session, now)))
    ensures Step(s, e, now).conns[c].frost ==> Step(s, e, now).conns[c].committed
  {
    if e.Round1? {
      Round1Parts(s, e.conn, e.session, e.outcome, now);
    }
  }

  lemma {:induction false} FrostMeansCommitted(es: seq<Timed>, c: nat)
    requires Possible(es) && c in Run(es).conns
    ensures Run(es).conns[c].frost == HasCommitted(es, c)
    ensures Run(es).conns[c].frost ==> Run(es).conns[c].committed
    decreases |es|
  {
    var init, last := es[..|es| - 1], es[|es| - 1];
    forall d | d in Run(init).conns ensures Run(init).conns[d].frost ==> Run(init).conns[d].committed {
      FrostMeansCommitted(init, d);
    }
    CommittedAfter(Run(init), last.e, c, last.at);
    if !(last.e.Connects? && last.e.conn == c) {
      FrostMeansCommitted(init, c);
      if last.e.Round1? && last.e.session != "" {
        ReadOffTheRun(init, last.e, last.e.session);
        LookupReadsTheLog(init, last.e.session, last.at);
      }
    }
  }

  /** Round 2 goes on to sign exactly if it names the session of the connection's latest request, a round 1
      of this connection has succeeded, though perhaps for an earlier session, and no message has ended the
      session before it expires; and then it signs what was asked for. */
  lemma Round2GoesOnExactly(es: seq<Timed>, c: nat, session: string, now: int)
    requires Possible(es) && Now(es) <= now && Enabled(Run(es), Round2Looks(c, session))
    ensures var t := Step(Run(es), Round2Looks(c, session), now);
      && (t.conns[c].checked <==>
           session != "" && session == SessionOf(es, c) && HasCommitted(es, c) && Live(es, session, now))
      && (t.conns[c].checked ==>
           t.conns[c].cell < |t.table.cells| && GivenToSign(t, c) == EntryOf(es, session).value.tbs)
  {
    SessionIs(es, c);
    FrostMeansCommitted(es, c);
    if session != "" {
      LookupReadsTheLog(es, session, now);
    }
    LaterKeeps(Run(es), Now(es), now);
    GivenIs(Run(es), c, session, now);
  }

  lemma GivenIs(s: Sys, c: nat, session: string, now: int)
    requires Inv(s, now) && c in s.conns && !s.conns[c].checked
    ensures var t := Round2LooksOf(s, c, session, now);
      t.conns[c].checked ==>
        && session in s.table.sessions && t.conns[c].cell == s.table.sessions[session] < |t.table.cells|
        && t.table.cells == s.table.cells
  {
    if s.conns[c].session != "" {
      KnownSession(s, c);
    }
  }

  // ------------------------------------------------------------------ what is wiped

  // A wiped session's commitment is, like its bytes, zeros.
  ghost predicate Wiped(s: Sys, id: string)
    requires Ids(s)
  {
    id in s.wiped && id in s.born ==>
      var m := s.table.cells[s.born[id]].commitment; m == Zeros(|m|)
  }

  lemma DeleteWipes(s: Sys, gone: string, id: string)
    requires Ids(s) && Wiped(s, id)
    ensures Ids(DeleteOf(s, gone)) && Wiped(DeleteOf(s, gone), id)
  {
    DeletedCells(s, gone);
  }

  lemma UpdateWipes(s: Sys, known: string, commitment: seq<Byte>, id: string, now: int)
    requires Inv(s, now) && Wiped(s, id)
    ensures var t := s.(table := Update(s.table, known, commitment, now)); Ids(t) && Wiped(t, id)
  {
    UpdateKeeps(s, known, commitment, now);
  }

  lemma Round1Wipes(s: Sys, e: Event, id: string, now: int)
    requires Inv(s, now) && Enabled(s, e) && e.Round1? && Wiped(s, id)
    ensures Ids(Step(s, e, now)) && Wiped(Step(s, e, now), id)
  {
    var k := s.conns[e.conn];
    var s1 := s.(conns := s.conns[e.conn := k.(committed := true)]);
    if k.session != "" && e.session == k.session {
      if e.outcome.RoundFails? {
        DeleteWipes(s1, k.session, id);
      } else if e.outcome.Succeeds? {
        UpdateWipes(s, k.session, e.outcome.commitment, id, now);
        DeleteWipes(s1.(table := Update(s.table, k.session, e.outcome.commitment, now)), k.session, id);
      }
    }
  }

  lemma RequestWipes(s: Sys, c: nat, made: string, tbs: seq<Byte>, user: int, host: int, until: int, id: string)
    requires Ids(s) && Wiped(s, id) && s.wiped <= s.born.Keys && c in s.conns && made !in s.born && made != ""
    ensures var t := Requested(s, c, made, tbs, user, host, until); Ids(t) && Wiped(t, id)
  {
    RequestedIds(s, c, made, tbs, user, host, until);
  }

  lemma SweepWipesAll(s: Sys, id: string, now: int)
    requires Inv(s, now) && Wiped(s, id)
    ensures Ids(SweepOf(s, now)) && Wiped(SweepOf(s, now), id)
  {
    SweepKeeps(s, now);
    if id in s.table.sessions && Expired(s.table.cells[s.table.sessions[id]], now) {
      assert Stale(s.table, s.table.sessions[id], now);
    }
  }

  lemma LooksWipes(s: Sys, c: nat, session: string, id: string, now: int)
    requires Ids(s) && Wiped(s, id) && c in s.conns
    ensures Ids(Round2LooksOf(s, c, session, now)) && Wiped(Round2LooksOf(s, c, session, now), id)
  {
  }

  lemma SignsWipes(s: Sys, c: nat, o: Outcome, id: string)
    requires Ids(s) && Wiped(s, id) && c in s.conns
    ensures Ids(Round2SignsOf(s, c, o)) && Wiped(Round2SignsOf(s, c, o), id)
  {
    var s1 := s.(conns := s.conns[c := s.conns[c].(checked := false)]);
    DeleteWipes(s1, s.conns[c].session, id);
  }

  lemma LeavingWipes(s: Sys, c: nat, id: string)
    requires Ids(s) && Wiped(s, id) && c in s.conns
    ensures Ids(DisconnectOf(s, c)) && Wiped(DisconnectOf(s, c), id)
  {
    DeleteWipes(s, s.conns[c].session, id);
  }

  lemma EventWipes(s: Sys, e: Event, id: string, now: int)
    requires Inv(s, now) && Enabled(s, e) && Wiped(s, id)
    ensures Ids(Step(s, e, now)) && Wiped(Step(s, e, now), id)
  {
    if e.Round1? {
      Round1Wipes(s, e, id, now);
    } else if e.RequestCert? {
      RequestStep(s, e, now);
      RequestWipes(s, e.conn, e.id, e.tbs, e.user, e.host, now + e.expiry, id);
    } else if e.Round2Looks? {
      LooksWipes(s, e.conn, e.session, id, now);
    } else if e.Round2Signs? {
      SignsWipes(s, e.conn, e.outcome, id);
    } else if e.Disconnects? {
      LeavingWipes(s, e.conn, id);
    } else if e.Sweeps? {
      SweepWipesAll(s, id, now);
    }
  }

  lemma {:induction false} WipedInEveryRun(es: seq<Timed>, id: string)
    requires Possible(es)
    ensures Wiped(Run(es), id)
    decreases |es|
  {
    if es != [] {
      var init, last := es[..|es| - 1], es[|es| - 1];
      WipedInEveryRun(init, id);
      LaterKeeps(Run(init), Now(init), last.at);
      EventWipes(Run(init), last.e, id, last.at);
    }
  }

  /** What ends a session before it expires leaves zeros where its bytes and its commitment were. */
  lemma EndedIsWiped(es: seq<Timed>, id: string)
    requires Possible(es) && id in Run(es).born && EntryOf(es, id).None?
    ensures var s := Run(es); var c := s.table.cells[s.born[id]];
      Now(es) <= c.expiresAt ==> c.tbs == Zeros(|c.made|) && c.commitment == Zeros(|c.commitment|)
  {
    LookupReadsTheLog(es, id, Now(es));
    WhatIsWiped(es, id);
    WipedInEveryRun(es, id);
  }
}
