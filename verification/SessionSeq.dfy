/** The order numbers of the sessions table (internal/db/queries.go): CreateSession appends or revives,
    ReorderSessions renumbers, DeleteSession removes. */
module SeqModel {
  import opened Common

  // Only what the numbers depend on: the owner, and the number itself.
  datatype Row = Row(user: int, order: int)

  type Rows = map<string, Row>

  ghost predicate Owns(t: Rows, user: int, id: string) {
    id in t && t[id].user == user
  }

  ghost predicate IsMax(t: Rows, user: int, m: int) {
    && (forall id :: Owns(t, user, id) ==> t[id].order <= m)
    && (if exists id :: Owns(t, user, id) then exists id :: Owns(t, user, id) && t[id].order == m else m == -1)
  }

  // COALESCE((SELECT MAX(seq) FROM sessions WHERE user_id = ?), -1)
  ghost function MaxOrder(t: Rows, user: int): (m: int)
    ensures IsMax(t, user, m)
  {
    MaxExists(t, user);
    var m :| IsMax(t, user, m);
    m
  }

  lemma {:induction false} MaxExists(t: Rows, user: int)
    ensures exists m :: IsMax(t, user, m)
  {
    if id :| Owns(t, user, id) {
      var rest := t - {id};
      MaxExists(rest, user);
      var m :| IsMax(rest, user, m);
      assert forall x :: Owns(t, user, x) <==> x == id || Owns(rest, user, x);
      if x :| Owns(rest, user, x) {
        var y :| Owns(rest, user, y) && rest[y].order == m;
        assert Owns(t, user, y);
        assert IsMax(t, user, if m < t[id].order then t[id].order else m);
      } else {
        assert IsMax(t, user, t[id].order);
      }
    } else {
      assert IsMax(t, user, -1);
    }
  }

  lemma MaxIsUnique(t: Rows, user: int, m: int, n: int)
    requires IsMax(t, user, m) && IsMax(t, user, n)
    ensures m == n
  {
  }

  // The upsert: a row that is already there keeps its owner and its number.
  ghost function CreateRow(t: Rows, id: string, user: int): Rows {
    if id in t then t else t[id := Row(user, MaxOrder(t, user) + 1)]
  }

  function DeleteRow(t: Rows, id: string): Rows {
    t - {id}
  }

  // UPDATE sessions SET seq = n WHERE id = ? AND user_id = ?
  function Renumber(t: Rows, user: int, id: string, n: int): Rows {
    if id in t && t[id].user == user then t[id := Row(user, n)] else t
  }

  function ReorderRows(t: Rows, user: int, ids: seq<string>): Rows {
    if ids == [] then t else Renumber(ReorderRows(t, user, ids[..|ids| - 1]), user, ids[|ids| - 1], |ids| - 1)
  }

  // ------------------------------------------------------------------ distinct numbers

  ghost predicate Numbered(t: Rows) {
    && (forall id :: id in t ==> t[id].order >= 0)
    && (forall a, b :: a in t && b in t && a != b && t[a].user == t[b].user ==> t[a].order != t[b].order)
  }

  /** A new session sorts after every session its user has; a revived one changes nothing. */
  lemma CreateAppends(t: Rows, id: string, user: int)
    requires Numbered(t)
    ensures Numbered(CreateRow(t, id, user))
    ensures id in t ==> CreateRow(t, id, user) == t
    ensures id !in t ==> forall a :: Owns(t, user, a) ==> t[a].order < CreateRow(t, id, user)[id].order
    ensures id !in t ==>
      var n := CreateRow(t, id, user)[id];
      n.user == user && (n.order == 0 || exists a :: Owns(t, user, a) && n.order == t[a].order + 1)
    ensures forall a :: a in t ==> a in CreateRow(t, id, user) && CreateRow(t, id, user)[a] == t[a]
  {
    if id !in t {
      var m := MaxOrder(t, user);
      forall a | Owns(t, user, a) ensures t[a].order <= m && m >= 0 {
        assert t[a].order >= 0;
      }
      assert m >= -1;
    }
  }

  // The last place of an id in the list: the place its number ends up as.
  function LastPlace(ids: seq<string>, id: string): (p: nat)
    requires id in ids
    ensures p < |ids| && ids[p] == id && id !in ids[p + 1..]
  {
    if ids[|ids| - 1] == id then |ids| - 1
    else
      assert ids == ids[..|ids| - 1] + [ids[|ids| - 1]];
      LastPlace(ids[..|ids| - 1], id)
  }

  lemma {:induction false} ReorderAt(t: Rows, user: int, ids: seq<string>, id: string)
    ensures ReorderRows(t, user, ids).Keys == t.Keys
    ensures id in t ==>
      ReorderRows(t, user, ids)[id] == (if t[id].user == user && id in ids then Row(user, LastPlace(ids, id)) else t[id])
  {
    if ids != [] {
      var init, last := ids[..|ids| - 1], ids[|ids| - 1];
      ReorderAt(t, user, init, id);
      ReorderAt(t, user, init, last);
      assert ids == init + [last];
    }
  }

  /** Each listed session ends up with its place in the list as its number, if none is listed twice. */
  lemma ReorderStoresPositions(t: Rows, user: int, ids: seq<string>, i: nat)
    requires i < |ids| && Owns(t, user, ids[i])
    requires forall a, b :: 0 <= a < b < |ids| ==> ids[a] != ids[b]
    ensures ids[i] in ReorderRows(t, user, ids) && ReorderRows(t, user, ids)[ids[i]] == Row(user, i)
  {
    ReorderAt(t, user, ids, ids[i]);
  }

  // No session the list leaves out has a number that the list hands out.
  ghost predicate NoClash(t: Rows, user: int, ids: seq<string>) {
    forall a, b :: Owns(t, user, a) && Owns(t, user, b) && a in ids && b !in ids ==>
      LastPlace(ids, a) != t[b].order
  }

  /** Exactly when a reorder keeps the numbers distinct, for any list whatever: when no session it
      leaves out already has a number it hands out. Other users' sessions never change. */
  lemma ReorderIsSafeExactlyWithoutClash(t: Rows, user: int, ids: seq<string>)
    requires Numbered(t)
    ensures Numbered(ReorderRows(t, user, ids)) <==> NoClash(t, user, ids)
    ensures forall a :: a in t && t[a].user != user ==> a in ReorderRows(t, user, ids) && ReorderRows(t, user, ids)[a] == t[a]
  {
    var r := ReorderRows(t, user, ids);
    forall a | a in t
      ensures a in r && r[a] == if t[a].user == user && a in ids then Row(user, LastPlace(ids, a)) else t[a]
    {
      ReorderAt(t, user, ids, a);
    }
    ReorderAt(t, user, ids, "");
    if !NoClash(t, user, ids) {
      var a, b :| Owns(t, user, a) && Owns(t, user, b) && a in ids && b !in ids && LastPlace(ids, a) == t[b].order;
      assert r[a].order == r[b].order;
    }
    if NoClash(t, user, ids) {
      forall a, b | a in r && b in r && a != b && r[a].user == r[b].user ensures r[a].order != r[b].order {
        assert a in ids && b in ids ==> ids[LastPlace(ids, a)] != ids[LastPlace(ids, b)];
      }
    }
  }

  // ------------------------------------------------------------------ runs

  datatype Event = Create(id: string, user: int) | Delete(id: string) | Reorder(user: int, ids: seq<string>)

  ghost function Step(t: Rows, e: Event): Rows {
    match e
    case Create(id, user) => CreateRow(t, id, user)
    case Delete(id) => DeleteRow(t, id)
    case Reorder(user, ids) => ReorderRows(t, user, ids)
  }

  ghost function Run(t: Rows, es: seq<Event>): Rows {
    if es == [] then t else Step(Run(t, es[..|es| - 1]), es[|es| - 1])
  }

  ghost predicate ReordersFit(t: Rows, es: seq<Event>) {
    forall i :: 0 <= i < |es| && es[i].Reorder? ==> NoClash(Run(t, es[..i]), es[i].user, es[i].ids)
  }

  /** From an empty table on, whatever is created, revived, deleted and reordered without a clash, each
      user's numbers stay non-negative and pairwise distinct. */
  lemma {:induction false} RunsKeepNumbersDistinct(t: Rows, es: seq<Event>)
    requires Numbered(t) && ReordersFit(t, es)
    ensures Numbered(Run(t, es))
  {
    if es != [] {
      var init, e := es[..|es| - 1], es[|es| - 1];
      forall i | 0 <= i < |init| && init[i].Reorder? ensures NoClash(Run(t, init[..i]), init[i].user, init[i].ids) {
        assert init[..i] == es[..i] && init[i] == es[i];
      }
      RunsKeepNumbersDistinct(t, init);
      match e
      case Create(id, user) => CreateAppends(Run(t, init), id, user);
      case Delete(_) =>
      case Reorder(user, ids) => ReorderIsSafeExactlyWithoutClash(Run(t, init), user, ids);
    }
  }

  // ------------------------------------------------------------------ lists that have gone stale

  // The list a client was shown: all of the user's sessions, once each.
  ghost predicate Snapshot(t: Rows, user: int, ids: seq<string>) {
    && (forall i, j :: 0 <= i < j < |ids| ==> ids[i] != ids[j])
    && (forall id :: id in ids <==> Owns(t, user, id))
  }

  // What may happen while the list is out: anything but losing a listed session, or an order for this
  // user that is not just another order of the same list.
  ghost predicate KeepsListed(e: Event, user: int, ids: seq<string>) {
    match e
    case Create(_, _) => true
    case Delete(id) => id !in ids
    case Reorder(u, list) => u == user ==> multiset(list) == multiset(ids)
  }

  // The listed sessions are all still there, and the ones that came later are numbered past the list.
  ghost predicate Reserved(t: Rows, user: int, ids: seq<string>) {
    && Numbered(t)
    && (forall id :: id in ids ==> Owns(t, user, id))
    && (forall id :: Owns(t, user, id) && id !in ids ==> t[id].order >= |ids|)
  }

  lemma {:induction false} DistinctBelow(s: seq<int>, n: nat)
    requires forall i, j :: 0 <= i < j < |s| ==> s[i] != s[j]
    requires forall i :: 0 <= i < |s| ==> 0 <= s[i] < n
    ensures |s| <= n
  {
    if s != [] {
      assert 0 <= s[0] < n;
      if k :| 0 <= k < |s| && s[k] == n - 1 {
        DistinctBelow(s[..k] + s[k + 1..], n - 1);
      } else {
        DistinctBelow(s, n - 1);
      }
    }
  }

  // Pigeonhole: as many distinct numbers from 0 up cannot all be small.
  lemma NextNumberIsPastTheList(t: Rows, user: int, ids: seq<string>)
    requires Reserved(t, user, ids) && forall i, j :: 0 <= i < j < |ids| ==> ids[i] != ids[j]
    ensures MaxOrder(t, user) + 1 >= |ids|
  {
    var m := MaxOrder(t, user);
    var orders := seq(|ids|, i requires 0 <= i < |ids| => if Owns(t, user, ids[i]) then t[ids[i]].order else 0);
    forall i | 0 <= i < |ids| ensures 0 <= orders[i] <= m {
      assert Owns(t, user, ids[i]);
    }
    forall i, j | 0 <= i < j < |ids| ensures orders[i] != orders[j] {
      assert Owns(t, user, ids[i]) && Owns(t, user, ids[j]);
    }
    if m + 1 >= 0 {
      DistinctBelow(orders, m + 1);
    }
  }

  lemma ReservedStep(t: Rows, e: Event, user: int, ids: seq<string>)
    requires Reserved(t, user, ids) && KeepsListed(e, user, ids)
    requires forall i, j :: 0 <= i < j < |ids| ==> ids[i] != ids[j]
    requires e.Reorder? ==> NoClash(t, e.user, e.ids)
    ensures Reserved(Step(t, e), user, ids)
  {
    match e
    case Create(id, u) =>
      CreateAppends(t, id, u);
      NextNumberIsPastTheList(t, user, ids);
    case Delete(id) =>
    case Reorder(u, list) =>
      ReorderIsSafeExactlyWithoutClash(t, u, list);
      forall id | id in t ensures id in Step(t, e) && (Step(t, e)[id].user == t[id].user) &&
                                  (!(t[id].user == u && id in list) ==> Step(t, e)[id] == t[id]) {
        ReorderAt(t, u, list, id);
      }
      ReorderAt(t, u, list, "");
      if u == user {
        assert forall id :: id in list <==> id in multiset(list);
        assert forall id :: id in ids <==> id in multiset(ids);
      }
  }

  // An order of the same list never clashes with what is numbered past the list.
  lemma SameListFits(t: Rows, user: int, ids: seq<string>, list: seq<string>)
    requires Reserved(t, user, ids) && multiset(list) == multiset(ids)
    ensures NoClash(t, user, list)
  {
    assert |multiset(list)| == |list| && |multiset(ids)| == |ids|;
    assert forall id :: id in list <==> id in multiset(list);
    assert forall id :: id in ids <==> id in multiset(ids);
  }

  // Other users' orders are somebody else's business, but they too must not clash.
  ghost predicate OthersFit(t: Rows, es: seq<Event>, user: int) {
    forall i :: 0 <= i < |es| && es[i].Reorder? && es[i].user != user ==>
      NoClash(Run(t, es[..i]), es[i].user, es[i].ids)
  }

  lemma {:induction false} ReservedRun(t: Rows, es: seq<Event>, user: int, ids: seq<string>)
    requires Numbered(t) && Snapshot(t, user, ids) && OthersFit(t, es, user)
    requires forall i :: 0 <= i < |es| ==> KeepsListed(es[i], user, ids)
    ensures Reserved(Run(t, es), user, ids)
  {
    if es != [] {
      var init, e := es[..|es| - 1], es[|es| - 1];
      forall i | 0 <= i < |init| && init[i].Reorder? && init[i].user != user
        ensures NoClash(Run(t, init[..i]), init[i].user, init[i].ids)
      {
        assert init[..i] == es[..i] && init[i] == es[i];
      }
      ReservedRun(t, init, user, ids);
      if e.Reorder? && e.user == user {
        SameListFits(Run(t, init), user, ids, e.ids);
      }
      ReservedStep(Run(t, init), e, user, ids);
    }
  }

  /** A reorder list may miss every session created since it was shown: as long as no listed session
      was deleted and no other kind of order was applied meanwhile, applying it, in any order, still
      leaves all numbers distinct. */
  lemma StaleListIsSafe(t: Rows, es: seq<Event>, user: int, ids: seq<string>, list: seq<string>)
    requires Numbered(t) && Snapshot(t, user, ids) && OthersFit(t, es, user)
    requires forall i :: 0 <= i < |es| ==> KeepsListed(es[i], user, ids)
    requires multiset(list) == multiset(ids)
    ensures Numbered(Step(Run(t, es), Reorder(user, list)))
  {
    ReservedRun(t, es, user, ids);
    SameListFits(Run(t, es), user, ids, list);
    ReorderIsSafeExactlyWithoutClash(Run(t, es), user, list);
  }

  lemma CreatesAsThird(user: int)
    ensures var t := map["a" := Row(user, 0), "b" := Row(user, 1)];
      Step(t, Create("c", user)) == map["a" := Row(user, 0), "b" := Row(user, 1), "c" := Row(user, 2)]
  {
    var t := map["a" := Row(user, 0), "b" := Row(user, 1)];
    assert Owns(t, user, "b");
    MaxIsUnique(t, user, MaxOrder(t, user), 1);
  }

  lemma OrdersAll(t: Rows, user: int, ids: seq<string>)
    requires forall id :: id in t ==> id in ids
    ensures NoClash(t, user, ids)
  {
  }

  // a, b is shown; c is created; c, a, b is applied elsewhere.
  lemma NewerOrderRun(user: int)
    ensures var t := map["a" := Row(user, 0), "b" := Row(user, 1)];
      var es := [Create("c", user), Reorder(user, ["c", "a", "b"])];
      && ReordersFit(t, es)
      && Run(t, es) == map["a" := Row(user, 1), "b" := Row(user, 2), "c" := Row(user, 0)]
  {
    var t := map["a" := Row(user, 0), "b" := Row(user, 1)];
    var create, order := Create("c", user), Reorder(user, ["c", "a", "b"]);
    var es := [create, order];
    CreatesAsThird(user);
    var t1 := Step(t, create);
    assert es[..1] == [create] && es[..1][..0] == [];
    assert Run(t, es[..1]) == t1;
    ThreeInOrder(t1, user, "c", "a", "b");
    OrdersAll(t1, user, order.ids);
    forall i | 0 <= i < |es| && es[i].Reorder? ensures NoClash(Run(t, es[..i]), es[i].user, es[i].ids) {
      assert i == 1;
    }
  }

  /** Nor may another order that lists a newer session have been applied meanwhile: a, b is shown; c is
      created; c, a, b is applied elsewhere, which clashes with nothing; applying b, a then gives b the
      number c has. Nothing was deleted. */
  lemma NewerOrderThenStaleListClashes(user: int)
    ensures var t := map["a" := Row(user, 0), "b" := Row(user, 1)];
      var es := [Create("c", user), Reorder(user, ["c", "a", "b"])];
      && Numbered(t) && Snapshot(t, user, ["a", "b"]) && ReordersFit(t, es) && Numbered(Run(t, es))
      && !Numbered(Step(Run(t, es), Reorder(user, ["b", "a"])))
  {
    var t := map["a" := Row(user, 0), "b" := Row(user, 1)];
    var es := [Create("c", user), Reorder(user, ["c", "a", "b"])];
    NewerOrderRun(user);
    RunsKeepNumbersDistinct(t, es);
    TwoInOrder(Run(t, es), user, "b", "a");
    var clash := Step(Run(t, es), Reorder(user, ["b", "a"]));
    assert "b" in clash && "c" in clash && clash["b"].order == clash["c"].order;
  }

  lemma TwoInOrder(t: Rows, user: int, a: string, b: string)
    requires Owns(t, user, a) && Owns(t, user, b) && a != b
    ensures ReorderRows(t, user, [a, b]) == t[a := Row(user, 0)][b := Row(user, 1)]
  {
    assert [a, b][..1] == [a] && [a][..0] == [];
    assert ReorderRows(t, user, [a]) == Renumber(ReorderRows(t, user, [a][..0]), user, a, 0);
  }

  lemma ThreeInOrder(t: Rows, user: int, a: string, b: string, c: string)
    requires Owns(t, user, a) && Owns(t, user, b) && Owns(t, user, c) && a != b && b != c && a != c
    ensures ReorderRows(t, user, [a, b, c]) == t[a := Row(user, 0)][b := Row(user, 1)][c := Row(user, 2)]
  {
    assert [a, b, c][..2] == [a, b];
    TwoInOrder(t, user, a, b);
  }

  /** And a list that has lost a session: two sessions listed as b, a; b is deleted and c
      created meanwhile; applying the list gives a the number c has. */
  lemma DeletedThenCreatedClashes(user: int)
    ensures var t := map["a" := Row(user, 0), "b" := Row(user, 1)];
      var later := Run(t, [Delete("b"), Create("c", user)]);
      && Numbered(t) && Snapshot(t, user, ["b", "a"]) && Numbered(later)
      && !Numbered(Step(later, Reorder(user, ["b", "a"])))
  {
    var t := map["a" := Row(user, 0), "b" := Row(user, 1)];
    var es := [Delete("b"), Create("c", user)];
    assert es[..1][..0] == [] && es[..1] == [Delete("b")];
    var t1 := Step(t, Delete("b"));
    assert t1 == map["a" := Row(user, 0)];
    assert Run(t, es[..1]) == t1;
    assert Owns(t1, user, "a");
    MaxIsUnique(t1, user, MaxOrder(t1, user), 0);
    var later := Run(t, es);
    assert later == map["a" := Row(user, 0), "c" := Row(user, 1)];
    var list := ["b", "a"];
    assert list[..1] == ["b"] && list[..1][..0] == [];
    assert ReorderRows(later, user, list[..1]) == later;
    var clash := ReorderRows(later, user, list);
    assert clash == map["a" := Row(user, 1), "c" := Row(user, 1)];
    assert "a" in clash && "c" in clash && clash["a"].order == clash["c"].order;
  }
}

/** The statements, as a table updated in place. */
module SessionTable {
  import opened Common
  import opened SeqModel

  class Sessions {
    var rows: Rows

    constructor ()
      ensures rows == map[] && Numbered(rows)
    {
      rows := map[];
    }

    method SelectMax(user: int) returns (m: int)
      ensures m == MaxOrder(rows, user)
    {
      m := -1;
      var found := false;
      var todo := rows.Keys;
      while todo != {}
        invariant todo <= rows.Keys
        invariant found <==> exists id :: Owns(rows, user, id) && id !in todo
        invariant !found ==> m == -1
        invariant found ==> exists id :: Owns(rows, user, id) && id !in todo && rows[id].order == m
        invariant forall id :: Owns(rows, user, id) && id !in todo ==> rows[id].order <= m
      {
        var id := Pick(todo);
        todo := todo - {id};
        if rows[id].user == user {
          assert Owns(rows, user, id);
          if !found || m < rows[id].order {
            m := rows[id].order;
          }
          found := true;
        }
      }
      MaxIsUnique(rows, user, m, MaxOrder(rows, user));
    }

    method CreateSession(id: string, user: int)
      modifies this
      ensures rows == CreateRow(old(rows), id, user)
    {
      if id !in rows {
        var m := SelectMax(user);
        rows := rows[id := Row(user, m + 1)];
      }
    }

    method DeleteSession(id: string)
      modifies this
      ensures rows == DeleteRow(old(rows), id)
    {
      rows := rows - {id};
    }

    /** One transaction: `failsAt` is where the database gives up, None if it never does. */
    method ReorderSessions(user: int, ids: seq<string>, failsAt: Option<nat>) returns (ok: bool)
      modifies this
      ensures ok <==> failsAt.None?
      ensures rows == if ok then ReorderRows(old(rows), user, ids) else old(rows)
    {
      var tx := rows;
      for i := 0 to |ids|
        invariant tx == ReorderRows(rows, user, ids[..i]) && rows == old(rows)
      {
        if failsAt == Some(i) {
          return false;
        }
        assert ids[..i + 1][..i] == ids[..i];
        if ids[i] in tx && tx[ids[i]].user == user {
          tx := tx[ids[i] := Row(user, i)];
        }
      }
      if failsAt.Some? {
        return false;
      }
      assert ids[..|ids|] == ids;
      rows := tx;
      return true;
    }
  }
}
