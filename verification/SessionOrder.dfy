/** Ordering sessions by hand: the drag (web/src/hooks/useDragReorder.ts), its merge into the full
    order and the tag filter (web/src/lib/tags.ts), and the sort by `seq` (web/src/lib/session.ts). */
module SessionOrder {
  import opened Common
  import opened SeqModel

  datatype Session = Session(id: string, order: Option<int>, tags: seq<string>)

  // seq ?? 0
  function Order(s: Session): int {
    s.order.GetOr(0)
  }

  function Keep<T>(s: seq<T>, p: T -> bool): seq<T> {
    if s == [] then [] else Keep(s[..|s| - 1], p) + (if p(s[|s| - 1]) then [s[|s| - 1]] else [])
  }

  function Ids(s: seq<Session>): (ids: seq<string>)
    ensures |ids| == |s| && forall i :: 0 <= i < |s| ==> ids[i] == s[i].id
  {
    seq(|s|, i requires 0 <= i < |s| => s[i].id)
  }

  ghost predicate Distinct(s: seq<string>) {
    forall i, j :: 0 <= i < j < |s| ==> s[i] != s[j]
  }

  // ------------------------------------------------------------------ the tag filter

  predicate Same(a: string, b: string) {
    Lower(a) == Lower(b)
  }

  // The same character, or the two cases of one ASCII letter.
  predicate SameLetter(a: char, b: char) {
    || a == b
    || ('A' <= a <= 'Z' && b as int == a as int + 32)
    || ('A' <= b <= 'Z' && a as int == b as int + 32)
  }

  /** Ignoring case means: letter for letter the same. */
  lemma SameIsLetterForLetter(a: string, b: string)
    ensures Same(a, b) <==> |a| == |b| && forall i :: 0 <= i < |a| ==> SameLetter(a[i], b[i])
  {
    if Same(a, b) {
      forall i | 0 <= i < |a| ensures SameLetter(a[i], b[i]) {
        assert Lower(a)[i] == Lower(b)[i];
      }
    }
  }

  predicate Passes(s: Session, selected: seq<string>) {
    selected == [] || exists t, f :: t in s.tags && f in selected && Same(f, t)
  }

  function FilterByTags(sessions: seq<Session>, selected: seq<string>): seq<Session> {
    if selected == [] then sessions else Keep(sessions, s => Passes(s, selected))
  }

  function EffectiveFilter(selected: seq<string>, available: seq<string>): seq<string> {
    Keep(available, a => exists s :: s in selected && Same(s, a))
  }

  // ------------------------------------------------------------------ stable sort by seq

  function InsertBySeq(s: seq<Session>, x: Session): seq<Session> {
    if s == [] || Order(s[|s| - 1]) <= Order(x) then s + [x]
    else InsertBySeq(s[..|s| - 1], x) + [s[|s| - 1]]
  }

  // [...sessions].sort((a, b) => (a.seq ?? 0) - (b.seq ?? 0)); JavaScript's sort is stable.
  function SortBySeq(s: seq<Session>): seq<Session> {
    if s == [] then [] else InsertBySeq(SortBySeq(s[..|s| - 1]), s[|s| - 1])
  }

  ghost predicate Sorted(s: seq<Session>) {
    forall i, j :: 0 <= i < j < |s| ==> Order(s[i]) <= Order(s[j])
  }

  lemma {:induction false} InsertIsBelow(s: seq<Session>, x: Session, bound: int)
    requires Order(x) <= bound && forall i :: 0 <= i < |s| ==> Order(s[i]) <= bound
    ensures forall i :: 0 <= i < |InsertBySeq(s, x)| ==> Order(InsertBySeq(s, x)[i]) <= bound
  {
    if s != [] && Order(s[|s| - 1]) > Order(x) {
      InsertIsBelow(s[..|s| - 1], x, bound);
    }
  }

  lemma {:induction false} InsertSorts(s: seq<Session>, x: Session)
    requires Sorted(s)
    ensures Sorted(InsertBySeq(s, x))
  {
    if s != [] && Order(s[|s| - 1]) > Order(x) {
      InsertSorts(s[..|s| - 1], x);
      InsertIsBelow(s[..|s| - 1], x, Order(s[|s| - 1]));
    }
  }

  lemma {:induction false} InsertAdds(s: seq<Session>, x: Session)
    ensures multiset(InsertBySeq(s, x)) == multiset(s) + multiset{x}
  {
    if s != [] && Order(s[|s| - 1]) > Order(x) {
      InsertAdds(s[..|s| - 1], x);
      assert s == s[..|s| - 1] + [s[|s| - 1]];
    }
  }

  lemma {:induction false} SortBySeqAscends(s: seq<Session>)
    ensures Sorted(SortBySeq(s))
  {
    if s != [] {
      SortBySeqAscends(s[..|s| - 1]);
      InsertSorts(SortBySeq(s[..|s| - 1]), s[|s| - 1]);
    }
  }

  lemma OneMorePermutes(s: seq<Session>, x: Session)
    requires multiset(SortBySeq(s)) == multiset(s)
    ensures multiset(SortBySeq(s + [x])) == multiset(s + [x])
  {
    assert (s + [x])[..|s|] == s;
    InsertAdds(SortBySeq(s), x);
    AppendCounts(s, x);
  }

  lemma {:induction false} SortBySeqPermutes(s: seq<Session>)
    ensures multiset(SortBySeq(s)) == multiset(s)
  {
    if s != [] {
      SortBySeqPermutes(s[..|s| - 1]);
      OneMorePermutes(s[..|s| - 1], s[|s| - 1]);
      InitAndLast(s);
    }
  }

  lemma SortBySeqSorts(s: seq<Session>)
    ensures Sorted(SortBySeq(s)) && multiset(SortBySeq(s)) == multiset(s)
  {
    SortBySeqAscends(s);
    SortBySeqPermutes(s);
  }

  function Among(ids: set<string>): string -> bool {
    id => id in ids
  }

  function NotAmong(ids: set<string>): string -> bool {
    id => id !in ids
  }

  lemma KeepAppend<T>(s: seq<T>, x: T, p: T -> bool)
    ensures Keep(s + [x], p) == Keep(s, p) + (if p(x) then [x] else [])
  {
    assert (s + [x])[..|s|] == s;
  }

  /** Read off the numbers themselves, a session without one counting as having 0. */
  lemma ShownByNumber(s: seq<Session>, i: nat, j: nat)
    requires i < j < |SortBySeq(s)|
    ensures (match SortBySeq(s)[i].order case None => 0 case Some(n) => n) <=
            (match SortBySeq(s)[j].order case None => 0 case Some(n) => n)
  {
    SortBySeqAscends(s);
  }

  // The sessions that have this number, in order.
  function OfNumber(s: seq<Session>, n: int): seq<Session> {
    if s == [] then [] else OfNumber(s[..|s| - 1], n) + (if Order(s[|s| - 1]) == n then [s[|s| - 1]] else [])
  }

  lemma OfNumberAppend(s: seq<Session>, x: Session, n: int)
    ensures OfNumber(s + [x], n) == OfNumber(s, n) + (if Order(x) == n then [x] else [])
  {
    assert (s + [x])[..|s|] == s;
  }

  lemma {:induction false} InsertIsStable(s: seq<Session>, x: Session, n: int)
    requires Sorted(s)
    ensures OfNumber(InsertBySeq(s, x), n) == OfNumber(s + [x], n)
  {
    if s != [] && Order(s[|s| - 1]) > Order(x) {
      var init, last := s[..|s| - 1], s[|s| - 1];
      InsertIsStable(init, x, n);
      OfNumberAppend(InsertBySeq(init, x), last, n);
      OfNumberAppend(init, x, n);
      OfNumberAppend(s, x, n);
    }
  }

  /** Sessions with the same number stay in the order they came in. */
  lemma {:induction false} SortIsStable(s: seq<Session>, n: int)
    ensures OfNumber(SortBySeq(s), n) == OfNumber(s, n)
  {
    if s != [] {
      var init, last := s[..|s| - 1], s[|s| - 1];
      SortIsStable(init, n);
      SortBySeqSorts(init);
      InsertIsStable(SortBySeq(init), last, n);
      OfNumberAppend(SortBySeq(init), last, n);
    }
  }

  lemma LastIsSame(a: seq<Session>, b: seq<Session>)
    requires a != [] && b != [] && Sorted(a) && multiset(a) == multiset(b)
    requires forall i, j :: 0 <= i < j < |b| ==> Order(b[i]) < Order(b[j])
    ensures a[|a| - 1] == b[|b| - 1]
  {
    var x, y := a[|a| - 1], b[|b| - 1];
    assert x in multiset(a) && y in multiset(b);
    assert x in multiset(b) && y in multiset(a);
    var i :| 0 <= i < |b| && b[i] == x;
    var j :| 0 <= j < |a| && a[j] == y;
  }

  lemma WithoutLast(a: seq<Session>)
    requires a != []
    ensures multiset(a[..|a| - 1]) == multiset(a) - multiset{a[|a| - 1]}
  {
    assert a == a[..|a| - 1] + [a[|a| - 1]];
  }

  // A sorted list is the only sorted list of its elements when no two of them have the same number.
  lemma {:induction false} SortedIsUnique(a: seq<Session>, b: seq<Session>)
    requires Sorted(a) && multiset(a) == multiset(b)
    requires forall i, j :: 0 <= i < j < |b| ==> Order(b[i]) < Order(b[j])
    ensures a == b
  {
    assert |multiset(a)| == |a| && |multiset(b)| == |b|;
    if a != [] {
      var a', b' := a[..|a| - 1], b[..|b| - 1];
      assert multiset(a') == multiset(b') by {
        LastIsSame(a, b);
        WithoutLast(a);
        WithoutLast(b);
      }
      SortedIsUnique(a', b');
      LastIsSame(a, b);
      assert a == a' + [a[|a| - 1]] && b == b' + [b[|b| - 1]];
    }
  }

  lemma {:induction false} NumberIsThere(s: seq<Session>, n: int)
    requires OfNumber(s, n) != []
    ensures exists i :: 0 <= i < |s| && Order(s[i]) == n
  {
    if Order(s[|s| - 1]) != n {
      NumberIsThere(s[..|s| - 1], n);
    }
  }

  // The two lists have the same sessions of each number, in the same order.
  ghost predicate SameByNumber(a: seq<Session>, b: seq<Session>) {
    forall n :: OfNumber(a, n) == OfNumber(b, n)
  }

  lemma SameLast(a: seq<Session>, b: seq<Session>)
    requires Sorted(a) && Sorted(b) && SameByNumber(a, b) && a != []
    ensures b != [] && a[|a| - 1] == b[|b| - 1]
  {
    var n := Order(a[|a| - 1]);
    assert OfNumber(b, n) == OfNumber(a, n);
    NumberIsThere(b, n);
    var m := Order(b[|b| - 1]);
    assert OfNumber(a, m) == OfNumber(b, m);
    NumberIsThere(a, m);
    assert m == n;
    assert OfNumber(a, n)[|OfNumber(a, n)| - 1] == a[|a| - 1];
    assert OfNumber(b, n)[|OfNumber(b, n)| - 1] == b[|b| - 1];
  }

  lemma SameFront<T>(a: seq<T>, b: seq<T>, end: seq<T>)
    requires a + end == b + end
    ensures a == b
  {
    assert |a + end| == |a| + |end| && |b + end| == |b| + |end|;
    assert a == (a + end)[..|a|] && b == (b + end)[..|b|];
  }

  lemma SameWithoutLast(a: seq<Session>, b: seq<Session>)
    requires a != [] && b != [] && SameByNumber(a, b) && a[|a| - 1] == b[|b| - 1]
    ensures SameByNumber(a[..|a| - 1], b[..|b| - 1])
  {
    var a', b', x := a[..|a| - 1], b[..|b| - 1], a[|a| - 1];
    forall n ensures OfNumber(a', n) == OfNumber(b', n) {
      assert OfNumber(a, n) == OfNumber(b, n);
      SameFront(OfNumber(a', n), OfNumber(b', n), if Order(x) == n then [x] else []);
    }
  }

  lemma NothingIsUnique(b: seq<Session>)
    requires SameByNumber([], b)
    ensures b == []
  {
    assert b != [] ==> OfNumber(b, Order(b[|b| - 1])) == OfNumber([], Order(b[|b| - 1]));
  }

  lemma {:induction false} StableSortedIsUnique(a: seq<Session>, b: seq<Session>)
    requires Sorted(a) && Sorted(b) && SameByNumber(a, b)
    ensures a == b
    decreases |a| + |b|
  {
    if a != [] {
      SameLast(a, b);
      SameWithoutLast(a, b);
      StableSortedIsUnique(a[..|a| - 1], b[..|b| - 1]);
      assert a == a[..|a| - 1] + [a[|a| - 1]] && b == b[..|b| - 1] + [b[|b| - 1]];
    } else {
      NothingIsUnique(b);
    }
  }

  /** Ascending and stable: that fixes the result, whatever numbers are shared. */
  lemma StableSortIsTheOnlyOne(s: seq<Session>, r: seq<Session>)
    ensures Sorted(r) && SameByNumber(r, s) <==> r == SortBySeq(s)
  {
    SortBySeqSorts(s);
    forall n ensures OfNumber(SortBySeq(s), n) == OfNumber(s, n) {
      SortIsStable(s, n);
    }
    if Sorted(r) && SameByNumber(r, s) {
      StableSortedIsUnique(r, SortBySeq(s));
    }
  }

  // ------------------------------------------------------------------ the drag

  // ids.splice(to, 0, ids.splice(from, 1)[0])
  function Moved(ids: seq<string>, from: nat, to: nat): seq<string>
    requires from < |ids| && to < |ids|
  {
    var rest := ids[..from] + ids[from + 1..];
    rest[..to] + [ids[from]] + rest[to..]
  }

  lemma Around(c: seq<string>, x: string, d: seq<string>)
    ensures var r := c + [x] + d;
      |r| == |c| + 1 + |d| && r[|c|] == x && r[..|c|] == c && r[|c| + 1..] == d
  {
  }

  /** A drag puts the dragged id where its target was and nothing else out of order: taking the dragged
      id away from both lists leaves the same list. */
  lemma DragMovesOneId(ids: seq<string>, from: nat, to: nat)
    requires from < |ids| && to < |ids|
    ensures var r := Moved(ids, from, to);
      && |r| == |ids| && r[to] == ids[from] && multiset(r) == multiset(ids)
      && r[..to] + r[to + 1..] == ids[..from] + ids[from + 1..]
  {
    var p, q := ids[..from], ids[from + 1..];
    var c, d := (p + q)[..to], (p + q)[to..];
    assert ids == p + [ids[from]] + q;
    assert p + q == c + d;
    SameAround(p, q, c, d, ids[from]);
    Around(c, ids[from], d);
  }

  lemma SameAround(p: seq<string>, q: seq<string>, c: seq<string>, d: seq<string>, x: string)
    requires p + q == c + d
    ensures multiset(p + [x] + q) == multiset(c + [x] + d)
  {
    assert multiset(p + [x] + q) == multiset(p) + multiset{x} + multiset(q) == multiset(p + q) + multiset{x};
    assert multiset(c + [x] + d) == multiset(c) + multiset{x} + multiset(d) == multiset(c + d) + multiset{x};
  }

  // ------------------------------------------------------------------ the merge

  function CountVisible(ids: seq<string>, visible: set<string>): nat {
    if ids == [] then 0 else CountVisible(ids[..|ids| - 1], visible) + (if ids[|ids| - 1] in visible then 1 else 0)
  }

  lemma {:induction false} CountIsKept(ids: seq<string>, visible: set<string>)
    ensures CountVisible(ids, visible) == |Keep(ids, Among(visible))|
  {
    if ids != [] {
      CountIsKept(ids[..|ids| - 1], visible);
    }
  }

  lemma {:induction false} CountGrows(ids: seq<string>, visible: set<string>, i: nat)
    requires i <= |ids|
    ensures CountVisible(ids[..i], visible) <= CountVisible(ids, visible)
    ensures i < |ids| ==> CountVisible(ids[..i + 1], visible) <= CountVisible(ids, visible)
    ensures i < |ids| ==> CountVisible(ids[..i + 1], visible) ==
                          CountVisible(ids[..i], visible) + (if ids[i] in visible then 1 else 0)
  {
    if i < |ids| {
      assert ids[..i + 1][..i] == ids[..i];
      if i + 1 < |ids| {
        CountGrows(ids[..|ids| - 1], visible, i);
        assert ids[..|ids| - 1][..i] == ids[..i] && ids[..|ids| - 1][..i + 1] == ids[..i + 1];
      } else {
        assert ids[..i + 1] == ids;
      }
    } else {
      assert ids[..i] == ids;
    }
  }

  ghost function IdSet(ids: seq<string>): set<string> {
    set id | id in ids
  }

  // What the merge puts into slot i: the visible slots are filled from the new order, left to right.
  // None is the undefined that JavaScript reads past the end of it.
  ghost function SlotOf(full: seq<string>, visibleNew: seq<string>, i: nat): Option<string>
    requires i < |full|
  {
    var next := CountVisible(full[..i], IdSet(visibleNew));
    if full[i] !in IdSet(visibleNew) then Some(full[i])
    else if next < |visibleNew| then Some(visibleNew[next])
    else None
  }

  ghost predicate IsMerge(full: seq<string>, visibleNew: seq<string>, r: seq<string>) {
    |r| == |full| && forall i :: 0 <= i < |full| ==> SlotOf(full, visibleNew, i) == Some(r[i])
  }

  function Defined(slots: seq<Option<string>>): (r: seq<string>)
    requires forall i :: 0 <= i < |slots| ==> slots[i].Some?
    ensures |r| == |slots| && forall i :: 0 <= i < |slots| ==> r[i] == slots[i].value
  {
    seq(|slots|, i requires 0 <= i < |slots| => slots[i].value)
  }

  lemma {:induction false} CountReaches(ids: seq<string>, visible: set<string>, n: nat)
    requires n < CountVisible(ids, visible)
    ensures exists i :: 0 <= i < |ids| && ids[i] in visible && CountVisible(ids[..i], visible) == n
  {
    var init, last := ids[..|ids| - 1], |ids| - 1;
    if n < CountVisible(init, visible) {
      CountReaches(init, visible, n);
      var i :| 0 <= i < |init| && init[i] in visible && CountVisible(init[..i], visible) == n;
      assert ids[..i] == init[..i] && ids[i] == init[i];
    } else {
      assert ids[last] in visible && CountVisible(ids[..last], visible) == n;
    }
  }

  // No slot is left undefined exactly if there are ids enough for the visible ones.
  lemma AllSlotsDefined(full: seq<string>, visibleNew: seq<string>)
    ensures (forall i :: 0 <= i < |full| ==> SlotOf(full, visibleNew, i).Some?) <==>
            CountVisible(full, IdSet(visibleNew)) <= |visibleNew|
  {
    var v := IdSet(visibleNew);
    if CountVisible(full, v) > |visibleNew| {
      CountReaches(full, v, |visibleNew|);
      var i :| 0 <= i < |full| && full[i] in v && CountVisible(full[..i], v) == |visibleNew|;
      assert SlotOf(full, visibleNew, i) == None;
    } else {
      forall i | 0 <= i < |full| ensures SlotOf(full, visibleNew, i).Some? {
        CountGrows(full, v, i);
      }
    }
  }

  /** The loop of mergeReorder, on any two lists. A slot is left undefined if and only if the full list
      has more visible slots than there are visible ids. */
  method MergeReorder(fullIds: seq<string>, visibleNew: seq<string>) returns (r: seq<Option<string>>)
    ensures |r| == |fullIds| && forall i :: 0 <= i < |r| ==> r[i] == SlotOf(fullIds, visibleNew, i)
    ensures (forall i :: 0 <= i < |r| ==> r[i].Some?) <==> CountVisible(fullIds, IdSet(visibleNew)) <= |visibleNew|
    ensures CountVisible(fullIds, IdSet(visibleNew)) <= |visibleNew| ==> IsMerge(fullIds, visibleNew, Defined(r))
  {
    var visible := set id | id in visibleNew;
    assert visible == IdSet(visibleNew);
    r := seq(|fullIds|, i requires 0 <= i < |fullIds| => Some(fullIds[i]));
    var next := 0;
    for i := 0 to |r|
      invariant |r| == |fullIds| && next == CountVisible(fullIds[..i], visible)
      invariant forall j :: i <= j < |r| ==> r[j] == Some(fullIds[j])
      invariant forall j :: 0 <= j < i ==> r[j] == SlotOf(fullIds, visibleNew, j)
    {
      CountGrows(fullIds, visible, i);
      if fullIds[i] in visible {
        r := r[i := if next < |visibleNew| then Some(visibleNew[next]) else None];
        next := next + 1;
      }
    }
    AllSlotsDefined(fullIds, visibleNew);
  }

  lemma {:induction false} CountsElements(ids: seq<string>, visible: set<string>)
    requires Distinct(ids)
    ensures CountVisible(ids, visible) <= |visible|
  {
    if ids != [] {
      var init, last := ids[..|ids| - 1], ids[|ids| - 1];
      if last in visible {
        WithoutIsSame(init, visible, last);
        CountsElements(init, visible - {last});
      } else {
        CountsElements(init, visible);
      }
    }
  }

  lemma {:induction false} WithoutIsSame(ids: seq<string>, visible: set<string>, x: string)
    requires x !in ids
    ensures CountVisible(ids, visible - {x}) == CountVisible(ids, visible)
  {
    if ids != [] {
      WithoutIsSame(ids[..|ids| - 1], visible, x);
    }
  }

  lemma {:induction false} FewerThanListed(ids: seq<string>)
    ensures |IdSet(ids)| <= |ids|
  {
    if ids != [] {
      var init, last := ids[..|ids| - 1], ids[|ids| - 1];
      FewerThanListed(init);
      assert ids == init + [last];
      assert IdSet(ids) == IdSet(init) + {last};
    }
  }

  /** A full list that names nobody twice never gets an undefined slot. */
  lemma DistinctListsAreFilled(full: seq<string>, visibleNew: seq<string>)
    requires Distinct(full)
    ensures CountVisible(full, IdSet(visibleNew)) <= |visibleNew|
  {
    CountsElements(full, IdSet(visibleNew));
    FewerThanListed(visibleNew);
  }

  // A permutation of the visible ids, in some new order.
  ghost predicate Reorders(full: seq<string>, visibleNew: seq<string>) {
    multiset(visibleNew) == multiset(Keep(full, Among(IdSet(visibleNew))))
  }

  lemma ReordersCovers(full: seq<string>, visibleNew: seq<string>)
    requires Reorders(full, visibleNew)
    ensures CountVisible(full, IdSet(visibleNew)) == |visibleNew|
  {
    CountIsKept(full, IdSet(visibleNew));
    assert |multiset(visibleNew)| == |visibleNew|;
    var kept := Keep(full, Among(IdSet(visibleNew)));
    assert |multiset(kept)| == |kept|;
  }

  lemma KeepUpTo(s: seq<string>, i: nat, p: string -> bool)
    requires i < |s|
    ensures Keep(s[..i + 1], p) == Keep(s[..i], p) + (if p(s[i]) then [s[i]] else [])
  {
    assert s[..i + 1] == s[..i] + [s[i]];
    KeepAppend(s[..i], s[i], p);
  }

  ghost predicate VisibleUpTo(full: seq<string>, visibleNew: seq<string>, r: seq<string>, i: nat)
    requires i <= |full| == |r|
  {
    var c := CountVisible(full[..i], IdSet(visibleNew));
    c <= |visibleNew| && Keep(r[..i], Among(IdSet(visibleNew))) == visibleNew[..c]
  }

  lemma VisibleStep(full: seq<string>, visibleNew: seq<string>, r: seq<string>, i: nat)
    requires IsMerge(full, visibleNew, r) && i < |full|
    requires CountVisible(full, IdSet(visibleNew)) == |visibleNew|
    requires VisibleUpTo(full, visibleNew, r, i)
    ensures VisibleUpTo(full, visibleNew, r, i + 1)
  {
    var v := IdSet(visibleNew);
    CountGrows(full, v, i);
    KeepUpTo(r, i, Among(v));
    var c := CountVisible(full[..i], v);
    assert Some(r[i]) == SlotOf(full, visibleNew, i);
    if full[i] !in v {
      assert r[i] == full[i];
    } else {
      assert r[i] == visibleNew[c] && visibleNew[..c + 1] == visibleNew[..c] + [visibleNew[c]];
    }
  }

  lemma {:induction false} MergedVisible(full: seq<string>, visibleNew: seq<string>, r: seq<string>, i: nat)
    requires IsMerge(full, visibleNew, r) && i <= |full|
    requires CountVisible(full, IdSet(visibleNew)) == |visibleNew|
    ensures VisibleUpTo(full, visibleNew, r, i)
  {
    if i > 0 {
      MergedVisible(full, visibleNew, r, i - 1);
      VisibleStep(full, visibleNew, r, i - 1);
    }
  }

  lemma {:induction false} MergedHidden(full: seq<string>, visibleNew: seq<string>, r: seq<string>, i: nat)
    requires IsMerge(full, visibleNew, r) && i <= |full|
    ensures Keep(r[..i], NotAmong(IdSet(visibleNew))) == Keep(full[..i], NotAmong(IdSet(visibleNew)))
  {
    if i > 0 {
      var hidden := NotAmong(IdSet(visibleNew));
      MergedHidden(full, visibleNew, r, i - 1);
      KeepUpTo(r, i - 1, hidden);
      KeepUpTo(full, i - 1, hidden);
      assert Some(r[i - 1]) == SlotOf(full, visibleNew, i - 1);
    }
  }

  lemma {:induction false} KeepSplits(s: seq<string>, v: set<string>)
    ensures multiset(s) == multiset(Keep(s, Among(v))) + multiset(Keep(s, NotAmong(v)))
  {
    if s != [] {
      var init, last := s[..|s| - 1], s[|s| - 1];
      KeepSplits(init, v);
      assert s == init + [last];
      AppendCounts(init, last);
      KeepAppend(init, last, Among(v));
      KeepAppend(init, last, NotAmong(v));
      AppendCounts(Keep(init, if last in v then Among(v) else NotAmong(v)), last);
    }
  }

  /** The merge shows exactly the new visible order, keeps every hidden id in its own slot, and is a
      permutation of the full list. */
  lemma MergeIsExact(full: seq<string>, visibleNew: seq<string>, r: seq<string>)
    requires Reorders(full, visibleNew) && IsMerge(full, visibleNew, r)
    ensures Keep(r, Among(IdSet(visibleNew))) == visibleNew
    ensures forall i :: 0 <= i < |full| && full[i] !in visibleNew ==> r[i] == full[i]
    ensures multiset(r) == multiset(full)
  {
    var v := IdSet(visibleNew);
    ReordersCovers(full, visibleNew);
    MergedVisible(full, visibleNew, r, |full|);
    MergedHidden(full, visibleNew, r, |full|);
    assert r[..|full|] == r && full[..|full|] == full;
    KeepSplits(r, v);
    KeepSplits(full, v);
  }

  // ------------------------------------------------------------------ end to end

  ghost predicate Lists(sessions: seq<Session>, id: string) {
    exists i :: 0 <= i < |sessions| && sessions[i].id == id
  }

  ghost function ById(sessions: seq<Session>, id: string): (s: Session)
    requires Lists(sessions, id)
    ensures s.id == id && s in sessions
  {
    var i :| 0 <= i < |sessions| && sessions[i].id == id;
    sessions[i]
  }

  // Every listed session with its position as its number: what handleReorder shows at once.
  ghost function Renumbered(sessions: seq<Session>, ids: seq<string>): seq<Session>
    requires forall i :: 0 <= i < |ids| ==> Lists(sessions, ids[i])
  {
    seq(|ids|, i requires 0 <= i < |ids| => ById(sessions, ids[i]).(order := Some(i)))
  }

  lemma FilterIsKeep(sessions: seq<Session>, selected: seq<string>)
    ensures FilterByTags(sessions, selected) == Keep(sessions, s => Passes(s, selected))
  {
    if selected == [] {
      KeepAll(sessions, s => Passes(s, selected));
    }
  }

  lemma {:induction false} KeepAll<T>(s: seq<T>, p: T -> bool)
    requires forall i :: 0 <= i < |s| ==> p(s[i])
    ensures Keep(s, p) == s
  {
    if s != [] {
      KeepAll(s[..|s| - 1], p);
      assert s == s[..|s| - 1] + [s[|s| - 1]];
    }
  }

  // Filtering sessions and filtering their ids agree when the ids tell who passes.
  lemma {:induction false} KeepIds(s: seq<Session>, p: Session -> bool, v: set<string>)
    requires forall i :: 0 <= i < |s| ==> (p(s[i]) <==> s[i].id in v)
    ensures Ids(Keep(s, p)) == Keep(Ids(s), Among(v))
  {
    if s != [] {
      var init, last := s[..|s| - 1], s[|s| - 1];
      KeepIds(init, p, v);
      assert Ids(s) == Ids(init) + [last.id];
      KeepAppend(Ids(init), last.id, Among(v));
      assert Ids(Keep(init, p) + [last]) == Ids(Keep(init, p)) + [last.id];
    }
  }

  lemma {:induction false} KeptPass<T>(s: seq<T>, p: T -> bool, x: T)
    ensures x in Keep(s, p) <==> x in s && p(x)
  {
    if s != [] {
      KeptPass(s[..|s| - 1], p, x);
      assert s == s[..|s| - 1] + [s[|s| - 1]];
    }
  }

  // With distinct ids, a session passes the filter exactly when its id is shown.
  lemma ShownIds(sessions: seq<Session>, selected: seq<string>, s: Session)
    requires Distinct(Ids(sessions)) && s in sessions
    ensures Passes(s, selected) <==> s.id in IdSet(Ids(FilterByTags(sessions, selected)))
  {
    var p := (x: Session) => Passes(x, selected);
    FilterIsKeep(sessions, selected);
    var shown := FilterByTags(sessions, selected);
    KeptPass(sessions, p, s);
    if Passes(s, selected) {
      var k :| 0 <= k < |shown| && shown[k] == s;
      assert Ids(shown)[k] == s.id;
    }
    if s.id in IdSet(Ids(shown)) {
      var k :| 0 <= k < |shown| && Ids(shown)[k] == s.id;
      KeptPass(sessions, p, shown[k]);
      var i :| 0 <= i < |sessions| && sessions[i] == s;
      var j :| 0 <= j < |sessions| && sessions[j] == shown[k];
      assert Ids(sessions)[i] == Ids(sessions)[j];
    }
  }

  lemma SameIds(a: seq<string>, b: seq<string>)
    requires multiset(a) == multiset(b)
    ensures IdSet(a) == IdSet(b)
  {
    forall id ensures id in IdSet(a) <==> id in IdSet(b) {
      assert id in a <==> id in multiset(a);
      assert id in b <==> id in multiset(b);
    }
  }

  lemma DragReorders(sessions: seq<Session>, selected: seq<string>, from: nat, to: nat)
    requires Distinct(Ids(sessions))
    requires from < |FilterByTags(sessions, selected)| && to < |FilterByTags(sessions, selected)|
    ensures var visible := Ids(FilterByTags(sessions, selected));
      && Reorders(Ids(sessions), Moved(visible, from, to))
      && IdSet(Moved(visible, from, to)) == IdSet(visible)
  {
    var visible := Ids(FilterByTags(sessions, selected));
    DragMovesOneId(visible, from, to);
    SameIds(visible, Moved(visible, from, to));
    FilterIsKeep(sessions, selected);
    forall i | 0 <= i < |sessions| ensures Passes(sessions[i], selected) <==> sessions[i].id in IdSet(visible) {
      ShownIds(sessions, selected, sessions[i]);
    }
    KeepIds(sessions, s => Passes(s, selected), IdSet(visible));
  }

  lemma ListedAfterMerge(sessions: seq<Session>, merged: seq<string>)
    requires multiset(merged) == multiset(Ids(sessions))
    ensures forall i :: 0 <= i < |merged| ==> Lists(sessions, merged[i])
  {
    forall i | 0 <= i < |merged| ensures Lists(sessions, merged[i]) {
      assert merged[i] in multiset(Ids(sessions));
      var k :| 0 <= k < |sessions| && Ids(sessions)[k] == merged[i];
      assert sessions[k].id == merged[i];
    }
  }

  lemma SortRestores(sessions: seq<Session>, merged: seq<string>, listed: seq<Session>)
    requires forall i :: 0 <= i < |merged| ==> Lists(sessions, merged[i])
    requires multiset(listed) == multiset(Renumbered(sessions, merged))
    ensures SortBySeq(listed) == Renumbered(sessions, merged) && Ids(Renumbered(sessions, merged)) == merged
  {
    SortBySeqSorts(listed);
    SortedIsUnique(SortBySeq(listed), Renumbered(sessions, merged));
  }

  // Numbering changes nobody's tags.
  lemma RenumberedShows(sessions: seq<Session>, selected: seq<string>, merged: seq<string>)
    requires Distinct(Ids(sessions))
    requires forall i :: 0 <= i < |merged| ==> Lists(sessions, merged[i])
    ensures Ids(FilterByTags(Renumbered(sessions, merged), selected)) ==
            Keep(merged, Among(IdSet(Ids(FilterByTags(sessions, selected)))))
  {
    var r, v := Renumbered(sessions, merged), IdSet(Ids(FilterByTags(sessions, selected)));
    FilterIsKeep(r, selected);
    forall i | 0 <= i < |r| ensures Passes(r[i], selected) <==> r[i].id in v {
      ShownIds(sessions, selected, ById(sessions, merged[i]));
    }
    KeepIds(r, s => Passes(s, selected), v);
    assert Ids(r) == merged;
  }

  // Listed in whatever order, the renumbered sessions sort into the merged list and show the drag.
  lemma RenumberedSurvives(sessions: seq<Session>, selected: seq<string>, from: nat, to: nat,
                           merged: seq<string>, listed: seq<Session>)
    requires Distinct(Ids(sessions))
    requires from < |FilterByTags(sessions, selected)| && to < |FilterByTags(sessions, selected)|
    requires IsMerge(Ids(sessions), Moved(Ids(FilterByTags(sessions, selected)), from, to), merged)
    requires forall i :: 0 <= i < |merged| ==> Lists(sessions, merged[i])
    requires multiset(listed) == multiset(Renumbered(sessions, merged))
    ensures SortBySeq(listed) == Renumbered(sessions, merged) && Ids(SortBySeq(listed)) == merged
    ensures Ids(FilterByTags(SortBySeq(listed), selected)) == Moved(Ids(FilterByTags(sessions, selected)), from, to)
  {
    DragReorders(sessions, selected, from, to);
    MergeIsExact(Ids(sessions), Moved(Ids(FilterByTags(sessions, selected)), from, to), merged);
    SortRestores(sessions, merged, listed);
    RenumberedShows(sessions, selected, merged);
  }

  /** The merge of a drag lists exactly the sessions there are, so every listed id can be numbered; the
      hidden ones keep their slots. */
  lemma MergeOfADragListsAll(sessions: seq<Session>, selected: seq<string>, from: nat, to: nat, merged: seq<string>)
    requires Distinct(Ids(sessions))
    requires from < |FilterByTags(sessions, selected)| && to < |FilterByTags(sessions, selected)|
    requires IsMerge(Ids(sessions), Moved(Ids(FilterByTags(sessions, selected)), from, to), merged)
    ensures multiset(merged) == multiset(Ids(sessions))
    ensures forall i :: 0 <= i < |merged| ==> Lists(sessions, merged[i])
    ensures forall i :: 0 <= i < |sessions| && !Passes(sessions[i], selected) ==> merged[i] == sessions[i].id
  {
    var visible := Ids(FilterByTags(sessions, selected));
    DragReorders(sessions, selected, from, to);
    MergeIsExact(Ids(sessions), Moved(visible, from, to), merged);
    ListedAfterMerge(sessions, merged);
    forall i | 0 <= i < |sessions| && !Passes(sessions[i], selected) ensures merged[i] == sessions[i].id {
      ShownIds(sessions, selected, sessions[i]);
      assert Ids(sessions)[i] !in IdSet(Moved(visible, from, to));
    }
  }

  // ------------------------------------------------------------------ what is stored and listed again

  // The user's rows, one session each: the ids and numbers from the table, the tags they always had.
  ghost predicate ReadFrom(t: Rows, user: int, sessions: seq<Session>, listed: seq<Session>) {
    && Distinct(Ids(listed))
    && (forall id :: id in Ids(listed) <==> Owns(t, user, id))
    && (forall s :: s in listed ==>
         s.id in t && s.order == Some(t[s.id].order) && Lists(sessions, s.id) && s.tags == ById(sessions, s.id).tags)
  }

  lemma {:induction false} OnceEach<T>(s: seq<T>, x: T)
    requires forall i, j :: 0 <= i < j < |s| ==> s[i] != s[j]
    ensures multiset(s)[x] == if x in s then 1 else 0
  {
    if s != [] {
      var init, last := s[..|s| - 1], s[|s| - 1];
      OnceEach(init, x);
      assert s == init + [last];
    }
  }

  lemma SameElements<T>(a: seq<T>, b: seq<T>)
    requires forall i, j :: 0 <= i < j < |a| ==> a[i] != a[j]
    requires forall i, j :: 0 <= i < j < |b| ==> b[i] != b[j]
    requires forall x :: x in a <==> x in b
    ensures multiset(a) == multiset(b)
  {
    forall x ensures multiset(a)[x] == multiset(b)[x] {
      OnceEach(a, x);
      OnceEach(b, x);
    }
  }

  lemma {:induction false} OnceEachMeansDistinct<T>(s: seq<T>)
    requires forall x :: multiset(s)[x] <= 1
    ensures forall i, j :: 0 <= i < j < |s| ==> s[i] != s[j]
  {
    if s != [] {
      var init, last := s[..|s| - 1], s[|s| - 1];
      assert s == init + [last];
      forall x ensures multiset(init)[x] <= 1 {
        assert multiset(s)[x] <= 1;
      }
      OnceEachMeansDistinct(init);
      assert last in init ==> multiset(init)[last] >= 1;
      assert multiset(s)[last] <= 1;
    }
  }

  lemma PermutationIsDistinct(a: seq<string>, b: seq<string>)
    requires Distinct(a) && multiset(a) == multiset(b)
    ensures Distinct(b) && forall id :: id in a <==> id in b
  {
    forall x ensures multiset(b)[x] <= 1 && (x in a <==> x in b) {
      OnceEach(a, x);
      assert x in b <==> x in multiset(b);
    }
    OnceEachMeansDistinct(b);
  }

  // What is read back after ReorderSessions is every session with its position as its number.
  lemma StoredIsRenumbered(t: Rows, user: int, sessions: seq<Session>, merged: seq<string>, s: Session)
    requires Distinct(merged) && forall id :: id in merged <==> Owns(t, user, id)
    requires forall i :: 0 <= i < |merged| ==> Lists(sessions, merged[i])
    ensures s in Renumbered(sessions, merged) <==>
      Owns(ReorderRows(t, user, merged), user, s.id) && Lists(sessions, s.id) &&
      s.order == Some(ReorderRows(t, user, merged)[s.id].order) && s.tags == ById(sessions, s.id).tags
  {
    ReorderAt(t, user, merged, s.id);
    if Owns(t, user, s.id) {
      var i :| 0 <= i < |merged| && merged[i] == s.id;
      ReorderStoresPositions(t, user, merged, i);
      assert Renumbered(sessions, merged)[i].id == s.id;
      if s in Renumbered(sessions, merged) {
        var k :| 0 <= k < |merged| && Renumbered(sessions, merged)[k] == s;
        assert merged[k] == s.id && k == i;
      }
    } else {
      assert s.id !in merged;
    }
  }

  lemma ReadBackIsRenumbered(t: Rows, user: int, sessions: seq<Session>, merged: seq<string>, listed: seq<Session>)
    requires Distinct(merged) && forall id :: id in merged <==> Owns(t, user, id)
    requires forall i :: 0 <= i < |merged| ==> Lists(sessions, merged[i])
    requires ReadFrom(ReorderRows(t, user, merged), user, sessions, listed)
    ensures multiset(listed) == multiset(Renumbered(sessions, merged))
  {
    var r, t' := Renumbered(sessions, merged), ReorderRows(t, user, merged);
    forall s ensures s in listed <==> s in r {
      StoredIsRenumbered(t, user, sessions, merged, s);
      if s in listed {
        var k :| 0 <= k < |listed| && listed[k] == s;
        assert Ids(listed)[k] == s.id;
      }
      if s in r {
        assert s.id in Ids(listed);
        var k :| 0 <= k < |listed| && Ids(listed)[k] == s.id;
        assert listed[k] in listed && listed[k] == s;
      }
    }
    forall i, j | 0 <= i < j < |listed| ensures listed[i] != listed[j] {
      assert Ids(listed)[i] != Ids(listed)[j];
    }
    SameElements(listed, r);
  }

  // ------------------------------------------------------------------ the drag's own state

  // The position of an id, or None where indexOf would say -1.
  method IndexOf(ids: seq<string>, id: string) returns (at: Option<nat>)
    ensures at.None? <==> id !in ids
    ensures at.Some? ==> at.value < |ids| && ids[at.value] == id && id !in ids[..at.value]
  {
    for i := 0 to |ids|
      invariant id !in ids[..i]
    {
      if ids[i] == id {
        return Some(i);
      }
    }
    return None;
  }

  class DragReorder {
    var dragging: Option<string>     // draggingRef
    var draggingId: Option<string>
    var overId: Option<string>

    constructor ()
      ensures dragging.None? && draggingId.None? && overId.None?
    {
      dragging, draggingId, overId := None, None, None;
    }

    method DragStart(id: string)
      modifies this
      ensures dragging == draggingId == Some(id) && overId == old(overId)
    {
      dragging, draggingId := Some(id), Some(id);
    }

    // An empty id is falsy, like no id.
    method DragEnter(id: string)
      modifies this`overId
      ensures overId == if dragging.Some? && dragging.value != "" && dragging.value != id then Some(id) else old(overId)
    {
      if dragging.Some? && dragging.value != "" && dragging.value != id {
        overId := Some(id);
      }
    }

    /** A drop reports a new order only when a listed id was dragged onto another listed one, and then
        reports that one move; whatever happens the drag is over. */
    method Finish(orderedIds: seq<string>, targetId: Option<string>) returns (reordered: Option<seq<string>>)
      modifies this
      ensures dragging.None? && draggingId.None? && overId.None?
      ensures reordered.Some? <==>
        && old(dragging).Some? && targetId.Some? && old(dragging).value != "" && targetId.value != ""
        && old(dragging) != targetId && old(dragging).value in orderedIds && targetId.value in orderedIds
      ensures reordered.Some? ==>
        exists from, to :: 0 <= from < |orderedIds| && 0 <= to < |orderedIds| &&
          orderedIds[from] == old(dragging).value && orderedIds[to] == targetId.value &&
          reordered.value == Moved(orderedIds, from, to)
    {
      reordered := None;
      if dragging.Some? && targetId.Some? && dragging.value != "" && targetId.value != "" && dragging != targetId {
        var from := IndexOf(orderedIds, dragging.value);
        var to := IndexOf(orderedIds, targetId.value);
        if from.Some? && to.Some? {
          var ids := orderedIds[..from.value] + orderedIds[from.value + 1..];
          ids := ids[..to.value] + [orderedIds[from.value]] + ids[to.value..];
          reordered := Some(ids);
          assert ids == Moved(orderedIds, from.value, to.value);
        }
      }
      dragging, draggingId, overId := None, None, None;
    }
  }
}
