/** The dashboard's tag filter (web/src/lib/tags.ts) over the sessions in order, and the whole way of a
    drag: filtered, merged, stored, read back, sorted and filtered again. */
module SessionTags {
  import opened Common
  import opened SeqModel
  import opened SessionOrder

  // ------------------------------------------------------------------ the tags in use

  ghost predicate Uses(sessions: seq<Session>, tag: string) {
    exists s :: s in sessions && tag in s.tags
  }

  ghost predicate Spelled(tags: seq<string>, tag: string) {
    exists a :: a in tags && Same(a, tag)
  }

  // Every tag in use, once ignoring case, in some spelling that is in use.
  ghost predicate ListsTags(sessions: seq<Session>, tags: seq<string>) {
    && (forall a :: a in tags ==> Uses(sessions, a))
    && (forall t :: Uses(sessions, t) ==> Spelled(tags, t))
    && (forall i, j :: 0 <= i < j < |tags| ==> !Same(tags[i], tags[j]))
  }

  // Of the tags considered so far, each is listed once, ignoring case; `seen` is what they look like in
  // lower case.
  ghost predicate ListsSoFar(used: set<string>, tags: seq<string>, seen: set<string>) {
    && (forall x :: x in seen <==> exists a :: a in tags && Lower(a) == x)
    && (forall a :: a in tags ==> a in used)
    && (forall t :: t in used ==> Spelled(tags, t))
    && (forall x, y :: 0 <= x < y < |tags| ==> !Same(tags[x], tags[y]))
  }

  lemma KnownTag(used: set<string>, tags: seq<string>, seen: set<string>, t: string)
    requires ListsSoFar(used, tags, seen) && Lower(t) in seen
    ensures ListsSoFar(used + {t}, tags, seen)
  {
    var a :| a in tags && Lower(a) == Lower(t);
    assert Spelled(tags, t) by {
      assert Same(a, t);
    }
    forall u | u in used + {t} ensures Spelled(tags, u) {
      assert u in used || u == t;
    }
  }

  lemma SeenGrows(tags: seq<string>, seen: set<string>, t: string)
    requires forall x :: x in seen <==> exists a :: a in tags && Lower(a) == x
    ensures forall x :: x in seen + {Lower(t)} <==> exists a :: a in tags + [t] && Lower(a) == x
  {
    var more, low := tags + [t], Lower(t);
    assert t in more;
    forall x ensures x in seen + {low} <==> exists a :: a in more && Lower(a) == x {
      if x in seen {
        var a :| a in tags && Lower(a) == x;
        assert a in more;
      }
    }
  }

  lemma SpelledGrows(used: set<string>, tags: seq<string>, t: string)
    requires forall u :: u in used ==> Spelled(tags, u)
    ensures forall u :: u in used + {t} ==> Spelled(tags + [t], u)
  {
    var more := tags + [t];
    assert t in more && Same(t, t);
    forall u | u in used ensures Spelled(more, u) {
      var a :| a in tags && Same(a, u);
      assert a in more;
    }
  }

  lemma StillDifferent(tags: seq<string>, t: string)
    requires forall x, y :: 0 <= x < y < |tags| ==> !Same(tags[x], tags[y])
    requires forall a :: a in tags ==> !Same(a, t)
    ensures forall x, y :: 0 <= x < y < |tags + [t]| ==> !Same((tags + [t])[x], (tags + [t])[y])
  {
    forall x | 0 <= x < |tags| ensures !Same(tags[x], t) {
      assert tags[x] in tags;
    }
  }

  lemma NewTag(used: set<string>, tags: seq<string>, seen: set<string>, t: string)
    requires ListsSoFar(used, tags, seen) && Lower(t) !in seen
    ensures ListsSoFar(used + {t}, tags + [t], seen + {Lower(t)})
  {
    SeenGrows(tags, seen, t);
    SpelledGrows(used, tags, t);
    StillDifferent(tags, t);
  }

  lemma IdSetMore(used: set<string>, own: seq<string>, j: nat)
    requires j < |own|
    ensures used + IdSet(own[..j]) + {own[j]} == used + IdSet(own[..j + 1])
  {
    assert own[..j + 1] == own[..j] + [own[j]];
  }

  // One tag of one session.
  method TakeTag(t: string, before: seq<string>, met: set<string>, ghost used: set<string>)
    returns (tags: seq<string>, seen: set<string>)
    requires ListsSoFar(used, before, met)
    ensures ListsSoFar(used + {t}, tags, seen)
  {
    tags, seen := before, met;
    if Lower(t) !in seen {
      NewTag(used, tags, seen, t);
      tags := tags + [t];
      seen := seen + {Lower(t)};
    } else {
      KnownTag(used, tags, seen, t);
    }
  }

  // The inner loop of allTags, over one session's tags.
  method TakeTags(own: seq<string>, before: seq<string>, met: set<string>, ghost used: set<string>)
    returns (tags: seq<string>, seen: set<string>)
    requires ListsSoFar(used, before, met)
    ensures ListsSoFar(used + IdSet(own), tags, seen)
  {
    tags, seen := before, met;
    ghost var done := used;
    for j := 0 to |own|
      invariant done == used + IdSet(own[..j]) && ListsSoFar(done, tags, seen)
    {
      IdSetMore(used, own, j);
      tags, seen := TakeTag(own[j], tags, seen, done);
      done := done + {own[j]};
    }
    assert own[..|own|] == own;
  }

  ghost function InUse(sessions: seq<Session>): set<string> {
    set s, t | s in sessions && t in s.tags :: t
  }

  lemma InUseMore(sessions: seq<Session>, i: nat)
    requires i < |sessions|
    ensures InUse(sessions[..i + 1]) == InUse(sessions[..i]) + IdSet(sessions[i].tags)
  {
    assert sessions[..i + 1] == sessions[..i] + [sessions[i]];
    forall t | t in InUse(sessions[..i]) || t in sessions[i].tags ensures t in InUse(sessions[..i + 1]) {
      if t in sessions[i].tags {
        assert sessions[i] in sessions[..i + 1];
      } else {
        var s :| s in sessions[..i] && t in s.tags;
        assert s in sessions[..i + 1];
      }
    }
  }

  /** allTags: its loops, before the list is sorted for display. */
  method AllTags(sessions: seq<Session>) returns (tags: seq<string>)
    ensures ListsTags(sessions, tags)
  {
    tags := [];
    var seen: set<string> := {};
    for i := 0 to |sessions|
      invariant ListsSoFar(InUse(sessions[..i]), tags, seen)
    {
      InUseMore(sessions, i);
      tags, seen := TakeTags(sessions[i].tags, tags, seen, InUse(sessions[..i]));
    }
    assert sessions[..|sessions|] == sessions;
    assert forall t :: t in InUse(sessions) <==> Uses(sessions, t);
  }

  // ------------------------------------------------------------------ what the saved filter shows

  ghost predicate Wanted(stored: seq<string>, tag: string) {
    exists s :: s in stored && Same(s, tag)
  }

  // A wanted tag is on the session, or no wanted tag is in use at all.
  ghost predicate Shows(sessions: seq<Session>, stored: seq<string>, s: Session) {
    (exists t :: t in s.tags && Wanted(stored, t)) || (forall t :: Uses(sessions, t) ==> !Wanted(stored, t))
  }

  lemma EffectiveTags(stored: seq<string>, tags: seq<string>, a: string)
    ensures a in EffectiveFilter(stored, tags) <==> a in tags && Wanted(stored, a)
  {
    KeptPass(tags, x => exists s :: s in stored && Same(s, x), a);
  }

  lemma WantedIsEffective(sessions: seq<Session>, stored: seq<string>, tags: seq<string>, t: string) returns (a: string)
    requires ListsTags(sessions, tags) && Uses(sessions, t) && Wanted(stored, t)
    ensures a in EffectiveFilter(stored, tags) && Same(a, t)
  {
    a :| a in tags && Same(a, t);
    var x :| x in stored && Same(x, t);
    assert Wanted(stored, a);
    EffectiveTags(stored, tags, a);
  }

  lemma EffectiveIsWanted(sessions: seq<Session>, stored: seq<string>, tags: seq<string>, f: string, t: string)
    requires f in EffectiveFilter(stored, tags) && Same(f, t)
    ensures f in tags && Wanted(stored, f) && Wanted(stored, t)
  {
    EffectiveTags(stored, tags, f);
    var x :| x in stored && Same(x, f);
    assert Same(x, t);
  }

  lemma ShowsIsNeeded(sessions: seq<Session>, stored: seq<string>, tags: seq<string>, s: Session)
    requires ListsTags(sessions, tags) && s in sessions && Passes(s, EffectiveFilter(stored, tags))
    ensures Shows(sessions, stored, s)
  {
    var sel := EffectiveFilter(stored, tags);
    if sel == [] {
      forall t | Uses(sessions, t) ensures !Wanted(stored, t) {
        if Wanted(stored, t) {
          var a := WantedIsEffective(sessions, stored, tags, t);
        }
      }
    } else {
      var t, f :| t in s.tags && f in sel && Same(f, t);
      EffectiveIsWanted(sessions, stored, tags, f, t);
    }
  }

  lemma ShowsIsEnough(sessions: seq<Session>, stored: seq<string>, tags: seq<string>, s: Session)
    requires ListsTags(sessions, tags) && s in sessions && Shows(sessions, stored, s)
    ensures Passes(s, EffectiveFilter(stored, tags))
  {
    var sel := EffectiveFilter(stored, tags);
    if t :| t in s.tags && Wanted(stored, t) {
      assert Uses(sessions, t);
      var a := WantedIsEffective(sessions, stored, tags, t);
    } else if sel != [] {
      EffectiveIsWanted(sessions, stored, tags, sel[0], sel[0]);
    }
  }

  /** What the saved filter shows, said without the list of tags it goes through. */
  lemma EffectiveFilterShows(sessions: seq<Session>, stored: seq<string>, tags: seq<string>, s: Session)
    requires ListsTags(sessions, tags) && s in sessions
    ensures Passes(s, EffectiveFilter(stored, tags)) <==> Shows(sessions, stored, s)
  {
    if Passes(s, EffectiveFilter(stored, tags)) {
      ShowsIsNeeded(sessions, stored, tags, s);
    }
    if Shows(sessions, stored, s) {
      ShowsIsEnough(sessions, stored, tags, s);
    }
  }

  lemma {:induction false} KeepSame<T>(s: seq<T>, p: T -> bool, q: T -> bool)
    requires forall x :: x in s ==> p(x) == q(x)
    ensures Keep(s, p) == Keep(s, q)
  {
    if s != [] {
      assert s == s[..|s| - 1] + [s[|s| - 1]];
      KeepSame(s[..|s| - 1], p, q);
    }
  }

  lemma SameSessionsPass(sessions: seq<Session>, x: seq<string>, y: seq<string>)
    requires forall s :: s in sessions ==> (Passes(s, x) <==> Passes(s, y))
    ensures FilterByTags(sessions, x) == FilterByTags(sessions, y)
  {
    FilterIsKeep(sessions, x);
    FilterIsKeep(sessions, y);
    KeepSame(sessions, s => Passes(s, x), s => Passes(s, y));
  }

  /** So neither the order of the tags nor which spelling was met first shows in what passes. */
  lemma AnyListingFiltersAlike(sessions: seq<Session>, stored: seq<string>, a: seq<string>, b: seq<string>)
    requires ListsTags(sessions, a) && ListsTags(sessions, b)
    ensures FilterByTags(sessions, EffectiveFilter(stored, a)) == FilterByTags(sessions, EffectiveFilter(stored, b))
  {
    var x, y := EffectiveFilter(stored, a), EffectiveFilter(stored, b);
    forall s | s in sessions ensures Passes(s, x) <==> Passes(s, y) {
      EffectiveFilterShows(sessions, stored, a, s);
      EffectiveFilterShows(sessions, stored, b, s);
    }
    SameSessionsPass(sessions, x, y);
  }

  // ------------------------------------------------------------------ end to end

  lemma RenumberedUsesBack(sessions: seq<Session>, merged: seq<string>, tag: string)
    requires forall i :: 0 <= i < |merged| ==> Lists(sessions, merged[i])
    requires Uses(Renumbered(sessions, merged), tag)
    ensures Uses(sessions, tag)
  {
    var r := Renumbered(sessions, merged);
    var s :| s in r && tag in s.tags;
    var k :| 0 <= k < |r| && r[k] == s;
    assert ById(sessions, merged[k]) in sessions;
  }

  lemma ByIdIs(sessions: seq<Session>, s: Session)
    requires Distinct(Ids(sessions)) && s in sessions
    ensures Lists(sessions, s.id) && ById(sessions, s.id) == s
  {
    var k :| 0 <= k < |sessions| && sessions[k] == s;
    var other := ById(sessions, s.id);
    var j :| 0 <= j < |sessions| && sessions[j] == other;
    assert Ids(sessions)[j] == Ids(sessions)[k];
  }

  lemma RenumberedUses(sessions: seq<Session>, merged: seq<string>, tag: string)
    requires Distinct(Ids(sessions)) && forall id :: id in merged <==> id in Ids(sessions)
    requires forall i :: 0 <= i < |merged| ==> Lists(sessions, merged[i])
    requires Uses(sessions, tag)
    ensures Uses(Renumbered(sessions, merged), tag)
  {
    var r := Renumbered(sessions, merged);
    var s :| s in sessions && tag in s.tags;
    var k :| 0 <= k < |sessions| && sessions[k] == s;
    assert Ids(sessions)[k] == s.id && s.id in merged;
    var i :| 0 <= i < |merged| && merged[i] == s.id;
    ByIdIs(sessions, s);
    assert r[i] in r && tag in r[i].tags;
  }

  lemma SameUses(a: seq<Session>, b: seq<Session>, tags: seq<string>)
    requires ListsTags(a, tags) && forall t :: Uses(a, t) <==> Uses(b, t)
    ensures ListsTags(b, tags)
  {
  }

  lemma TagsStay(sessions: seq<Session>, merged: seq<string>, tags: seq<string>)
    requires Distinct(Ids(sessions)) && forall id :: id in merged <==> id in Ids(sessions)
    requires forall i :: 0 <= i < |merged| ==> Lists(sessions, merged[i])
    requires ListsTags(sessions, tags)
    ensures ListsTags(Renumbered(sessions, merged), tags)
  {
    var r := Renumbered(sessions, merged);
    forall t ensures Uses(sessions, t) <==> Uses(r, t) {
      if Uses(sessions, t) {
        RenumberedUses(sessions, merged, t);
      }
      if Uses(r, t) {
        RenumberedUsesBack(sessions, merged, t);
      }
    }
    SameUses(sessions, r, tags);
  }

  /** A drag survives the round trip. Whatever filter is saved, drag one visible session onto another,
      merge that into the full list, store it with ReorderSessions, read the rows back in any order
      whatever, sort by number, list the tags afresh and filter again: exactly the dragged order is
      shown, and the full list is the merged one. */
  lemma DragSurvivesTheRoundTrip(t: Rows, user: int, sessions: seq<Session>, stored: seq<string>, tags: seq<string>,
                                 from: nat, to: nat, merged: seq<string>, listed: seq<Session>, tagsAfter: seq<string>)
    requires Distinct(Ids(sessions)) && (forall id :: id in Ids(sessions) <==> Owns(t, user, id))
    requires ListsTags(sessions, tags) && ListsTags(SortBySeq(listed), tagsAfter)
    requires var shown := FilterByTags(sessions, EffectiveFilter(stored, tags));
      from < |shown| && to < |shown| && IsMerge(Ids(sessions), Moved(Ids(shown), from, to), merged)
    requires ReadFrom(ReorderRows(t, user, merged), user, sessions, listed)
    ensures Ids(SortBySeq(listed)) == merged
    ensures Ids(FilterByTags(SortBySeq(listed), EffectiveFilter(stored, tagsAfter))) ==
            Moved(Ids(FilterByTags(sessions, EffectiveFilter(stored, tags))), from, to)
  {
    var selected := EffectiveFilter(stored, tags);
    MergeOfADragListsAll(sessions, selected, from, to, merged);
    PermutationIsDistinct(Ids(sessions), merged);
    ReadBackIsRenumbered(t, user, sessions, merged, listed);
    RenumberedSurvives(sessions, selected, from, to, merged, listed);
    TagsStay(sessions, merged, tags);
    AnyListingFiltersAlike(SortBySeq(listed), stored, tags, tagsAfter);
  }
}
