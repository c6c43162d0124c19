/** Sorting as the library calls do it: a stable permutation in order. Also the byte order of strings. */
module Sorting {
  // The order of Go's < on strings.
  predicate Before(a: string, b: string) {
    b != [] && (a == [] || a[0] < b[0] || (a[0] == b[0] && Before(a[1..], b[1..])))
  }

  lemma {:induction false} BeforeIsTotal(a: string, b: string)
    ensures a == b || Before(a, b) || Before(b, a)
    ensures !(Before(a, b) && Before(b, a)) && !Before(a, a)
  {
    if a != [] && b != [] {
      BeforeIsTotal(a[1..], b[1..]);
      assert a == [a[0]] + a[1..] && b == [b[0]] + b[1..];
    }
    if a != [] {
      BeforeIsTotal(a[1..], a[1..]);
    }
  }

  lemma {:induction false} BeforeIsTransitive(a: string, b: string, c: string)
    requires Before(a, b) && Before(b, c)
    ensures Before(a, c)
  {
    if a != [] && a[0] == b[0] == c[0] {
      BeforeIsTransitive(a[1..], b[1..], c[1..]);
    }
  }

  // a and b agree up to i, where b goes on with a larger character or a has ended.
  predicate DecidedAt(a: string, b: string, i: nat) {
    i <= |a| && i < |b| && a[..i] == b[..i] && (i < |a| ==> a[i] < b[i])
  }

  lemma DecidedFirst(a: string, b: string, i: nat)
    requires DecidedAt(a, b, i)
    ensures if i == 0 then a == [] || a[0] < b[0] else a != [] && a[0] == b[0]
  {
    if i > 0 {
      assert a[..i][0] == b[..i][0];
    }
  }

  /** The order is the lexicographic one: the first difference decides, and a prefix comes first. */
  lemma {:induction false} BeforeIsLexicographic(a: string, b: string)
    ensures Before(a, b) <==> exists i: nat :: DecidedAt(a, b, i)
  {
    if a == [] || b == [] || a[0] != b[0] {
      if b != [] && (a == [] || a[0] < b[0]) {
        assert DecidedAt(a, b, 0);
      }
      if i: nat :| DecidedAt(a, b, i) {
        DecidedFirst(a, b, i);
      }
    } else {
      BeforeIsLexicographic(a[1..], b[1..]);
      if i: nat :| DecidedAt(a[1..], b[1..], i) {
        assert a[..i + 1] == [a[0]] + a[1..][..i] && b[..i + 1] == [b[0]] + b[1..][..i];
        assert DecidedAt(a, b, i + 1);
      }
      if i: nat :| DecidedAt(a, b, i) {
        assert a[1..][..i - 1] == a[..i][1..] && b[1..][..i - 1] == b[..i][1..];
        assert DecidedAt(a[1..], b[1..], i - 1);
      }
    }
  }

  // A sort key: ordered by number, the string breaking ties.
  datatype Ranked = Ranked(at: int, key: string)

  predicate Precedes(x: Ranked, y: Ranked) {
    x.at < y.at || (x.at == y.at && Before(x.key, y.key))
  }

  lemma PrecedesIsTotal(x: Ranked, y: Ranked)
    ensures x == y || Precedes(x, y) || Precedes(y, x)
    ensures !(Precedes(x, y) && Precedes(y, x)) && !Precedes(x, x)
  {
    BeforeIsTotal(x.key, y.key);
    BeforeIsTotal(x.key, x.key);
  }

  lemma PrecedesIsTransitive(x: Ranked, y: Ranked, z: Ranked)
    requires Precedes(x, y) && Precedes(y, z)
    ensures Precedes(x, z)
  {
    if x.at == y.at == z.at {
      BeforeIsTransitive(x.key, y.key, z.key);
    }
  }

  ghost predicate Ascending(s: seq<Ranked>) {
    forall i, j :: 0 <= i < j < |s| ==> Precedes(s[i], s[j])
  }

  ghost function Elements(s: seq<Ranked>): (r: set<Ranked>)
  {
    set x | x in s
  }

  // Puts x into an ascending list it is not yet in.
  function Insert(s: seq<Ranked>, x: Ranked): seq<Ranked> {
    if s == [] || !Precedes(x, s[|s| - 1]) then s + [x]
    else Insert(s[..|s| - 1], x) + [s[|s| - 1]]
  }

  lemma {:induction false} InsertAscends(s: seq<Ranked>, x: Ranked)
    requires Ascending(s) && x !in s
    ensures Ascending(Insert(s, x)) && |Insert(s, x)| == |s| + 1
    ensures Elements(Insert(s, x)) == Elements(s) + {x}
  {
    if s != [] {
      var init, last := s[..|s| - 1], s[|s| - 1];
      assert s == init + [last];
      PrecedesIsTotal(x, last);
      if Precedes(x, last) {
        InsertAscends(init, x);
        var r := Insert(init, x);
        forall i | 0 <= i < |r| ensures Precedes(r[i], last) {
          assert r[i] in Elements(r);
        }
      } else {
        forall i | 0 <= i < |s| ensures Precedes(s[i], x) {
          if i < |s| - 1 {
            PrecedesIsTransitive(s[i], last, x);
          }
        }
      }
    }
  }

  // sort.Slice on distinct keys.
  function Sort(s: seq<Ranked>): seq<Ranked> {
    if s == [] then [] else Insert(Sort(s[..|s| - 1]), s[|s| - 1])
  }

  lemma {:induction false} SortAscends(s: seq<Ranked>)
    requires forall i, j :: 0 <= i < j < |s| ==> s[i] != s[j]
    ensures Ascending(Sort(s)) && |Sort(s)| == |s| && Elements(Sort(s)) == Elements(s)
  {
    if s != [] {
      var init, last := s[..|s| - 1], s[|s| - 1];
      SortAscends(init);
      assert last !in Elements(init);
      assert last !in Elements(Sort(init));
      InsertAscends(Sort(init), last);
      assert s == init + [last];
    }
  }

  lemma {:induction false} ListOf(e: set<Ranked>) returns (s: seq<Ranked>)
    ensures Elements(s) == e && forall i, j :: 0 <= i < j < |s| ==> s[i] != s[j]
  {
    if e == {} {
      s := [];
    } else {
      var x :| x in e;
      var rest := ListOf(e - {x});
      assert x !in Elements(rest);
      s := rest + [x];
      assert forall y :: y in s <==> y in rest || y == x;
      assert Elements(s) == Elements(rest) + {x};
    }
  }
}
