/** What every module shares: optional values (a Go nil pointer, a SQL NULL, a missing map entry), bytes,
    lower case, picking from a set, and updates of sequences. */
module Common {
  datatype Option<T> = None | Some(value: T) {
    function GetOr(default: T): T {
      if Some? then value else default
    }

    // The SQL function COALESCE(this, other).
    function OrElse(other: Option<T>): Option<T> {
      if Some? then this else other
    }
  }

  type Byte = b: int | 0 <= b < 256

  // toLowerCase, for ASCII.
  function LowerChar(c: char): char {
    if 'A' <= c <= 'Z' then c - 'A' + 'a' else c
  }

  function Lower(s: string): (t: string)
    ensures |t| == |s| && forall i :: 0 <= i < |s| ==> t[i] == LowerChar(s[i])
  {
    seq(|s|, i requires 0 <= i < |s| => LowerChar(s[i]))
  }

  // Some element of a set: the next key a map iteration happens to visit.
  method Pick<T>(s: set<T>) returns (x: T)
    requires s != {}
    ensures x in s
  {
    x :| x in s;
  }

  // b is a with x at i.
  lemma Updated<T>(a: seq<T>, b: seq<T>, i: nat, x: T)
    requires i < |a| == |b| && b[i] == x && forall j :: 0 <= j < |a| && j != i ==> b[j] == a[j]
    ensures b == a[i := x]
  {
  }

  lemma InitAndLast<T>(s: seq<T>)
    requires s != []
    ensures s == s[..|s| - 1] + [s[|s| - 1]]
  {
  }

  lemma AppendCounts<T>(s: seq<T>, x: T)
    ensures multiset(s + [x]) == multiset(s) + multiset{x}
  {
  }

  // A longer sequence has the slices of the shorter one, and its own last element.
  lemma SliceOfLonger<T>(s: seq<T>, x: T, from: nat, to: nat)
    requires from <= to <= |s|
    ensures (s + [x])[from..to] == s[from..to]
    ensures (s + [x])[from..|s| + 1] == s[from..|s|] + [x]
  {
  }

  lemma Appended<T>(a: seq<T>, b: seq<T>, x: T)
    requires |b| == |a| + 1 && b[|a|] == x && forall j :: 0 <= j < |a| ==> b[j] == a[j]
    ensures b == a + [x]
  {
  }
}
