/** The table through which Go code in the browser refers to JavaScript values
    (web/public/wasm_exec.js): reference counts, reused ids, and NaN-boxed references in memory. */
module HandleModel {
  import opened Common

  /** JavaScript values, as far as the table tells them apart. Strings are compared by content, objects,
      symbols and functions by identity. */
  datatype Js =
    | Undefined | NaN | Number(value: real) | Zero(negative: bool) | Null | Bool(b: bool)
    | Global | Go | Object(id: int) | Str(s: string) | Symbol(id: int) | Function(id: int)

  // Number is for the numbers that are not zero, infinities left out.
  predicate WellFormed(v: Js) {
    v.Number? ==> v.value != 0.0
  }

  // What a Map takes to be the same key: -0 is 0.
  function Key(v: Js): Js {
    if v.Zero? then Zero(false) else v
  }

  // What 8 bytes of memory read as: a float that is not zero, zero, or a NaN with a flag and an id.
  datatype Slot = Float(value: real) | ZeroBits | Boxed(flag: nat, id: nat)

  datatype Count = Infinity | Finite(n: int) {
    function Inc(): Count { if Infinity? then Infinity else Finite(n + 1) }
    function Dec(): Count { if Infinity? then Infinity else Finite(n - 1) }
  }

  datatype Table = Table(values: seq<Js>, counts: seq<Count>, ids: map<Js, nat>, pool: seq<nat>)

  const RESERVED: nat := 7

  function Start(): Table {
    Table([NaN, Zero(false), Null, Bool(true), Bool(false), Global, Go],
          seq(RESERVED, i => Infinity),
          map[Zero(false) := 1, Null := 2, Bool(true) := 3, Bool(false) := 4, Global := 5, Go := 6],
          [])
  }

  function TypeFlag(v: Js): nat {
    match v
    case Global => 1
    case Go => 1
    case Object(_) => 1
    case Str(_) => 2
    case Symbol(_) => 3
    case Function(_) => 4
    case _ => 0
  }

  predicate Boxes(v: Js) {
    !v.Undefined? && !v.NaN? && !v.Number?
  }

  // The id a value is, or will be, known by.
  function IdFor(t: Table, v: Js): nat {
    if Key(v) in t.ids then t.ids[Key(v)]
    else if t.pool != [] then t.pool[|t.pool| - 1]
    else |t.values|
  }

  function SetAt<T>(s: seq<T>, i: nat, x: T): (r: seq<T>)
    requires i <= |s|
    ensures |r| == (if i < |s| then |s| else |s| + 1) && r[i] == x
    ensures forall k :: 0 <= k < |s| && k != i ==> r[k] == s[k]
  {
    if i < |s| then s[i := x] else s + [x]
  }

  ghost predicate Shape(t: Table) {
    && |t.values| == |t.counts| && |t.values| >= RESERVED
    && (forall v :: v in t.ids ==> t.ids[v] < |t.values|)
    && (forall i :: 0 <= i < |t.pool| ==> t.pool[i] < |t.values|)
  }

  // Make sure the value has an id.
  ghost function Enter(t: Table, v: Js): Table
    requires Shape(t)
  {
    if Key(v) in t.ids then t
    else
      var id := IdFor(t, v);
      Table(SetAt(t.values, id, v), SetAt(t.counts, id, Finite(0)), t.ids[Key(v) := id],
            if t.pool == [] then t.pool else t.pool[..|t.pool| - 1])
  }

  ghost function Store(t: Table, v: Js): Table
    requires Shape(t)
  {
    if !Boxes(v) then t
    else
      var u := Enter(t, v);
      var id := IdFor(t, v);
      if id < |u.counts| then u.(counts := u.counts[id := u.counts[id].Inc()]) else u
  }

  function Stored(t: Table, v: Js): Slot {
    match v
    case Undefined => ZeroBits
    case Number(x) => Float(x)
    case NaN => Boxed(0, 0)
    case _ => Boxed(TypeFlag(v), IdFor(t, v))
  }

  function Load(t: Table, s: Slot): Js {
    match s
    case ZeroBits => Undefined
    case Float(x) => Number(x)
    case Boxed(_, id) => if id < |t.values| then t.values[id] else Undefined
  }

  ghost function Finalize(t: Table, id: nat): Table
    requires Shape(t) && id < |t.values|
  {
    var counts := t.counts[id := t.counts[id].Dec()];
    if counts[id] == Finite(0)
    then Table(t.values[id := Null], counts, t.ids - {t.values[id]}, t.pool + [id])
    else t.(counts := counts)
  }

  // ------------------------------------------------------------------ runs

  // A reference Go still holds: the slot it was given, and the value it was given it for.
  datatype Ref = Ref(id: nat, value: Js)

  datatype Sys = Sys(table: Table, held: multiset<Ref>)

  datatype Event = Stores(v: Js) | Finalizes(ref: Ref)

  ghost predicate Enabled(s: Sys, e: Event) {
    match e
    case Stores(v) => WellFormed(v)
    case Finalizes(ref) => ref in s.held
  }

  ghost function Step(s: Sys, e: Event): Sys
    requires Shape(s.table) && Enabled(s, e)
  {
    match e
    case Stores(v) =>
      Sys(Store(s.table, v), if Boxes(v) then s.held + multiset{Ref(IdFor(s.table, v), Key(v))} else s.held)
    case Finalizes(ref) =>
      Sys(if ref.id < |s.table.values| then Finalize(s.table, ref.id) else s.table, s.held - multiset{ref})
  }

  // ------------------------------------------------------------------ the invariant

  // The map and the live part of the table are each other's inverse.
  ghost predicate Inverse(t: Table) {
    && Shape(t)
    && (forall v :: v in t.ids ==> 0 < t.ids[v] && t.values[t.ids[v]] == v && Boxes(v) && Key(v) == v)
    && (forall id :: 0 < id < |t.values| && id !in t.pool ==> t.values[id] in t.ids && t.ids[t.values[id]] == id)
    && (forall id :: 0 <= id < RESERVED ==> t.values[id] == Start().values[id])
  }

  // Free ids are distinct, none of the first seven, and in nobody's use.
  ghost predicate Free(t: Table) {
    && (forall i, j :: 0 <= i < j < |t.pool| ==> t.pool[i] != t.pool[j])
    && (forall id :: id in t.pool ==> RESERVED <= id < |t.values|)
    && (forall v :: v in t.ids ==> t.ids[v] !in t.pool)
  }

  // The counts are the references held.
  ghost predicate Counts(t: Table, held: multiset<Ref>)
    requires Shape(t)
  {
    && (forall id :: 0 <= id < RESERVED ==> t.counts[id] == Infinity)
    && (forall id :: RESERVED <= id < |t.values| ==>
         t.counts[id] == Finite(if id in t.pool then 0 else held[Ref(id, t.values[id])]))
    && (forall id :: RESERVED <= id < |t.values| && id !in t.pool ==> t.counts[id].n > 0)
  }

  // They are all for the value that is there.
  ghost predicate Current(t: Table, held: multiset<Ref>) {
    forall r :: r in held ==> 0 < r.id < |t.values| && r.id !in t.pool && t.values[r.id] == r.value
  }

  ghost predicate Counted(t: Table, held: multiset<Ref>)
    requires Shape(t)
  {
    Counts(t, held) && Current(t, held)
  }

  ghost predicate Inv(s: Sys) {
    Inverse(s.table) && Free(s.table) && Counted(s.table, s.held)
  }

  lemma StartIds(v: Js)
    ensures v in Start().ids <==>
      v == Zero(false) || v == Null || v == Bool(true) || v == Bool(false) || v == Global || v == Go
    ensures v in Start().ids ==>
      0 < Start().ids[v] < RESERVED && Start().values[Start().ids[v]] == v && Boxes(v) && Key(v) == v
  {
  }

  lemma StartValues(id: nat)
    requires id < RESERVED
    ensures |Start().values| == RESERVED && Start().counts[id] == Infinity
    ensures id > 0 ==> Start().values[id] in Start().ids && Start().ids[Start().values[id]] == id
  {
    assert id == 0 || id == 1 || id == 2 || id == 3 || id == 4 || id == 5 || id == 6;
  }

  lemma StartKeepsInv()
    ensures Inv(Sys(Start(), multiset{}))
  {
    forall v: Js { StartIds(v); }
    forall id: nat | id < RESERVED { StartValues(id); }
  }

  lemma OneMoreReference(t: Table, r: Ref, held: multiset<Ref>)
    requires Inverse(t) && Free(t) && Counted(t, held)
    requires 0 < r.id < |t.values| && r.id !in t.pool && t.values[r.id] == r.value
    ensures Counted(t.(counts := t.counts[r.id := t.counts[r.id].Inc()]), held + multiset{r})
  {
    var more := held + multiset{r};
    forall k | RESERVED <= k < |t.values| && k !in t.pool
      ensures more[Ref(k, t.values[k])] == held[Ref(k, t.values[k])] + (if k == r.id then 1 else 0)
    {
    }
  }

  lemma StoreKnown(s: Sys, v: Js)
    requires Inv(s) && Boxes(v) && Key(v) in s.table.ids
    ensures Inv(Step(s, Stores(v))) && s.table.values[IdFor(s.table, v)] == Key(v)
  {
    var t := s.table;
    var id := t.ids[Key(v)];
    var r := Ref(id, Key(v));
    assert Step(s, Stores(v)) == Sys(t.(counts := t.counts[id := t.counts[id].Inc()]), s.held + multiset{r});
    OneMoreReference(t, r, s.held);
  }

  lemma NewKey(t: Table, v: Js)
    requires Inverse(t) && Free(t) && Boxes(v) && Key(v) !in t.ids
    ensures Key(v) == v
  {
    assert 1 !in t.pool && t.values[1] == Zero(false);
  }

  // The table once v has been entered at a free or new id.
  ghost predicate Entered(t: Table, u: Table, v: Js, id: nat) {
    && Shape(t) && Shape(u) && id < |u.values|
    && (id in t.pool || id == |t.values|)
    && |u.values| == (if id in t.pool then |t.values| else |t.values| + 1)
    && u.values[id] == v && u.counts[id] == Finite(1) && u.ids == t.ids[v := id]
    && (forall k :: 0 <= k < |t.values| && k != id ==> u.values[k] == t.values[k] && u.counts[k] == t.counts[k])
    && (forall k :: k in u.pool <==> k in t.pool && k != id)
    && (forall i, j :: 0 <= i < j < |u.pool| ==> u.pool[i] != u.pool[j])
  }

  lemma PoppedPool(pool: seq<nat>)
    requires pool != [] && forall i, j :: 0 <= i < j < |pool| ==> pool[i] != pool[j]
    ensures var last := pool[|pool| - 1];
      last in pool && forall k :: k in pool[..|pool| - 1] <==> k in pool && k != last
  {
    var rest, last := pool[..|pool| - 1], pool[|pool| - 1];
    assert pool == rest + [last];
  }

  lemma StoreEnters(t: Table, v: Js)
    requires Inverse(t) && Free(t) && Boxes(v) && Key(v) !in t.ids
    ensures Entered(t, Store(t, v), v, IdFor(t, v))
  {
    NewKey(t, v);
    if t.pool != [] {
      PoppedPool(t.pool);
    } else {
      assert |t.values| !in t.pool;
    }
  }

  lemma EnteredInverse(t: Table, u: Table, v: Js, id: nat)
    requires Inverse(t) && Free(t) && Entered(t, u, v, id) && v !in t.ids && Key(v) == v && Boxes(v)
    ensures Inverse(u) && Free(u)
  {
    forall k | 0 < k < |u.values| && k !in u.pool ensures u.values[k] in u.ids && u.ids[u.values[k]] == k {
      if k != id {
        assert k !in t.pool && t.values[k] in t.ids;
      }
    }
    forall w | w in u.ids ensures 0 < u.ids[w] && u.values[u.ids[w]] == w && Boxes(w) && Key(w) == w && u.ids[w] !in u.pool {
      if w != v {
        assert t.ids[w] != id;
      }
    }
  }

  lemma EnteredCounted(t: Table, u: Table, v: Js, id: nat, held: multiset<Ref>)
    requires Inverse(t) && Free(t) && Counted(t, held) && Entered(t, u, v, id)
    ensures Counted(u, held + multiset{Ref(id, v)})
  {
    var more := held + multiset{Ref(id, v)};
    forall k | RESERVED <= k < |u.values| && k !in u.pool
      ensures u.counts[k] == Finite(more[Ref(k, u.values[k])]) && u.counts[k].n > 0
    {
      if k == id {
        assert Ref(id, v) !in held;
      } else {
        assert more[Ref(k, u.values[k])] == held[Ref(k, t.values[k])];
      }
    }
    forall k | RESERVED <= k < |u.values| && k in u.pool ensures u.counts[k] == Finite(0) {
      assert k in t.pool;
    }
    forall r | r in more ensures 0 < r.id < |u.values| && r.id !in u.pool && u.values[r.id] == r.value {
      if r != Ref(id, v) {
        assert r in held;
      }
    }
  }

  lemma StoreKeeps(s: Sys, v: Js)
    requires Inv(s) && WellFormed(v)
    ensures Inv(Step(s, Stores(v)))
  {
    if Boxes(v) {
      if Key(v) in s.table.ids {
        StoreKnown(s, v);
      } else {
        var id := IdFor(s.table, v);
        NewKey(s.table, v);
        StoreEnters(s.table, v);
        EnteredInverse(s.table, Store(s.table, v), v, id);
        EnteredCounted(s.table, Store(s.table, v), v, id, s.held);
      }
    }
  }

  // The table once the last reference to id has gone.
  lemma FreedInverse(t: Table, id: nat)
    requires Inverse(t) && Free(t) && RESERVED <= id < |t.values| && id !in t.pool
    requires t.counts[id] == Finite(1)
    ensures Inverse(Finalize(t, id)) && Free(Finalize(t, id))
  {
    var u := Finalize(t, id);
    var v := t.values[id];
    assert v in t.ids && t.ids[v] == id;
    forall k ensures k in u.pool <==> k in t.pool || k == id {
    }
    forall k | 0 < k < |u.values| && k !in u.pool ensures u.values[k] in u.ids && u.ids[u.values[k]] == k {
      assert k !in t.pool && t.values[k] in t.ids && t.ids[t.values[k]] == k;
    }
    forall w | w in u.ids ensures u.values[u.ids[w]] == w && u.ids[w] !in u.pool {
      assert t.ids[w] != id;
    }
  }

  lemma FinalizeCounts(t: Table, ref: Ref, held: multiset<Ref>)
    requires Inverse(t) && Free(t) && Counted(t, held) && ref in held
    ensures Counts(Finalize(t, ref.id), held - multiset{ref})
  {
    var less := held - multiset{ref};
    forall k | RESERVED <= k < |t.values| && k !in t.pool
      ensures less[Ref(k, t.values[k])] == held[Ref(k, t.values[k])] - (if k == ref.id then 1 else 0)
    {
    }
  }

  lemma FinalizeCurrent(t: Table, ref: Ref, held: multiset<Ref>)
    requires Inverse(t) && Free(t) && Counted(t, held) && ref in held
    ensures Current(Finalize(t, ref.id), held - multiset{ref})
  {
    var u, less := Finalize(t, ref.id), held - multiset{ref};
    forall r | r in less ensures 0 < r.id < |u.values| && r.id !in u.pool && u.values[r.id] == r.value {
      assert r in held;
      if r.id == ref.id && r.id >= RESERVED {
        assert r == ref && less[r] == t.counts[r.id].n - 1;
      }
    }
  }

  lemma FinalizeCounted(t: Table, ref: Ref, held: multiset<Ref>)
    requires Inverse(t) && Free(t) && Counted(t, held) && ref in held
    ensures Counted(Finalize(t, ref.id), held - multiset{ref})
  {
    FinalizeCounts(t, ref, held);
    FinalizeCurrent(t, ref, held);
  }

  lemma FinalizeKeeps(s: Sys, ref: Ref)
    requires Inv(s) && ref in s.held
    ensures Inv(Step(s, Finalizes(ref)))
  {
    var t := s.table;
    FinalizeCounted(t, ref, s.held);
    if ref.id >= RESERVED && t.counts[ref.id] == Finite(1) {
      FreedInverse(t, ref.id);
    }
  }

  ghost predicate Possible(es: seq<Event>)
    decreases |es|, 0
  {
    es == [] || (Possible(es[..|es| - 1]) && Enabled(Run(es[..|es| - 1]), es[|es| - 1]))
  }

  ghost function Run(es: seq<Event>): (s: Sys)
    requires Possible(es)
    ensures Inv(s)
    decreases |es|, 1
  {
    if es == [] then
      StartKeepsInv();
      Sys(Start(), multiset{})
    else
      var init, e := es[..|es| - 1], es[|es| - 1];
      match e
      case Stores(v) => StoreKeeps(Run(init), v); Step(Run(init), e)
      case Finalizes(ref) => FinalizeKeeps(Run(init), ref); Step(Run(init), e)
  }

  /** Over any run of stores and matching finalizes: ids and live values correspond one to one, free ids
      are distinct and in nobody's use, and every reference still held loads what it was made for. */
  lemma TableIsExact(es: seq<Event>)
    requires Possible(es)
    ensures var t := Run(es).table;
      forall v :: v in t.ids ==> t.ids[v] < |t.values| && t.values[t.ids[v]] == v && t.ids[v] !in t.pool
    ensures var t := Run(es).table;
      forall id :: 0 < id < |t.values| && id !in t.pool ==> t.values[id] in t.ids && t.ids[t.values[id]] == id
    ensures var t := Run(es).table; forall i, j :: 0 <= i < j < |t.pool| ==> t.pool[i] != t.pool[j]
    ensures var s := Run(es);
      forall r: Ref, flag: nat :: r in s.held ==> Load(s.table, Boxed(flag, r.id)) == r.value
  {
    var s := Run(es);
    forall r: Ref, flag: nat | r in s.held ensures Load(s.table, Boxed(flag, r.id)) == r.value {
      HeldLoads(s, r, flag);
    }
  }

  lemma HeldLoads(s: Sys, r: Ref, flag: nat)
    requires Inv(s) && r in s.held
    ensures Load(s.table, Boxed(flag, r.id)) == r.value
  {
  }

  /** An id beyond the first seven is free exactly when no reference to it is held, and otherwise its
      count is how many are. */
  lemma CountsAreReferences(es: seq<Event>, id: nat)
    requires Possible(es)
    ensures var s := Run(es);
      RESERVED <= id < |s.table.values| ==>
        && (id in s.table.pool <==> forall r :: r in s.held ==> r.id != id)
        && (id !in s.table.pool ==> s.table.counts[id] == Finite(s.held[Ref(id, s.table.values[id])]))
  {
    var s := Run(es);
    if RESERVED <= id < |s.table.values| && id !in s.table.pool {
      assert Ref(id, s.table.values[id]) in s.held;
    }
  }

  lemma LoadsTheStored(s: Sys, v: Js)
    requires Inv(s) && WellFormed(v)
    ensures Load(Store(s.table, v), Stored(s.table, v)) == Key(v)
  {
    if Boxes(v) {
      StoreKeeps(s, v);
      var r := Ref(IdFor(s.table, v), Key(v));
      assert r in Step(s, Stores(v)).held;
      HeldLoads(Step(s, Stores(v)), r, TypeFlag(v));
    } else if v.NaN? {
      assert s.table.values[0] == Start().values[0];
    }
  }

  /** What is stored is what is loaded, but for the sign of zero. */
  lemma StoreLoad(es: seq<Event>, v: Js)
    requires Possible(es) && WellFormed(v)
    ensures Load(Store(Run(es).table, v), Stored(Run(es).table, v)) == Key(v)
  {
    LoadsTheStored(Run(es), v);
  }

  // ------------------------------------------------------------------ what Go makes of a slot

  datatype GoType = TypeUndefined | TypeNull | TypeBoolean | TypeNumber | TypeString | TypeSymbol | TypeObject |
                    TypeFunction | BadFlag

  /** syscall/js decides by the reference alone: undefined, null, true, false, zero and NaN are references it
      knows beforehand, with no flag and the ids of the first table entries; everything else it takes for
      what its flag says. */
  function GoTypeOf(s: Slot): GoType {
    match s
    case ZeroBits => TypeUndefined
    case Float(_) => TypeNumber
    case Boxed(flag, id) =>
      if flag == 0
      then
        if id == 0 || id == 1 then TypeNumber
        else if id == 2 then TypeNull
        else if id == 3 || id == 4 then TypeBoolean
        else BadFlag
      else if flag == 1 then TypeObject
      else if flag == 2 then TypeString
      else if flag == 3 then TypeSymbol
      else if flag == 4 then TypeFunction
      else BadFlag
  }

  // What JavaScript's typeof says, null apart.
  function TypeOf(v: Js): GoType {
    match v
    case Undefined => TypeUndefined
    case NaN => TypeNumber
    case Number(_) => TypeNumber
    case Zero(_) => TypeNumber
    case Null => TypeNull
    case Bool(_) => TypeBoolean
    case Global => TypeObject
    case Go => TypeObject
    case Object(_) => TypeObject
    case Str(_) => TypeString
    case Symbol(_) => TypeSymbol
    case Function(_) => TypeFunction
  }

  // The ids the runtime starts with are never given to anything else.
  lemma PredefinedIds(s: Sys)
    requires Inv(s)
    ensures var v := s.table.values;
      |v| >= 7 && v[0] == NaN && v[1] == Zero(false) && v[2] == Null && v[3] == Bool(true) && v[4] == Bool(false) &&
      v[5] == Global && v[6] == Go
    ensures var ids := s.table.ids;
      && Zero(false) in ids && ids[Zero(false)] == 1 && Null in ids && ids[Null] == 2
      && Bool(true) in ids && ids[Bool(true)] == 3 && Bool(false) in ids && ids[Bool(false)] == 4
  {
    assert forall id :: 0 <= id < RESERVED ==> s.table.values[id] == Start().values[id];
    assert forall id :: 0 < id < RESERVED ==> id !in s.table.pool;
    assert s.table.values[1] == Zero(false) && s.table.values[2] == Null;
    assert s.table.values[3] == Bool(true) && s.table.values[4] == Bool(false);
  }

  lemma TypeIsRead(t: Table, v: Js)
    requires Zero(false) in t.ids && t.ids[Zero(false)] == 1 && Null in t.ids && t.ids[Null] == 2
    requires Bool(true) in t.ids && t.ids[Bool(true)] == 3 && Bool(false) in t.ids && t.ids[Bool(false)] == 4
    ensures GoTypeOf(Stored(t, v)) == TypeOf(v)
  {
  }

  /** In every run Go takes what is stored for what it is in JavaScript: the flag tells an object, a string, a
      symbol and a function apart, and what has no flag is one of the predefined ids. */
  lemma GoReadsTheType(es: seq<Event>, v: Js)
    requires Possible(es) && WellFormed(v)
    ensures GoTypeOf(Stored(Run(es).table, v)) == TypeOf(v)
  {
    var s := Run(es);
    PredefinedIds(s);
    TypeIsRead(s.table, v);
  }

  /** And what Go means by its own references to null, true, false, zero, NaN, the global object and itself is
      what it gets, whatever has been stored and finalized. */
  lemma GoMeansTheConstants(es: seq<Event>, flag: nat)
    requires Possible(es)
    ensures var t := Run(es).table;
      && Load(t, Boxed(flag, 0)) == NaN && Load(t, Boxed(flag, 1)) == Zero(false) && Load(t, Boxed(flag, 2)) == Null
      && Load(t, Boxed(flag, 3)) == Bool(true) && Load(t, Boxed(flag, 4)) == Bool(false)
      && Load(t, Boxed(flag, 5)) == Global && Load(t, Boxed(flag, 6)) == Go
  {
    PredefinedIds(Run(es));
  }

  // ------------------------------------------------------------------ 64-bit integers

  const TWO32: int := 0x1_0000_0000

  function Trunc(v: real): int {
    if v >= 0.0 then v.Floor else -((-v).Floor)
  }

  ghost function Pow2(n: nat): (p: real)
    ensures p >= (n + 1) as real
  {
    if n == 0 then 1.0 else 2.0 * Pow2(n - 1)
  }

  // The largest double whose 2^32-th part is rounded to zero.
  ghost const TINY: real := 1.0 / Pow2(1043)

  lemma TinyIsTiny()
    ensures 0.0 < TINY < 0.001
  {
    assert TINY * Pow2(1043) == 1.0;
  }

  // The floor of v / 4294967296: dividing a double by a power of two is exact, unless the quotient gets
  // so small that its sign is all that is left of it, or not even that.
  ghost function FloorOfPart(v: real): int {
    if -TINY <= v <= TINY then 0 else (v / TWO32 as real).Floor
  }

  // setUint32(addr, v) and setUint32(addr + 4, Math.floor(v / 4294967296))
  ghost function SetInt64(v: real): (r: (nat, nat))
    ensures r.0 < TWO32 && r.1 < TWO32
  {
    (Trunc(v) % TWO32, FloorOfPart(v) % TWO32)
  }

  // getUint32(addr) + getInt32(addr + 4) * 4294967296
  function GetInt64(low: nat, high: nat): int {
    low + (if high >= TWO32 / 2 then high - TWO32 else high) * TWO32
  }

  // Values that lie a fraction below a multiple of 2^32 that is not positive, and not too little a one.
  ghost predicate TornApart(v: real) {
    v < -TINY && v != Trunc(v) as real && Trunc(v) % TWO32 == 0
  }

  // The floor of the part is that of the whole number, or one less when a fraction is cut off above it.
  lemma PartOfTrunc(v: real)
    ensures (v / TWO32 as real).Floor ==
            Trunc(v) / TWO32 - if v < 0.0 && v != Trunc(v) as real && Trunc(v) % TWO32 == 0 then 1 else 0
  {
  }

  lemma FloorOfPartIs(v: real)
    ensures FloorOfPart(v) == Trunc(v) / TWO32 - if TornApart(v) then 1 else 0
  {
    TinyIsTiny();
    PartOfTrunc(v);
  }

  // The words of n, and any signed high word in place of its own.
  lemma TwoWords(n: int, high: int)
    requires -TWO32 / 2 <= high < TWO32 / 2
    ensures GetInt64(n % TWO32, high % TWO32) == n <==> high == n / TWO32
  {
    assert n == n % TWO32 + n / TWO32 * TWO32;
    assert high % TWO32 == if high < 0 then high + TWO32 else high;
  }

  /** Reading back what was written gives the number, its fraction cut off, exactly unless it is TornApart
      by truncating the low half and flooring the high one. */
  lemma Int64RoundTrip(v: real)
    requires -9223372036854775808.0 <= v < 9223372036854775808.0
    ensures GetInt64(SetInt64(v).0, SetInt64(v).1) == Trunc(v) <==> !TornApart(v)
  {
    TinyIsTiny();
    assert -TWO32 / 2 <= FloorOfPart(v) < TWO32 / 2;
    FloorOfPartIs(v);
    TwoWords(Trunc(v), FloorOfPart(v));
  }

  /** Such a number: minus a half, a clock half a second before 1970 as runtime.walltime passes it on, is
      read back as -2^32 and not as zero. */
  lemma MinusAHalfIsTornApart()
    ensures TornApart(-0.5) && SetInt64(-0.5) == (0, TWO32 - 1)
    ensures GetInt64(SetInt64(-0.5).0, SetInt64(-0.5).1) == -TWO32 && Trunc(-0.5) == 0
  {
    TinyIsTiny();
    assert (-0.5 / TWO32 as real).Floor == -1;
    assert (0.5).Floor == 0;
  }

  /** In particular the integers JavaScript holds exactly, and every number from zero up. */
  lemma SafeIntegersRoundTrip(v: int)
    requires -9007199254740991 <= v <= 9007199254740991
    ensures GetInt64(SetInt64(v as real).0, SetInt64(v as real).1) == v
  {
    assert Trunc(v as real) == v;
    Int64RoundTrip(v as real);
  }
}

/** The runtime's own fields and functions. */
module HandleTable {
  import opened Common
  import opened HandleModel

  class GoRuntime {
    var values: seq<Js>
    var goRefCounts: seq<Count>
    var ids: map<Js, nat>
    var idPool: seq<nat>

    constructor ()
      ensures View() == Start()
    {
      values := [NaN, Zero(false), Null, Bool(true), Bool(false), Global, Go];
      goRefCounts := seq(RESERVED, i => Infinity);
      ids := map[Zero(false) := 1, Null := 2, Bool(true) := 3, Bool(false) := 4, Global := 5, Go := 6];
      idPool := [];
    }

    ghost function View(): Table
      reads this
    {
      Table(values, goRefCounts, ids, idPool)
    }

    method LoadValue(slot: Slot) returns (v: Js)
      ensures v == Load(View(), slot)
    {
      match slot
      case ZeroBits => return Undefined;
      case Float(x) => return Number(x);
      case Boxed(_, id) => return if id < |values| then values[id] else Undefined;
    }

    // A new id for v: the last one freed, or one past the table.
    method NewId(v: Js) returns (id: nat)
      requires Inverse(View()) && Free(View()) && Boxes(v) && Key(v) !in ids
      modifies this
      ensures id == IdFor(old(View()), v) && View() == Enter(old(View()), v)
    {
      if idPool != [] {
        id := idPool[|idPool| - 1];
        idPool := idPool[..|idPool| - 1];
      } else {
        id := |values|;
      }
      values := SetAt(values, id, v);
      goRefCounts := SetAt(goRefCounts, id, Finite(0));
      ids := ids[Key(v) := id];
    }

    method StoreValue(v: Js) returns (slot: Slot)
      requires Inverse(View()) && Free(View()) && WellFormed(v)
      modifies this
      ensures slot == Stored(old(View()), v) && View() == Store(old(View()), v)
    {
      if v.Number? {
        return Float(v.value);
      }
      if v.NaN? {
        return Boxed(0, 0);
      }
      if v.Undefined? {
        return ZeroBits;
      }
      var id: nat;
      if Key(v) in ids {
        id := ids[Key(v)];
      } else {
        id := NewId(v);
      }
      goRefCounts := goRefCounts[id := goRefCounts[id].Inc()];
      return Boxed(TypeFlag(v), id);
    }

    method FinalizeRef(id: nat)
      requires Shape(View()) && id < |values|
      modifies this
      ensures View() == Finalize(old(View()), id)
    {
      goRefCounts := goRefCounts[id := goRefCounts[id].Dec()];
      if goRefCounts[id] == Finite(0) {
        var v := values[id];
        values := values[id := Null];
        ids := ids - {v};
        idPool := idPool + [id];
      }
    }
  }
}
