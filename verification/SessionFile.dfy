/** A session's local file, rebuilt from what the server stored of it (internal/client/session.go): the
    metadata as it was sent when the session started (internal/client/api.go), or as later updates flatten
    it (cmd/watch.go). */
module SessionFileModel {
  import opened Common
  import TouchModel

  // A decoded JSON value; `printed` is what formatting it with %v gives.
  datatype Json = Null | Str(s: string) | Object(fields: map<string, Json>, printed: string) | Other(printed: string)

  datatype File = File(id: string, name: string, start: TouchModel.Time, hostname: string, cwd: string, extra: map<string, string>)

  // metaValueToString
  function Show(v: Json): string {
    match v
    case Null => ""
    case Str(s) => s
    case Object(_, printed) => printed
    case Other(printed) => printed
  }

  predicate Ignored(k: string) {
    k == "session_id" || k == "start_time" || k == "name"
  }

  predicate Reserved(k: string) {
    Ignored(k) || k == "hostname" || k == "cwd" || k == "extra"
  }

  function Strings(fields: map<string, Json>): map<string, string> {
    map k | k in fields :: Show(fields[k])
  }

  // The nested extra keys of a metadata object, if it has any.
  function Nested(meta: map<string, Json>): map<string, string> {
    if "extra" in meta && meta["extra"].Object? then Strings(meta["extra"].fields) else map[]
  }

  function ApplyOne(f: File, k: string, v: Json): File {
    if Ignored(k) then f
    else if k == "hostname" then f.(hostname := Show(v))
    else if k == "cwd" then f.(cwd := Show(v))
    else if k == "extra" then (if v.Object? then f.(extra := f.extra + Strings(v.fields)) else f)
    else f.(extra := f.extra[k := Show(v)])
  }

  // The keys of meta, in the order the loop happens to visit them.
  ghost predicate Order(order: seq<string>, keys: set<string>) {
    && (forall i, j :: 0 <= i < j < |order| ==> order[i] != order[j])
    && (forall k :: k in order <==> k in keys)
  }

  predicate Within(order: seq<string>, meta: map<string, Json>) {
    forall k :: k in order ==> k in meta
  }

  function Apply(f: File, order: seq<string>, meta: map<string, Json>): File
    requires Within(order, meta)
  {
    if order == [] then f
    else
      var init, k := order[..|order| - 1], order[|order| - 1];
      assert order == init + [k];
      ApplyOne(Apply(f, init, meta), k, meta[k])
  }

  // ------------------------------------------------------------------ what a rebuilt file says

  // How a metadata value reads as text: a string as itself, null as nothing, anything else as it prints.
  predicate ReadsAs(v: Json, text: string) {
    v == Str(text) || (v == Null && text == "") || (v.Object? && v.printed == text) || v == Other(text)
  }

  predicate FlatKey(meta: map<string, Json>, k: string) {
    k in meta && k !in ["session_id", "start_time", "name", "hostname", "cwd", "extra"]
  }

  predicate NestedKey(meta: map<string, Json>, k: string) {
    "extra" in meta && meta["extra"].Object? && k in meta["extra"].fields
  }

  // The file says what the metadata says, as far as it has been visited; `seen` is that part of it.
  ghost predicate Says(f: File, g: File, seen: map<string, Json>) {
    && g.id == f.id && g.name == f.name && g.start == f.start
    && (if "hostname" in seen then ReadsAs(seen["hostname"], g.hostname) else g.hostname == f.hostname)
    && (if "cwd" in seen then ReadsAs(seen["cwd"], g.cwd) else g.cwd == f.cwd)
    && (forall k :: k in g.extra <==> k in f.extra || FlatKey(seen, k) || NestedKey(seen, k))
    && (forall k :: k in g.extra ==> SaysExtra(f, g, seen, k))
  }

  ghost predicate SaysExtra(f: File, g: File, seen: map<string, Json>, k: string)
    requires k in g.extra
  {
    || (FlatKey(seen, k) && ReadsAs(seen[k], g.extra[k]))
    || (NestedKey(seen, k) && ReadsAs(seen["extra"].fields[k], g.extra[k]))
    || (!FlatKey(seen, k) && !NestedKey(seen, k) && k in f.extra && g.extra[k] == f.extra[k])
  }

  lemma SaysField(f: File, g: File, seen: map<string, Json>, k: string, v: Json)
    requires Says(f, g, seen) && k !in seen && Reserved(k) && k != "extra"
    ensures Says(f, ApplyOne(g, k, v), seen[k := v])
  {
    var h, more := ApplyOne(g, k, v), seen[k := v];
    assert h.extra == g.extra;
    forall x ensures (FlatKey(more, x) <==> FlatKey(seen, x)) && (NestedKey(more, x) <==> NestedKey(seen, x)) {
    }
    forall x | x in h.extra ensures SaysExtra(f, h, more, x) {
      assert SaysExtra(f, g, seen, x);
    }
  }

  lemma SaysFlat(f: File, g: File, seen: map<string, Json>, k: string, v: Json)
    requires Says(f, g, seen) && k !in seen && !Reserved(k)
    ensures Says(f, ApplyOne(g, k, v), seen[k := v])
  {
    var h, more := ApplyOne(g, k, v), seen[k := v];
    forall x ensures (FlatKey(more, x) <==> FlatKey(seen, x) || x == k) && (NestedKey(more, x) <==> NestedKey(seen, x)) {
    }
    forall x | x in h.extra ensures SaysExtra(f, h, more, x) {
      assert x != k ==> SaysExtra(f, g, seen, x);
    }
  }

  lemma SaysNested(f: File, g: File, seen: map<string, Json>, v: Json)
    requires Says(f, g, seen) && "extra" !in seen
    ensures Says(f, ApplyOne(g, "extra", v), seen["extra" := v])
  {
    var h, more := ApplyOne(g, "extra", v), seen["extra" := v];
    forall x ensures (FlatKey(more, x) <==> FlatKey(seen, x)) && !NestedKey(seen, x) {
    }
    forall x ensures NestedKey(more, x) <==> v.Object? && x in v.fields {
    }
    forall x | x in h.extra ensures SaysExtra(f, h, more, x) {
      assert x in g.extra ==> SaysExtra(f, g, seen, x);
    }
  }

  lemma SaysOneMore(f: File, g: File, seen: map<string, Json>, k: string, v: Json)
    requires Says(f, g, seen) && k !in seen
    ensures Says(f, ApplyOne(g, k, v), seen[k := v])
  {
    if k == "extra" {
      SaysNested(f, g, seen, v);
    } else if Reserved(k) {
      SaysField(f, g, seen, k, v);
    } else {
      SaysFlat(f, g, seen, k, v);
    }
  }

  lemma {:induction false} ApplySays(f: File, order: seq<string>, meta: map<string, Json>)
    requires Within(order, meta) && forall i, j :: 0 <= i < j < |order| ==> order[i] != order[j]
    ensures Says(f, Apply(f, order, meta), Only(meta, order))
  {
    if order == [] {
      assert Only(meta, order) == map[];
    } else {
      var init, k := order[..|order| - 1], order[|order| - 1];
      assert order == init + [k];
      ApplySays(f, init, meta);
      SaysOneMore(f, Apply(f, init, meta), Only(meta, init), k, meta[k]);
      assert Only(meta, order) == Only(meta, init)[k := meta[k]];
    }
  }

  // ------------------------------------------------------------------ the order

  // What an order-free reading of meta makes of f.
  function Merged(f: File, meta: map<string, Json>): File {
    f.(hostname := if "hostname" in meta then Show(meta["hostname"]) else f.hostname,
       cwd := if "cwd" in meta then Show(meta["cwd"]) else f.cwd,
       extra := f.extra + Nested(meta) + Flat(meta))
  }

  function Flat(meta: map<string, Json>): map<string, string> {
    map k | k in meta && !Reserved(k) :: Show(meta[k])
  }

  // No key is given twice, nested and flat, with different values.
  predicate NoConflict(meta: map<string, Json>) {
    forall k :: k in Nested(meta) && k in Flat(meta) ==> Nested(meta)[k] == Flat(meta)[k]
  }

  function Only(meta: map<string, Json>, order: seq<string>): map<string, Json>
    requires Within(order, meta)
  {
    map k | k in order :: meta[k]
  }

  lemma MergeExtra(f: File, meta: map<string, Json>, done: map<string, Json>)
    requires NoConflict(meta) && "extra" in meta && "extra" !in done
    requires forall x :: x in done ==> x in meta && done[x] == meta[x]
    ensures ApplyOne(Merged(f, done), "extra", meta["extra"]) == Merged(f, done["extra" := meta["extra"]])
  {
    var v := meta["extra"];
    var next := done["extra" := v];
    assert Nested(done) == map[] && Flat(next) == Flat(done) && Nested(next) == Nested(meta);
    if v.Object? {
      var n, d := Nested(meta), Flat(done);
      forall x | x in n && x in d ensures n[x] == d[x] {
        assert x in Flat(meta) && Flat(meta)[x] == d[x];
      }
      assert f.extra + map[] + d + n == f.extra + n + d;
    }
  }

  lemma MergeFlat(f: File, done: map<string, Json>, k: string, v: Json)
    requires k !in done && !Reserved(k)
    ensures ApplyOne(Merged(f, done), k, v) == Merged(f, done[k := v])
  {
    var next := done[k := v];
    assert Nested(next) == Nested(done);
    assert Flat(next) == Flat(done)[k := Show(v)];
    assert (f.extra + Nested(done) + Flat(done))[k := Show(v)] == f.extra + Nested(done) + Flat(next);
  }

  lemma MergeField(f: File, done: map<string, Json>, k: string, v: Json)
    requires k !in done && Reserved(k) && k != "extra"
    ensures ApplyOne(Merged(f, done), k, v) == Merged(f, done[k := v])
  {
    var next := done[k := v];
    assert Nested(next) == Nested(done) && Flat(next) == Flat(done);
  }

  lemma MergeOne(f: File, meta: map<string, Json>, done: map<string, Json>, k: string)
    requires NoConflict(meta) && k in meta && k !in done
    requires forall x :: x in done ==> x in meta && done[x] == meta[x]
    ensures ApplyOne(Merged(f, done), k, meta[k]) == Merged(f, done[k := meta[k]])
  {
    if k == "extra" {
      MergeExtra(f, meta, done);
    } else if Reserved(k) {
      MergeField(f, done, k, meta[k]);
    } else {
      MergeFlat(f, done, k, meta[k]);
    }
  }

  lemma {:induction false} ApplyIsMerge(f: File, order: seq<string>, meta: map<string, Json>)
    requires NoConflict(meta) && Within(order, meta)
    requires forall i, j :: 0 <= i < j < |order| ==> order[i] != order[j]
    ensures Apply(f, order, meta) == Merged(f, Only(meta, order))
  {
    if order == [] {
      assert f.extra + map[] + map[] == f.extra;
      assert Only(meta, order) == map[];
      assert Nested(map[]) == map[] && Flat(map[]) == map[];
    } else {
      var init, k := order[..|order| - 1], order[|order| - 1];
      assert order == init + [k];
      ApplyIsMerge(f, init, meta);
      MergeOne(f, meta, Only(meta, init), k);
      assert Only(meta, order) == Only(meta, init)[k := meta[k]];
    }
  }

  lemma ApplyAll(f: File, order: seq<string>, meta: map<string, Json>)
    requires NoConflict(meta) && Order(order, meta.Keys)
    ensures Within(order, meta) && Apply(f, order, meta) == Merged(f, meta)
  {
    assert forall k :: k in order ==> k in meta.Keys;
    ApplyIsMerge(f, order, meta);
    assert Only(meta, order) == meta;
  }

  lemma {:induction false} FlatWins(f: File, order: seq<string>, meta: map<string, Json>, p: nat)
    requires Within(order, meta) && p < |order| && !Reserved(order[p])
    requires forall q :: p < q < |order| ==> order[q] != "extra" && order[q] != order[p]
    ensures order[p] in Apply(f, order, meta).extra && Apply(f, order, meta).extra[order[p]] == Show(meta[order[p]])
  {
    if p < |order| - 1 {
      assert order == order[..|order| - 1] + [order[|order| - 1]];
      FlatWins(f, order[..|order| - 1], meta, p);
    }
  }

  lemma {:induction false} SomeOrder(keys: set<string>) returns (order: seq<string>)
    ensures Order(order, keys)
  {
    if keys == {} {
      order := [];
    } else {
      var k :| k in keys;
      var rest := SomeOrder(keys - {k});
      order := rest + [k];
    }
  }

  lemma FirstOrders(rest: seq<string>, keys: set<string>, first: string)
    requires Order(rest, keys - {first}) && first in keys
    ensures Order([first] + rest, keys)
  {
    var order := [first] + rest;
    forall i, j | 0 <= i < j < |order| ensures order[i] != order[j] {
      assert order[j] == rest[j - 1] && rest[j - 1] in rest;
    }
    forall k ensures k in order <==> k in keys {
      assert k in rest <==> k in keys - {first};
    }
  }

  // Visiting "extra" first lets the flat key win, visiting it last the nested one.
  lemma ExtraFirst(f: File, meta: map<string, Json>, rest: seq<string>, k: string)
    requires "extra" in meta && Order(rest, meta.Keys - {"extra"}) && k in Flat(meta)
    ensures Order(["extra"] + rest, meta.Keys) && Within(["extra"] + rest, meta)
    ensures k in Apply(f, ["extra"] + rest, meta).extra
    ensures Apply(f, ["extra"] + rest, meta).extra[k] == Flat(meta)[k]
  {
    FirstOrders(rest, meta.Keys, "extra");
    var order := ["extra"] + rest;
    var p := PlaceIn(rest, k);
    assert order[p + 1] == k;
    forall q | p + 1 < q < |order| ensures order[q] != "extra" && order[q] != k {
      assert order[q] == rest[q - 1] && rest[q - 1] in rest;
    }
    FlatWins(f, order, meta, p + 1);
  }

  lemma PlaceIn(rest: seq<string>, k: string) returns (p: nat)
    requires k in rest
    ensures p < |rest| && rest[p] == k
  {
    p :| 0 <= p < |rest| && rest[p] == k;
  }

  lemma ExtraLast(f: File, meta: map<string, Json>, rest: seq<string>, k: string)
    requires "extra" in meta && Order(rest, meta.Keys - {"extra"}) && k in Nested(meta)
    ensures Order(rest + ["extra"], meta.Keys) && Within(rest + ["extra"], meta)
    ensures k in Apply(f, rest + ["extra"], meta).extra
    ensures Apply(f, rest + ["extra"], meta).extra[k] == Nested(meta)[k]
  {
    var order := rest + ["extra"];
    assert order[..|order| - 1] == rest;
    assert Within(rest, meta);
    assert Apply(f, order, meta) == ApplyOne(Apply(f, rest, meta), "extra", meta["extra"]);
  }

  lemma ConflictShows(f: File, meta: map<string, Json>) returns (a: seq<string>, b: seq<string>)
    requires !NoConflict(meta)
    ensures Order(a, meta.Keys) && Order(b, meta.Keys) && Within(a, meta) && Within(b, meta)
    ensures Apply(f, a, meta) != Apply(f, b, meta)
  {
    var k :| k in Nested(meta) && k in Flat(meta) && Nested(meta)[k] != Flat(meta)[k];
    var rest := SomeOrder(meta.Keys - {"extra"});
    ExtraFirst(f, meta, rest, k);
    ExtraLast(f, meta, rest, k);
    a, b := ["extra"] + rest, rest + ["extra"];
  }

  /** A map's iteration order makes no difference exactly when no key comes both nested and flat with
      different values. */
  lemma OrderMattersExactlyOnConflicts(f: File, meta: map<string, Json>)
    ensures NoConflict(meta) <==>
      (forall a, b :: Order(a, meta.Keys) && Order(b, meta.Keys) && Within(a, meta) && Within(b, meta) ==>
        Apply(f, a, meta) == Apply(f, b, meta))
  {
    if NoConflict(meta) {
      forall a, b | Order(a, meta.Keys) && Order(b, meta.Keys) && Within(a, meta) && Within(b, meta)
        ensures Apply(f, a, meta) == Apply(f, b, meta)
      {
        ApplyAll(f, a, meta);
        ApplyAll(f, b, meta);
      }
    } else {
      var a, b := ConflictShows(f, meta);
    }
  }

  // ------------------------------------------------------------------ what the server stored

  /** The server's record of a session. Its metadata is missing or empty, not a JSON object, or one. */
  datatype Metadata = Absent | Malformed | Parsed(meta: map<string, Json>)
  datatype Record = Record(id: string, name: string, startedAt: TouchModel.Time, metadata: Metadata)

  // What this host says of itself, or that it cannot say.
  datatype Host = Host(hostname: Option<string>, cwd: Option<string>)

  function Base(r: Record): File {
    File(r.id, r.name, r.startedAt, "", "", map[])
  }

  function FillIn(f: File, host: Host): File {
    f.(hostname := if f.hostname == "" then host.hostname.GetOr("") else f.hostname,
       cwd := if f.cwd == "" then host.cwd.GetOr("") else f.cwd)
  }

  // SessionFileFromServer, when the metadata's keys are visited in the given order.
  ghost predicate Rebuilds(r: Record, host: Host, order: seq<string>, f: File) {
    match r.metadata
    case Parsed(meta) => Order(order, meta.Keys) && Within(order, meta) && f == FillIn(Apply(Base(r), order, meta), host)
    case _ => f == FillIn(Base(r), host)
  }

  function AsJson(fields: map<string, string>): map<string, Json> {
    map k | k in fields :: Str(fields[k])
  }

  // SessionStartRequest: the extra keys nested, and left out when there are none. `stamp` is the start
  // time as text.
  function StartShape(f: File, stamp: string): map<string, Json> {
    var core := map["session_id" := Str(f.id), "name" := Str(f.name), "start_time" := Str(stamp),
                    "hostname" := Str(f.hostname), "cwd" := Str(f.cwd)];
    if f.extra == map[] then core else core["extra" := Object(AsJson(f.extra), "")]
  }

  // The hostname or directory of a rebuilt file: what the metadata gives, if that is any text, and otherwise
  // what this host says of itself, if it can.
  ghost predicate GivenOrOwn(meta: map<string, Json>, k: string, own: Option<string>, text: string) {
    if k in meta && !ReadsAs(meta[k], "") then ReadsAs(meta[k], text)
    else text == (match own case None => "" case Some(t) => t)
  }

  /** A rebuilt file in full: identity and start from the record; hostname and directory as the metadata gives
      them, this host's own in place of none or of empty ones; and for extra keys exactly the metadata's own
      keys other than the six it knows and those nested under `extra`, each with the text of a value it was
      given. Where both give it, which of the two it is depends on the order. */
  lemma RebuiltFileSays(r: Record, host: Host, order: seq<string>, g: File)
    requires Rebuilds(r, host, order, g)
    ensures g.id == r.id && g.name == r.name && g.start == r.startedAt
    ensures var meta := if r.metadata.Parsed? then r.metadata.meta else map[];
      && GivenOrOwn(meta, "hostname", host.hostname, g.hostname) && GivenOrOwn(meta, "cwd", host.cwd, g.cwd)
      && (forall k :: k in g.extra <==> FlatKey(meta, k) || NestedKey(meta, k))
      && (forall k :: k in g.extra ==>
            (FlatKey(meta, k) && ReadsAs(meta[k], g.extra[k])) ||
            (NestedKey(meta, k) && ReadsAs(meta["extra"].fields[k], g.extra[k])))
  {
    if r.metadata.Parsed? {
      var meta := r.metadata.meta;
      ApplySays(Base(r), order, meta);
      assert Only(meta, order) == meta;
      var f := Apply(Base(r), order, meta);
      forall k | k in f.extra
        ensures (FlatKey(meta, k) && ReadsAs(meta[k], f.extra[k])) ||
                (NestedKey(meta, k) && ReadsAs(meta["extra"].fields[k], f.extra[k]))
      {
        assert SaysExtra(Base(r), f, meta, k);
      }
    }
  }

  lemma AsJsonTells(a: map<string, string>, b: map<string, string>)
    requires AsJson(a) == AsJson(b)
    ensures a == b
  {
    assert AsJson(a).Keys == a.Keys && AsJson(b).Keys == b.Keys;
    forall k | k in a ensures a[k] == b[k] {
      assert AsJson(a)[k] == Str(a[k]) && AsJson(b)[k] == Str(b[k]);
    }
  }

  /** What is sent at the start tells the whole file, the start time as its text, and nothing else; extra keys
      only if there are any. */
  lemma StartShapeTellsTheFile(f: File, stamp: string, g: File, other: string)
    ensures StartShape(f, stamp) == StartShape(g, other) <==> stamp == other && g == f.(start := g.start)
    ensures "extra" in StartShape(f, stamp) <==> f.extra != map[]
    ensures StartShape(f, stamp).Keys <= {"session_id", "name", "start_time", "hostname", "cwd", "extra"}
  {
    var a, b := StartShape(f, stamp), StartShape(g, other);
    if a == b {
      assert a["session_id"] == b["session_id"] && a["name"] == b["name"] && a["start_time"] == b["start_time"];
      assert a["hostname"] == b["hostname"] && a["cwd"] == b["cwd"];
      assert "extra" in a <==> "extra" in b;
      if "extra" in a {
        assert a["extra"] == b["extra"];
        AsJsonTells(f.extra, g.extra);
      }
    }
  }

  // The update of cmd/watch.go: the extra keys among the others, over them.
  function UpdateShape(f: File, stamp: string): map<string, Json> {
    map["name" := Str(f.name), "start_time" := Str(stamp), "hostname" := Str(f.hostname), "cwd" := Str(f.cwd)] +
    AsJson(f.extra)
  }

  predicate NoCoreName(extra: map<string, string>) {
    forall k :: k in extra ==> k !in ["name", "start_time", "hostname", "cwd"]
  }

  /** An update tells all of the file but its id, as long as no extra key has the name of a field. */
  lemma UpdateShapeTellsTheFile(f: File, stamp: string, g: File, other: string)
    requires NoCoreName(f.extra) && NoCoreName(g.extra)
    ensures UpdateShape(f, stamp) == UpdateShape(g, other) <==> stamp == other && g == f.(id := g.id, start := g.start)
  {
    var a, b := UpdateShape(f, stamp), UpdateShape(g, other);
    if a == b {
      assert a["name"] == b["name"] && a["start_time"] == b["start_time"];
      assert a["hostname"] == b["hostname"] && a["cwd"] == b["cwd"];
      assert forall k :: k in f.extra <==> k in a && k !in ["name", "start_time", "hostname", "cwd"];
      assert forall k :: k in g.extra <==> k in b && k !in ["name", "start_time", "hostname", "cwd"];
      forall k | k in f.extra ensures f.extra[k] == g.extra[k] {
        assert a[k] == Str(f.extra[k]) && b[k] == Str(g.extra[k]);
      }
      assert f.extra == g.extra;
    }
  }

  // Go's zero time, for which the server puts its own.
  const ZERO_TIME: TouchModel.Time := -62_135_596_800 * TouchModel.SECOND

  // started_at after a start: whole seconds, and a row that is already there keeps its own.
  function StartedAt(existing: Option<TouchModel.Time>, start: TouchModel.Time, now: TouchModel.Time): TouchModel.Time {
    existing.GetOr(TouchModel.Stored(if start == ZERO_TIME then now else start))
  }

  // The record the server has after a start.
  function Started(f: File, stamp: string, existing: Option<TouchModel.Time>, now: TouchModel.Time): Record {
    Record(f.id, f.name, StartedAt(existing, f.start, now), Parsed(StartShape(f, stamp)))
  }

  // An empty hostname or working directory comes back as this host's own.
  predicate KeepsPlace(f: File, host: Host) {
    && (f.hostname == "" ==> host.hostname.GetOr("") == "")
    && (f.cwd == "" ==> host.cwd.GetOr("") == "")
  }

  // The file with what the record is the authority for.
  function Authoritative(f: File, r: Record): File {
    f.(id := r.id, name := r.name, start := r.startedAt)
  }

  lemma StartShapeMerges(f: File, stamp: string, r: Record)
    ensures NoConflict(StartShape(f, stamp))
    ensures Merged(Base(r), StartShape(f, stamp)) == Authoritative(f, r)
  {
    var meta := StartShape(f, stamp);
    assert Flat(meta) == map[];
    assert Nested(meta) == f.extra;
    assert map[] + f.extra + map[] == f.extra;
  }

  /** Sent at the start, a file comes back as it was, whatever its extra keys are called and whatever
      order they are visited in, but for what the record is the authority for, exactly if its hostname
      and directory are not empty where this host would fill them in. So it is the very same file exactly
      if also the record has its id, its name and its start time. */
  lemma StartRoundTrip(f: File, stamp: string, r: Record, host: Host, order: seq<string>, g: File)
    requires r.metadata == Parsed(StartShape(f, stamp)) && Rebuilds(r, host, order, g)
    ensures g == Authoritative(f, r) <==> KeepsPlace(f, host)
    ensures g == f <==> KeepsPlace(f, host) && r.id == f.id && r.name == f.name && r.startedAt == f.start
  {
    StartShapeMerges(f, stamp, r);
    ApplyAll(Base(r), order, StartShape(f, stamp));
  }

  /** After a first start that is the case exactly for a start time of whole seconds (or, for the zero
      time, the server's): started_at has no fraction. */
  lemma FirstStartRoundTrip(f: File, stamp: string, now: TouchModel.Time, host: Host, order: seq<string>, g: File)
    requires Rebuilds(Started(f, stamp, None, now), host, order, g)
    ensures f.start != ZERO_TIME ==> (g == f <==> KeepsPlace(f, host) && f.start % 1_000_000_000 == 0)
    ensures f.start == ZERO_TIME ==> (g == f <==> KeepsPlace(f, host) && TouchModel.Stored(now) == ZERO_TIME)
  {
    StartRoundTrip(f, stamp, Started(f, stamp, None, now), host, order, g);
  }

  /** A file started half a second past a full second, with everything else in order, does not come back
      as it was: it comes back started at the full second. */
  lemma FractionIsLost(stamp: string, host: Host, order: seq<string>, g: File)
    requires var f := File("s", "work", 43_200 * TouchModel.SECOND + TouchModel.SECOND / 2, "box", "/srv", map[]);
      Rebuilds(Started(f, stamp, None, f.start), host, order, g)
    ensures g == File("s", "work", 43_200 * TouchModel.SECOND, "box", "/srv", map[])
  {
    var f := File("s", "work", 43_200 * TouchModel.SECOND + TouchModel.SECOND / 2, "box", "/srv", map[]);
    StartRoundTrip(f, stamp, Started(f, stamp, None, f.start), host, order, g);
    assert TouchModel.Stored(f.start) == 43_200 * TouchModel.SECOND;
  }

  /** And a resumed session, whose file has a new start time, comes back with the first one. */
  lemma ResumeKeepsTheFirstStart(f: File, stamp: string, first: TouchModel.Time, now: TouchModel.Time,
                                 host: Host, order: seq<string>, g: File)
    requires Rebuilds(Started(f, stamp, Some(first), now), host, order, g)
    ensures g.start == first && (g == f <==> KeepsPlace(f, host) && f.start == first)
  {
    StartRoundTrip(f, stamp, Started(f, stamp, Some(first), now), host, order, g);
    StartShapeMerges(f, stamp, Started(f, stamp, Some(first), now));
    ApplyAll(Base(Started(f, stamp, Some(first), now)), order, StartShape(f, stamp));
  }

  lemma RebuiltHasItsPlace(r: Record, host: Host, order: seq<string>, g: File)
    requires Rebuilds(r, host, order, g)
    ensures KeepsPlace(g, host) && g.id == r.id && g.name == r.name && g.start == r.startedAt
  {
    if r.metadata.Parsed? {
      ApplyKeepsAuthority(Base(r), order, r.metadata.meta);
    }
  }

  lemma {:induction false} ApplyKeepsAuthority(f: File, order: seq<string>, meta: map<string, Json>)
    requires Within(order, meta)
    ensures var g := Apply(f, order, meta); g.id == f.id && g.name == f.name && g.start == f.start
  {
    if order != [] {
      assert order == order[..|order| - 1] + [order[|order| - 1]];
      ApplyKeepsAuthority(f, order[..|order| - 1], meta);
    }
  }

  /** What was once rebuilt is stable: whatever the metadata was, start the rebuilt file over its own
      record, rebuild it again on that host, and it is the same. */
  lemma RebuiltIsStable(r: Record, host: Host, order: seq<string>, g: File, stamp: string, now: TouchModel.Time,
                        again: seq<string>, h: File)
    requires Rebuilds(r, host, order, g)
    requires Rebuilds(Started(g, stamp, Some(r.startedAt), now), host, again, h)
    ensures h == g
  {
    RebuiltHasItsPlace(r, host, order, g);
    StartRoundTrip(g, stamp, Started(g, stamp, Some(r.startedAt), now), host, again, h);
  }

  lemma FlatOfUpdate(f: File, stamp: string)
    ensures Flat(UpdateShape(f, stamp)) == (map k | k in f.extra && !Reserved(k) :: f.extra[k])
  {
    var flat := Flat(UpdateShape(f, stamp));
    forall k ensures k in flat <==> k in f.extra && !Reserved(k) {
    }
    forall k | k in flat ensures flat[k] == f.extra[k] {
    }
  }

  lemma UpdateShapeMerges(f: File, stamp: string, r: Record)
    ensures NoConflict(UpdateShape(f, stamp))
    ensures var g := Merged(Base(r), UpdateShape(f, stamp));
      && g.extra == (map k | k in f.extra && !Reserved(k) :: f.extra[k])
      && g.hostname == (if "hostname" in f.extra then f.extra["hostname"] else f.hostname)
      && g.cwd == (if "cwd" in f.extra then f.extra["cwd"] else f.cwd)
      && g.id == r.id && g.name == r.name && g.start == r.startedAt
  {
    var meta := UpdateShape(f, stamp);
    assert Nested(meta) == map[];
    FlatOfUpdate(f, stamp);
    assert map[] + map[] + Flat(meta) == Flat(meta);
  }

  predicate NoneReserved(f: File) {
    forall k :: k in f.extra ==> !Reserved(k)
  }

  /** Sent as an update, the same exactly if also none of its extra keys has a reserved name. */
  lemma UpdateRoundTrip(f: File, stamp: string, r: Record, host: Host, order: seq<string>, g: File)
    requires r.metadata == Parsed(UpdateShape(f, stamp)) && Rebuilds(r, host, order, g)
    ensures g == Authoritative(f, r) <==> KeepsPlace(f, host) && NoneReserved(f)
    ensures g == f <==>
      KeepsPlace(f, host) && NoneReserved(f) && r.id == f.id && r.name == f.name && r.startedAt == f.start
  {
    UpdateShapeMerges(f, stamp, r);
    ApplyAll(Base(r), order, UpdateShape(f, stamp));
    if NoneReserved(f) {
      assert (map k | k in f.extra && !Reserved(k) :: f.extra[k]) == f.extra;
    } else {
      var k :| k in f.extra && Reserved(k);
      assert k !in g.extra;
    }
  }
}

/** The record and the loops that fill it. */
module SessionFile {
  import opened Common
  import TouchModel
  import opened SessionFileModel

  lemma OneMore(extra: map<string, string>, nested: map<string, Json>, todo: set<string>, k: string)
    requires k in todo && todo <= nested.Keys
    ensures (extra + Strings(nested - todo))[k := Show(nested[k])] == extra + Strings(nested - (todo - {k}))
  {
    var some, more := Strings(nested - todo), Strings(nested - (todo - {k}));
    assert more == some[k := Show(nested[k])];
  }

  class SessionRecord {
    var id: string
    var name: string
    var start: TouchModel.Time
    var hostname: string
    var cwd: string
    var extra: map<string, string>

    constructor (r: Record)
      ensures View() == Base(r)
    {
      id, name, start, hostname, cwd, extra := r.id, r.name, r.startedAt, "", "", map[];
    }

    ghost function View(): File
      reads this
    {
      File(id, name, start, hostname, cwd, extra)
    }

    // The inner loop, over a nested object.
    method TakeNested(nested: map<string, Json>)
      modifies this`extra
      ensures extra == old(extra) + Strings(nested)
    {
      var todo := nested.Keys;
      while todo != {}
        invariant todo <= nested.Keys
        invariant extra == old(extra) + Strings(nested - todo)
      {
        var k := Pick(todo);
        OneMore(old(extra), nested, todo, k);
        extra := extra[k := Show(nested[k])];
        todo := todo - {k};
      }
      assert nested - {} == nested;
    }

    method TakeOne(k: string, v: Json)
      modifies this
      ensures View() == ApplyOne(old(View()), k, v)
    {
      match k
      case "session_id" =>
      case "start_time" =>
      case "name" =>
      case "hostname" => hostname := Show(v);
      case "cwd" => cwd := Show(v);
      case "extra" =>
        if v.Object? {
          TakeNested(v.fields);
        }
      case _ => extra := extra[k := Show(v)];
    }

    /** applyMetaToSessionFile: whatever the map's iteration order happens to be. */
    method ApplyMeta(meta: map<string, Json>) returns (ghost order: seq<string>)
      modifies this
      ensures Order(order, meta.Keys) && Within(order, meta) && View() == Apply(old(View()), order, meta)
      ensures NoConflict(meta) ==> View() == Merged(old(View()), meta)
    {
      var todo := meta.Keys;
      order := [];
      while todo != {}
        invariant todo <= meta.Keys && Order(order, meta.Keys - todo) && Within(order, meta)
        invariant View() == Apply(old(View()), order, meta)
      {
        var k := Pick(todo);
        todo := todo - {k};
        TakeOne(k, meta[k]);
        assert (order + [k])[..|order|] == order;
        order := order + [k];
      }
      assert meta.Keys - {} == meta.Keys;
      if NoConflict(meta) {
        ApplyAll(old(View()), order, meta);
      }
    }
  }

  /** SessionFileFromServer. */
  method FromServer(r: Record, host: Host) returns (f: SessionRecord, ghost order: seq<string>)
    ensures fresh(f) && Rebuilds(r, host, order, f.View())
  {
    f := new SessionRecord(r);
    order := [];
    if r.metadata.Parsed? {
      order := f.ApplyMeta(r.metadata.meta);
    }
    if f.hostname == "" && host.hostname.Some? {
      f.hostname := host.hostname.value;
    }
    if f.cwd == "" && host.cwd.Some? {
      f.cwd := host.cwd.value;
    }
  }
}
