/** The bookkeeping side of the vector index: a single table of rows keyed
    by a string, whose vector dimension is fixed by the first upsert and
    released by `reset`. The nearest-neighbour ranking is an input. */
module Vectors {
  import opened PyValues
  import opened Text

  /** A key as callers pass it: a `(kind, id)` pair or any other value. */
  datatype VKey = Pair(kind: Json, id: Json) | Other(key: Json)

  /** `_k`: `"kind:id"` for a pair, `str(key)` otherwise. */
  function KeyId(k: VKey): string {
    match k
    case Pair(kind, id) => Str(kind) + ":" + Str(id)
    case Other(key) => Str(key)
  }

  /** A pair of strings is rendered so that splitting at the first `:`
      gives the pair back, provided the kind has no `:`. */
  lemma KeyIdOfPair(kind: string, id: string)
    requires ':' !in kind
    ensures SplitFirst(KeyId(Pair(JStr(kind), JStr(id))), ':') == Some((kind, id))
  {
    assert KeyId(Pair(JStr(kind), JStr(id))) == kind + [':'] + id;
    SplitFirstJoin(kind, id, ':');
  }

  /** A string key is used as it is. */
  lemma KeyIdOfString(s: string)
    ensures KeyId(Other(JStr(s))) == s
  {
  }

  /** One element of a batch: key, vector and metadata. */
  datatype Item = Item(key: VKey, vector: seq<real>, meta: Dict)

  /** A stored row: its key, vector, timestamp and the metadata columns
      it was given (a table row has no key order, so they form a map). */
  datatype Row = Row(key: string, vector: seq<real>, updatedAt: int, meta: map<string, Json>)

  /** The only metadata fields a row carries. */
  const CarriedFields: seq<string> := ["domain", "area", "content_hash", "last_embedded_hash"]

  /** `base[fld] = meta[fld]` for each field of `fields` present in `meta`. */
  function Carry(fields: seq<string>, meta: Dict): map<string, Json> {
    map f | f in fields && HasKey(meta, f) :: Find(meta, f).value
  }

  /** The row `add_or_update_batch_with_meta` builds for one item. */
  function NewRow(item: Item, now: int): Row {
    Row(KeyId(item.key), item.vector, now, Carry(CarriedFields, item.meta))
  }

  /** A new row carries exactly the whitelisted fields present in the
      item's metadata, with their values. */
  lemma NewRowMeta(item: Item, now: int, g: string)
    ensures g in NewRow(item, now).meta <==> g in CarriedFields && HasKey(item.meta, g)
    ensures g in NewRow(item, now).meta ==> Find(item.meta, g) == Some(NewRow(item, now).meta[g])
  {
  }

  function NewRows(items: seq<Item>, now: int): seq<Row> {
    seq(|items|, i requires 0 <= i < |items| => NewRow(items[i], now))
  }

  function KeyIds(items: seq<Item>): seq<string> {
    seq(|items|, i requires 0 <= i < |items| => KeyId(items[i].key))
  }

  /** The rows left after the delete: those whose key is not in `keys`. */
  function Without(rows: seq<Row>, keys: seq<string>): seq<Row> {
    if rows == [] then []
    else if rows[0].key in keys then Without(rows[1..], keys)
    else [rows[0]] + Without(rows[1..], keys)
  }

  /** The table after a batch upsert: delete every batch key, then add the
      new rows at the end. */
  function Upserted(rows: seq<Row>, items: seq<Item>, now: int): seq<Row> {
    Without(rows, KeyIds(items)) + NewRows(items, now)
  }

  /** The rows stored under key `k`, in table order. */
  function RowsWithKey(rows: seq<Row>, k: string): (r: seq<Row>)
    ensures forall i :: 0 <= i < |r| ==> r[i].key == k && r[i] in rows
  {
    if rows == [] then []
    else if rows[0].key == k then [rows[0]] + RowsWithKey(rows[1..], k)
    else RowsWithKey(rows[1..], k)
  }

  /** The first row whose key is `k`. */
  function FirstWithKey(rows: seq<Row>, k: string): Option<Row> {
    if rows == [] then None
    else if rows[0].key == k then Some(rows[0])
    else FirstWithKey(rows[1..], k)
  }

  lemma {:induction false} FirstWithKeyIsHead(rows: seq<Row>, k: string)
    ensures FirstWithKey(rows, k) ==
      if RowsWithKey(rows, k) == [] then None else Some(RowsWithKey(rows, k)[0])
  {
    if rows != [] && rows[0].key != k {
      FirstWithKeyIsHead(rows[1..], k);
    }
  }

  lemma {:induction false} RowsWithKeyAppend(a: seq<Row>, b: seq<Row>, k: string)
    ensures RowsWithKey(a + b, k) == RowsWithKey(a, k) + RowsWithKey(b, k)
  {
    if a == [] {
      assert a + b == b;
    } else {
      assert (a + b)[1..] == a[1..] + b;
      RowsWithKeyAppend(a[1..], b, k);
    }
  }

  /** The delete removes every row of a batch key and no other row. */
  lemma {:induction false} WithoutRows(rows: seq<Row>, keys: seq<string>, k: string)
    ensures RowsWithKey(Without(rows, keys), k) == if k in keys then [] else RowsWithKey(rows, k)
  {
    if rows != [] {
      WithoutRows(rows[1..], keys, k);
    }
  }

  /** In rows with distinct keys, each key has exactly its own row. */
  lemma {:induction false} DistinctRowsWithKey(rs: seq<Row>, i: nat)
    requires i < |rs|
    requires forall a, b :: 0 <= a < b < |rs| ==> rs[a].key != rs[b].key
    ensures RowsWithKey(rs, rs[i].key) == [rs[i]]
  {
    if i == 0 {
      RowsMissing(rs[1..], rs[0].key);
    } else {
      DistinctRowsWithKey(rs[1..], i - 1);
    }
  }

  lemma {:induction false} RowsMissing(rs: seq<Row>, k: string)
    requires forall a :: 0 <= a < |rs| ==> rs[a].key != k
    ensures RowsWithKey(rs, k) == []
  {
    if rs != [] {
      RowsMissing(rs[1..], k);
    }
  }

  /** For a batch with distinct keys, each batch key afterwards has exactly
      its new row (old rows are replaced, not merged), and every other key
      keeps its rows. */
  lemma UpsertReplaces(rows: seq<Row>, items: seq<Item>, now: int, k: string)
    requires forall a, b :: 0 <= a < b < |items| ==> KeyId(items[a].key) != KeyId(items[b].key)
    ensures forall i :: 0 <= i < |items| && KeyId(items[i].key) == k ==>
      RowsWithKey(Upserted(rows, items, now), k) == [NewRow(items[i], now)]
    ensures k !in KeyIds(items) ==> RowsWithKey(Upserted(rows, items, now), k) == RowsWithKey(rows, k)
  {
    RowsWithKeyAppend(Without(rows, KeyIds(items)), NewRows(items, now), k);
    WithoutRows(rows, KeyIds(items), k);
    var rs := NewRows(items, now);
    assert forall a :: 0 <= a < |items| ==> rs[a].key == KeyId(items[a].key);
    forall i | 0 <= i < |items| && KeyId(items[i].key) == k
      ensures RowsWithKey(Upserted(rows, items, now), k) == [NewRow(items[i], now)]
    {
      assert KeyIds(items)[i] == k;
      DistinctRowsWithKey(rs, i);
    }
    if k !in KeyIds(items) {
      forall a | 0 <= a < |items| ensures rs[a].key != k {
        assert KeyIds(items)[a] == KeyId(items[a].key);
      }
      RowsMissing(rs, k);
    }
  }

  /** Every vector of the batch has length `d`. The table's `vector`
      column has the fixed size `Vector(dim)`, so the add accepts nothing
      else. */
  predicate SameDim(items: seq<Item>, d: nat) {
    forall i :: 0 <= i < |items| ==> |items[i].vector| == d
  }

  /** Every stored vector has length `d`. */
  predicate RowsDim(rows: seq<Row>, d: nat) {
    forall i :: 0 <= i < |rows| ==> |rows[i].vector| == d
  }

  lemma {:induction false} WithoutDim(rows: seq<Row>, keys: seq<string>, d: nat)
    requires RowsDim(rows, d)
    ensures RowsDim(Without(rows, keys), d)
  {
    if rows != [] {
      WithoutDim(rows[1..], keys, d);
    }
  }

  /** A batch whose vectors all have the table's length leaves every
      stored vector at that length. */
  lemma UpsertedDim(rows: seq<Row>, items: seq<Item>, now: int, d: nat)
    requires RowsDim(rows, d) && SameDim(items, d)
    ensures RowsDim(Upserted(rows, items, now), d)
  {
    WithoutDim(rows, KeyIds(items), d);
    var a, b := Without(rows, KeyIds(items)), NewRows(items, now);
    assert forall i :: 0 <= i < |b| ==> |b[i].vector| == d;
    forall i | 0 <= i < |a + b| ensures |(a + b)[i].vector| == d {
      if i < |a| {
        assert (a + b)[i] == a[i];
      } else {
        assert (a + b)[i] == b[i - |a|];
      }
    }
  }

  /** `get_last_hash` on what `get_meta` found. */
  function LastHash(meta: Option<Row>): Json {
    match meta
    case None => JNull
    case Some(r) => if "last_embedded_hash" in r.meta then r.meta["last_embedded_hash"] else JNull
  }

  /** After a batch with distinct keys, `get_meta` of a batch key finds its
      new row and `get_last_hash` returns the hash the item carried. */
  lemma LastHashAfterUpsert(rows: seq<Row>, items: seq<Item>, now: int, i: nat)
    requires i < |items|
    requires forall a, b :: 0 <= a < b < |items| ==> KeyId(items[a].key) != KeyId(items[b].key)
    ensures FirstWithKey(Upserted(rows, items, now), KeyId(items[i].key)) == Some(NewRow(items[i], now))
    ensures LastHash(FirstWithKey(Upserted(rows, items, now), KeyId(items[i].key)))
         == Get(items[i].meta, "last_embedded_hash", JNull)
  {
    var k := KeyId(items[i].key);
    UpsertReplaces(rows, items, now, k);
    FirstWithKeyIsHead(Upserted(rows, items, now), k);
    NewRowMeta(items[i], now, "last_embedded_hash");
  }

  /** One search hit as the index reports it. */
  datatype Hit = Hit(key: string, score: Option<real>, distance: Option<real>)

  /** The reported score, else `1 - distance`, else 0. */
  function Score(h: Hit): (r: real)
    ensures h.score.Some? ==> r == h.score.value
    ensures h.score.None? && h.distance.Some? && 0.0 <= h.distance.value <= 2.0 ==> -1.0 <= r <= 1.0
    ensures h.score.None? && h.distance.None? ==> r == 0.0
  {
    match h.score
    case Some(s) => s
    case None =>
      match h.distance
      case Some(d) => 1.0 - d
      case None => 0.0
  }

  /** Without a stored score, a nearer hit (smaller cosine distance) scores
      higher, so the distance ranking is the score ranking. */
  lemma NearerScoresHigher(h1: Hit, h2: Hit)
    requires h1.score.None? && h2.score.None? && h1.distance.Some? && h2.distance.Some?
    requires h1.distance.value <= h2.distance.value
    ensures Score(h1) >= Score(h2)
  {
  }

  /** `.limit(top_k)`: the first `top_k` hits of the ranking. */
  function Take(hits: seq<Hit>, topK: nat): (r: seq<Hit>)
    ensures |r| <= topK && |r| <= |hits|
    ensures r == hits[..|r|]
    ensures |hits| <= topK ==> r == hits
  {
    if |hits| <= topK then hits else hits[..topK]
  }

  /** The table and the dimension lock (`_tbl`, `_DIM`). */
  class VectorStore {
    var dim: Option<nat>
    var rows: seq<Row>

    /** Without a table there are no rows; with one, every stored vector
        has the table's length. */
    ghost predicate Valid()
      reads this
    {
      && (dim.None? ==> rows == [])
      && (dim.Some? ==> RowsDim(rows, dim.value))
    }

    /** No table yet. */
    constructor()
      ensures Valid() && dim.None? && rows == []
    {
      dim := None;
      rows := [];
    }

    /** `add_or_update_batch_with_meta`: the first vector's length is
        checked against the lock, then the batch keys are deleted, then the
        add rejects the batch when a later vector has another length. */
    method AddOrUpdateBatch(items: seq<Item>, now: int) returns (r: Result<()>)
      requires Valid()
      modifies this
      ensures Valid()
      ensures items == [] ==> r == Ok(()) && dim == old(dim) && rows == old(rows)
      ensures items != [] && old(dim).Some? && old(dim).value != |items[0].vector| ==>
        r == Err(ValueError) && dim == old(dim) && rows == old(rows)
      ensures (items != [] && (old(dim).None? || old(dim).value == |items[0].vector|) &&
               SameDim(items, |items[0].vector|)) ==>
        r == Ok(()) && dim == Some(|items[0].vector|) && rows == Upserted(old(rows), items, now)
      ensures (items != [] && (old(dim).None? || old(dim).value == |items[0].vector|) &&
               !SameDim(items, |items[0].vector|)) ==>
        r == Err(ValueError) && dim == Some(|items[0].vector|) && rows == Without(old(rows), KeyIds(items))
    {
      if items == [] {
        return Ok(());
      }
      var d := |items[0].vector|;
      if dim.Some? && dim.value != d {
        return Err(ValueError);
      }
      if dim.None? {
        assert rows == [];
      }
      WithoutDim(rows, KeyIds(items), d);
      dim := Some(d);
      rows := Without(rows, KeyIds(items));
      if !SameDim(items, d) {
        return Err(ValueError);
      }
      UpsertedDim(old(rows), items, now, d);
      var added := BuildRows(items, now);
      rows := rows + added;
      return Ok(());
    }

    /** `query`: no table gives `[]`; otherwise the first `top_k` hits of
        the ranking of `vector`, each with its selected score. */
    method Query(vector: seq<real>, topK: nat, rank: seq<real> -> seq<Hit>) returns (out: seq<(string, real)>)
      ensures dim.None? ==> out == []
      ensures dim.Some? ==> |out| == |Take(rank(vector), topK)|
      ensures dim.Some? ==> forall i :: 0 <= i < |out| ==>
        out[i] == (rank(vector)[i].key, Score(rank(vector)[i]))
    {
      if dim.None? {
        return [];
      }
      var res := Take(rank(vector), topK);
      out := [];
      for i := 0 to |res|
        invariant |out| == i
        invariant forall j :: 0 <= j < i ==> out[j] == (res[j].key, Score(res[j]))
      {
        out := out + [(res[i].key, Score(res[i]))];
      }
    }

    /** `get_meta`: the first row under the key, `None` without a table. */
    method GetMeta(key: VKey) returns (r: Option<Row>)
      requires Valid()
      ensures r == FirstWithKey(rows, KeyId(key))
      ensures dim.None? ==> r.None?
    {
      if dim.None? {
        return None;
      }
      var kid := KeyId(key);
      for i := 0 to |rows|
        invariant FirstWithKey(rows, kid) == FirstWithKey(rows[i..], kid)
      {
        assert rows[i..][1..] == rows[i + 1..];
        if rows[i].key == kid {
          return Some(rows[i]);
        }
      }
      return None;
    }

    /** `get_last_hash` */
    method GetLastHash(key: VKey) returns (h: Json)
      requires Valid()
      ensures h == LastHash(FirstWithKey(rows, KeyId(key)))
    {
      var meta := GetMeta(key);
      h := LastHash(meta);
    }

    /** `reset`: drops the table and the lock. */
    method Reset()
      modifies this
      ensures Valid() && dim.None? && rows == []
    {
      dim := None;
      rows := [];
    }

    /** `count`: 0 without a table. */
    method Count() returns (n: nat)
      requires Valid()
      ensures n == |rows|
      ensures dim.None? ==> n == 0
    {
      if dim.None? {
        return 0;
      }
      return |rows|;
    }
  }

  /** The loop building the new rows of a batch. */
  method BuildRows(items: seq<Item>, now: int) returns (out: seq<Row>)
    ensures out == NewRows(items, now)
  {
    ghost var rows := NewRows(items, now);
    out := [];
    for i := 0 to |items|
      invariant out == rows[..i]
    {
      var meta := CarryLoop(items[i].meta);
      var row := Row(KeyId(items[i].key), items[i].vector, now, meta);
      assert row == rows[i];
      PrefixSnoc(rows, i);
      out := out + [row];
    }
    assert rows[..|items|] == rows;
  }

  /** The loop over the whitelisted fields. */
  method CarryLoop(meta: Dict) returns (extra: map<string, Json>)
    ensures extra == Carry(CarriedFields, meta)
  {
    var fields := CarriedFields;
    extra := map[];
    for j := 0 to |fields|
      invariant extra == Carry(fields[..j], meta)
    {
      assert fields[..j + 1] == fields[..j] + [fields[j]];
      CarryStep(fields[..j], fields[j], meta);
      if HasKey(meta, fields[j]) {
        extra := extra[fields[j] := Find(meta, fields[j]).value];
      }
    }
    assert fields[..|fields|] == fields;
  }

  /** One more field: copied when present. */
  lemma CarryStep(fields: seq<string>, f: string, meta: Dict)
    ensures Carry(fields + [f], meta) ==
      if HasKey(meta, f) then Carry(fields, meta)[f := Find(meta, f).value] else Carry(fields, meta)
  {
    var a, b := Carry(fields + [f], meta), Carry(fields, meta);
    var c := if HasKey(meta, f) then b[f := Find(meta, f).value] else b;
    forall g ensures g in a <==> g in c {
      assert g in fields + [f] <==> g in fields || g == f;
    }
    assert a.Keys == c.Keys;
    forall g | g in a ensures a[g] == c[g] {
    }
    MapExt(a, c);
  }

  lemma MapExt(a: map<string, Json>, c: map<string, Json>)
    requires a.Keys == c.Keys && forall g :: g in a ==> a[g] == c[g]
    ensures a == c
  {
  }
}
