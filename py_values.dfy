/** Python values as the core sees them: JSON-like data, insertion-ordered
    dictionaries, truthiness, `str()` and the few built-in operations whose
    failures the core relies on (raised exceptions become `Err`). */
module PyValues {

  datatype Option<T> = None | Some(value: T)

  /** The exception classes the core can raise. */
  datatype Error = KeyError | TypeError | AttributeError | ValueError | RuntimeError

  datatype Result<T> = Ok(value: T) | Err(error: Error)

  /** A JSON-compatible Python value. Numbers are integers; a `dict` is the
      ordered list of its entries, in insertion order. */
  datatype Json =
    | JNull
    | JBool(b: bool)
    | JInt(i: int)
    | JStr(s: string)
    | JList(items: seq<Json>)
    | JDict(entries: Dict)

  type Dict = seq<(string, Json)>

  // ----------------------------------------------------------------------
  // Dictionaries
  // ----------------------------------------------------------------------

  function Keys(d: Dict): (ks: seq<string>)
    ensures |ks| == |d|
    ensures forall i :: 0 <= i < |d| ==> ks[i] == d[i].0
  {
    if d == [] then [] else [d[0].0] + Keys(d[1..])
  }

  /** A Python dict never holds a key twice. */
  predicate DistinctKeys(d: Dict) {
    forall i, j :: 0 <= i < j < |d| ==> d[i].0 != d[j].0
  }

  predicate HasKey(d: Dict, k: string) {
    k in Keys(d)
  }

  /** `d.get(k)` as an option: the value of the first entry with key `k`. */
  function Find(d: Dict, k: string): (r: Option<Json>)
    ensures r.Some? <==> HasKey(d, k)
    ensures r.Some? ==> (k, r.value) in d
  {
    if d == [] then None
    else if d[0].0 == k then Some(d[0].1)
    else
      assert Keys(d) == [d[0].0] + Keys(d[1..]);
      Find(d[1..], k)
  }

  /** A prefix grown by the next element. */
  lemma PrefixSnoc<T>(s: seq<T>, i: nat)
    requires i < |s|
    ensures s[..i] + [s[i]] == s[..i + 1]
  {
  }

  /** `s.append(x)`: the old elements keep their places. */
  function Snoc<T>(s: seq<T>, x: T): (r: seq<T>)
    ensures |r| == |s| + 1 && r[|s|] == x
    ensures forall j :: 0 <= j < |s| ==> r[j] == s[j]
  {
    s + [x]
  }

  /** `d.get(k, default)`. */
  function Get(d: Dict, k: string, default: Json): Json {
    match Find(d, k)
    case Some(v) => v
    case None => default
  }

  /** `d[k] = v`: an existing key keeps its position, a new key goes last. */
  function Set(d: Dict, k: string, v: Json): (r: Dict)
    ensures Keys(r) == if HasKey(d, k) then Keys(d) else Keys(d) + [k]
  {
    if d == [] then [(k, v)]
    else if d[0].0 == k then
      assert Keys([(k, v)] + d[1..]) == [k] + Keys(d[1..]);
      [(k, v)] + d[1..]
    else
      assert Keys(d) == [d[0].0] + Keys(d[1..]);
      var r := [d[0]] + Set(d[1..], k, v);
      assert Keys(r) == [d[0].0] + Keys(Set(d[1..], k, v));
      r
  }

  lemma {:induction false} FindSet(d: Dict, k: string, v: Json, k': string)
    ensures Find(Set(d, k, v), k') == if k' == k then Some(v) else Find(d, k')
  {
    if d != [] && d[0].0 != k {
      FindSet(d[1..], k, v, k');
    }
  }

  lemma SetKeepsDistinct(d: Dict, k: string, v: Json)
    requires DistinctKeys(d)
    ensures DistinctKeys(Set(d, k, v))
  {
    var r := Set(d, k, v);
    forall i, j | 0 <= i < j < |r| ensures r[i].0 != r[j].0 {
      assert Keys(r)[i] == r[i].0 && Keys(r)[j] == r[j].0;
      if HasKey(d, k) {
        assert Keys(d)[i] == d[i].0 && Keys(d)[j] == d[j].0;
      } else if j < |d| {
        assert Keys(d)[i] == d[i].0 && Keys(d)[j] == d[j].0;
      } else {
        assert Keys(d)[i] == d[i].0;
      }
    }
  }

  /** The dictionary without the entries whose key is `k` (`d.pop(k, None)`
      when keys are distinct). */
  function Delete(d: Dict, k: string): (r: Dict)
    ensures !HasKey(r, k)
    ensures forall k' :: k' != k ==> Find(r, k') == Find(d, k')
    ensures |r| <= |d|
  {
    if d == [] then []
    else if d[0].0 == k then Delete(d[1..], k)
    else [d[0]] + Delete(d[1..], k)
  }

  /** A dict's entry with key `k` and value `v` is what `Find` returns when
      keys are distinct. */
  lemma FindDistinct(d: Dict, k: string, v: Json)
    requires DistinctKeys(d) && (k, v) in d
    ensures Find(d, k) == Some(v)
  {
    if d[0] != (k, v) {
      assert (k, v) in d[1..];
      FindDistinct(d[1..], k, v);
    }
  }

  /** An entry added at the end is found only when its key is new. */
  lemma {:induction false} FindAppend(d: Dict, p: (string, Json), k: string)
    ensures Find(d + [p], k) == if HasKey(d, k) then Find(d, k) else if p.0 == k then Some(p.1) else None
  {
    if d != [] {
      assert (d + [p])[1..] == d[1..] + [p];
      assert Keys(d) == [d[0].0] + Keys(d[1..]);
      FindAppend(d[1..], p, k);
    }
  }

  /** `d.update(extra)`, also `{**d, **extra}`: the entries of `extra` are
      set one after the other. */
  function Update(d: Dict, extra: Dict): Dict
    decreases |extra|
  {
    if extra == [] then d else Update(Set(d, extra[0].0, extra[0].1), extra[1..])
  }

  /** After an update a key of `extra` has its value from `extra`; any other
      key keeps its old value. */
  lemma {:induction false} FindUpdate(d: Dict, extra: Dict, k: string)
    requires DistinctKeys(extra)
    ensures Find(Update(d, extra), k) == if HasKey(extra, k) then Find(extra, k) else Find(d, k)
    decreases |extra|
  {
    if extra != [] {
      assert Keys(extra) == [extra[0].0] + Keys(extra[1..]);
      FindUpdate(Set(d, extra[0].0, extra[0].1), extra[1..], k);
      FindSet(d, extra[0].0, extra[0].1, k);
      if k == extra[0].0 {
        assert (k, extra[0].1) in extra;
        FindDistinct(extra, k, extra[0].1);
      }
    }
  }

  /** A list of strings as a Python list value. */
  function StrList(xs: seq<string>): (j: Json)
    ensures j.JList? && |j.items| == |xs|
    ensures forall i :: 0 <= i < |xs| ==> j.items[i] == JStr(xs[i])
  {
    JList(seq(|xs|, i requires 0 <= i < |xs| => JStr(xs[i])))
  }

  // ----------------------------------------------------------------------
  // Truthiness and built-in operations on arbitrary values
  // ----------------------------------------------------------------------

  /** `bool(j)`. */
  predicate Truthy(j: Json) {
    match j
    case JNull => false
    case JBool(b) => b
    case JInt(i) => i != 0
    case JStr(s) => s != ""
    case JList(items) => items != []
    case JDict(entries) => entries != []
  }

  /** `a or b` */
  function Or(a: Json, b: Json): Json {
    if Truthy(a) then a else b
  }

  /** `isinstance(j, int)`: Python's `bool` is a subclass of `int`. */
  predicate IsPyInt(j: Json) {
    j.JInt? || j.JBool?
  }

  /** `int(j)` for a value that `IsPyInt`. */
  function AsInt(j: Json): int
    requires IsPyInt(j)
  {
    if j.JInt? then j.i else if j.b then 1 else 0
  }

  /** `x.get(k, default)`: only a dict has `get`. */
  function GetAttr(x: Json, k: string, default: Json): Result<Json> {
    if x.JDict? then Ok(Get(x.entries, k, default)) else Err(AttributeError)
  }

  /** `dict(x)`: a dict is copied; any other iterable is read as a sequence
      of pairs, each of which must itself iterate to exactly two values,
      the first a key. A later pair with the same key overwrites the value
      in the key's first position. */
  function DictOf(x: Json): (r: Result<Dict>)
    ensures x.JDict? ==> r == Ok(x.entries)
    ensures Iterate(x).Err? ==> r == Err(TypeError)
    ensures r.Ok? ==> DistinctKeys(r.value) || x.JDict?
  {
    match x
    case JDict(e) => Ok(e)
    case _ =>
      match Iterate(x)
      case Err(e) => Err(e)
      case Ok(items) => PairsDict(items)
  }

  /** One element of the sequence given to `dict`: it must be iterable and
      give exactly two values; a list or dict as key is unhashable. */
  function PairOf(item: Json): Result<(string, Json)> {
    match Iterate(item)
    case Err(_) => Err(TypeError)
    case Ok(xs) =>
      if |xs| != 2 then Err(ValueError)
      else if xs[0].JStr? then Ok((xs[0].s, xs[1]))
      else Err(TypeError)
  }

  /** The pairs read one after the other into a new dict; the first
      element that is not a pair raises. */
  function PairsDict(items: seq<Json>): (r: Result<Dict>)
    ensures r.Ok? ==> DistinctKeys(r.value)
    decreases |items|
  {
    if items == [] then Ok([])
    else
      match PairsDict(items[..|items| - 1])
      case Err(e) => Err(e)
      case Ok(d) =>
        match PairOf(items[|items| - 1])
        case Err(e) => Err(e)
        case Ok(p) =>
          SetKeepsDistinct(d, p.0, p.1);
          Ok(Set(d, p.0, p.1))
  }

  /** One more element: the dict of the shorter list with that pair set. */
  lemma PairsDictSnoc(items: seq<Json>)
    requires items != []
    ensures var init, last := items[..|items| - 1], items[|items| - 1];
      && (PairsDict(items).Ok? <==> PairsDict(init).Ok? && PairOf(last).Ok?)
      && (PairsDict(items).Ok? ==>
            PairsDict(items).value == Set(PairsDict(init).value, PairOf(last).value.0, PairOf(last).value.1))
  {
  }

  /** `dict` succeeds when every element is a pair. */
  lemma {:induction false} PairsDictAllPairs(items: seq<Json>)
    requires forall i :: 0 <= i < |items| ==> PairOf(items[i]).Ok?
    ensures PairsDict(items).Ok?
    decreases |items|
  {
    if items != [] {
      var n := |items| - 1;
      var init := items[..n];
      forall i | 0 <= i < n ensures PairOf(init[i]).Ok? {
        assert init[i] == items[i];
      }
      PairsDictAllPairs(init);
      assert PairOf(items[n]).Ok?;
      PairsDictSnoc(items);
    }
  }

  /** When `dict` succeeds, each element was a pair. */
  lemma {:induction false} PairsDictPairAt(items: seq<Json>, i: nat)
    requires PairsDict(items).Ok? && i < |items|
    ensures PairOf(items[i]).Ok?
    decreases |items|
  {
    var n := |items| - 1;
    var init := items[..n];
    PairsDictSnoc(items);
    if i == n {
      assert items[i] == items[n];
    } else {
      assert init[i] == items[i];
      PairsDictPairAt(init, i);
    }
  }

  /** `dict` succeeds exactly when every element is a pair. */
  lemma PairsDictOk(items: seq<Json>)
    ensures PairsDict(items).Ok? <==> forall i :: 0 <= i < |items| ==> PairOf(items[i]).Ok?
  {
    if forall i :: 0 <= i < |items| ==> PairOf(items[i]).Ok? {
      PairsDictAllPairs(items);
    }
    if PairsDict(items).Ok? {
      forall i | 0 <= i < |items| ensures PairOf(items[i]).Ok? {
        PairsDictPairAt(items, i);
      }
    }
  }

  /** The element `items[i]` is a pair with key `k`. */
  predicate PairWithKey(items: seq<Json>, i: int, k: string) {
    0 <= i < |items| && PairOf(items[i]).Ok? && PairOf(items[i]).value.0 == k
  }

  /** A pair's key is in the dict. */
  lemma {:induction false} PairsDictHasKey(items: seq<Json>, i: nat, k: string)
    requires PairsDict(items).Ok? && PairWithKey(items, i, k)
    ensures Find(PairsDict(items).value, k).Some?
    decreases |items|
  {
    var n := |items| - 1;
    var init := items[..n];
    PairsDictSnoc(items);
    var d := PairsDict(init).value;
    var p := PairOf(items[n]).value;
    FindSet(d, p.0, p.1, k);
    if p.0 != k {
      assert i != n;
      assert PairWithKey(init, i, k);
      PairsDictHasKey(init, i, k);
    }
  }

  /** A key of the dict comes from some pair. */
  lemma {:induction false} PairsDictKeyFrom(items: seq<Json>, k: string) returns (i: nat)
    requires PairsDict(items).Ok? && Find(PairsDict(items).value, k).Some?
    ensures PairWithKey(items, i, k)
    decreases |items|
  {
    if items == [] {
      assert false;
    }
    var n := |items| - 1;
    var init := items[..n];
    PairsDictSnoc(items);
    var d := PairsDict(init).value;
    var p := PairOf(items[n]).value;
    FindSet(d, p.0, p.1, k);
    if p.0 == k {
      i := n;
    } else {
      i := PairsDictKeyFrom(init, k);
      assert init[i] == items[i];
    }
  }

  /** A key is in the dict exactly when some pair has it. */
  lemma PairsDictKeys(items: seq<Json>, k: string)
    requires PairsDict(items).Ok?
    ensures HasKey(PairsDict(items).value, k) <==>
      exists i :: 0 <= i < |items| && PairOf(items[i]).Ok? && PairOf(items[i]).value.0 == k
  {
    if HasKey(PairsDict(items).value, k) {
      var i := PairsDictKeyFrom(items, k);
    }
    forall i | 0 <= i < |items| && PairOf(items[i]).Ok? && PairOf(items[i]).value.0 == k
      ensures HasKey(PairsDict(items).value, k)
    {
      PairsDictHasKey(items, i, k);
    }
  }

  /** The value of a key is that of the last pair with the key. */
  lemma {:induction false} PairsDictLast(items: seq<Json>, i: nat, k: string)
    requires PairsDict(items).Ok?
    requires i < |items| && PairOf(items[i]).Ok? && PairOf(items[i]).value.0 == k
    requires forall j :: i < j < |items| && PairOf(items[j]).Ok? ==> PairOf(items[j]).value.0 != k
    ensures Find(PairsDict(items).value, k) == Some(PairOf(items[i]).value.1)
    decreases |items|
  {
    var n := |items| - 1;
    var init := items[..n];
    PairsDictSnoc(items);
    var d := PairsDict(init).value;
    var p := PairOf(items[n]).value;
    FindSet(d, p.0, p.1, k);
    if i == n {
      assert items[i] == items[n];
    } else {
      assert p.0 != k;
      forall j | i < j < n && PairOf(init[j]).Ok? ensures PairOf(init[j]).value.0 != k {
        assert init[j] == items[j];
      }
      assert init[i] == items[i];
      PairsDictLast(init, i, k);
    }
  }

  /** The values `for v in x` visits: a list's items, a dict's keys, a
      string's characters; anything else is not iterable. */
  function Iterate(x: Json): Result<seq<Json>> {
    match x
    case JList(items) => Ok(items)
    case JDict(e) => Ok(seq(|e|, i requires 0 <= i < |e| => JStr(e[i].0)))
    case JStr(s) => Ok(seq(|s|, i requires 0 <= i < |s| => JStr([s[i]])))
    case _ => Err(TypeError)
  }

  /** `x[k]` with a string subscript. */
  function Subscript(x: Json, k: string): Result<Json> {
    match x
    case JDict(e) => (match Find(e, k) case Some(v) => Ok(v) case None => Err(KeyError))
    case _ => Err(TypeError)
  }

  /** `needle in x` for a string `needle`: substring of a string, element of a
      list, key of a dict; any other container raises TypeError. */
  function In(needle: string, x: Json): Result<bool> {
    match x
    case JStr(s) => Ok(Substring(needle, s))
    case JList(items) => Ok(JStr(needle) in items)
    case JDict(e) => Ok(HasKey(e, needle))
    case _ => Err(TypeError)
  }

  predicate IsPrefix(p: string, s: string) {
    |p| <= |s| && s[..|p|] == p
  }

  /** `needle in hay` for two strings. */
  predicate Substring(needle: string, hay: string)
    decreases |hay|
  {
    IsPrefix(needle, hay) || (hay != [] && Substring(needle, hay[1..]))
  }

  /** For a one-character needle, substring is membership. */
  lemma {:induction false} SubstringChar(needle: string, s: string)
    requires |needle| == 1
    ensures Substring(needle, s) <==> needle[0] in s
    decreases |s|
  {
    if s != [] {
      SubstringChar(needle, s[1..]);
      assert s == [s[0]] + s[1..];
    }
  }

  // ----------------------------------------------------------------------
  // str() and repr()
  // ----------------------------------------------------------------------

  function DigitChar(d: nat): char
    requires d < 10
  {
    ('0' as int + d) as char
  }

  function NatToString(n: nat): (s: string)
    ensures s != []
    decreases n
  {
    if n < 10 then [DigitChar(n)] else NatToString(n / 10) + [DigitChar(n % 10)]
  }

  /** `str(i)` for an integer. */
  function IntToString(i: int): string {
    if i < 0 then "-" + NatToString(-i) else NatToString(i)
  }

  function JoinWith(sep: string, parts: seq<string>): string {
    if parts == [] then "" else if |parts| == 1 then parts[0] else parts[0] + sep + JoinWith(sep, parts[1..])
  }

  /** `str(j)`. */
  function Str(j: Json): string
    decreases j, 1
  {
    match j
    case JStr(s) => s
    case _ => Repr(j)
  }

  /** `repr(j)`; strings are quoted with `'` and not escaped. */
  function Repr(j: Json): string
    decreases j, 0
  {
    match j
    case JNull => "None"
    case JBool(b) => if b then "True" else "False"
    case JInt(i) => IntToString(i)
    case JStr(s) => "'" + s + "'"
    case JList(items) => "[" + JoinWith(", ", ReprList(items)) + "]"
    case JDict(e) => "{" + JoinWith(", ", ReprEntries(e)) + "}"
  }

  function ReprList(items: seq<Json>): seq<string>
    decreases items
  {
    if items == [] then [] else [Repr(items[0])] + ReprList(items[1..])
  }

  function ReprEntries(e: Dict): seq<string>
    decreases e
  {
    if e == [] then []
    else
      var (k, v) := e[0];
      assert v < e[0];
      ["'" + k + "': " + Repr(v)] + ReprEntries(e[1..])
  }
}
