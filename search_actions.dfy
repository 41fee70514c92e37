/** `search_actions`: the hits of the action index turned into action
    entries carrying the argument names of their service. The embedding,
    the vector query and the services-map answer are inputs. */
module SearchActions {
  import opened PyValues
  import opened Text
  import opened SearchInterface

  /** The names of a service's fields, `[]` when the domain, the service
      or its fields are missing. */
  function FieldNames(svcMap: Dict, domain: string, service: string): Result<Json> {
    match GetAttr(Get(svcMap, domain, JDict([])), service, JDict([]))
    case Err(e) => Err(e)
    case Ok(schema) =>
      match GetAttr(schema, "fields", JDict([]))
      case Err(e) => Err(e)
      case Ok(fields) =>
        match Or(fields, JDict([]))
        case JDict(fs) => Ok(StrList(Keys(fs)))
        case _ => Err(AttributeError)
  }

  /** The entry appended for a service hit. */
  function ActionJson(key: string, ident: string, domain: string, service: string, fields: Json): Json {
    JDict([("key", JStr(key)), ("action", JStr(ident)), ("domain", JStr(domain)), ("service", JStr(service)),
           ("fields", fields)])
  }

  /** A hit of kind `service` with id `ident`, which must contain a `.`. */
  function ServiceHit(key: string, ident: string, svcMap: Dict): Result<Json> {
    match SplitFirst(ident, '.')
    case None => Err(ValueError)
    case Some((d, s)) =>
      match FieldNames(svcMap, d, s)
      case Err(e) => Err(e)
      case Ok(fields) => Ok(ActionJson(key, ident, d, s, fields))
  }

  /** The loop body for one key; `None` is a `continue`. A key without `:`
      cannot be unpacked into two names. */
  function SearchEntry(key: string, svcMap: Dict): Result<Option<Json>> {
    match SplitFirst(key, ':')
    case None => Err(ValueError)
    case Some((kind, ident)) =>
      if kind != "service" then Ok(None)
      else
        match ServiceHit(key, ident, svcMap)
        case Err(e) => Err(e)
        case Ok(x) => Ok(Some(x))
  }

  /** `out` after one more hit. */
  function Appended(out: seq<Json>, entry: Result<Option<Json>>): Result<seq<Json>> {
    match entry
    case Err(e) => Err(e)
    case Ok(None) => Ok(out)
    case Ok(Some(x)) => Ok(out + [x])
  }

  /** The keys of kind `service` among the hits, in hit order. */
  function ServiceKeys(hits: seq<ScoredKey>): (ks: seq<string>)
    ensures |ks| <= |hits|
    decreases |hits|
  {
    if hits == [] then []
    else
      var key := hits[|hits| - 1].0;
      ServiceKeys(hits[..|hits| - 1]) + if IsPrefix("service:", key) then [key] else []
  }

  /** The loop of `search_actions` over the hits. */
  function SearchResults(hits: seq<ScoredKey>, svcMap: Dict): Result<seq<Json>>
    decreases |hits|
  {
    if hits == [] then Ok([])
    else
      match SearchResults(hits[..|hits| - 1], svcMap)
      case Err(e) => Err(e)
      case Ok(out) => Appended(out, SearchEntry(hits[|hits| - 1].0, svcMap))
  }

  /** A key with a `:` is of kind `service` exactly when it starts with
      `service:`. */
  lemma ServiceKind(key: string)
    requires ':' in key
    ensures SplitFirst(key, ':').value.0 == "service" <==> IsPrefix("service:", key)
  {
    if SplitFirst(key, ':').value.0 == "service" {
      KindServicePrefix(key);
    }
    if IsPrefix("service:", key) {
      PrefixKindService(key);
    }
  }

  lemma KindServicePrefix(key: string)
    requires ':' in key && SplitFirst(key, ':').value.0 == "service"
    ensures IsPrefix("service:", key)
  {
    var ident := SplitFirst(key, ':').value.1;
    assert key == "service:" + ident;
    PrefixOfJoin("service:", ident);
  }

  lemma PrefixKindService(key: string)
    requires IsPrefix("service:", key)
    ensures SplitFirst(key, ':') == Some(("service", key[8..]))
  {
    assert key == "service" + ":" + key[8..];
    SplitKind("service", key[8..]);
  }

  /** Each service hit gives exactly one entry, in hit order, and no other
      hit gives one. */
  lemma {:induction false} OnePerServiceHit(hits: seq<ScoredKey>, svcMap: Dict)
    requires SearchResults(hits, svcMap).Ok?
    ensures var out := SearchResults(hits, svcMap).value;
      && |out| == |ServiceKeys(hits)|
      && forall j :: 0 <= j < |out| ==> SearchEntry(ServiceKeys(hits)[j], svcMap) == Ok(Some(out[j]))
    decreases |hits|
  {
    if hits != [] {
      var init, key := hits[..|hits| - 1], hits[|hits| - 1].0;
      OnePerServiceHit(init, svcMap);
      assert SearchEntry(key, svcMap).Ok?;
      ServiceKind(key);
    }
  }

  /** `service:<d>.<s>` gives action `d.s`, domain `d`, service `s` and the
      service's field names. */
  lemma ServiceEntry(d: string, s: string, svcMap: Dict)
    requires '.' !in d
    ensures var key := "service:" + d + "." + s;
      var e := SearchEntry(key, svcMap);
      && (e.Ok? <==> FieldNames(svcMap, d, s).Ok?)
      && (e.Ok? ==> e.value == Some(ActionJson(key, d + "." + s, d, s, FieldNames(svcMap, d, s).value)))
  {
    var ident := d + "." + s;
    assert "service:" + d + "." + s == "service" + ":" + ident;
    SplitKind("service", ident);
    SplitFirstJoin(d, s, '.');
  }

  /** A key without `:`, or a service key whose id has no `.`, raises
      ValueError; so does the whole search when it reaches that key. */
  lemma BadKey(key: string, svcMap: Dict)
    requires ':' !in key || (IsPrefix("service:", key) && '.' !in key[8..])
    ensures SearchEntry(key, svcMap) == Err(ValueError)
  {
    if ':' in key {
      assert key == "service" + ":" + key[8..];
      SplitKind("service", key[8..]);
    }
  }

  /** Any other kind is skipped. */
  lemma OtherKindSkipped(key: string, svcMap: Dict)
    requires ':' in key && !IsPrefix("service:", key)
    ensures SearchEntry(key, svcMap) == Ok(None)
  {
    ServiceKind(key);
  }

  /** A missing domain gives no field names. */
  lemma FieldsOfMissingDomain(svcMap: Dict, d: string, s: string)
    requires Find(svcMap, d).None?
    ensures FieldNames(svcMap, d, s) == Ok(JList([]))
  {
  }

  /** A missing service gives no field names. */
  lemma FieldsOfMissingService(svcMap: Dict, d: string, s: string, svcs: Dict)
    requires Find(svcMap, d) == Some(JDict(svcs)) && Find(svcs, s).None?
    ensures FieldNames(svcMap, d, s) == Ok(JList([]))
  {
  }

  /** The field names are the keys of the service's `fields` dict. */
  lemma FieldsOf(svcMap: Dict, d: string, s: string, svcs: Dict, schema: Dict, fs: Dict)
    requires Find(svcMap, d) == Some(JDict(svcs)) && Find(svcs, s) == Some(JDict(schema))
    requires Find(schema, "fields") == Some(JDict(fs))
    ensures FieldNames(svcMap, d, s) == Ok(StrList(Keys(fs)))
  {
    assert Get(svcMap, d, JDict([])) == JDict(svcs);
    assert Get(svcs, s, JDict([])) == JDict(schema);
    assert Get(schema, "fields", JDict([])) == JDict(fs);
    if fs == [] {
      assert Or(JDict(fs), JDict([])) == JDict([]);
    } else {
      assert Or(JDict(fs), JDict([])) == JDict(fs);
    }
  }

  /** `search_actions` once the hits are known; `fetched` is what
      `ha.services_map()` answers. */
  method Search(hits: seq<ScoredKey>, fetched: Result<Dict>) returns (r: Result<seq<Json>>)
    ensures fetched.Err? ==> r == Err(fetched.error)
    ensures fetched.Ok? ==> r == SearchResults(hits, fetched.value)
  {
    if fetched.Err? {
      return Err(fetched.error);
    }
    var svcMap := fetched.value;
    var out: seq<Json> := [];
    for i := 0 to |hits|
      invariant SearchResults(hits[..i], svcMap) == Ok(out)
    {
      assert hits[..i + 1][..i] == hits[..i];
      var key := hits[i].0;
      var e := SearchEntry(key, svcMap);
      if e.Err? {
        SearchErr(hits, svcMap, i + 1);
        return Err(e.error);
      }
      if e.value.None? {
        continue;
      }
      out := out + [e.value.value];
    }
    assert hits[..|hits|] == hits;
    return Ok(out);
  }

  /** A hit whose entry raises makes the whole search raise. */
  lemma SearchFailsAt(hits: seq<ScoredKey>, svcMap: Dict, i: nat)
    requires i < |hits| && SearchEntry(hits[i].0, svcMap).Err?
    ensures SearchResults(hits, svcMap).Err?
  {
    var pre := hits[..i + 1];
    assert pre[..i] == hits[..i] && pre[i] == hits[i];
    assert SearchResults(pre, svcMap).Err?;
    SearchErr(hits, svcMap, i + 1);
  }

  lemma SearchErrStep(pre: seq<ScoredKey>, last: ScoredKey, svcMap: Dict)
    requires SearchResults(pre, svcMap).Err?
    ensures SearchResults(pre + [last], svcMap) == SearchResults(pre, svcMap)
  {
    assert (pre + [last])[..|pre|] == pre;
  }

  /** A failure within the first `n` hits is the failure of all of them. */
  lemma SearchErr(hits: seq<ScoredKey>, svcMap: Dict, n: nat)
    requires n <= |hits| && SearchResults(hits[..n], svcMap).Err?
    ensures SearchResults(hits, svcMap) == SearchResults(hits[..n], svcMap)
  {
    assert hits == hits[..n] + hits[n..];
    SearchErrSuffix(hits[..n], hits[n..], svcMap);
  }

  /** Hits after a failure change nothing. */
  lemma {:induction false} SearchErrSuffix(pre: seq<ScoredKey>, rest: seq<ScoredKey>, svcMap: Dict)
    requires SearchResults(pre, svcMap).Err?
    ensures SearchResults(pre + rest, svcMap) == SearchResults(pre, svcMap)
    decreases |rest|
  {
    if rest != [] {
      var init := rest[..|rest| - 1];
      SearchErrSuffix(pre, init, svcMap);
      assert pre + rest == (pre + init) + [rest[|rest| - 1]];
      SearchErrStep(pre + init, rest[|rest| - 1], svcMap);
    } else {
      assert pre + rest == pre;
    }
  }
}
