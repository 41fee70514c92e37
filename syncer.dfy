/** `sync_all`: every state and every service Home Assistant reports is
    turned into a compact snapshot, embedded and written to its vector
    index. The Home Assistant answers, the embedding model and `json.dumps`
    are inputs; the rows handed to the two indexes are outputs. */
module Syncer {
  import opened PyValues
  import opened Text
  import opened SearchInterface
  import HaClient

  type Vector = seq<real>

  /** A row handed to `add_or_update`. */
  datatype IndexRow = IndexRow(key: string, vector: Vector, snapshot: string)

  /** The dict `sync_all` returns. */
  datatype Counts = Counts(devicesIndexed: nat, actionsIndexed: nat)

  /** A (domain, service, schema) triple of the services map. */
  type ActionPair = (string, string, Json)

  function Min(a: nat, b: nat): nat {
    if a <= b then a else b
  }

  // ----------------------------------------------------------------------
  // Snapshots
  // ----------------------------------------------------------------------

  /** `entity_id.split(".", 1)[0] if "." in entity_id else None` for an id of
      any type: only a string can be split. */
  function DeviceDomain(entityId: Json): Result<Json> {
    match In(".", entityId)
    case Err(e) => Err(e)
    case Ok(false) => Ok(JNull)
    case Ok(true) => if entityId.JStr? then Ok(DomainOf(entityId.s)) else Err(AttributeError)
  }

  /** A string id has the domain written before its first `.`, or none. */
  lemma DeviceDomainOfString(id: string)
    ensures DeviceDomain(JStr(id)) == Ok(DomainOf(id))
  {
    SubstringChar(".", id);
  }

  /** `_compact_device_json` before serialisation. */
  function CompactDevice(state: Json): (r: Result<Dict>)
    ensures r.Ok? ==> Subscript(state, "entity_id").Ok?
  {
    match Subscript(state, "entity_id")
    case Err(e) => Err(e)
    case Ok(entityId) =>
      match DeviceDomain(entityId)
      case Err(e) => Err(e)
      case Ok(domain) =>
        match GetAttr(state, "attributes", JNull)
        case Err(e) => Err(e)
        case Ok(attrs) =>
          match GetAttr(Or(attrs, JDict([])), "friendly_name", JNull)
          case Err(e) => Err(e)
          case Ok(name) => Ok([("entity_id", entityId), ("name", name), ("domain", domain)])
  }

  /** A device snapshot holds only the id, the friendly name (or `None`)
      and the domain (or `None`): no state value is copied. */
  lemma DeviceSnapshot(state: Dict, id: string)
    requires Find(state, "entity_id") == Some(JStr(id))
    requires CompactDevice(JDict(state)).Ok?
    ensures var attrs := Or(Get(state, "attributes", JNull), JDict([]));
      && attrs.JDict?
      && CompactDevice(JDict(state)).value ==
         [("entity_id", JStr(id)), ("name", Get(attrs.entries, "friendly_name", JNull)), ("domain", DomainOf(id))]
  {
    DeviceDomainOfString(id);
  }

  /** `_compact_action_json` before serialisation: a falsy schema counts as
      `{}`, and `fields` must be a dict. */
  function CompactAction(domain: string, service: string, schema: Json): Result<Dict> {
    match GetAttr(Or(schema, JDict([])), "fields", JDict([]))
    case Err(e) => Err(e)
    case Ok(JDict(fields)) =>
      Ok([("action", JStr(domain + "." + service)), ("domain", JStr(domain)), ("service", JStr(service)),
          ("fields", StrList(Keys(fields)))])
    case Ok(_) => Err(AttributeError)
  }

  /** An action snapshot names `d.s`, its parts and the schema's field
      names in order; a schema without `fields` has none. */
  lemma ActionSnapshot(domain: string, service: string, schema: Dict)
    ensures Find(schema, "fields").None? ==>
      CompactAction(domain, service, JDict(schema)) == Ok([("action", JStr(domain + "." + service)),
        ("domain", JStr(domain)), ("service", JStr(service)), ("fields", JList([]))])
    ensures forall fields :: Find(schema, "fields") == Some(JDict(fields)) ==>
      CompactAction(domain, service, JDict(schema)) == Ok([("action", JStr(domain + "." + service)),
        ("domain", JStr(domain)), ("service", JStr(service)), ("fields", StrList(Keys(fields)))])
  {
  }

  /** A list comprehension over `xs` producing one text per element; the
      first element whose text raises ends it with that exception. */
  function Texts<T>(xs: seq<T>, text: T -> Result<string>): (r: Result<seq<string>>)
    ensures r.Ok? ==> |r.value| == |xs| && forall i :: 0 <= i < |xs| ==> text(xs[i]) == Ok(r.value[i])
    decreases |xs|
  {
    if xs == [] then Ok([])
    else
      match Texts(xs[..|xs| - 1], text)
      case Err(e) => Err(e)
      case Ok(texts) =>
        match text(xs[|xs| - 1])
        case Err(e) => Err(e)
        case Ok(t) => Ok(texts + [t])
  }

  /** `_compact_device_json(st)`, serialised by `dumps`. */
  function DeviceText(dumps: Dict -> string): Json -> Result<string> {
    (st: Json) => match CompactDevice(st) case Err(e) => Err(e) case Ok(obj) => Ok(dumps(obj))
  }

  /** `_compact_action_json(d, s, schema)`, serialised by `dumps`. */
  function ActionText(dumps: Dict -> string): ActionPair -> Result<string> {
    (p: ActionPair) => match CompactAction(p.0, p.1, p.2) case Err(e) => Err(e) case Ok(obj) => Ok(dumps(obj))
  }

  lemma DeviceTextOk(dumps: Dict -> string, st: Json)
    requires DeviceText(dumps)(st).Ok?
    ensures CompactDevice(st).Ok? && DeviceText(dumps)(st).value == dumps(CompactDevice(st).value)
  {
  }

  lemma ActionTextOk(dumps: Dict -> string, p: ActionPair)
    requires ActionText(dumps)(p).Ok?
    ensures CompactAction(p.0, p.1, p.2).Ok? && ActionText(dumps)(p).value == dumps(CompactAction(p.0, p.1, p.2).value)
  {
  }

  // ----------------------------------------------------------------------
  // Action pairs
  // ----------------------------------------------------------------------

  /** The pairs of one domain, in the order of its services dict. */
  function DomainPairs(domain: string, svcs: Dict): (ps: seq<ActionPair>)
    ensures |ps| == |svcs|
    ensures forall i :: 0 <= i < |svcs| ==> ps[i] == (domain, svcs[i].0, svcs[i].1)
  {
    seq(|svcs|, i requires 0 <= i < |svcs| => (domain, svcs[i].0, svcs[i].1))
  }

  /** The nested loop over `svc_map.items()` and each `svcs.items()`: a
      services value that is not a dict has no `items`. */
  function PairsOf(m: Dict): Result<seq<ActionPair>>
    decreases |m|
  {
    if m == [] then Ok([])
    else
      match PairsOf(m[..|m| - 1])
      case Err(e) => Err(e)
      case Ok(ps) =>
        match m[|m| - 1].1
        case JDict(svcs) => Ok(ps + DomainPairs(m[|m| - 1].0, svcs))
        case _ => Err(AttributeError)
  }

  /** The number of services over all domains of a services map. */
  function ServiceCount(m: Dict): nat
    decreases |m|
  {
    if m == [] then 0
    else
      var v := m[|m| - 1].1;
      ServiceCount(m[..|m| - 1]) + if v.JDict? then |v.entries| else 0
  }

  /** There is one pair per (domain, service). */
  lemma {:induction false} PairsCount(m: Dict)
    requires PairsOf(m).Ok?
    ensures |PairsOf(m).value| == ServiceCount(m)
    decreases |m|
  {
    if m != [] {
      PairsCount(m[..|m| - 1]);
    }
  }

  /** Every pair is a service of its domain in the map. */
  lemma {:induction false} PairsFromMap(m: Dict, k: nat)
    requires PairsOf(m).Ok? && k < |PairsOf(m).value|
    ensures var (d, s, schema) := PairsOf(m).value[k];
      exists i :: 0 <= i < |m| && m[i].0 == d && m[i].1.JDict? && (s, schema) in m[i].1.entries
    decreases |m|
  {
    var init := m[..|m| - 1];
    var ps := PairsOf(init).value;
    var (d, s, schema) := PairsOf(m).value[k];
    if k < |ps| {
      PairsFromMap(init, k);
      var i :| 0 <= i < |init| && init[i].0 == d && init[i].1.JDict? && (s, schema) in init[i].1.entries;
      assert m[i] == init[i];
    } else {
      var svcs := m[|m| - 1].1.entries;
      assert svcs[k - |ps|] == (s, schema);
      assert m[|m| - 1].0 == d;
    }
  }

  /** The pair-collecting loops. */
  method ActionPairs(m: Dict) returns (r: Result<seq<ActionPair>>)
    ensures r == PairsOf(m)
  {
    var pairs: seq<ActionPair> := [];
    for i := 0 to |m|
      invariant PairsOf(m[..i]) == Ok(pairs)
    {
      assert m[..i + 1][..i] == m[..i];
      var (domain, svcs) := m[i];
      if !svcs.JDict? {
        PairsErr(m, i + 1);
        return Err(AttributeError);
      }
      ghost var before := pairs;
      for j := 0 to |svcs.entries|
        invariant pairs == before + DomainPairs(domain, svcs.entries[..j])
      {
        var (service, schema) := svcs.entries[j];
        assert DomainPairs(domain, svcs.entries[..j + 1]) == DomainPairs(domain, svcs.entries[..j]) + [(domain, service, schema)];
        pairs := pairs + [(domain, service, schema)];
      }
      assert svcs.entries[..|svcs.entries|] == svcs.entries;
    }
    assert m[..|m|] == m;
    return Ok(pairs);
  }

  lemma PairsErrStep(pre: Dict, last: (string, Json))
    requires PairsOf(pre).Err?
    ensures PairsOf(pre + [last]) == PairsOf(pre)
  {
    assert (pre + [last])[..|pre|] == pre;
  }

  /** A failure within the first `n` domains is the failure of all. */
  lemma PairsErr(m: Dict, n: nat)
    requires n <= |m| && PairsOf(m[..n]).Err?
    ensures PairsOf(m) == PairsOf(m[..n])
  {
    assert m == m[..n] + m[n..];
    PairsErrSuffix(m[..n], m[n..]);
  }

  /** Domains after a failure change nothing. */
  lemma {:induction false} PairsErrSuffix(pre: Dict, rest: Dict)
    requires PairsOf(pre).Err?
    ensures PairsOf(pre + rest) == PairsOf(pre)
    decreases |rest|
  {
    if rest != [] {
      var init := rest[..|rest| - 1];
      PairsErrSuffix(pre, init);
      assert pre + rest == (pre + init) + [rest[|rest| - 1]];
      PairsErrStep(pre + init, rest[|rest| - 1]);
    } else {
      assert pre + rest == pre;
    }
  }

  // ----------------------------------------------------------------------
  // Rows
  // ----------------------------------------------------------------------

  /** `f"entity:{st['entity_id']}"` */
  function DeviceKey(state: Json): string
    requires Subscript(state, "entity_id").Ok?
  {
    "entity:" + Str(Subscript(state, "entity_id").value)
  }

  /** `f"service:{domain}.{service}"` */
  function ActionKey(p: ActionPair): string {
    "service:" + p.0 + "." + p.1
  }

  /** The rows built over `zip(keys, texts, vecs)`: as many as the shortest
      of the three. */
  method ZipRows(keys: seq<string>, texts: seq<string>, vecs: seq<Vector>) returns (rows: seq<IndexRow>)
    ensures |rows| == Min(|keys|, Min(|texts|, |vecs|))
    ensures |rows| <= |keys| && |rows| <= |texts| && |rows| <= |vecs|
    ensures forall i :: 0 <= i < |rows| ==> rows[i] == IndexRow(keys[i], vecs[i], texts[i])
  {
    var n := Min(|keys|, Min(|texts|, |vecs|));
    rows := [];
    for i := 0 to n
      invariant |rows| == i
      invariant forall j :: 0 <= j < i ==> rows[j] == IndexRow(keys[j], vecs[j], texts[j])
    {
      rows := Snoc(rows, IndexRow(keys[i], vecs[i], texts[i]));
    }
  }

  /** The device keys of the fetched states. */
  function DeviceKeys(states: seq<Json>): (ks: seq<string>)
    requires forall i :: 0 <= i < |states| ==> Subscript(states[i], "entity_id").Ok?
    ensures |ks| == |states| && forall i :: 0 <= i < |states| ==> ks[i] == DeviceKey(states[i])
  {
    seq(|states|, i requires 0 <= i < |states| => DeviceKey(states[i]))
  }

  /** The action keys of the action pairs. */
  function ActionKeys(pairs: seq<ActionPair>): (ks: seq<string>)
    ensures |ks| == |pairs| && forall i :: 0 <= i < |pairs| ==> ks[i] == ActionKey(pairs[i])
  {
    seq(|pairs|, i requires 0 <= i < |pairs| => ActionKey(pairs[i]))
  }

  /** A device key names the entity; an action key is `service:` and the
      action, which splits back into domain and service when the domain
      has no `.`. */
  lemma KeysRoundTrip(id: string, p: ActionPair)
    requires '.' !in p.0
    ensures SplitFirst("entity:" + id, ':') == Some(("entity", id))
    ensures ParseAction(ActionKey(p)) == (Some(p.0 + "." + p.1), Some(p.0), Some(p.1))
  {
    assert "entity:" + id == "entity" + ":" + id;
    SplitKind("entity", id);
    assert ActionKey(p) == "service:" + p.0 + "." + p.1;
    ServiceAction(p.0, p.1);
  }

  // ----------------------------------------------------------------------
  // sync_all
  // ----------------------------------------------------------------------

  /** `sync_all`: `env` is the environment `HAClient()` reads (a missing
      or empty `HA_TOKEN` raises before anything is fetched), `states` is
      what `ha.states()` answers, or the error its GET raises, `fetched` what
      `ha.services_map()` answers, `embed` the embedding model. The rows
      are what `add_devices` and `add_actions` receive (`None` when the
      call is not reached). Every state and every service is embedded;
      nothing is skipped. */
  method SyncAll(env: map<string, string>, states: Result<seq<Json>>, fetched: Result<Dict>, embed: seq<string> -> seq<Vector>, dumps: Dict -> string)
    returns (r: Result<Counts>, deviceRows: Option<seq<IndexRow>>, actionRows: Option<seq<IndexRow>>)
    ensures !HaClient.HasToken(env) ==>
      r == Err(RuntimeError) && deviceRows.None? && actionRows.None?
    ensures HaClient.HasToken(env) && states.Err? ==>
      r == Err(states.error) && deviceRows.None? && actionRows.None?
    ensures HaClient.HasToken(env) && states.Ok? ==> (
      Texts(states.value, DeviceText(dumps)).Err? ==>
        r == Err(Texts(states.value, DeviceText(dumps)).error) && deviceRows.None? && actionRows.None?)
    ensures HaClient.HasToken(env) && states.Ok? ==> (
      Texts(states.value, DeviceText(dumps)).Ok? ==>
        var texts := Texts(states.value, DeviceText(dumps)).value;
        var vecs := embed(texts);
        && deviceRows.Some?
        && |deviceRows.value| == Min(|states.value|, |vecs|)
        && forall i :: 0 <= i < |deviceRows.value| ==>
             && CompactDevice(states.value[i]).Ok?
             && deviceRows.value[i] == IndexRow(DeviceKey(states.value[i]), vecs[i], dumps(CompactDevice(states.value[i]).value)))
    ensures HaClient.HasToken(env) && states.Ok? ==> (
      fetched.Err? ==> r.Err? && actionRows.None?)
    ensures HaClient.HasToken(env) && states.Ok? ==> (
      fetched.Ok? && PairsOf(fetched.value).Err? ==> r.Err? && actionRows.None?)
    ensures HaClient.HasToken(env) && states.Ok? ==> (
      fetched.Ok? && PairsOf(fetched.value).Ok? && Texts(PairsOf(fetched.value).value, ActionText(dumps)).Err? ==>
        r.Err? && actionRows.None?)
    ensures HaClient.HasToken(env) && states.Ok? ==> (
      actionRows.Some? ==>
        && fetched.Ok? && PairsOf(fetched.value).Ok? && Texts(PairsOf(fetched.value).value, ActionText(dumps)).Ok?
        && var pairs := PairsOf(fetched.value).value;
           var texts := Texts(pairs, ActionText(dumps)).value;
           var vecs := embed(texts);
           && |actionRows.value| == Min(|pairs|, |vecs|)
           && forall i :: 0 <= i < |actionRows.value| ==>
                && CompactAction(pairs[i].0, pairs[i].1, pairs[i].2).Ok?
                && actionRows.value[i] == IndexRow(ActionKey(pairs[i]), vecs[i], dumps(CompactAction(pairs[i].0, pairs[i].1, pairs[i].2).value)))
    ensures HaClient.HasToken(env) && states.Ok? ==> (
      r.Ok? ==>
        && deviceRows.Some? && actionRows.Some?
        && r.value == Counts(|deviceRows.value|, |actionRows.value|))
    ensures HaClient.HasToken(env) && states.Ok? ==> (
      r.Ok? && (forall ts :: |embed(ts)| == |ts|) ==>
        r.value == Counts(|states.value|, ServiceCount(fetched.value)))
  {
    deviceRows, actionRows := None, None;
    var ha := HaClient.Connect(env);
    if ha.Err? {
      return Err(ha.error), None, None;
    }
    if states.Err? {
      return Err(states.error), None, None;
    }
    var sts := states.value;
    var texts := TextsLoop(sts, DeviceText(dumps));
    if texts.Err? {
      return Err(texts.error), None, None;
    }
    forall i | 0 <= i < |sts| ensures CompactDevice(sts[i]).Ok? && texts.value[i] == dumps(CompactDevice(sts[i]).value) {
      DeviceTextOk(dumps, sts[i]);
    }
    var vecs := embed(texts.value);
    var devRows := ZipRows(DeviceKeys(sts), texts.value, vecs);
    deviceRows := Some(devRows);
    if fetched.Err? {
      return Err(fetched.error), deviceRows, None;
    }
    var pairs := ActionPairs(fetched.value);
    if pairs.Err? {
      return Err(pairs.error), deviceRows, None;
    }
    var actionTexts := TextsLoop(pairs.value, ActionText(dumps));
    if actionTexts.Err? {
      return Err(actionTexts.error), deviceRows, None;
    }
    forall i | 0 <= i < |pairs.value|
      ensures CompactAction(pairs.value[i].0, pairs.value[i].1, pairs.value[i].2).Ok?
      ensures actionTexts.value[i] == dumps(CompactAction(pairs.value[i].0, pairs.value[i].1, pairs.value[i].2).value)
    {
      ActionTextOk(dumps, pairs.value[i]);
    }
    var actionVecs := embed(actionTexts.value);
    var actRows := ZipRows(ActionKeys(pairs.value), actionTexts.value, actionVecs);
    actionRows := Some(actRows);
    PairsCount(fetched.value);
    r := Ok(Counts(|devRows|, |actRows|));
  }

  /** The comprehension as a loop. */
  method TextsLoop<T>(xs: seq<T>, text: T -> Result<string>) returns (r: Result<seq<string>>)
    ensures r == Texts(xs, text)
  {
    var texts: seq<string> := [];
    for i := 0 to |xs|
      invariant Texts(xs[..i], text) == Ok(texts)
    {
      assert xs[..i + 1][..i] == xs[..i];
      var t := text(xs[i]);
      if t.Err? {
        TextsErr(xs, text, i + 1);
        return Err(t.error);
      }
      texts := texts + [t.value];
    }
    assert xs[..|xs|] == xs;
    return Ok(texts);
  }

  /** A failure within the first `n` elements is the failure of all. */
  lemma {:induction false} TextsErr<T>(xs: seq<T>, text: T -> Result<string>, n: nat)
    requires n <= |xs| && Texts(xs[..n], text).Err?
    ensures Texts(xs, text) == Texts(xs[..n], text)
    decreases |xs| - n
  {
    if n < |xs| {
      var k := |xs| - 1;
      if n < k {
        assert xs[..k][..n] == xs[..n];
        TextsErr(xs[..k], text, n);
      } else {
        assert xs[..k] == xs[..n];
      }
    } else {
      assert xs[..n] == xs;
    }
  }
}
