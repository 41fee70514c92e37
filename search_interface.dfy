/** Turning vector-search hits into the device and action entries handed to
    the decision model, with a services map cached for 30 seconds. The
    Home Assistant answers (states, services map) and the clock are
    inputs. */
module SearchInterface {
  import opened PyValues
  import opened Text

  /** A hit of a vector query: the stored key and its score. Scores never
      reach the output. */
  type ScoredKey = (string, real)

  /** `_SVC_TTL`, in seconds. */
  const Ttl: real := 30.0

  // ----------------------------------------------------------------------
  // _services_map
  // ----------------------------------------------------------------------

  /** What `_services_map` hands back: the cache while it is fresh, else
      what `ha.services_map()` answered. */
  function Served(live: bool, cached: Dict, fetched: Result<Dict>): (r: Result<Dict>)
    ensures live ==> r == Ok(cached)
    ensures !live ==> r == fetched
  {
    if live then Ok(cached) else fetched
  }

  /** The module-level `_SVC_CACHE` / `_SVC_CACHE_AT` pair. */
  class ServicesCache {
    var entries: Dict
    var at: real
    /** How many times `ha.services_map()` has been called. */
    var fetches: nat

    constructor()
      ensures entries == [] && at == 0.0 && fetches == 0
    {
      entries := [];
      at := 0.0;
      fetches := 0;
    }

    /** The cache is used when it is non-empty and younger than the TTL. */
    predicate Fresh(now: real)
      reads this
    {
      entries != [] && now - at < Ttl
    }

    /** `_services_map` at time `now`; `fetched` is what `ha.services_map()`
        answers if it is called. A failed fetch raises before the cache is
        cleared; an empty map is stored but is never fresh, so the next
        call fetches again. */
    method Lookup(now: real, fetched: Result<Dict>) returns (r: Result<Dict>)
      modifies this
      ensures r == Served(old(Fresh(now)), old(entries), fetched)
      ensures old(Fresh(now)) ==> entries == old(entries) && at == old(at) && fetches == old(fetches)
      ensures !old(Fresh(now)) ==> Refreshed(this, old(entries), old(at), old(fetches), now, fetched)
    {
      if entries != [] && now - at < Ttl {
        return Ok(entries);
      }
      fetches := fetches + 1;
      if fetched.Err? {
        return Err(fetched.error);
      }
      // clear() then update(m or {}): the map's own entries, in its order
      entries := fetched.value;
      at := now;
      return Ok(entries);
    }
  }

  /** The cache after a stale lookup: one more fetch, and the fetched map
      stored with the time of the call unless the fetch failed. */
  predicate Refreshed(cache: ServicesCache, entries0: Dict, at0: real, fetches0: nat, now: real, fetched: Result<Dict>)
    reads cache
  {
    && cache.fetches == fetches0 + 1
    && (fetched.Err? ==> cache.entries == entries0 && cache.at == at0)
    && (fetched.Ok? ==> cache.entries == fetched.value && cache.at == now)
  }

  /** Within the TTL of a successful non-empty fetch, a second lookup
      reuses it and does not fetch again. */
  method LookupTwice(cache: ServicesCache, t0: real, t1: real, first: Result<Dict>, second: Result<Dict>)
    returns (r0: Result<Dict>, r1: Result<Dict>)
    requires !cache.Fresh(t0) && first.Ok? && first.value != []
    requires t0 <= t1 < t0 + Ttl
    modifies cache
    ensures r0 == first && r1 == first
    ensures cache.fetches == old(cache.fetches) + 1
  {
    r0 := cache.Lookup(t0, first);
    r1 := cache.Lookup(t1, second);
  }

  // ----------------------------------------------------------------------
  // Entries, one per hit
  // ----------------------------------------------------------------------

  /** The entries for `hits` in hit order: the first entry that raises
      ends the loop with its exception. */
  function Entries(hits: seq<ScoredKey>, entry: string -> Result<Json>): (r: Result<seq<Json>>)
    ensures r.Ok? ==> |r.value| == |hits| && forall i :: 0 <= i < |hits| ==> entry(hits[i].0) == Ok(r.value[i])
    decreases |hits|
  {
    if hits == [] then Ok([])
    else
      match Entries(hits[..|hits| - 1], entry)
      case Err(e) => Err(e)
      case Ok(out) =>
        match entry(hits[|hits| - 1].0)
        case Err(e) => Err(e)
        case Ok(x) => Ok(out + [x])
  }

  /** A failure is the failure of the first hit whose entry raises. */
  lemma {:induction false} EntriesFail(hits: seq<ScoredKey>, entry: string -> Result<Json>) returns (i: nat)
    requires Entries(hits, entry).Err?
    ensures i < |hits| && entry(hits[i].0) == Err(Entries(hits, entry).error)
    ensures forall j :: 0 <= j < i ==> entry(hits[j].0).Ok?
    decreases |hits|
  {
    var init := hits[..|hits| - 1];
    if Entries(init, entry).Err? {
      i := EntriesFail(init, entry);
      assert init[i] == hits[i];
      forall j | 0 <= j < i ensures entry(hits[j].0).Ok? {
        assert init[j] == hits[j];
      }
    } else {
      i := |hits| - 1;
      forall j | 0 <= j < i ensures entry(hits[j].0).Ok? {
        assert init[j] == hits[j];
      }
    }
  }

  /** The loop over the hits, appending one entry per hit. */
  method Resolve(hits: seq<ScoredKey>, entry: string -> Result<Json>) returns (r: Result<seq<Json>>)
    ensures r == Entries(hits, entry)
  {
    var out: seq<Json> := [];
    for i := 0 to |hits|
      invariant Entries(hits[..i], entry) == Ok(out)
    {
      assert hits[..i + 1][..i] == hits[..i];
      var x := entry(hits[i].0);
      if x.Err? {
        EntriesErr(hits, entry, i + 1);
        return Err(x.error);
      }
      out := out + [x.value];
    }
    assert hits[..|hits|] == hits;
    return Ok(out);
  }

  /** A failure within the first `n` hits is the failure of all of them. */
  lemma EntriesErr(hits: seq<ScoredKey>, entry: string -> Result<Json>, n: nat)
    requires n <= |hits| && Entries(hits[..n], entry).Err?
    ensures Entries(hits, entry) == Entries(hits[..n], entry)
  {
    assert hits == hits[..n] + hits[n..];
    EntriesErrSuffix(hits[..n], hits[n..], entry);
  }

  /** Hits after a failure change nothing. */
  lemma {:induction false} EntriesErrSuffix(pre: seq<ScoredKey>, rest: seq<ScoredKey>, entry: string -> Result<Json>)
    requires Entries(pre, entry).Err?
    ensures Entries(pre + rest, entry) == Entries(pre, entry)
    decreases |rest|
  {
    if rest != [] {
      var init := rest[..|rest| - 1];
      EntriesErrSuffix(pre, init, entry);
      assert pre + rest == (pre + init) + [rest[|rest| - 1]];
      EntriesErrStep(pre + init, rest[|rest| - 1], entry);
    } else {
      assert pre + rest == pre;
    }
  }

  lemma EntriesErrStep(pre: seq<ScoredKey>, last: ScoredKey, entry: string -> Result<Json>)
    requires Entries(pre, entry).Err?
    ensures Entries(pre + [last], entry) == Entries(pre, entry)
  {
    assert (pre + [last])[..|pre|] == pre;
  }

  // ----------------------------------------------------------------------
  // _resolve_devices
  // ----------------------------------------------------------------------

  /** The states keyed by their `entity_id`, as seen by a lookup with a
      string id: a later state with the same id wins, a state that is not a
      dict or has no id raises, and an unhashable id raises TypeError. A
      non-string hashable id is stored under a key no string lookup finds,
      so it is left out. */
  function StateMap(states: seq<Json>): Result<Dict>
    decreases |states|
  {
    if states == [] then Ok([])
    else
      match StateMap(states[..|states| - 1])
      case Err(e) => Err(e)
      case Ok(m) => AddState(m, states[|states| - 1])
  }

  /** The state's `entity_id` is the string `k`. */
  predicate HasId(st: Json, k: string) {
    Subscript(st, "entity_id") == Ok(JStr(k))
  }

  /** One more state: the map of the shorter list with that state added. */
  lemma StateMapSnoc(states: seq<Json>)
    requires states != []
    ensures StateMap(states).Ok? ==>
              && StateMap(states[..|states| - 1]).Ok?
              && AddState(StateMap(states[..|states| - 1]).value, states[|states| - 1]) == StateMap(states)
  {
  }

  /** Adding a state finds its string id, and every other id as before. */
  lemma AddStateFind(m: Dict, st: Json, k: string)
    requires AddState(m, st).Ok?
    ensures Find(AddState(m, st).value, k) == if HasId(st, k) then Some(st) else Find(m, k)
  {
    if Subscript(st, "entity_id").Ok? && Subscript(st, "entity_id").value.JStr? {
      FindSet(m, Subscript(st, "entity_id").value.s, st, k);
    }
  }

  /** A state with a string id puts that id in the state map. */
  lemma {:induction false} StateMapHasKey(states: seq<Json>, i: nat, k: string)
    requires StateMap(states).Ok?
    requires i < |states| && HasId(states[i], k)
    ensures Find(StateMap(states).value, k).Some?
    decreases |states|
  {
    var n := |states| - 1;
    var init := states[..n];
    StateMapSnoc(states);
    var m := StateMap(init).value;
    if HasId(states[n], k) {
      AddStateKeeps(m, states[n], k);
    } else {
      OtherIndex(states, i, n, k);
      assert init[i] == states[i];
      StateMapHasKey(init, i, k);
      AddStateKeeps(m, states[n], k);
    }
  }

  /** A state with the id is not one without it. */
  lemma OtherIndex(states: seq<Json>, i: nat, n: nat, k: string)
    requires i < |states| && n < |states|
    requires HasId(states[i], k) && !HasId(states[n], k)
    ensures i != n
  {
  }

  /** Adding a state keeps the ids already there and adds its own. */
  lemma AddStateKeeps(m: Dict, st: Json, k: string)
    requires AddState(m, st).Ok?
    requires Find(m, k).Some? || HasId(st, k)
    ensures Find(AddState(m, st).value, k).Some?
  {
    AddStateFind(m, st, k);
  }

  /** An id in the state map comes from some state that has it. */
  lemma {:induction false} StateMapKeyFrom(states: seq<Json>, k: string) returns (i: nat)
    requires StateMap(states).Ok?
    requires HasKey(StateMap(states).value, k)
    ensures i < |states| && HasId(states[i], k)
    decreases |states|
  {
    if states == [] {
      assert false;
    }
    var n := |states| - 1;
    var init := states[..n];
    StateMapSnoc(states);
    AddStateFind(StateMap(init).value, states[n], k);
    if HasId(states[n], k) {
      i := n;
    } else {
      i := StateMapKeyFrom(init, k);
      assert init[i] == states[i];
    }
  }

  /** A string id is in the state map exactly when some state has it. */
  lemma StateMapKeys(states: seq<Json>, k: string)
    requires StateMap(states).Ok?
    ensures HasKey(StateMap(states).value, k) <==> exists i :: 0 <= i < |states| && HasId(states[i], k)
  {
    if HasKey(StateMap(states).value, k) {
      var i := StateMapKeyFrom(states, k);
    }
    forall i | 0 <= i < |states| && HasId(states[i], k)
      ensures HasKey(StateMap(states).value, k)
    {
      StateMapHasKey(states, i, k);
    }
  }

  /** The state stored under an id is the last state with that id. */
  lemma {:induction false} StateMapLast(states: seq<Json>, i: nat, k: string)
    requires StateMap(states).Ok?
    requires i < |states| && HasId(states[i], k)
    requires forall j :: i < j < |states| ==> !HasId(states[j], k)
    ensures Find(StateMap(states).value, k) == Some(states[i])
    decreases |states|
  {
    var n := |states| - 1;
    var init := states[..n];
    StateMapSnoc(states);
    AddStateFind(StateMap(init).value, states[n], k);
    if i < n {
      assert !HasId(states[n], k);
      forall j | i < j < n ensures !HasId(init[j], k) {
        assert init[j] == states[j];
      }
      assert init[i] == states[i];
      StateMapLast(init, i, k);
    }
  }

  /** One state entered into the map. */
  function AddState(m: Dict, st: Json): Result<Dict> {
    match Subscript(st, "entity_id")
    case Err(e) => Err(e)
    case Ok(JStr(id)) => Ok(Set(m, id, st))
    case Ok(JList(_)) => Err(TypeError)
    case Ok(JDict(_)) => Err(TypeError)
    case Ok(_) => Ok(m)
  }

  /** The domain of an entity id: the text before its first `.`, or `None`
      when it has none. */
  function DomainOf(entityId: string): (d: Json)
    ensures d == JNull <==> '.' !in entityId
    ensures d != JNull ==> d.JStr? && '.' !in d.s && IsPrefix(d.s + ".", entityId)
  {
    match SplitFirst(entityId, '.')
    case None => JNull
    case Some((dom, rest)) =>
      assert entityId[..|dom + "."|] == dom + ".";
      JStr(dom)
  }

  /** The service names of a domain, `[]` when it is absent. */
  function ServiceNames(svcMap: Dict, domain: string): Result<Json> {
    match Or(Get(svcMap, domain, JNull), JDict([]))
    case JDict(svcs) => Ok(StrList(Keys(svcs)))
    case _ => Err(AttributeError)
  }

  /** A domain's service names are the keys of its services dict, in
      order; a domain missing from the map has none, and a services value
      that is neither falsy nor a dict raises. */
  lemma ServiceNamesOf(svcMap: Dict, domain: string)
    ensures Find(svcMap, domain).None? ==> ServiceNames(svcMap, domain) == Ok(JList([]))
    ensures forall svcs :: Find(svcMap, domain) == Some(JDict(svcs)) ==>
      ServiceNames(svcMap, domain) == Ok(StrList(Keys(svcs)))
    ensures ServiceNames(svcMap, domain).Err? <==>
      var v := Get(svcMap, domain, JNull); Truthy(v) && !v.JDict?
  {
  }

  /** The dict built for one device hit. */
  function DeviceJson(key: string, entityId: Json, name: Json, domain: Json, services: Json): Json {
    JDict([("key", JStr(key)), ("entity_id", entityId), ("name", name), ("domain", domain),
           ("area", JNull), ("services", services)])
  }

  /** The entry for a key that is not `entity:` or `domain:`. */
  function Placeholder(key: string): Json {
    DeviceJson(key, JNull, JStr(key), JNull, JList([]))
  }

  /** The `friendly_name` among the attributes of the state with that
      id. */
  function FriendlyName(stateMap: Dict, id: string): Result<Json> {
    var st := Or(Get(stateMap, id, JNull), JDict([]));
    match GetAttr(st, "attributes", JNull)
    case Err(e) => Err(e)
    case Ok(attrs) => GetAttr(Or(attrs, JDict([])), "friendly_name", JNull)
  }

  /** The services listed for an entity's domain: none when the domain is
      `None` or empty. */
  function EntityServices(domain: Json, svcMap: Dict): Result<Json> {
    if Truthy(domain) && domain.JStr? then ServiceNames(svcMap, domain.s) else Ok(JList([]))
  }

  /** The entry for `entity:<id>`. */
  function EntityEntry(key: string, id: string, stateMap: Dict, svcMap: Dict): Result<Json> {
    match FriendlyName(stateMap, id)
    case Err(e) => Err(e)
    case Ok(friendly) =>
      match EntityServices(DomainOf(id), svcMap)
      case Err(e) => Err(e)
      case Ok(names) => Ok(DeviceJson(key, JStr(id), Or(friendly, JStr(id)), DomainOf(id), names))
  }

  /** The entry for `domain:<d>`. */
  function DomainEntry(key: string, domain: string, svcMap: Dict): Result<Json> {
    match ServiceNames(svcMap, domain)
    case Err(e) => Err(e)
    case Ok(names) => Ok(DeviceJson(key, JNull, JStr(domain), JStr(domain), names))
  }

  /** The entry for a key of kind `kind` and id `ident`. */
  function KindEntry(key: string, kind: string, ident: string, stateMap: Dict, svcMap: Dict): Result<Json> {
    if kind == "entity" then EntityEntry(key, ident, stateMap, svcMap)
    else if kind == "domain" then DomainEntry(key, ident, svcMap)
    else Ok(Placeholder(key))
  }

  /** The body of the `_resolve_devices` loop for one key. */
  function DeviceEntry(key: string, stateMap: Dict, svcMap: Dict): Result<Json> {
    match SplitFirst(key, ':')
    case None => Ok(Placeholder(key))
    case Some((kind, ident)) => KindEntry(key, kind, ident, stateMap, svcMap)
  }

  /** `_resolve_devices` once the states are fetched and the services map
      served: the state map is built before the services map is asked for. */
  function ResolvedDevices(states: seq<Json>, svcMap: Result<Dict>, hits: seq<ScoredKey>): (r: Result<seq<Json>>)
    ensures StateMap(states).Err? ==> r == Err(StateMap(states).error)
    ensures StateMap(states).Ok? && svcMap.Err? ==> r == Err(svcMap.error)
    ensures r.Ok? ==>
      && svcMap.Ok? && StateMap(states).Ok? && |r.value| == |hits|
      && forall i :: 0 <= i < |hits| ==> DeviceEntry(hits[i].0, StateMap(states).value, svcMap.value) == Ok(r.value[i])
  {
    match StateMap(states)
    case Err(e) => Err(e)
    case Ok(sm) =>
      match svcMap
      case Err(e) => Err(e)
      case Ok(m) => Entries(hits, DeviceEntries(sm, m))
  }

  /** The loop body of `_resolve_devices` as a function of the key. */
  function DeviceEntries(stateMap: Dict, svcMap: Dict): string -> Result<Json> {
    (k: string) => DeviceEntry(k, stateMap, svcMap)
  }

  /** A key split at its first `:` gives the kind written before it. */
  lemma SplitKind(kind: string, ident: string)
    requires ':' !in kind
    ensures SplitFirst(kind + ":" + ident, ':') == Some((kind, ident))
  {
    SplitFirstJoin(kind, ident, ':');
  }

  lemma PrefixOfJoin(p: string, rest: string)
    ensures IsPrefix(p, p + rest)
  {
    assert (p + rest)[..|p|] == p;
  }

  /** A key without `:`, or of a kind other than `entity` and `domain`, gets
      the placeholder: its own key as name, no id, domain or area, and no
      services. */
  lemma PlaceholderEntry(key: string, stateMap: Dict, svcMap: Dict)
    requires !IsPrefix("entity:", key) && !IsPrefix("domain:", key)
    ensures DeviceEntry(key, stateMap, svcMap) == Ok(DeviceJson(key, JNull, JStr(key), JNull, JList([])))
  {
    if ':' in key {
      var (kind, ident) := SplitFirst(key, ':').value;
      assert key == kind + ":" + ident;
      PrefixOfJoin(kind + ":", ident);
      assert kind != "entity" && kind != "domain";
      assert DeviceEntry(key, stateMap, svcMap) == KindEntry(key, kind, ident, stateMap, svcMap);
    }
  }

  /** Entity keys go to the entity branch. */
  lemma EntityDispatch(id: string, stateMap: Dict, svcMap: Dict)
    ensures DeviceEntry("entity:" + id, stateMap, svcMap) == EntityEntry("entity:" + id, id, stateMap, svcMap)
  {
    assert "entity:" + id == "entity" + ":" + id;
    SplitKind("entity", id);
  }

  /** `entity:<id>`: the id itself, its domain (the text before the first
      `.`, else `None`), the friendly name when it is truthy and the id
      otherwise, and the domain's service names when the domain is
      non-empty. */
  lemma EntityHit(key: string, id: string, stateMap: Dict, svcMap: Dict)
    requires EntityEntry(key, id, stateMap, svcMap).Ok?
    ensures var f := FriendlyName(stateMap, id);
      var d := DomainOf(id);
      && f.Ok?
      && (Truthy(d) ==> ServiceNames(svcMap, d.s).Ok?)
      && EntityEntry(key, id, stateMap, svcMap).value ==
         DeviceJson(key, JStr(id), if Truthy(f.value) then f.value else JStr(id), d,
                    if Truthy(d) then ServiceNames(svcMap, d.s).value else JList([]))
  {
  }

  /** Domain keys go to the domain branch. */
  lemma DomainDispatch(d: string, stateMap: Dict, svcMap: Dict)
    ensures DeviceEntry("domain:" + d, stateMap, svcMap) == DomainEntry("domain:" + d, d, svcMap)
  {
    assert "domain:" + d == "domain" + ":" + d;
    SplitKind("domain", d);
  }

  /** `domain:<d>`: named after the domain, with its service names. */
  lemma DomainHit(d: string, stateMap: Dict, svcMap: Dict)
    ensures var e := DeviceEntry("domain:" + d, stateMap, svcMap);
      && (e.Ok? <==> ServiceNames(svcMap, d).Ok?)
      && (e.Ok? ==> e.value == DeviceJson("domain:" + d, JNull, JStr(d), JStr(d), ServiceNames(svcMap, d).value))
  {
    DomainDispatch(d, stateMap, svcMap);
  }

  /** `_resolve_devices`: `states` is what `ha.states()` answers, or the
      error its GET raises, and `fetched` what `ha.services_map()` answers
      if the cache is stale. There is exactly one entry per hit, in hit
      order. */
  method ResolveDevices(cache: ServicesCache, states: Result<seq<Json>>, hits: seq<ScoredKey>, now: real, fetched: Result<Dict>)
    returns (r: Result<seq<Json>>)
    modifies cache
    ensures states.Err? ==> r == Err(states.error)
    ensures states.Ok? ==> r == ResolvedDevices(states.value, Served(old(cache.Fresh(now)), old(cache.entries), fetched), hits)
    ensures r.Ok? ==> |r.value| == |hits|
    ensures states.Err? || StateMap(states.value).Err? || old(cache.Fresh(now)) ==>
      cache.entries == old(cache.entries) && cache.at == old(cache.at) && cache.fetches == old(cache.fetches)
    ensures states.Ok? && StateMap(states.value).Ok? && !old(cache.Fresh(now)) ==>
      Refreshed(cache, old(cache.entries), old(cache.at), old(cache.fetches), now, fetched)
  {
    if states.Err? {
      return Err(states.error);
    }
    var sm := StateMapLoop(states.value);
    if sm.Err? {
      return Err(sm.error);
    }
    var svc := cache.Lookup(now, fetched);
    if svc.Err? {
      return Err(svc.error);
    }
    var m := svc.value;
    r := Resolve(hits, DeviceEntries(sm.value, m));
  }

  /** The comprehension building the state map. */
  method StateMapLoop(states: seq<Json>) returns (r: Result<Dict>)
    ensures r == StateMap(states)
  {
    var m: Dict := [];
    for i := 0 to |states|
      invariant StateMap(states[..i]) == Ok(m)
    {
      assert states[..i + 1][..i] == states[..i];
      var st := states[i];
      var id := Subscript(st, "entity_id");
      if id.Err? {
        StateMapErr(states, i + 1);
        return Err(id.error);
      }
      if id.value.JList? || id.value.JDict? {
        StateMapErr(states, i + 1);
        return Err(TypeError);
      }
      if id.value.JStr? {
        m := Set(m, id.value.s, st);
      }
    }
    assert states[..|states|] == states;
    return Ok(m);
  }

  /** A failure of the states before the last is the failure of all. */
  lemma StateMapErrStep(pre: seq<Json>, last: Json)
    requires StateMap(pre).Err?
    ensures StateMap(pre + [last]) == StateMap(pre)
  {
    assert (pre + [last])[..|pre|] == pre;
  }

  /** A failure within the first `n` states is the failure of all. */
  lemma StateMapErr(states: seq<Json>, n: nat)
    requires n <= |states| && StateMap(states[..n]).Err?
    ensures StateMap(states) == StateMap(states[..n])
  {
    assert states == states[..n] + states[n..];
    StateMapErrSuffix(states[..n], states[n..]);
  }

  /** States after a failure change nothing. */
  lemma {:induction false} StateMapErrSuffix(pre: seq<Json>, rest: seq<Json>)
    requires StateMap(pre).Err?
    ensures StateMap(pre + rest) == StateMap(pre)
    decreases |rest|
  {
    if rest != [] {
      var init := rest[..|rest| - 1];
      StateMapErrSuffix(pre, init);
      assert pre + rest == (pre + init) + [rest[|rest| - 1]];
      StateMapErrStep(pre + init, rest[|rest| - 1]);
    } else {
      assert pre + rest == pre;
    }
  }

  // ----------------------------------------------------------------------
  // _resolve_actions
  // ----------------------------------------------------------------------

  /** A Python string-or-`None` variable. */
  function OptStr(o: Option<string>): Json {
    if o.None? then JNull else JStr(o.value)
  }

  predicate TruthyStr(o: Option<string>) {
    o.Some? && o.value != ""
  }

  /** `key.split(":", 1)[-1]`: the text after the first `:`, or the whole
      key. */
  function AfterColon(key: string): (r: string)
    ensures ':' !in key ==> r == key
    ensures ':' in key ==> exists kind :: ':' !in kind && key == kind + ":" + r
  {
    match SplitFirst(key, ':')
    case None => key
    case Some((kind, ident)) =>
      assert key == kind + ":" + ident;
      ident
  }

  /** A `service:<d>.<s>` key: its kind is `service` and its id has a `.`. */
  predicate ServiceKey(key: string) {
    IsPrefix("service:", key) && '.' in key[8..]
  }

  /** The `action`, `domain` and `service` variables of the loop body. */
  type Parsed = (Option<string>, Option<string>, Option<string>)

  /** data/search_interface.py:88-97: a `service` kind whose id has a `.` sets all three. */
  function ServiceParts(kind: string, ident: string): Parsed {
    if kind == "service" && '.' in ident then
      var (d, s) := SplitFirst(ident, '.').value;
      (Some(ident), Some(d), Some(s))
    else (None, None, None)
  }

  function FromServiceKey(key: string): Parsed {
    match SplitFirst(key, ':')
    case Some((kind, ident)) => ServiceParts(kind, ident)
    case None => (None, None, None)
  }

  /** data/search_interface.py:99-101: without an action, a key with a `.` falls back to the
      text after its first `:`. */
  function WithFallback(key: string, p: Parsed): Parsed {
    if !TruthyStr(p.0) && '.' in key then (Some(AfterColon(key)), p.1, p.2) else p
  }

  /** data/search_interface.py:107-109: a missing domain or service is taken from the action
      split at its first `.`. */
  function WithSplit(p: Parsed): (q: Parsed)
    requires TruthyStr(p.0)
    ensures q.0 == p.0
  {
    if (!TruthyStr(p.1) || !TruthyStr(p.2)) && '.' in p.0.value then
      var (d, s) := SplitFirst(p.0.value, '.').value;
      (p.0, Some(d), Some(s))
    else p
  }

  /** The variables once the entry is about to be built: domain and
      service are set together, and then they are the action split at its
      first `.`. */
  function ParseAction(key: string): (r: Parsed)
    ensures r.1.Some? <==> r.2.Some?
    ensures r.1.Some? ==> r.0.Some? && r.0.value == r.1.value + "." + r.2.value && '.' !in r.1.value
  {
    var p := WithFallback(key, FromServiceKey(key));
    if TruthyStr(p.0) then WithSplit(p) else p
  }

  /** The entry of a key without an action. */
  function NoActionJson(key: string): Json {
    JDict([("key", JStr(key)), ("action", JNull), ("domain", JNull), ("service", JNull)])
  }

  /** The schema of the service in its domain when both names are
      truthy, else `None`. */
  function Schema(domain: Option<string>, service: Option<string>, svcMap: Dict): Result<Json> {
    if TruthyStr(domain) && TruthyStr(service) then
      GetAttr(Or(Get(svcMap, domain.value, JNull), JDict([])), service.value, JNull)
    else Ok(JNull)
  }

  /** The entry for the parsed variables `p`. */
  function ActionJson(key: string, p: Parsed, svcMap: Dict): Result<Json> {
    if !TruthyStr(p.0) then Ok(NoActionJson(key))
    else
      match Schema(p.1, p.2, svcMap)
      case Err(e) => Err(e)
      case Ok(x) =>
        Ok(JDict([("key", JStr(key)), ("action", OptStr(p.0)), ("domain", OptStr(p.1)),
                  ("service", OptStr(p.2)), ("args_schema", Or(x, JNull))]))
  }

  /** The body of the `_resolve_actions` loop for one key. */
  function ActionEntry(key: string, svcMap: Dict): Result<Json> {
    ActionJson(key, ParseAction(key), svcMap)
  }

  lemma ServiceKeyParts(d: string, s: string)
    requires '.' !in d
    ensures FromServiceKey("service:" + d + "." + s) == (Some(d + "." + s), Some(d), Some(s))
  {
    var ident := d + "." + s;
    assert "service:" + d + "." + s == "service" + ":" + ident;
    SplitKind("service", ident);
    SplitFirstJoin(d, s, '.');
  }

  /** `service:<d>.<s>` gives action `d.s`, domain `d` and service `s`,
      where `d` is the text before the first `.`. */
  lemma ServiceAction(d: string, s: string)
    requires '.' !in d
    ensures ParseAction("service:" + d + "." + s) == (Some(d + "." + s), Some(d), Some(s))
  {
    ServiceKeyParts(d, s);
    SplitFirstJoin(d, s, '.');
  }

  /** Any other key sets nothing in the `try` block. */
  lemma NotServiceKey(key: string)
    requires !ServiceKey(key)
    ensures FromServiceKey(key) == (None, None, None)
  {
    if ':' in key {
      var (kind, ident) := SplitFirst(key, ':').value;
      PrefixOfJoin(kind + ":", ident);
      assert key[|kind + ":"|..] == ident;
    }
  }

  /** A key that is not a service key falls back to the text after its
      first `:` when it has a `.`; without a `.` it has no action. */
  lemma FallbackAction(key: string)
    requires !ServiceKey(key)
    ensures '.' in key ==> ParseAction(key).0 == Some(AfterColon(key))
    ensures '.' !in key ==> ParseAction(key).0 == None
  {
    NotServiceKey(key);
  }

  /** A service key has its id as action. */
  lemma ServiceKeyAction(key: string)
    requires ServiceKey(key)
    ensures ParseAction(key).0 == Some(key[8..]) && key[8..] != ""
  {
    var ident := key[8..];
    assert key == "service" + ":" + ident;
    SplitKind("service", ident);
  }

  /** The entries with no action are exactly those of keys that are not
      service keys and either have no `.` or nothing after their first `:`;
      they carry only the key. */
  lemma NoAction(key: string, svcMap: Dict)
    ensures !TruthyStr(ParseAction(key).0) <==> !ServiceKey(key) && ('.' !in key || AfterColon(key) == "")
    ensures !TruthyStr(ParseAction(key).0) ==> ActionEntry(key, svcMap) == Ok(NoActionJson(key))
  {
    if ServiceKey(key) {
      ServiceKeyAction(key);
    } else {
      FallbackAction(key);
    }
  }

  /** With a non-empty domain and service, `args_schema` is the service's
      entry in the domain's services dict when that is truthy, and `None`
      otherwise. */
  lemma ActionSchema(key: string, p: Parsed, svcMap: Dict, svcs: Dict)
    requires TruthyStr(p.0) && TruthyStr(p.1) && TruthyStr(p.2)
    requires Find(svcMap, p.1.value) == Some(JDict(svcs))
    ensures var v := Get(svcs, p.2.value, JNull);
      ActionJson(key, p, svcMap) ==
        Ok(JDict([("key", JStr(key)), ("action", JStr(p.0.value)), ("domain", JStr(p.1.value)),
                  ("service", JStr(p.2.value)), ("args_schema", if Truthy(v) then v else JNull)]))
  {
    assert Get(svcMap, p.1.value, JNull) == JDict(svcs);
  }

  /** `_resolve_actions` once the services map is served. */
  function ResolvedActions(svcMap: Result<Dict>, hits: seq<ScoredKey>): (r: Result<seq<Json>>)
    ensures svcMap.Err? ==> r == Err(svcMap.error)
    ensures r.Ok? ==>
      && svcMap.Ok? && |r.value| == |hits|
      && forall i :: 0 <= i < |hits| ==> ActionEntry(hits[i].0, svcMap.value) == Ok(r.value[i])
  {
    match svcMap
    case Err(e) => Err(e)
    case Ok(m) => Entries(hits, ActionEntries(m))
  }

  /** The loop body of `_resolve_actions` as a function of the key. */
  function ActionEntries(svcMap: Dict): string -> Result<Json> {
    (k: string) => ActionEntry(k, svcMap)
  }

  /** `_resolve_actions`: no hits give `[]` without touching the cache;
      otherwise one entry per hit, in hit order. */
  method ResolveActions(cache: ServicesCache, hits: seq<ScoredKey>, now: real, fetched: Result<Dict>)
    returns (r: Result<seq<Json>>)
    modifies cache
    ensures hits == [] ==> r == Ok([]) && unchanged(cache)
    ensures hits != [] ==> r == ResolvedActions(Served(old(cache.Fresh(now)), old(cache.entries), fetched), hits)
    ensures r.Ok? ==> |r.value| == |hits|
    ensures hits != [] && old(cache.Fresh(now)) ==>
      cache.entries == old(cache.entries) && cache.at == old(cache.at) && cache.fetches == old(cache.fetches)
    ensures hits != [] && !old(cache.Fresh(now)) ==> Refreshed(cache, old(cache.entries), old(cache.at), old(cache.fetches), now, fetched)
  {
    if hits == [] {
      return Ok([]);
    }
    var svc := cache.Lookup(now, fetched);
    if svc.Err? {
      return Err(svc.error);
    }
    var m := svc.value;
    r := Resolve(hits, ActionEntries(m));
  }
}
